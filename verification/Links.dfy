/** One connection by itself: two sockets and a FIFO of segments each way. Its invariant holds the
    credit, stream and close properties of the protocol; `Mux` shows that a context with any number of
    connections behaves, connection by connection, like this. */
module Links {
  import opened Segments
  import opened Padding
  import opened Sockets

  datatype Link = Link(a: Sock, b: Sock, ab: seq<Segment>, ba: seq<Segment>)

  datatype End = A | B

  datatype Step = Local(e: End, act: Act) | Deliver(e: End)

  predicate Unaddressed(seg: Segment) {
    seg.flag == FL_ALIV || seg.flag == FL_OPEN
  }

  /** Keepalives and OPENs carry nothing for an existing socket. */
  function Strip(segs: seq<Segment>): seq<Segment> {
    if segs == [] then []
    else (if Unaddressed(segs[0]) then [] else [segs[0]]) + Strip(segs[1..])
  }

  predicate CanStep(l: Link, st: Step) {
    match st
    case Local(A, act) => Can(l.a, act)
    case Local(B, act) => Can(l.b, act)
    case Deliver(A) => l.ba != []
    case Deliver(B) => l.ab != []
  }

  function Next(l: Link, st: Step): Link
    requires CanStep(l, st)
  {
    match st
    case Local(A, act) => var e := Do(l.a, act); l.(a := e.sock, ab := l.ab + Strip(e.out))
    case Local(B, act) => var e := Do(l.b, act); l.(b := e.sock, ba := l.ba + Strip(e.out))
    case Deliver(A) => l.(a := Arrive(l.a, l.ba[0]).sock, ba := l.ba[1..])
    case Deliver(B) => l.(b := Arrive(l.b, l.ab[0]).sock, ab := l.ab[1..])
  }

  // ---------- counting ----------

  function Datas(q: seq<Segment>): nat {
    if q == [] then 0 else (if q[0].flag == FL_DATA then 1 else 0) + Datas(q[1..])
  }

  function Icwds(q: seq<Segment>): nat {
    if q == [] then 0 else (if q[0].flag == FL_ICWD then 1 else 0) + Icwds(q[1..])
  }

  lemma {:induction false} CountConcat(p: seq<Segment>, q: seq<Segment>)
    ensures Datas(p + q) == Datas(p) + Datas(q)
    ensures Icwds(p + q) == Icwds(p) + Icwds(q)
  {
    if p == [] {
      assert p + q == q;
    } else {
      CountConcat(p[1..], q);
      assert (p + q)[1..] == p[1..] + q;
    }
  }

  lemma CountOne(seg: Segment)
    ensures Datas([seg]) == if seg.flag == FL_DATA then 1 else 0
    ensures Icwds([seg]) == if seg.flag == FL_ICWD then 1 else 0
    ensures Payload([seg]) == if seg.flag == FL_DATA then seg.body else []
    ensures Strip([seg]) == if Unaddressed(seg) then [] else [seg]
  {
    assert [seg][1..] == [];
  }

  lemma {:induction false} FirstOf(c: seq<Segment>)
    requires c != []
    ensures Datas(c) == Datas([c[0]]) + Datas(c[1..]) && Icwds(c) == Icwds([c[0]]) + Icwds(c[1..])
    ensures Payload(c) == Payload([c[0]]) + Payload(c[1..])
  {
    CountConcat([c[0]], c[1..]);
    PayloadConcat([c[0]], c[1..]);
    assert [c[0]] + c[1..] == c;
  }

  lemma {:induction false} AllData(q: seq<Segment>)
    requires forall i | 0 <= i < |q| :: q[i].flag == FL_DATA
    ensures Datas(q) == |q|
  {
    if q != [] {
      AllData(q[1..]);
    }
  }

  /** What a step adds to the link, by kind of step. */
  lemma Output(s: Sock, a: Act)
    requires Can(s, a)
    ensures var out := Do(s, a).out;
      match a
      case Emit(p, r) => Strip(out) == if s.Alive() then [DataSegment(s.sokid, p)] else []
      case Credit => out == Strip(out) == if s.Alive() then [IcwdSegment(s.sokid)] else []
      case Close => out == Strip(out) == if s.closed then [] else [ClosSegment(s.sokid)]
      case _ => out == Strip(out) == []
  {
    if a.Emit? {
      var e := Emission(s.sokid, a.p, a.r);
      CountOne(DataSegment(s.sokid, a.p));
      if |e| == 2 {
        CountOne(e[1]);
        assert e[1..] == [e[1]];
      }
    }
    CountOne(IcwdSegment(s.sokid));
    CountOne(ClosSegment(s.sokid));
  }

  // ---------- the invariant, one direction at a time: x sends to y over c, and y to x over r ----------

  /** Every slot of the send window is accounted for. */
  predicate Credits(x: Sock, y: Sock, c: seq<Segment>, r: seq<Segment>) {
    && x.sendwind == x.x.tokens + Datas(c) + Datas(y.incoming) + (CAP - y.Window())
                     + COUNT * (y.x.pending + Icwds(r)) + x.x.abandoned + COUNT * y.x.dropped
    && x.sendwind <= CAP
    && y.x.pending + Icwds(r) + y.x.dropped <= y.x.granted
  }

  /** The uint8 counter and the range of the window. */
  predicate Counter(y: Sock) {
    && y.recvcount == y.Window() % 256
    && (y.x.taken == 0 ==> y.x.granted == 0 && y.inbuf == [])
    && (y.x.taken > 0 ==> 32 <= y.Window() <= 255)
    && (y.x.granted > 0 ==> y.Window() <= 158)
  }

  /** Returned, buffered, queued and travelling bytes are the bytes sent. */
  predicate Stream(x: Sock, y: Sock, c: seq<Segment>) {
    y.x.got + y.inbuf + Payload(y.incoming) + Payload(c) == x.x.sent
  }

  predicate Proper(seg: Segment) {
    && (seg.flag == FL_DATA || seg.flag == FL_CLOS || (seg.flag == FL_ICWD && seg.body == [COUNT]))
    && |seg.body| <= CHUNK
  }

  /** A CLOS ends a queue. */
  predicate ClosLast(q: seq<Segment>) {
    forall i | 0 <= i < |q| - 1 :: q[i].flag != FL_CLOS
  }

  predicate HasClos(q: seq<Segment>) {
    exists i | 0 <= i < |q| :: q[i].flag == FL_CLOS
  }

  predicate Shape(x: Sock, y: Sock, c: seq<Segment>) {
    && (forall i | 0 <= i < |c| :: Proper(c[i]))
    && (forall i | 0 <= i < |y.incoming| :: Proper(y.incoming[i]) && y.incoming[i].flag != FL_ICWD)
    && ClosLast(c) && ClosLast(y.incoming)
    && (HasClos(y.incoming) ==> c == [])
    && (HasClos(y.incoming) || HasClos(c) || y.x.eof || y.x.refused <==> x.closed)
    && (y.x.eof ==> y.incoming == [] && c == [] && y.inbuf == [])
    && (y.x.refused ==> c == [])
  }

  predicate Deaths(x: Sock) {
    && (x.closed ==> !x.Alive())
    && (x.x.abandoned > 0 || x.x.dropped > 0 || x.x.eof ==> !x.Alive())
    && (x.x.polling ==> x.inbuf == [])
  }

  predicate Half(x: Sock, y: Sock, c: seq<Segment>, r: seq<Segment>) {
    Credits(x, y, c, r) && Counter(y) && Stream(x, y, c) && Shape(x, y, c) && Deaths(x)
  }

  predicate Inv(l: Link) {
    Half(l.a, l.b, l.ab, l.ba) && Half(l.b, l.a, l.ba, l.ab)
  }

  lemma InitInv(id: uint16, wire: nat, c: bool, s: bool)
    ensures Inv(Link(NewSock(id, wire, c), NewSock(id, wire, s), [], []))
  {
  }

  // ---------- steps of the sender ----------

  lemma SendCredits(x: Sock, y: Sock, c: seq<Segment>, r: seq<Segment>, a: Act)
    requires Credits(x, y, c, r) && Can(x, a)
    ensures Credits(Do(x, a).sock, y, c + Strip(Do(x, a).out), r)
  {
    var out := Strip(Do(x, a).out);
    Output(x, a);
    CountConcat(c, out);
    if out != [] {
      CountOne(out[0]);
    }
  }

  lemma SendStream(x: Sock, y: Sock, c: seq<Segment>, a: Act)
    requires Stream(x, y, c) && Can(x, a)
    ensures Stream(Do(x, a).sock, y, c + Strip(Do(x, a).out))
  {
    var out := Strip(Do(x, a).out);
    Output(x, a);
    PayloadConcat(c, out);
    if out != [] {
      CountOne(out[0]);
    }
    Associate(y.x.got + y.inbuf + Payload(y.incoming), Payload(c), Payload(out));
    assert x.x.sent + [] == x.x.sent && Payload(c) + [] == Payload(c);
  }

  lemma Silenced(x: Sock, a: Act)
    requires Deaths(x) && x.closed && Can(x, a)
    ensures Do(x, a).out == [] && Do(x, a).sock.closed && !Do(x, a).sock.Alive()
  {
    Output(x, a);
  }

  lemma SendShape(x: Sock, y: Sock, c: seq<Segment>, a: Act)
    requires Shape(x, y, c) && Deaths(x) && Can(x, a)
    ensures Shape(Do(x, a).sock, y, c + Strip(Do(x, a).out))
  {
    var out := Strip(Do(x, a).out);
    Output(x, a);
    if x.closed {
      Silenced(x, a);
      assert c + out == c;
    } else {
      assert forall i | 0 <= i < |c| :: c[i].flag != FL_CLOS;
      assert HasClos(c + out) ==> a.Close?;
      assert a.Close? ==> (c + out)[|c|].flag == FL_CLOS;
    }
  }

  lemma ActDeaths(x: Sock, a: Act)
    requires Deaths(x) && Can(x, a)
    ensures Deaths(Do(x, a).sock)
  {
  }

  lemma SenderActs(x: Sock, y: Sock, c: seq<Segment>, r: seq<Segment>, a: Act)
    requires Half(x, y, c, r) && Can(x, a)
    ensures Half(Do(x, a).sock, y, c + Strip(Do(x, a).out), r)
  {
    SendCredits(x, y, c, r, a);
    SendStream(x, y, c, a);
    SendShape(x, y, c, a);
    ActDeaths(x, a);
  }

  // ---------- steps of the receiver ----------

  /** What taking a segment does to the receiver's accounts. */
  lemma SelectAccounts(y: Sock, n: nat, draw: nat) returns (d: nat, g: nat)
    requires y.incoming != []
    ensures var y' := SelectStep(y, n, draw).sock;
      && d <= 1 && y'.x.taken == y.x.taken + d && Datas(y'.incoming) == Datas(y.incoming) - d
      && y'.x.granted == y.x.granted + g && y'.x.pending == y.x.pending + g && y'.x.dropped == y.x.dropped
  {
    d := if y.incoming[0].flag == FL_DATA then 1 else 0;
    g := SelectStep(y, n, draw).sock.x.granted - y.x.granted;
  }

  lemma SelectCredits(x: Sock, y: Sock, c: seq<Segment>, r: seq<Segment>, n: nat, draw: nat)
    requires Credits(x, y, c, r) && y.incoming != []
    ensures Credits(x, SelectStep(y, n, draw).sock, c, r)
  {
    var d, g := SelectAccounts(y, n, draw);
  }

  lemma RecvCredits(x: Sock, y: Sock, c: seq<Segment>, r: seq<Segment>, a: Act)
    requires Credits(x, y, c, r) && Can(y, a)
    ensures Credits(x, Do(y, a).sock, c, r + Strip(Do(y, a).out))
  {
    Output(y, a);
    if a.ReadSelect? {
      SelectCredits(x, y, c, r, a.n, a.r);
      assert r + [] == r;
    } else {
      var out := Strip(Do(y, a).out);
      CountConcat(r, out);
      if out != [] {
        CountOne(out[0]);
      }
    }
  }

  lemma SelectCounter(y: Sock, n: nat, draw: nat)
    requires Counter(y) && y.incoming != []
    ensures Counter(SelectStep(y, n, draw).sock)
  {
    CountStep(y.recvcount, y.Window(), draw);
  }

  lemma RecvCounter(y: Sock, a: Act)
    requires Counter(y) && Can(y, a)
    ensures Counter(Do(y, a).sock)
  {
    if a.ReadSelect? {
      SelectCounter(y, a.n, a.r);
    }
  }

  lemma RecvStream(x: Sock, y: Sock, c: seq<Segment>, a: Act)
    requires Stream(x, y, c) && Deaths(y) && Can(y, a)
    ensures Stream(x, Do(y, a).sock, c)
  {
    match a {
      case ReadBuf(n) =>
        var m := Min(n, |y.inbuf|);
        Associate(y.x.got, y.inbuf[..m], y.inbuf[m..]);
        assert y.inbuf[..m] + y.inbuf[m..] == y.inbuf;
      case ReadSelect(n, _) =>
        var seg, rest := y.incoming[0], y.incoming[1..];
        assert Payload(y.incoming) == (if seg.flag == FL_DATA then seg.body else []) + Payload(rest);
        if seg.flag == FL_DATA {
          var m := Min(n, |seg.body|);
          assert seg.body[..m] + seg.body[m..] == seg.body;
          assert y.x.got + [] + seg.body == y.x.got + seg.body[..m] + ([] + seg.body[m..]);
          Associate(y.x.got + y.inbuf, seg.body, Payload(rest));
        } else {
          assert [] + Payload(rest) == Payload(rest);
        }
      case _ =>
    }
  }

  lemma RecvShape(x: Sock, y: Sock, c: seq<Segment>, a: Act)
    requires Shape(x, y, c) && Deaths(y) && Can(y, a)
    ensures Shape(x, Do(y, a).sock, c)
  {
    if a.ReadSelect? {
      var y' := Do(y, a).sock;
      assert forall i | 0 <= i < |y'.incoming| :: y'.incoming[i] == y.incoming[i + 1];
      assert HasClos(y'.incoming) ==> HasClos(y.incoming);
      if y.incoming[0].flag == FL_CLOS {
        assert HasClos(y.incoming);
      }
    }
  }

  lemma ReceiverActs(x: Sock, y: Sock, c: seq<Segment>, r: seq<Segment>, a: Act)
    requires Half(x, y, c, r) && Deaths(y) && Can(y, a)
    ensures Half(x, Do(y, a).sock, c, r + Strip(Do(y, a).out))
  {
    RecvCredits(x, y, c, r, a);
    RecvCounter(y, a);
    RecvStream(x, y, c, a);
    RecvShape(x, y, c, a);
  }

  // ---------- deliveries ----------

  /** The length of the incoming queue, while nothing ends it. */
  lemma IncomingLength(x: Sock, y: Sock, c: seq<Segment>)
    requires Shape(x, y, c) && c != []
    ensures |y.incoming| == Datas(y.incoming)
  {
    forall i | 0 <= i < |y.incoming| ensures y.incoming[i].flag == FL_DATA {
      if y.incoming[i].flag == FL_CLOS {
        assert HasClos(y.incoming);
      }
    }
    AllData(y.incoming);
  }

  /** Window safety: what is unread plus what is granted never exceeds the window, and at most two
      grants of credits are under way. */
  lemma {:induction false} WindowSafe(x: Sock, y: Sock, c: seq<Segment>, r: seq<Segment>)
    requires Credits(x, y, c, r) && Counter(y)
    ensures Datas(c) + Datas(y.incoming) + COUNT * (y.x.pending + Icwds(r)) <= y.Window()
    ensures y.x.pending + Icwds(r) <= 2
  {
  }

  /** An honest peer's segment is never refused, except that a CLOS is refused exactly when no DATA
      segment was ever read and the queue holds all 256 that the initial window allows. */
  lemma HonestArrival(x: Sock, y: Sock, c: seq<Segment>, r: seq<Segment>)
    requires Half(x, y, c, r) && c != []
    requires Half(y, x, r, c)
    ensures Arrive(y, c[0]).kill ==
            if c[0].flag == FL_CLOS && y.x.taken == 0 && Datas(y.incoming) == CAP then Some(Overfull) else None
  {
    FirstOf(c);
    CountOne(c[0]);
    IncomingLength(x, y, c);
    WindowSafe(x, y, c, r);
  }

  lemma DeliverCredits(x: Sock, y: Sock, c: seq<Segment>, r: seq<Segment>)
    requires Credits(x, y, c, r) && Counter(y) && Shape(x, y, c) && c != []
    ensures Credits(x, Arrive(y, c[0]).sock, c[1..], r)
  {
    FirstOf(c);
    CountOne(c[0]);
    if c[0].flag != FL_ICWD {
      IncomingLength(x, y, c);
      CountConcat(y.incoming, [c[0]]);
    }
  }

  lemma DeliverStream(x: Sock, y: Sock, c: seq<Segment>, r: seq<Segment>)
    requires Stream(x, y, c) && Credits(x, y, c, r) && Counter(y) && Shape(x, y, c) && c != []
    ensures Stream(x, Arrive(y, c[0]).sock, c[1..])
  {
    FirstOf(c);
    CountOne(c[0]);
    IncomingLength(x, y, c);
    PayloadConcat(y.incoming, [c[0]]);
    var before := y.x.got + y.inbuf;
    Associate(before, Payload(y.incoming), Payload([c[0]]));
    Associate(before + Payload(y.incoming), Payload([c[0]]), Payload(c[1..]));
    assert before + Payload(y.incoming) + [] == before + Payload(y.incoming);
  }

  lemma ClosAhead(c: seq<Segment>)
    requires c != []
    ensures HasClos(c) <==> c[0].flag == FL_CLOS || HasClos(c[1..])
  {
    assert forall i | 0 < i < |c| :: c[i] == c[1..][i - 1];
  }

  lemma ClosBehind(q: seq<Segment>, seg: Segment)
    ensures HasClos(q + [seg]) <==> HasClos(q) || seg.flag == FL_CLOS
  {
    assert forall i | 0 <= i < |q| :: (q + [seg])[i] == q[i];
    assert (q + [seg])[|q|] == seg;
  }

  lemma DeliverShape(x: Sock, y: Sock, c: seq<Segment>)
    requires Shape(x, y, c) && c != []
    ensures Shape(x, Arrive(y, c[0]).sock, c[1..])
  {
    ClosAhead(c);
    ClosBehind(y.incoming, c[0]);
    if c[0].flag == FL_CLOS {
      assert c[1..] == [];
    }
    assert !HasClos(y.incoming);
    assert forall i | 0 <= i < |y.incoming| :: y.incoming[i].flag != FL_CLOS;
  }

  /** An arrival touches only the queue, the send window and the mark of a refused CLOS. */
  lemma ArrivalTouches(s: Sock, seg: Segment)
    ensures var s' := Arrive(s, seg).sock;
      && s'.x == s.x.(refused := s'.x.refused) && s'.recvcount == s.recvcount && s'.inbuf == s.inbuf
      && s'.death == s.death && s'.closed == s.closed && s'.sokid == s.sokid && s'.wire == s.wire
      && (seg.flag != FL_ICWD ==> s'.sendwind == s.sendwind)
  {
  }

  lemma CounterKept(y: Sock, y': Sock)
    requires Counter(y)
    requires y'.x.taken == y.x.taken && y'.x.granted == y.x.granted && y'.recvcount == y.recvcount
    requires y'.inbuf == y.inbuf
    ensures Counter(y')
  {
  }

  lemma DeliverToReceiver(x: Sock, y: Sock, c: seq<Segment>, r: seq<Segment>)
    requires Half(x, y, c, r) && c != []
    ensures Half(x, Arrive(y, c[0]).sock, c[1..], r)
  {
    ArrivalTouches(y, c[0]);
    DeliverCredits(x, y, c, r);
    DeliverStream(x, y, c, r);
    DeliverShape(x, y, c);
    CounterKept(y, Arrive(y, c[0]).sock);
  }

  lemma CreditsReturned(x: Sock, y: Sock, c: seq<Segment>, r: seq<Segment>)
    requires Credits(x, y, c, r) && Counter(y) && Shape(y, x, r) && r != []
    ensures Credits(Arrive(x, r[0]).sock, y, c, r[1..])
  {
    FirstOf(r);
    CountOne(r[0]);
    ArrivalTouches(x, r[0]);
  }

  lemma DeliverToSender(x: Sock, y: Sock, c: seq<Segment>, r: seq<Segment>)
    requires Half(x, y, c, r) && Shape(y, x, r) && r != []
    ensures Half(Arrive(x, r[0]).sock, y, c, r[1..])
  {
    ArrivalTouches(x, r[0]);
    CreditsReturned(x, y, c, r);
  }

  /** The invariant survives every step of every schedule. */
  lemma StepInv(l: Link, st: Step)
    requires Inv(l) && CanStep(l, st)
    ensures Inv(Next(l, st))
  {
    match st {
      case Local(A, act) =>
        SenderActs(l.a, l.b, l.ab, l.ba, act);
        ReceiverActs(l.b, l.a, l.ba, l.ab, act);
      case Local(B, act) =>
        SenderActs(l.b, l.a, l.ba, l.ab, act);
        ReceiverActs(l.a, l.b, l.ab, l.ba, act);
      case Deliver(A) =>
        DeliverToReceiver(l.b, l.a, l.ba, l.ab);
        DeliverToSender(l.a, l.b, l.ab, l.ba);
      case Deliver(B) =>
        DeliverToReceiver(l.a, l.b, l.ab, l.ba);
        DeliverToSender(l.b, l.a, l.ba, l.ab);
    }
  }

  ghost predicate LegalRun(l: Link, steps: seq<Step>)
    decreases |steps|
  {
    steps == [] || (CanStep(l, steps[0]) && LegalRun(Next(l, steps[0]), steps[1..]))
  }

  ghost function After(l: Link, steps: seq<Step>): Link
    requires LegalRun(l, steps)
    decreases |steps|
  {
    if steps == [] then l else After(Next(l, steps[0]), steps[1..])
  }

  // ---------- what the invariant means ----------

  /** No credit deadlock: between live ends, a writer that finds the window full can count on unread
      data, an unsent slot or a credit under way; and with none of these, exactly the receive window,
      so at least 32, is free. */
  lemma {:induction false} NoDeadlock(x: Sock, y: Sock, c: seq<Segment>, r: seq<Segment>)
    requires Half(x, y, c, r) && Half(y, x, r, c) && x.Alive() && y.Alive()
    ensures var moving := x.x.tokens + Datas(c) + Datas(y.incoming) + y.x.pending + Icwds(r);
      && (x.sendwind == CAP ==> moving > 0)
      && (moving == 0 ==> CAP - x.sendwind == y.Window() >= 32)
  {
  }

  /** A `Read` that met the peer's CLOS has already returned every byte the peer's writes put on the wire. */
  lemma EofMeansAll(x: Sock, y: Sock, c: seq<Segment>, r: seq<Segment>)
    requires Half(x, y, c, r) && y.x.eof
    ensures y.x.got == x.x.sent && x.closed
  {
    assert y.x.got + [] + [] + [] == y.x.got;
  }

  datatype Event = Acted(a: Act) | Arrived(seg: Segment)

  /** A socket under any sequence of its own steps and of arrivals, skipping what is not possible. */
  function Play(s: Sock, events: seq<Event>): (Sock, seq<Segment>)
    decreases |events|
  {
    if events == [] then (s, [])
    else
      var e := match events[0]
               case Acted(a) => if Can(s, a) then Do(s, a) else Silent(s)
               case Arrived(seg) => Silent(Arrive(s, seg).sock);
      var (s', out) := Play(e.sock, events[1..]);
      (s', e.out + out)
  }

  /** After its CLOS a socket never puts another segment on the wire, whatever happens to it. */
  lemma {:induction false} NothingAfterClos(s: Sock, events: seq<Event>)
    requires s.closed && !s.Alive()
    ensures Play(s, events).1 == [] && Play(s, events).0.closed && !Play(s, events).0.Alive()
    decreases |events|
  {
    if events != [] {
      match events[0]
      case Acted(a) =>
        if Can(s, a) {
          Output(s, a);
          NothingAfterClos(Do(s, a).sock, events[1..]);
        } else {
          NothingAfterClos(s, events[1..]);
        }
      case Arrived(seg) =>
        NothingAfterClos(Arrive(s, seg).sock, events[1..]);
    }
  }

  lemma EmissionNoClos(s: Sock, a: Act)
    requires Can(s, a)
    ensures var out := Do(s, a).out; forall i | 0 <= i < |out| :: out[i].flag == FL_CLOS ==> a.Close? && |out| == 1
    ensures a.Close? ==> Do(s, a).sock.closed
  {
  }

  /** A socket puts at most one CLOS on the wire, last. */
  lemma {:induction false} OneClos(s: Sock, events: seq<Event>)
    requires Deaths(s)
    ensures ClosLast(Play(s, events).1)
    ensures s.closed ==> Play(s, events).1 == []
    decreases |events|
  {
    if s.closed {
      NothingAfterClos(s, events);
    } else if events != [] {
      match events[0]
      case Acted(a) =>
        if Can(s, a) {
          Output(s, a);
          ActDeaths(s, a);
          OneClos(Do(s, a).sock, events[1..]);
          EmissionNoClos(s, a);
        } else {
          OneClos(s, events[1..]);
        }
      case Arrived(seg) =>
        ArrivalTouches(s, seg);
        OneClos(Arrive(s, seg).sock, events[1..]);
    }
  }

  // ---------- the refusal that can happen ----------

  predicate Taken(l: Link, st: Step)
    requires CanStep(l, st)
  {
    match st
    case Local(_, _) => true
    case Deliver(A) => Arrive(l.a, l.ba[0]).kill == None
    case Deliver(B) => Arrive(l.b, l.ab[0]).kill == None
  }

  /** No delivery of the run is refused, so a context could go on. */
  ghost predicate Unrefused(l: Link, steps: seq<Step>)
    requires LegalRun(l, steps)
    decreases |steps|
  {
    steps == [] || (Taken(l, steps[0]) && Unrefused(Next(l, steps[0]), steps[1..]))
  }

  lemma {:induction false} RunOn(l: Link, steps: seq<Step>, st: Step)
    requires LegalRun(l, steps) && CanStep(After(l, steps), st)
    ensures LegalRun(l, steps + [st]) && After(l, steps + [st]) == Next(After(l, steps), st)
    ensures Unrefused(l, steps) && Taken(After(l, steps), st) ==> Unrefused(l, steps + [st])
    decreases |steps|
  {
    if steps == [] {
      assert [] + [st] == [st] && [st][1..] == [];
      var none := [st][1..];
      assert After(Next(l, st), none) == Next(l, st);
    } else {
      RunOn(Next(l, steps[0]), steps[1..], st);
      assert (steps + [st])[1..] == steps[1..] + [st];
    }
  }

  /** `n` writes that nobody reads. */
  predicate Unread(l: Link, n: nat) {
    && l.a.x.announced && l.a.Alive() && !l.a.closed && l.a.sendwind == n && l.a.x.tokens == 0
    && l.ab == [] && |l.b.incoming| == n
  }

  lemma OneUnread(l: Link, n: nat) returns (steps: seq<Step>, l': Link)
    requires Unread(l, n) && n < CAP
    ensures LegalRun(l, steps) && Unrefused(l, steps) && After(l, steps) == l' && Unread(l', n + 1)
  {
    var take, emit, deliver := Local(A, Take), Local(A, Emit([], 0)), Deliver(B);
    var l1 := Next(l, take);
    Output(l.a, Take);
    Output(l1.a, Emit([], 0));
    var l2 := Next(l1, emit);
    assert l1.ab == [];
    assert l2.ab == [DataSegment(l.a.sokid, [])];
    l' := Next(l2, deliver);
    RunOn(l, [], take);
    RunOn(l, [] + [take], emit);
    RunOn(l, [] + [take] + [emit], deliver);
    steps := [] + [take] + [emit] + [deliver];
  }

  lemma {:induction false} Together(l: Link, s: seq<Step>, t: seq<Step>)
    requires LegalRun(l, s) && LegalRun(After(l, s), t)
    ensures LegalRun(l, s + t) && After(l, s + t) == After(After(l, s), t)
    ensures Unrefused(l, s) && Unrefused(After(l, s), t) ==> Unrefused(l, s + t)
    decreases |s|
  {
    if s == [] {
      assert s + t == t;
    } else {
      Together(Next(l, s[0]), s[1..], t);
      assert (s + t)[1..] == s[1..] + t;
    }
  }

  lemma {:induction false} ManyUnread(id: uint16, wire: nat, n: nat) returns (steps: seq<Step>, l: Link)
    requires n <= CAP
    ensures var start := Link(NewSock(id, wire, true), NewSock(id, wire, true), [], []);
      LegalRun(start, steps) && Unrefused(start, steps) && After(start, steps) == l && Unread(l, n)
  {
    var start := Link(NewSock(id, wire, true), NewSock(id, wire, true), [], []);
    if n == 0 {
      return [], start;
    }
    var before, mid := ManyUnread(id, wire, n - 1);
    var more, end := OneUnread(mid, n - 1);
    Together(start, before, more);
    return before + more, end;
  }

  lemma {:induction false} RunInv(l: Link, steps: seq<Step>)
    requires Inv(l) && LegalRun(l, steps)
    ensures Inv(After(l, steps))
    decreases |steps|
  {
    if steps != [] {
      StepInv(l, steps[0]);
      RunInv(Next(l, steps[0]), steps[1..]);
    }
  }

  /** A peer that writes 256 times and closes, while nobody reads, makes the other end refuse the CLOS, and
      so lose its whole context: the refusal of `HonestArrival` does happen. */
  lemma ClosCanOverflow(id: uint16, wire: nat) returns (steps: seq<Step>, l: Link)
    ensures var start := Link(NewSock(id, wire, true), NewSock(id, wire, true), [], []);
      LegalRun(start, steps) && Unrefused(start, steps) && After(start, steps) == l
    ensures Inv(l) && l.ab != [] && l.ab[0].flag == FL_CLOS && Arrive(l.b, l.ab[0]).kill == Some(Overfull)
  {
    var before, full := ManyUnread(id, wire, CAP);
    var start := Link(NewSock(id, wire, true), NewSock(id, wire, true), [], []);
    RunOn(start, before, Local(A, Close));
    Output(full.a, Close);
    steps, l := before + [Local(A, Close)], Next(full, Local(A, Close));
    InitInv(id, wire, true, true);
    RunInv(start, steps);
  }

  /** B can no longer be saved from A's CLOS: the CLOS is under way, the whole initial window lies in front of it or
      in B's queue, and B is dead, so nobody will read. */
  predicate Doomed(l: Link) {
    && HasClos(l.ab) && !l.b.Alive() && !l.b.x.polling && l.b.x.taken == 0
    && Datas(l.ab) + Datas(l.b.incoming) == CAP
  }

  /** Taking A's segments dooms nobody. */
  lemma DeliveryDoomsNot(l: Link)
    requires Inv(l) && l.ab != [] && !Doomed(l)
    ensures !Doomed(Next(l, Deliver(B)))
  {
    FirstOf(l.ab);
    CountOne(l.ab[0]);
    IncomingLength(l.a, l.b, l.ab);
    HonestArrival(l.a, l.b, l.ab, l.ba);
    CountConcat(l.b.incoming, [l.ab[0]]);
    assert HasClos(l.ab[1..]) ==> HasClos(l.ab);
  }

  lemma DoomedDelivery(l: Link)
    requires Inv(l) && Doomed(l) && l.ab != []
    ensures Doomed(Next(l, Deliver(B))) || Arrive(l.b, l.ab[0]).kill == Some(Overfull)
  {
    FirstOf(l.ab);
    CountOne(l.ab[0]);
    IncomingLength(l.a, l.b, l.ab);
    HonestArrival(l.a, l.b, l.ab, l.ba);
    CountConcat(l.b.incoming, [l.ab[0]]);
    if l.ab[0].flag == FL_CLOS {
      assert |l.ab| == 1;
    } else {
      var i :| 0 <= i < |l.ab| && l.ab[i].flag == FL_CLOS;
      assert l.ab[1..][i - 1].flag == FL_CLOS;
    }
  }

  /** And who is doomed stays so, whatever anybody does, until it takes the CLOS and refuses it. */
  lemma DoomedStays(l: Link, st: Step)
    requires Inv(l) && Doomed(l) && CanStep(l, st)
    ensures Doomed(Next(l, st)) || (st == Deliver(B) && Arrive(l.b, l.ab[0]).kill == Some(Overfull))
  {
    match st
    case Local(A, act) =>
      Silenced(l.a, act);
      assert l.ab + Strip([]) == l.ab;
    case Local(B, act) =>
    case Deliver(A) =>
      ArrivalTouches(l.a, l.ba[0]);
    case Deliver(B) =>
      DoomedDelivery(l);
  }

  /** Nor does reading. */
  lemma ReadingDoomsNot(l: Link, act: Act)
    requires CanStep(l, Local(B, act)) && (act.ReadEnter? || act.ReadSelect?)
    requires act.ReadSelect? ==> l.b.incoming[0].flag == FL_DATA
    ensures !Doomed(Next(l, Local(B, act)))
  {
  }

  /** Who is not doomed can read before it takes the CLOS that would not fit. */
  lemma CanStillRead(l: Link)
    requires Inv(l) && !Doomed(l) && l.ab != [] && l.ab[0].flag == FL_CLOS
    requires l.b.x.taken == 0 && Datas(l.b.incoming) == CAP
    ensures l.b.incoming != [] && l.b.incoming[0].flag == FL_DATA && l.b.inbuf == []
    ensures l.b.Alive() || l.b.x.polling
  {
    assert HasClos(l.ab);
    assert |l.ab| == 1;
    FirstOf(l.ab);
    CountOne(l.ab[0]);
    IncomingLength(l.a, l.b, l.ab);
    FirstOf(l.b.incoming);
    CountOne(l.b.incoming[0]);
  }

  // ---------- quiescence ----------

  const SLOT: nat := CHUNK + 8

  function WireWeight(q: seq<Segment>): nat {
    if q == [] then 0 else (if q[0].flag == FL_ICWD then 2 else |q[0].body| + 6) + WireWeight(q[1..])
  }

  function QueueWeight(q: seq<Segment>): nat {
    if q == [] then 0 else |q[0].body| + 5 + QueueWeight(q[1..])
  }

  function SockWeight(s: Sock): nat {
    SLOT * s.x.tokens + 3 * s.x.pending + QueueWeight(s.incoming) + |s.inbuf|
    + (if s.Alive() then (if s.x.polling then 1 else 2) else (if s.x.polling then 1 else 0))
  }

  function Weight(l: Link): nat {
    SockWeight(l.a) + SockWeight(l.b) + WireWeight(l.ab) + WireWeight(l.ba)
  }

  /** Steps that finish work already begun: no new write, close or timeout, and buffered reads that ask
      for at least one byte. */
  predicate Finishing(a: Act) {
    match a
    case Take => false
    case Close => false
    case Die(_) => false
    case ReadBuf(n) => n > 0
    case _ => true
  }

  lemma {:induction false} WeightConcat(p: seq<Segment>, q: seq<Segment>)
    ensures WireWeight(p + q) == WireWeight(p) + WireWeight(q)
    ensures QueueWeight(p + q) == QueueWeight(p) + QueueWeight(q)
  {
    if p == [] {
      assert p + q == q;
    } else {
      WeightConcat(p[1..], q);
      assert (p + q)[1..] == p[1..] + q;
    }
  }

  lemma WeightOne(seg: Segment)
    ensures WireWeight([seg]) == if seg.flag == FL_ICWD then 2 else |seg.body| + 6
    ensures QueueWeight([seg]) == |seg.body| + 5
  {
    assert [seg][1..] == [];
  }

  lemma SelectSinks(s: Sock, n: nat, r: nat)
    requires s.x.polling && s.incoming != []
    ensures SockWeight(SelectStep(s, n, r).sock) < SockWeight(s)
  {
    var s', seg := SelectStep(s, n, r).sock, s.incoming[0];
    assert QueueWeight(s.incoming) == |seg.body| + 5 + QueueWeight(s'.incoming);
    assert s'.x.tokens == s.x.tokens && s'.x.pending <= s.x.pending + 1 && |s'.inbuf| <= |s.inbuf| + |seg.body|;
    assert seg.flag == FL_CLOS ==> !s'.Alive();
    assert !s.Alive() ==> !s'.Alive();
  }

  /** Every finishing step of a socket lowers its weight by more than what it puts on the wire weighs;
      a padding segment that goes with an emission is paid for as well. */
  lemma {:induction false} ActSinks(s: Sock, a: Act, c: seq<Segment>)
    requires Can(s, a) && Finishing(a)
    ensures SockWeight(Do(s, a).sock) + WireWeight(c + Strip(Do(s, a).out)) + (if a.Emit? then 1 else 0)
            < SockWeight(s) + WireWeight(c)
  {
    var out := Strip(Do(s, a).out);
    Output(s, a);
    WeightConcat(c, out);
    if a.ReadSelect? {
      SelectSinks(s, a.n, a.r);
    } else if out != [] {
      WeightOne(out[0]);
    }
  }

  lemma {:induction false} ArrivalSinks(s: Sock, q: seq<Segment>)
    requires q != []
    ensures SockWeight(Arrive(s, q[0]).sock) + WireWeight(q[1..]) < SockWeight(s) + WireWeight(q)
  {
    var s' := Arrive(s, q[0]).sock;
    ArrivalTouches(s, q[0]);
    WeightConcat(s.incoming, [q[0]]);
    WeightOne(q[0]);
    assert QueueWeight(s'.incoming) <= QueueWeight(s.incoming) + (if q[0].flag == FL_ICWD then 0 else |q[0].body| + 5);
  }

  predicate FinishingStep(st: Step) {
    st.Local? ==> Finishing(st.act)
  }

  lemma StepSinks(l: Link, st: Step)
    requires CanStep(l, st) && FinishingStep(st)
    ensures Weight(Next(l, st)) + (if st.Local? && st.act.Emit? then 1 else 0) < Weight(l)
  {
    match st {
      case Local(A, act) => ActSinks(l.a, act, l.ab);
      case Local(B, act) => ActSinks(l.b, act, l.ba);
      case Deliver(A) => ArrivalSinks(l.a, l.ba);
      case Deliver(B) => ArrivalSinks(l.b, l.ab);
    }
  }

  function EndOf(l: Link, e: End): Sock {
    if e == A then l.a else l.b
  }

  lemma QuietEnd(l: Link, e: End)
    requires Inv(l) && EndOf(l, e).Alive() && EndOf(l, e).x.announced
    requires forall st | FinishingStep(st) :: !CanStep(l, st)
    ensures var s := EndOf(l, e); s.x.tokens == 0 && s.x.pending == 0 && s.inbuf == [] && s.incoming == []
  {
    assert !CanStep(l, Local(e, Emit([], 0)));
    assert !CanStep(l, Local(e, Credit));
    assert !CanStep(l, Local(e, ReadBuf(1)));
    assert !CanStep(l, Local(e, ReadEnter));
    assert !CanStep(l, Local(e, ReadSelect(0, 0)));
  }

  /** An end that is alive, or that died of nothing but its peer's CLOS. */
  predicate Spared(s: Sock) {
    s.Alive() || s.x.eof
  }

  /** It has every byte its peer put on the wire, and it has ended if and only if its peer has closed. */
  predicate HasAll(s: Sock, p: Sock) {
    s.x.got == p.x.sent && (s.x.eof <==> p.closed) && (s.Alive() <==> !p.closed)
  }

  function Other(e: End): End {
    if e == A then B else A
  }

  /** Where no finishing step is left, an end that was spared has all that its peer sent. */
  lemma QuietEndHasAll(l: Link, e: End)
    requires Inv(l) && Spared(EndOf(l, e)) && !EndOf(l, e).x.refused && EndOf(l, e).x.announced
    requires forall st | FinishingStep(st) :: !CanStep(l, st)
    ensures HasAll(EndOf(l, e), EndOf(l, Other(e)))
  {
    assert !CanStep(l, Deliver(A)) && !CanStep(l, Deliver(B));
    if EndOf(l, e).Alive() {
      QuietEnd(l, e);
    }
    assert forall got: seq<byte> :: got + [] + [] + [] == got;
  }

  /** Where no finishing step is left between live ends, every byte sent has been read, both ways, and each
      sender has its peer's whole receive window, at least 32 credits, free. */
  lemma QuietMeansDone(l: Link)
    requires Inv(l) && l.a.Alive() && l.b.Alive() && l.a.x.announced && l.b.x.announced
    requires forall st | FinishingStep(st) :: !CanStep(l, st)
    ensures l.b.x.got == l.a.x.sent && l.a.x.got == l.b.x.sent
    ensures CAP - l.a.sendwind == l.b.Window() >= 32 && CAP - l.b.sendwind == l.a.Window() >= 32
    ensures l.a.x.tokens == l.b.x.tokens == 0
  {
    assert !CanStep(l, Deliver(A)) && !CanStep(l, Deliver(B));
    QuietEnd(l, A);
    QuietEnd(l, B);
    assert forall got: seq<byte> :: got + [] + [] + [] == got;
    NoDeadlock(l.a, l.b, l.ab, l.ba);
    NoDeadlock(l.b, l.a, l.ba, l.ab);
  }

  lemma StepSpares(l: Link, st: Step, e: End)
    requires CanStep(l, st) && FinishingStep(st) && Spared(EndOf(l, e))
    ensures Spared(EndOf(Next(l, st), e))
  {
    if st == Deliver(A) {
      ArrivalTouches(l.a, l.ba[0]);
    } else if st == Deliver(B) {
      ArrivalTouches(l.b, l.ab[0]);
    }
  }

  /** While only finishing steps are made, nobody dies of anything but its peer's CLOS. */
  lemma {:induction false} RunSpares(l: Link, steps: seq<Step>, e: End)
    requires LegalRun(l, steps) && Spared(EndOf(l, e)) && forall i | 0 <= i < |steps| :: FinishingStep(steps[i])
    ensures Spared(EndOf(After(l, steps), e))
    decreases |steps|
  {
    if steps != [] {
      StepSpares(l, steps[0], e);
      RunSpares(Next(l, steps[0]), steps[1..], e);
    }
  }

  lemma {:induction false} RunSparesBoth(l: Link, steps: seq<Step>)
    requires LegalRun(l, steps) && forall i | 0 <= i < |steps| :: FinishingStep(steps[i])
    ensures (l.a.Alive() ==> Spared(After(l, steps).a)) && (l.b.Alive() ==> Spared(After(l, steps).b))
  {
    if l.a.Alive() {
      RunSpares(l, steps, A);
    }
    if l.b.Alive() {
      RunSpares(l, steps, B);
    }
  }

  /** What two ends have come to, where nothing is left to finish. */
  predicate Settled(a: Sock, b: Sock) {
    && (Spared(a) ==> HasAll(a, b)) && (Spared(b) ==> HasAll(b, a))
    && (a.Alive() && b.Alive() ==> CAP - a.sendwind == b.Window() >= 32 && CAP - b.sendwind == a.Window() >= 32)
  }

  lemma QuietLink(l: Link)
    requires Inv(l) && l.a.x.announced && l.b.x.announced && !l.a.x.refused && !l.b.x.refused
    requires forall st | FinishingStep(st) :: !CanStep(l, st)
    ensures Settled(l.a, l.b)
  {
    if Spared(l.a) {
      QuietEndHasAll(l, A);
    }
    if Spared(l.b) {
      QuietEndHasAll(l, B);
    }
    if l.a.Alive() && l.b.Alive() {
      QuietMeansDone(l);
    }
  }
}
