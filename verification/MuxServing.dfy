/** What the server can do by itself: take everything off a wire in front of it, as long as no CLOS among it is one
    that has to be refused. */
module MuxServing {
  import opened Segments
  import opened Sockets
  import opened Endpoints
  import opened Routing
  import opened Mux
  import opened MuxParts
  import opened MuxSteps
  import opened MuxTheorems
  import opened MuxRuns
  import Links

  // ---------- the server's own runs ----------

  /** The server is alive, and its accept queue can be emptied. */
  predicate Able(w: World) {
    w.server.killed == None && w.scfg.acceptCap > 0
  }

  /** A CLOS that its socket will have to refuse whatever happens. */
  ghost predicate Hopeless(w: World, p: Packet) {
    p.seg.flag == FL_CLOS && p.inc in w.client.socks && Links.Doomed(PairOf(w, p.inc))
  }

  /** None of the first `n` packets of a wire to the server is such a CLOS. */
  ghost predicate Clear(w: World, i: nat, n: nat) {
    i < |w.c2s| && n <= |w.c2s[i]| && forall m | 0 <= m < n :: !Hopeless(w, w.c2s[i][m])
  }

  /** Steps that only the server takes. */
  predicate ServerOnly(a: Action) {
    match a
    case Deliver(to, _) => to == Server
    case Local(side, _, _) => side == Server
    case Accept => true
    case _ => false
  }

  ghost predicate Serves(w: World, acts: seq<Action>, v: World) {
    Legal(w, acts) && After(w, acts) == v && forall i | 0 <= i < |acts| :: ServerOnly(acts[i])
  }

  /** The client is as before, and no connection is doomed that was not. */
  ghost predicate DoomsNobody(w: World, v: World) {
    && v.client == w.client
    && forall k | k in w.client.socks && Links.Doomed(PairOf(v, k)) :: Links.Doomed(PairOf(w, k))
  }

  /** By such steps, with the invariant and the server alive, and without harm. */
  ghost predicate Comes(w: World, v: World) {
    Inv(v) && Able(v) && DoomsNobody(w, v) && exists acts :: Serves(w, acts, v)
  }

  lemma Stays(w: World)
    requires Inv(w) && Able(w)
    ensures Comes(w, w)
  {
    var none: seq<Action> := [];
    assert Serves(w, none, w);
  }

  lemma ComesStep(w: World, a: Action)
    requires Sane(w) && Enabled(w, a) && ServerOnly(a) && Inv(Next(w, a)) && Able(Next(w, a))
    requires DoomsNobody(w, Next(w, a))
    ensures Comes(w, Next(w, a))
  {
    LegalOne(w, a);
    assert Serves(w, [a], Next(w, a));
  }

  lemma ComesOn(w: World, u: World, v: World)
    requires Comes(w, u) && Comes(u, v)
    ensures Comes(w, v)
  {
    var a :| Serves(w, a, u);
    var b :| Serves(u, b, v);
    RunsJoin(w, a, b);
    assert Serves(w, a + b, v);
  }

  /** Nobody waits to be accepted, and nothing else has changed. */
  ghost predicate Attended(w: World, v: World) {
    Comes(w, v) && v.c2s == w.c2s && v.server.socks == w.server.socks && v.server.backlog == []
  }

  lemma AcceptStep(w: World)
    requires Inv(w) && Able(w) && w.server.backlog != []
    ensures var v := Next(w, Accept);
      && Comes(w, v) && v.c2s == w.c2s && v.server.socks == w.server.socks
      && |v.server.backlog| == |w.server.backlog| - 1
  {
    var v := Next(w, Accept);
    ActionInv(w, Accept);
    assert forall k | k in w.client.socks :: PairOf(v, k) == PairOf(w, k);
    ComesStep(w, Accept);
  }

  /** Everything in the accept queue can be accepted. */
  lemma {:induction false} AcceptAll(w: World)
    requires Inv(w) && Able(w)
    ensures exists v :: Attended(w, v)
    decreases |w.server.backlog|
  {
    if w.server.backlog == [] {
      Stays(w);
      assert Attended(w, w);
    } else {
      AcceptStep(w);
      AcceptAll(Next(w, Accept));
      var v :| Attended(Next(w, Accept), v);
      ComesOn(w, Next(w, Accept), v);
      assert Attended(w, v);
    }
  }

  lemma MovedNotDoomed(l: Links.Link, l': Links.Link)
    requires Links.Inv(l) && !Links.Doomed(l) && Moves(l, l', Links.Deliver(Links.B))
    ensures !Links.Doomed(l')
  {
    Links.DeliveryDoomsNot(l);
  }

  lemma DeliverDoomsNot(w: World, i: nat, k: nat)
    requires Inv(w) && Enabled(w, Deliver(Server, i)) && k in w.client.socks && !Links.Doomed(PairOf(w, k))
    ensures k in Next(w, Deliver(Server, i)).client.socks
    ensures !Links.Doomed(PairOf(Next(w, Deliver(Server, i)), k))
  {
    var a := Deliver(Server, i);
    PairFacts(w, k);
    ServerDeliverRefines(w, i, k);
    if LinkStep(w, a, k) != None {
      MovedNotDoomed(PairOf(w, k), PairOf(Next(w, a), k));
    }
  }

  lemma DeliveriesDoomNobody(w: World, i: nat)
    requires Inv(w) && Enabled(w, Deliver(Server, i))
    ensures DoomsNobody(w, Next(w, Deliver(Server, i)))
  {
    ServerDelivers(w, i);
    forall k | k in w.client.socks && !Links.Doomed(PairOf(w, k))
      ensures !Links.Doomed(PairOf(Next(w, Deliver(Server, i)), k))
    {
      DeliverDoomsNot(w, i, k);
    }
  }

  /** A packet that will not be refused can be taken. */
  lemma DeliverStep(w: World, i: nat)
    requires Inv(w) && Able(w) && i < |w.c2s| && w.c2s[i] != []
    requires Verdict(w.server, w.c2s[i][0], w.scfg) == None
    ensures Enabled(w, Deliver(Server, i))
    ensures var v := Next(w, Deliver(Server, i)); Comes(w, v) && v.c2s == Pop(w.c2s, i)
  {
    var a := Deliver(Server, i);
    ServerDelivers(w, i);
    ServerVerdict(w, i);
    ActionInv(w, a);
    HeadAllowed(w.server.table, w.c2s, i);
    RightEntry(w.server, w.c2s[i][0], i, w.scfg);
    DeliveriesDoomNobody(w, i);
    ComesStep(w, a);
  }

  /** A server socket waits in `Read`, or takes a DATA segment that is queued. */
  ghost predicate Reads(w: World, k: nat, act: Act)
    requires Sane(w)
  {
    && k in w.client.socks && Enabled(w, Local(Server, k, act))
    && (act.ReadEnter? || (act.ReadSelect? && w.server.socks[k].incoming[0].flag == FL_DATA))
  }

  lemma ReadDoomsNot(w: World, k: nat, act: Act, j: nat)
    requires Inv(w) && Reads(w, k, act) && j in w.client.socks && !Links.Doomed(PairOf(w, j))
    ensures j in Next(w, Local(Server, k, act)).client.socks
    ensures !Links.Doomed(PairOf(Next(w, Local(Server, k, act)), j))
  {
    ServerActRefines(w, k, act, j);
    if j == k {
      Links.ReadingDoomsNot(PairOf(w, k), act);
    }
  }

  lemma ReadLeaves(w: World, k: nat, act: Act)
    requires Sane(w) && Reads(w, k, act)
    ensures var v := Next(w, Local(Server, k, act));
      && v.c2s == w.c2s && v.scfg == w.scfg && v.client == w.client
      && v.server.killed == w.server.killed && v.server.backlog == w.server.backlog
      && v.server.socks == w.server.socks[k := Do(w.server.socks[k], act).sock]
  {
  }

  lemma ReadStep(w: World, k: nat, act: Act)
    requires Inv(w) && Able(w) && Reads(w, k, act)
    ensures Comes(w, Next(w, Local(Server, k, act)))
  {
    var v := Next(w, Local(Server, k, act));
    ActionInv(w, Local(Server, k, act));
    ReadLeaves(w, k, act);
    forall j | j in w.client.socks && !Links.Doomed(PairOf(w, j)) ensures !Links.Doomed(PairOf(v, j)) {
      ReadDoomsNot(w, k, act, j);
    }
    ComesStep(w, Local(Server, k, act));
  }

  /** The CLOS at the front of a wire that its socket would refuse. */
  ghost predicate Refusal(w: World, i: nat) {
    && i < |w.c2s| && w.c2s[i] != [] && !Links.Unaddressed(w.c2s[i][0].seg)
    && w.c2s[i][0].inc in w.server.socks && ClosOverflow(w.server.socks[w.c2s[i][0].inc], w.c2s[i][0].seg)
  }

  /** The packet at the front of wire `i` is for socket `k`, which was accepted, has DATA to read and can read it. */
  ghost predicate Readable(w: World, i: nat, k: nat) {
    && i < |w.c2s| && w.c2s[i] != [] && w.c2s[i][0].seg.flag != FL_OPEN && w.c2s[i][0].inc == k
    && w.server.backlog == [] && k in w.client.socks && k in w.server.socks
    && var s := w.server.socks[k];
    && s.x.announced && s.inbuf == [] && s.incoming != [] && s.incoming[0].flag == FL_DATA
    && (s.Alive() || s.x.polling)
  }

  lemma RefusalReadable(w: World, i: nat)
    requires Inv(w) && Clear(w, i, 1) && Refusal(w, i) && w.server.backlog == []
    ensures Readable(w, i, w.c2s[i][0].inc)
  {
    var k := w.c2s[i][0].inc;
    CarriedPop(w.client.socks, w.c2s, i);
    ServerTakesLink(w.client.socks, w.server.socks, w.c2s, w.s2c, i, k);
    PairFacts(w, k);
    assert !Hopeless(w, w.c2s[i][0]);
    Links.CanStillRead(PairOf(w, k));
  }

  /** What comes next off wire `i` can now be taken. */
  ghost predicate Roomy(w: World, i: nat, v: World) {
    Comes(w, v) && v.c2s == w.c2s && i < |v.c2s| && v.c2s[i] != [] && Verdict(v.server, v.c2s[i][0], v.scfg) == None
  }

  lemma RoomyOn(w: World, i: nat, u: World, v: World)
    requires Comes(w, u) && u.c2s == w.c2s && Roomy(u, i, v)
    ensures Roomy(w, i, v)
  {
    ComesOn(w, u, v);
  }

  lemma ReadIsRoomy(s: Sock, e: Endpoint, p: Packet, cfg: Config)
    requires s.incoming != [] && s.incoming[0].flag == FL_DATA && p.seg.flag != FL_OPEN
    requires p.inc in e.socks && e.socks[p.inc] == SelectStep(s, 0, 0).sock
    ensures Verdict(e, p, cfg) == None
  {
  }

  /** Who waits in `Read` takes a segment, and leaves room. */
  lemma ReadWaiting(w: World, i: nat, k: nat)
    requires Sane(w) && Readable(w, i, k) && w.server.socks[k].x.polling
    ensures Reads(w, k, ReadSelect(0, 0))
    ensures var v := Next(w, Local(Server, k, ReadSelect(0, 0)));
      v.c2s == w.c2s && Verdict(v.server, w.c2s[i][0], v.scfg) == None
  {
    assert Reads(w, k, ReadSelect(0, 0));
    ReadLeaves(w, k, ReadSelect(0, 0));
    ReadIsRoomy(w.server.socks[k], Next(w, Local(Server, k, ReadSelect(0, 0))).server, w.c2s[i][0], w.scfg);
  }

  /** Who does not wait yet can do so. */
  lemma ReadEnters(w: World, i: nat, k: nat)
    requires Sane(w) && Readable(w, i, k) && !w.server.socks[k].x.polling
    ensures Reads(w, k, ReadEnter)
    ensures var u := Next(w, Local(Server, k, ReadEnter));
      u.c2s == w.c2s && Readable(u, i, k) && u.server.socks[k].x.polling
  {
    assert Reads(w, k, ReadEnter);
    ReadLeaves(w, k, ReadEnter);
  }

  lemma ReadNow(w: World, i: nat, k: nat)
    requires Inv(w) && Able(w) && Readable(w, i, k) && w.server.socks[k].x.polling
    ensures exists v :: Roomy(w, i, v)
  {
    ReadWaiting(w, i, k);
    ReadStep(w, k, ReadSelect(0, 0));
    assert Roomy(w, i, Next(w, Local(Server, k, ReadSelect(0, 0))));
  }

  /** Reading first makes room for it. */
  lemma ReadFirst(w: World, i: nat, k: nat)
    requires Inv(w) && Able(w) && Readable(w, i, k)
    ensures exists v :: Roomy(w, i, v)
  {
    if w.server.socks[k].x.polling {
      ReadNow(w, i, k);
    } else {
      ReadEnters(w, i, k);
      ReadStep(w, k, ReadEnter);
      var u := Next(w, Local(Server, k, ReadEnter));
      ReadNow(u, i, k);
      var v :| Roomy(u, i, v);
      RoomyOn(w, i, u, v);
    }
  }

  lemma StillClear(w: World, v: World, i: nat, n: nat)
    requires Clear(w, i, n) && DoomsNobody(w, v) && v.c2s == w.c2s
    ensures Clear(v, i, n)
  {
    forall m | 0 <= m < n ensures !Hopeless(v, v.c2s[i][m]) {
      assert !Hopeless(w, w.c2s[i][m]);
    }
  }

  /** Room can be made for any packet at the front of a wire, once nobody waits to be accepted. */
  lemma MakeRoomAttended(w: World, i: nat)
    requires Inv(w) && Able(w) && Clear(w, i, 1) && w.server.backlog == []
    ensures exists v :: Roomy(w, i, v)
  {
    if Verdict(w.server, w.c2s[i][0], w.scfg) == None {
      Stays(w);
      assert Roomy(w, i, w);
    } else {
      RefusalReadable(w, i);
      ReadFirst(w, i, w.c2s[i][0].inc);
    }
  }

  lemma MakeRoom(w: World, i: nat)
    requires Inv(w) && Able(w) && Clear(w, i, 1)
    ensures exists v :: Roomy(w, i, v)
  {
    AcceptAll(w);
    var u :| Attended(w, u);
    StillClear(w, u, i, 1);
    MakeRoomAttended(u, i);
    var v :| Roomy(u, i, v);
    RoomyOn(w, i, u, v);
  }

  /** Some steps of the server that end with these wires. */
  ghost predicate Drains(w: World, c2s: Pipes) {
    exists v :: Comes(w, v) && v.c2s == c2s
  }

  lemma PopOne(w: World, i: nat)
    requires Inv(w) && Able(w) && Clear(w, i, 1)
    ensures Drains(w, Pop(w.c2s, i))
  {
    MakeRoom(w, i);
    var u :| Roomy(w, i, u);
    DeliverStep(u, i);
    ComesOn(w, u, Next(u, Deliver(Server, i)));
  }

  lemma DrainsOn(w: World, u: World, c2s: Pipes)
    requires Comes(w, u) && Drains(u, c2s)
    ensures Drains(w, c2s)
  {
    var v :| Comes(u, v) && v.c2s == c2s;
    ComesOn(w, u, v);
  }

  /** Without the first `n` packets of one wire. */
  function Without(pipes: Pipes, i: nat, n: nat): Pipes
    requires i < |pipes| && n <= |pipes[i]|
  {
    pipes[i := pipes[i][n..]]
  }

  lemma WithoutNext(pipes: Pipes, i: nat, n: nat)
    requires i < |pipes| && n <= |pipes[i]|
    ensures if n == 0 then Without(pipes, i, n) == pipes else Without(pipes, i, n) == Without(Pop(pipes, i), i, n - 1)
  {
    if n == 0 {
      assert pipes[i][0..] == pipes[i];
    } else {
      assert pipes[i][1..][n - 1..] == pipes[i][n..];
    }
  }

  /** What is left of a clear wire is clear, and what was clear elsewhere. */
  lemma ClearRest(w: World, v: World, i: nat, n: nat, j: nat, m: nat)
    requires DoomsNobody(w, v) && i < |w.c2s| && n <= |w.c2s[i]| && v.c2s == Without(w.c2s, i, n) && Clear(w, j, m)
    ensures Clear(v, j, if j != i then m else if n <= m then m - n else 0)
  {
    var left := if j != i then m else if n <= m then m - n else 0;
    forall x | 0 <= x < left ensures !Hopeless(v, v.c2s[j][x]) {
      assert v.c2s[j][x] == w.c2s[j][if j == i then n + x else x];
      assert !Hopeless(w, v.c2s[j][x]);
    }
  }

  /** Any number of packets can be taken off one wire, if no CLOS among them is hopeless. */
  lemma {:induction false} PopMany(w: World, i: nat, n: nat)
    requires Inv(w) && Able(w) && Clear(w, i, n)
    ensures Drains(w, Without(w.c2s, i, n))
    decreases n
  {
    WithoutNext(w.c2s, i, n);
    if n == 0 {
      Stays(w);
    } else {
      PopOne(w, i);
      var u :| Comes(w, u) && u.c2s == Pop(w.c2s, i);
      ClearRest(w, u, i, 1, i, n);
      PopMany(u, i, n - 1);
      DrainsOn(w, u, Without(w.c2s, i, n));
    }
  }

  lemma {:induction false} ServesKeeps(w: World, acts: seq<Action>)
    requires Legal(w, acts) && forall i | 0 <= i < |acts| :: ServerOnly(acts[i])
    ensures var v := After(w, acts); v.client == w.client && v.next == w.next && v.ccfg == w.ccfg && v.scfg == w.scfg
    ensures |After(w, acts).c2s| == |w.c2s|
    decreases |acts|
  {
    if acts != [] {
      ServesKeeps(Next(w, acts[0]), acts[1..]);
    }
  }

  lemma SameClient(w: World, v: World)
    requires Comes(w, v)
    ensures v.client == w.client && v.next == w.next && |v.c2s| == |w.c2s|
  {
    var acts :| Serves(w, acts, v);
    ServesKeeps(w, acts);
  }

  // ---------- clearing the way for an OPEN ----------

  /** The server is ready for an OPEN on `wire`: nothing is in front of it, and the accept queue is empty. */
  ghost predicate Waits(w: World, wire: nat) {
    && Sane(w) && Able(w) && !w.scfg.rejectOpen
    && wire < |w.c2s| && w.c2s[wire] == [] && w.server.backlog == []
  }

  /** The server has taken `n` packets off wire `i` and all there were off `wire`, and nobody waits to be accepted. */
  ghost predicate Settled(w: World, v: World, wire: nat, i: nat, n: nat) {
    && Comes(w, v) && Waits(v, wire)
    && i < |w.c2s| && n <= |w.c2s[i]| && i < |v.c2s| && v.c2s[i] == w.c2s[i][n..]
  }

  lemma NoneLeft(pipes: Pipes, i: nat, n: nat, wire: nat)
    requires i < |pipes| && wire < |pipes| && n <= |pipes[i]| && (i == wire ==> n == |pipes[i]|)
    ensures var first := Without(pipes, i, n);
      var all := Without(first, wire, |first[wire]|);
      all[wire] == [] && all[i] == pipes[i][n..]
  {
  }

  lemma SettleAttended(w: World, x: World, wire: nat, i: nat, n: nat)
    requires Comes(w, x) && wire < |x.c2s| && x.c2s[wire] == []
    requires i < |w.c2s| && n <= |w.c2s[i]| && i < |x.c2s| && x.c2s[i] == w.c2s[i][n..]
    ensures exists v :: Settled(w, v, wire, i, n)
  {
    AcceptAll(x);
    var v :| Attended(x, v);
    ComesOn(w, x, v);
    assert Settled(w, v, wire, i, n);
  }

  lemma DrainTwo(w: World, wire: nat, i: nat, n: nat)
    requires Inv(w) && Able(w) && Clear(w, i, n) && wire < |w.c2s| && Clear(w, wire, |w.c2s[wire]|)
    ensures var first := Without(w.c2s, i, n); Drains(w, Without(first, wire, |first[wire]|))
  {
    PopMany(w, i, n);
    var u :| Comes(w, u) && u.c2s == Without(w.c2s, i, n);
    ClearRest(w, u, i, n, wire, |w.c2s[wire]|);
    PopMany(u, wire, |u.c2s[wire]|);
    DrainsOn(w, u, Without(u.c2s, wire, |u.c2s[wire]|));
  }

  lemma Settle(w: World, wire: nat, i: nat, n: nat)
    requires Inv(w) && Able(w) && Clear(w, i, n) && wire < |w.c2s| && Clear(w, wire, |w.c2s[wire]|)
    requires i == wire ==> n == |w.c2s[i]|
    ensures exists v :: Settled(w, v, wire, i, n)
  {
    DrainTwo(w, wire, i, n);
    var first := Without(w.c2s, i, n);
    var x :| Comes(w, x) && x.c2s == Without(first, wire, |first[wire]|);
    NoneLeft(w.c2s, i, n, wire);
    SettleAttended(w, x, wire, i, n);
  }
}
