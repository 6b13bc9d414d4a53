/** One socket: its atomic steps as functions on a value, and the class whose methods perform them
    in place. A step is what runs between two points where another goroutine may interfere. */
module Sockets {
  import opened Segments
  import opened Padding

  const CAP: nat := 256    // capacity of the incoming queue and of the send window
  const COUNT: nat := 64   // credits granted at once

  datatype Option<+T> = None | Some(value: T)

  datatype Err = EOF | ClosedPipe | Timeout | ProtocolFail | WireFail

  /** The branches that kill a whole context. */
  datatype Branch = Stray | Overfull | IcwdOverflow | AcceptOverflow | OpenAtClient | Garbage | Panic | WireEnd

  /** A tomb keeps the first cause of death. */
  function FirstKill<T>(cause: Option<T>, t: T): Option<T> {
    if cause.None? then Some(t) else cause
  }

  /** The causes in the order in which they come. */
  function KillAll<T>(cause: Option<T>, causes: seq<T>): Option<T>
    decreases |causes|
  {
    if causes == [] then cause else KillAll(FirstKill(cause, causes[0]), causes[1..])
  }

  /** However many follow, the first stays. */
  lemma {:induction false} FirstCauseStays<T>(cause: Option<T>, causes: seq<T>)
    ensures KillAll(cause, causes) == if cause.Some? then cause else if causes == [] then None else Some(causes[0])
    decreases |causes|
  {
    if causes != [] {
      FirstCauseStays(FirstKill(cause, causes[0]), causes[1..]);
    }
  }

  /** What the socket's goroutines hold between their atomic sections, and history. */
  datatype Aux = Aux(
    tokens: nat,              // writers holding a slot but not yet past the locks
    pending: nat,             // credit goroutines not yet past the locks
    polling: bool,            // the reader is waiting in its select
    announced: bool,          // the OPEN is on the wire, so the owner holds the socket
    refused: bool,            // the peer's CLOS found the queue full
    eof: bool,                // Read met the peer's CLOS
    sent: seq<byte>,          // bytes realWrite put on the wire
    got: seq<byte>,           // bytes Read returned
    taken: nat,               // DATA segments Read took from incoming
    granted: nat,             // times Read granted COUNT credits
    abandoned: nat,           // slots whose writer found the socket dead
    dropped: nat              // grants whose goroutine found the socket dead
  )

  datatype Sock = Sock(
    sokid: uint16,
    wire: nat,                // which wire the socket's segments travel on
    incoming: seq<Segment>,
    inbuf: seq<byte>,
    sendwind: nat,            // slots taken in the send window
    recvcount: byte,
    death: Option<Err>,
    closed: bool,             // Close has run
    x: Aux
  ) {
    predicate Alive() { death.None? }

    /** The receive window read as an unbounded integer that starts at 256. */
    function Window(): int { CAP - x.taken + COUNT * x.granted }
  }

  function NewSock(id: uint16, wire: nat, announced: bool): Sock {
    Sock(id, wire, [], [], 0, 0, None, false, Aux(0, 0, false, announced, false, false, [], [], 0, 0, 0, 0))
  }

  // ---------- the wrapped receive counter ----------

  /** One read of a DATA segment: the uint8 decrement, the threshold draw, and the uint8 increment. */
  function CountRead(recvcount: byte, r: nat): (c: (byte, bool)) {
    var down := (recvcount + 255) % 256;
    if down < r % 64 + 32 then ((down + COUNT) % 256, true) else (down, false)
  }

  /** Counter, number of grants and number of wraps after a sequence of reads, from the start. */
  function CountReads(draws: seq<nat>): (byte, nat, nat) {
    if draws == [] then (0, 0, 0)
    else
      var (rc, granted, wraps) := CountReads(draws[..|draws| - 1]);
      var (rc', grant) := CountRead(rc, draws[|draws| - 1]);
      (rc', granted + (if grant then 1 else 0), wraps + (if rc == 0 then 1 else 0))
  }

  lemma CountStep(rc: byte, window: int, r: nat)
    requires rc == window % 256 && (window == 256 || 32 <= window <= 255)
    ensures var (rc', grant) := CountRead(rc, r);
            var window' := window - 1 + (if grant then 64 else 0);
            && rc' == window' % 256 && 32 <= window' <= 255
            && (grant || window <= 158 ==> window' <= 158)
            && (window == 256 ==> !grant)
  {
    var t := r % 64 + 32;
    assert 32 <= t <= 95;
  }

  /** The counter is the window modulo 256; it passes 0 going down exactly once, on the first read;
      and after every read the window is in 32..255. */
  lemma {:induction false} CounterIsWindow(draws: seq<nat>)
    ensures var (rc, granted, wraps) := CountReads(draws);
            var window := 256 - |draws| + 64 * granted;
            && rc == window % 256
            && (draws == [] ==> window == 256 && wraps == 0)
            && (draws != [] ==> 32 <= window <= 255 && wraps == 1)
  {
    if draws != [] {
      var before := draws[..|draws| - 1];
      CounterIsWindow(before);
      var (rc, granted, _) := CountReads(before);
      CountStep(rc, CAP - |before| + COUNT * granted, draws[|draws| - 1]);
    }
  }

  /** How many of the draws below `n` grant credits on a read. */
  function Granting(rc: byte, n: nat): nat {
    if n == 0 then 0 else Granting(rc, n - 1) + if CountRead(rc, n - 1).1 then 1 else 0
  }

  lemma {:induction false} GrantingIs(rc: byte, n: nat)
    requires n <= 64
    ensures var left := (rc + 255) % 256;
      Granting(rc, n) == if left < 32 then n else if left - 31 >= n then 0 else n - (left - 31)
  {
    if n > 0 {
      GrantingIs(rc, n - 1);
    }
  }

  /** The threshold is uniform over 32..95: a read that leaves fewer than 32 always grants, one that leaves 95 or more
      never does, and each one less in between grants for one more of 64 draws. */
  lemma {:induction false} ThresholdIsUniform(rc: byte, r: nat)
    ensures var left := (rc + 255) % 256;
      Granting(rc, 64) == if left < 32 then 64 else if left >= 95 then 0 else 95 - left
    ensures CountRead(rc, r).1 == CountRead(rc, r % 64).1
  {
    GrantingIs(rc, 64);
  }

  // ---------- atomic steps ----------

  datatype Act =
    | Take                                  // a writer takes a send slot
    | Emit(p: seq<byte>, r: nat)            // a writer passes the locks with its chunk
    | Credit                                // a credit goroutine passes the locks
    | Close
    | Die(err: Err)                         // timeout, or the context's death reaching the socket
    | ReadBuf(n: nat)                       // Read served from inbuf
    | ReadEnter                             // Read passes its checks and waits
    | ReadSelect(n: nat, r: nat)            // Read takes a segment from incoming
    | ReadAbort                             // Read notices the death

  predicate Can(s: Sock, a: Act) {
    s.x.announced &&
    match a
    case Take => s.sendwind < CAP
    case Emit(p, r) => s.x.tokens > 0 && |p| <= CHUNK
    case Credit => s.x.pending > 0
    case Close => true
    case Die(_) => true
    case ReadBuf(_) => !s.x.polling && s.inbuf != []
    case ReadEnter => !s.x.polling && s.inbuf == [] && s.Alive()
    case ReadSelect(_, _) => s.x.polling && s.incoming != []
    case ReadAbort => s.x.polling && !s.Alive()
  }

  /** What a step leaves: the socket, the segments it put on the wire, and whether it killed the context. */
  datatype Effect = Effect(sock: Sock, out: seq<Segment>, garbage: bool)

  function IcwdSegment(id: uint16): Segment {
    Segment(FL_ICWD, id, [COUNT])
  }

  function ClosSegment(id: uint16): Segment {
    Segment(FL_CLOS, id, [])
  }

  function Min(a: nat, b: nat): nat { if a < b then a else b }

  function Silent(s: Sock): Effect {
    Effect(s, [], false)
  }

  function TakeStep(s: Sock): Effect {
    Silent(s.(sendwind := s.sendwind + 1, x := s.x.(tokens := s.x.tokens + 1)))
  }

  function EmitStep(s: Sock, p: seq<byte>, r: nat): Effect
    requires s.x.tokens > 0
  {
    if s.Alive()
    then Effect(s.(x := s.x.(tokens := s.x.tokens - 1, sent := s.x.sent + p)), Emission(s.sokid, p, r), false)
    else Silent(s.(x := s.x.(tokens := s.x.tokens - 1, abandoned := s.x.abandoned + 1)))
  }

  function CreditStep(s: Sock): Effect
    requires s.x.pending > 0
  {
    if s.Alive()
    then Effect(s.(x := s.x.(pending := s.x.pending - 1)), [IcwdSegment(s.sokid)], false)
    else Silent(s.(x := s.x.(pending := s.x.pending - 1, dropped := s.x.dropped + 1)))
  }

  function CloseStep(s: Sock): Effect {
    if s.closed then Silent(s)
    else Effect(s.(closed := true, death := FirstKill(s.death, ClosedPipe)), [ClosSegment(s.sokid)], false)
  }

  function DieStep(s: Sock, err: Err): Effect {
    Silent(s.(death := FirstKill(s.death, err)))
  }

  function BufStep(s: Sock, n: nat): Effect {
    var m := Min(n, |s.inbuf|);
    Silent(s.(inbuf := s.inbuf[m..], x := s.x.(got := s.x.got + s.inbuf[..m])))
  }

  function PollStep(s: Sock, waiting: bool): Effect {
    Silent(s.(x := s.x.(polling := waiting)))
  }

  function SelectStep(s: Sock, n: nat, r: nat): Effect
    requires s.incoming != []
  {
    var seg := s.incoming[0];
    var s1 := s.(incoming := s.incoming[1..], x := s.x.(polling := false));
    if seg.flag == FL_DATA then
      var m := Min(n, |seg.body|);
      var (rc, grant) := CountRead(s.recvcount, r);
      var g := if grant then 1 else 0;
      Effect(s1.(inbuf := s.inbuf + seg.body[m..], recvcount := rc,
                 x := s1.x.(got := s.x.got + seg.body[..m], taken := s.x.taken + 1,
                            granted := s.x.granted + g, pending := s.x.pending + g)), [], false)
    else if seg.flag == FL_CLOS then
      Effect(s1.(death := FirstKill(s.death, EOF), x := s1.x.(eof := true)), [], false)
    else
      Effect(s1, [], true)
  }

  function Do(s: Sock, a: Act): Effect
    requires Can(s, a)
  {
    match a
    case Take => TakeStep(s)
    case Emit(p, r) => EmitStep(s, p, r)
    case Credit => CreditStep(s)
    case Close => CloseStep(s)
    case Die(err) => DieStep(s, err)
    case ReadBuf(n) => BufStep(s, n)
    case ReadEnter => PollStep(s, true)
    case ReadSelect(n, r) => SelectStep(s, n, r)
    case ReadAbort => PollStep(s, false)
  }

  /** What the demultiplexer does to the socket a segment is for. */
  datatype Arrival = Arrival(sock: Sock, kill: Option<Branch>)

  function Arrive(s: Sock, seg: Segment): Arrival {
    if seg.flag == FL_ICWD then
      if seg.body == [] then Arrival(s, Some(Panic))
      else if s.sendwind < seg.body[0] then Arrival(s.(sendwind := 0), Some(IcwdOverflow))
      else Arrival(s.(sendwind := s.sendwind - seg.body[0]), None)
    else if |s.incoming| < CAP then Arrival(s.(incoming := s.incoming + [seg]), None)
    else Arrival(s.(x := s.x.(refused := s.x.refused || seg.flag == FL_CLOS)), Some(Overfull))
  }

  /** A segment after the other arrives, up to the first that is refused. */
  function ArriveAll(s: Sock, segs: seq<Segment>): Arrival
    decreases |segs|
  {
    if segs == [] then Arrival(s, None)
    else
      var first := Arrive(s, segs[0]);
      if first.kill.Some? then first else ArriveAll(first.sock, segs[1..])
  }

  /** The credits that ICWDs carry. */
  function Credited(segs: seq<Segment>): nat {
    if segs == [] then 0
    else (if segs[0].flag == FL_ICWD && segs[0].body != [] then segs[0].body[0] else 0) + Credited(segs[1..])
  }

  /** The segments that are no ICWDs. */
  function Others(segs: seq<Segment>): seq<Segment> {
    if segs == [] then [] else (if segs[0].flag == FL_ICWD then [] else [segs[0]]) + Others(segs[1..])
  }

  /** Every ICWD carries a number. */
  predicate Numbered(segs: seq<Segment>) {
    forall i | 0 <= i < |segs| :: segs[i].flag == FL_ICWD ==> segs[i].body != []
  }

  lemma NumberedFirst(segs: seq<Segment>)
    requires segs != []
    ensures Numbered(segs) <==> (segs[0].flag == FL_ICWD ==> segs[0].body != []) && Numbered(segs[1..])
  {
    assert forall i | 0 < i < |segs| :: segs[i] == segs[1..][i - 1];
  }

  lemma ArrivalTaken(s: Sock, seg: Segment)
    requires |s.incoming| <= CAP
    ensures var a := Arrive(s, seg);
      if seg.flag == FL_ICWD then
        && (a.kill == None <==> seg.body != [] && seg.body[0] <= s.sendwind)
        && (a.kill == None ==> a.sock == s.(sendwind := s.sendwind - seg.body[0]))
      else
        && (a.kill == None <==> |s.incoming| < 256)
        && (a.kill == None ==> a.sock == s.(incoming := s.incoming + [seg]))
  {
  }

  /** Whatever a peer sends, also a dishonest one: all of it is taken if and only if its ICWDs return no more credits
      than there are slots in use and carry a number, and the rest fits the queue. Then the slots are freed and the
      rest is queued in order. */
  lemma {:induction false} ArrivalsTaken(s: Sock, segs: seq<Segment>)
    requires |s.incoming| <= CAP
    ensures var a := ArriveAll(s, segs);
      && (a.kill == None <==>
            Numbered(segs) && Credited(segs) <= s.sendwind && |s.incoming| + |Others(segs)| <= 256)
      && (a.kill == None ==>
            a.sock.sendwind == s.sendwind - Credited(segs) && a.sock.incoming == s.incoming + Others(segs))
    decreases |segs|
  {
    if segs != [] {
      var first := Arrive(s, segs[0]);
      NumberedFirst(segs);
      ArrivalTaken(s, segs[0]);
      if first.kill == None {
        ArrivalsTaken(first.sock, segs[1..]);
        Associate(s.incoming, if segs[0].flag == FL_ICWD then [] else [segs[0]], Others(segs[1..]));
        assert s.incoming + [] == s.incoming;
      }
    }
  }

  // ---------- uninterrupted calls ----------

  /** The steps can be taken one after the other. */
  predicate CanAll(s: Sock, acts: seq<Act>)
    decreases |acts|
  {
    acts == [] || (Can(s, acts[0]) && CanAll(Do(s, acts[0]).sock, acts[1..]))
  }

  function DoAll(s: Sock, acts: seq<Act>): Effect
    requires CanAll(s, acts)
    decreases |acts|
  {
    if acts == [] then Silent(s)
    else
      var first := Do(s, acts[0]);
      var more := DoAll(first.sock, acts[1..]);
      Effect(more.sock, first.out + more.out, first.garbage || more.garbage)
  }

  /** How many of its chunks a `Write` puts on the wire when nothing else runs meanwhile. */
  function Room(s: Sock, p: seq<byte>): (k: nat)
    requires s.sendwind <= CAP
    ensures k <= |Chunks(p)|
  {
    if s.Alive() then Min(CAP - s.sendwind, |Chunks(p)|) else 0
  }

  /** The socket after such a call, which ends in the timeout if there was no room for all. */
  function Written(s: Sock, p: seq<byte>): Sock
    requires s.sendwind <= CAP
  {
    var k := Room(s, p);
    s.(sendwind := s.sendwind + k, death := if k < |Chunks(p)| then Some(Timeout) else None,
       x := s.x.(sent := s.x.sent + Concat(Chunks(p)[..k])))
  }

  /** A slot and an emission for each chunk. */
  function WriteActs(cs: seq<seq<byte>>, draws: nat -> nat): seq<Act> {
    if cs == [] then [] else [Take, Emit(cs[0], draws(0))] + WriteActs(cs[1..], (i: nat) => draws(i + 1))
  }

  lemma {:induction false} TakeAndEmit(s: Sock, p: seq<byte>, r: nat, more: seq<Act>)
    requires s.x.announced && s.Alive() && s.sendwind < CAP && |p| <= CHUNK
    requires CanAll(EmitStep(TakeStep(s).sock, p, r).sock, more)
    ensures var mid := EmitStep(TakeStep(s).sock, p, r).sock;
      && CanAll(s, [Take, Emit(p, r)] + more)
      && DoAll(s, [Take, Emit(p, r)] + more).sock == DoAll(mid, more).sock
      && DoAll(s, [Take, Emit(p, r)] + more).out == Emission(s.sokid, p, r) + DoAll(mid, more).out
  {
    var acts := [Take, Emit(p, r)] + more;
    assert acts[1..] == [Emit(p, r)] + more && acts[1..][1..] == more;
    assert DoAll(s, acts).out == [] + DoAll(TakeStep(s).sock, acts[1..]).out;
  }

  lemma {:induction false} ChunksGoOut(s: Sock, cs: seq<seq<byte>>, draws: nat -> nat)
    requires s.x.announced && s.Alive() && s.sendwind + |cs| <= CAP && AllChunks(cs)
    ensures CanAll(s, WriteActs(cs, draws))
    ensures var e := DoAll(s, WriteActs(cs, draws));
      && e.sock == s.(sendwind := s.sendwind + |cs|, x := s.x.(sent := s.x.sent + Concat(cs)))
      && e.out == EmitAll(s.sokid, cs, draws)
    decreases |cs|
  {
    if cs == [] {
      assert s.x.sent + [] == s.x.sent;
    } else {
      var mid, later := EmitStep(TakeStep(s).sock, cs[0], draws(0)).sock, (i: nat) => draws(i + 1);
      ChunksGoOut(mid, cs[1..], later);
      TakeAndEmit(s, cs[0], draws(0), WriteActs(cs[1..], later));
      Associate(s.x.sent, cs[0], Concat(cs[1..]));
    }
  }

  /** A `Write` to a live socket is a run of slots and emissions, chunk by chunk, that ends with the last chunk, or
      where no slot is left to take and the wait for one times out. */
  lemma {:induction false} WriteIsRun(s: Sock, p: seq<byte>, draws: nat -> nat)
    requires s.x.announced && s.Alive() && s.sendwind <= CAP
    ensures var (written, end) := (Chunks(p)[..Room(s, p)], Written(s, p));
      && CanAll(s, WriteActs(written, draws))
      && var e := DoAll(s, WriteActs(written, draws));
      && e.out == EmitAll(s.sokid, written, draws)
      && if written == Chunks(p) then end == e.sock else !Can(e.sock, Take) && end == DieStep(e.sock, Timeout).sock
  {
    ChunksJoin(p);
    ChunksGoOut(s, Chunks(p)[..Room(s, p)], draws);
  }

  /** How many bytes the first `k` chunks of a write hold. */
  lemma {:induction false} BytesOf(p: seq<byte>, k: nat)
    requires k <= |Chunks(p)|
    ensures |Concat(Chunks(p)[..k])| == if k == |Chunks(p)| then |p| else k * CHUNK
  {
    var cs := Chunks(p);
    if k > 0 && |p| > CHUNK {
      BytesOf(p[CHUNK..], k - 1);
      assert cs[..k] == [p[..CHUNK]] + Chunks(p[CHUNK..])[..k - 1];
      assert cs[..k][1..] == Chunks(p[CHUNK..])[..k - 1];
    } else if k > 0 {
      assert cs[..k] == [p] && |[p][1..]| == 0;
    }
  }

  /** `Write` reports the whole length if all chunks went out and 0 otherwise. That is the number of bytes it put on
      the wire if and only if all of its chunks went out, or none. */
  lemma {:induction false} ReportedIsSent(s: Sock, p: seq<byte>)
    requires s.sendwind <= CAP
    ensures var (k, all) := (Room(s, p), |Chunks(p)|);
      (if k == all then |p| else 0) == |Concat(Chunks(p)[..k])| <==> k == all || k == 0
  {
    BytesOf(p, Room(s, p));
  }

  /** And it may be neither: of two or more chunks, any number may go out before the window is full. */
  lemma {:induction false} SomeGoOut(s: Sock, p: seq<byte>, k: nat)
    requires s.Alive() && k <= CAP && k < |Chunks(p)|
    ensures Room(s.(sendwind := CAP - k), p) == k
  {
  }

  /** `Read` with nothing else running meanwhile: an empty queue means waiting until the timeout. */
  function ReadCall(s: Sock, n: nat, r: nat): (Effect, Option<Err>) {
    if s.inbuf != [] then (BufStep(s, n), None)
    else if !s.Alive() then (Silent(s), s.death)
    else
      var waiting := PollStep(s, true).sock;
      if s.incoming == [] then (PollStep(DieStep(waiting, Timeout).sock, false), Some(Timeout))
      else
        (SelectStep(waiting, n, r),
         if s.incoming[0].flag == FL_DATA then None
         else if s.incoming[0].flag == FL_CLOS then Some(EOF) else Some(ProtocolFail))
  }

  lemma {:induction false} OneAct(s: Sock, a: Act)
    requires Can(s, a)
    ensures CanAll(s, [a]) && DoAll(s, [a]) == Do(s, a)
  {
    assert [a][1..] == [] && Do(s, a).out + [] == Do(s, a).out;
  }

  lemma {:induction false} ActFirst(s: Sock, a: Act, acts: seq<Act>)
    requires Can(s, a) && CanAll(Do(s, a).sock, acts)
    ensures CanAll(s, [a] + acts) && DoAll(s, [a] + acts).sock == DoAll(Do(s, a).sock, acts).sock
    ensures Do(s, a).out == [] ==> DoAll(s, [a] + acts).out == DoAll(Do(s, a).sock, acts).out
    ensures !Do(s, a).garbage ==> DoAll(s, [a] + acts).garbage == DoAll(Do(s, a).sock, acts).garbage
  {
    assert ([a] + acts)[1..] == acts;
    assert [] + DoAll(Do(s, a).sock, acts).out == DoAll(Do(s, a).sock, acts).out;
  }

  /** The steps of a `Read`. */
  function ReadActs(s: Sock, n: nat, r: nat): seq<Act> {
    if Can(s, ReadBuf(n)) then [ReadBuf(n)]
    else if !Can(s, ReadEnter) then []
    else if s.incoming != [] then [ReadEnter] + [ReadSelect(n, r)]
    else [ReadEnter] + ([Die(Timeout)] + [ReadAbort])
  }

  /** What a `Read` says: nothing but bytes as long as any are buffered; then the cause of the socket's death; and on
      a live socket the timeout, or what the next segment is, where one that is neither DATA nor CLOS kills the
      context. */
  lemma ReadTells(s: Sock, n: nat, r: nat)
    ensures var (e, err) := ReadCall(s, n, r);
      && (s.inbuf != [] ==> err == None)
      && (s.inbuf == [] && !s.Alive() ==> err == s.death)
      && (s.inbuf == [] && s.Alive() && s.incoming == [] ==> err == Some(Timeout))
      && (s.inbuf == [] && s.Alive() && s.incoming != [] ==>
            && (err == None <==> s.incoming[0].flag == FL_DATA) && (err == Some(EOF) <==> s.incoming[0].flag == FL_CLOS)
            && (err == Some(ProtocolFail) <==> s.incoming[0].flag !in {FL_DATA, FL_CLOS})
            && (e.garbage <==> err == Some(ProtocolFail)))
  {
  }

  /** A `Read` is a run of the socket's steps. */
  lemma {:induction false} ReadIsRun(s: Sock, n: nat, r: nat)
    requires s.x.announced && !s.x.polling
    ensures CanAll(s, ReadActs(s, n, r)) && DoAll(s, ReadActs(s, n, r)) == ReadCall(s, n, r).0
  {
    if s.inbuf != [] {
      OneAct(s, ReadBuf(n));
    } else if s.Alive() {
      var waiting := Do(s, ReadEnter).sock;
      if s.incoming != [] {
        OneAct(waiting, ReadSelect(n, r));
        ActFirst(s, ReadEnter, [ReadSelect(n, r)]);
      } else {
        var dead := Do(waiting, Die(Timeout)).sock;
        OneAct(dead, ReadAbort);
        ActFirst(waiting, Die(Timeout), [ReadAbort]);
        ActFirst(s, ReadEnter, [Die(Timeout)] + [ReadAbort]);
      }
    }
  }

  function Sum(ns: seq<nat>): nat {
    if ns == [] then 0 else ns[0] + Sum(ns[1..])
  }

  /** One `Read` after the other, of these sizes. */
  function ReadAll(s: Sock, ns: seq<nat>, r: nat): Sock
    decreases |ns|
  {
    if ns == [] then s else ReadAll(ReadCall(s, ns[0], r).0.sock, ns[1..], r)
  }

  lemma DeadRead(s: Sock, n: nat, r: nat)
    requires !s.Alive()
    ensures var s' := ReadCall(s, n, r).0.sock;
      && s'.x.got + s'.inbuf == s.x.got + s.inbuf && |s'.x.got| == |s.x.got| + Min(n, |s.inbuf|)
      && s'.death == s.death && s'.incoming == s.incoming
  {
    var m := Min(n, |s.inbuf|);
    assert s.inbuf[..m] + s.inbuf[m..] == s.inbuf;
    Associate(s.x.got, s.inbuf[..m], s.inbuf[m..]);
  }

  /** A dead socket gives out all that is buffered, in order and without an error, and then what it died of. */
  lemma {:induction false} DeadReads(s: Sock, ns: seq<nat>, n: nat, r: nat)
    requires !s.Alive()
    ensures var s' := ReadAll(s, ns, r);
      && s'.x.got + s'.inbuf == s.x.got + s.inbuf && |s'.x.got| == |s.x.got| + Min(Sum(ns), |s.inbuf|)
      && ReadCall(s', n, r).1 == if Sum(ns) < |s.inbuf| then None else s.death
    decreases |ns|
  {
    if ns != [] {
      var first := ReadCall(s, ns[0], r).0.sock;
      DeadRead(s, ns[0], r);
      assert |first.x.got + first.inbuf| == |s.x.got + s.inbuf|;
      DeadReads(first, ns[1..], n, r);
    }
  }

  // ---------- the objects ----------

  class Tomb<T> {
    var cause: Option<T>

    constructor ()
      ensures cause == None
    {
      cause := None;
    }

    method Kill(t: T)
      modifies this
      ensures cause == FirstKill(old(cause), t)
    {
      if cause == None {
        cause := Some(t);
      }
    }
  }

  /** The sending side of a connection. Every writer holds the wire lock around one `Pack`, so the
      bytes written are always whole segments. */
  class Wire {
    const index: nat
    var out: seq<byte>
    ghost var segs: seq<Segment>

    ghost predicate Valid()
      reads this
    {
      AllFit(segs) && out == EncodeAll(segs)
    }

    constructor (index: nat)
      ensures Valid() && segs == [] && this.index == index
    {
      this.index := index;
      out, segs := [], [];
    }

    method Pack(seg: Segment)
      requires Valid() && Fits(seg)
      modifies this
      ensures Valid() && segs == old(segs) + [seg]
      ensures out == old(out) + Encode(seg)
    {
      assert EncodeAll([seg]) == Encode(seg) + EncodeAll([]) == Encode(seg);
      EncodeAllConcat(segs, [seg]);
      out := out + Encode(seg);
      segs := segs + [seg];
    }

    /** What was written decodes to the segments that were written, and nothing is left over. */
    lemma Decodes()
      requires Valid()
      ensures DecodeAll(out) == (segs, [])
    {
      DecodeEncoded(segs, []);
      assert EncodeAll(segs) + [] == EncodeAll(segs) && segs + [] == segs;
    }

    method PackBuffer(buf: seq<byte>, ghost more: seq<Segment>)
      requires Valid() && AllFit(more) && buf == EncodeAll(more)
      modifies this
      ensures Valid() && segs == old(segs) + more
      ensures out == old(out) + buf
    {
      EncodeAllConcat(segs, more);
      out := out + buf;
      segs := segs + more;
    }
  }

  /** Go's `copy`: the front of the destination is overwritten. */
  method Copy(p: array<byte>, src: seq<byte>)
    requires |src| <= p.Length
    modifies p
    ensures p[..|src|] == src && p[|src|..] == old(p[|src|..])
  {
    var i := 0;
    while i < |src|
      invariant 0 <= i <= |src|
      invariant p[..i] == src[..i]
      invariant p[|src|..] == old(p[|src|..])
    {
      p[i] := src[i];
      i := i + 1;
    }
  }

  /** Where there is no room, nothing goes out. */
  lemma {:induction false} NoneWritten(s: Sock, p: seq<byte>, draws: nat -> nat)
    requires s.sendwind <= CAP && (!s.Alive() || s.sendwind == CAP)
    ensures Room(s, p) == 0 && EmitAll(s.sokid, Chunks(p)[..0], draws) == []
    ensures s.Alive() ==> Written(s, p) == s.(death := Some(Timeout))
  {
    assert s.x.sent + [] == s.x.sent;
  }

  /** Where there is some, the first chunk goes out and then the others. */
  lemma {:induction false} MoreWritten(s: Sock, p: seq<byte>, draws: nat -> nat, segs: seq<Segment>)
    requires |p| > CHUNK && s.Alive() && s.sendwind < CAP
    ensures var mid, rest := EmitStep(TakeStep(s).sock, p[..CHUNK], draws(0)).sock, p[CHUNK..];
      && Written(s, p) == Written(mid, rest)
      && segs + EmitAll(s.sokid, Chunks(p)[..Room(s, p)], draws) ==
         segs + Emission(s.sokid, p[..CHUNK], draws(0))
              + EmitAll(s.sokid, Chunks(rest)[..Room(mid, rest)], (i: nat) => draws(i + 1))
  {
    var mid, first, rest := EmitStep(TakeStep(s).sock, p[..CHUNK], draws(0)).sock, p[..CHUNK], Chunks(p[CHUNK..]);
    var k := Room(s, p);
    assert Room(mid, p[CHUNK..]) == k - 1;
    assert Chunks(p)[..k] == [first] + rest[..k - 1];
    assert Chunks(p)[..k][1..] == rest[..k - 1];
    Associate(segs, Emission(s.sokid, first, draws(0)), EmitAll(s.sokid, rest[..k - 1], (i: nat) => draws(i + 1)));
    Associate(s.x.sent, first, Concat(rest[..k - 1]));
  }

  lemma {:induction false} OneWritten(s: Sock, p: seq<byte>, draws: nat -> nat)
    requires |p| <= CHUNK && s.Alive() && s.sendwind < CAP
    ensures Room(s, p) == 1 && Written(s, p) == EmitStep(TakeStep(s).sock, p, draws(0)).sock
    ensures EmitAll(s.sokid, Chunks(p)[..1], draws) == Emission(s.sokid, p, draws(0))
  {
    assert [p][1..] == [] && Chunks(p)[..1] == [p];
    assert Concat([p]) == p + [] == p;
    assert Emission(s.sokid, p, draws(0)) + [] == Emission(s.sokid, p, draws(0));
  }

  class Socket {
    const sokid: uint16
    const wire: Wire
    const ctxTomb: Tomb<Branch>
    var incoming: seq<Segment>
    var inbuf: seq<byte>
    var sendwind: nat
    var recvcount: byte
    var death: Option<Err>
    var once: bool
    ghost const name: nat       // tells apart sockets that use the same ID one after the other
    ghost var x: Aux

    ghost function View(): (s: Sock)
      reads this
    {
      Sock(sokid, wire.index, incoming, inbuf, sendwind, recvcount, death, once, x)
    }

    constructor (sokid: uint16, wire: Wire, ctxTomb: Tomb<Branch>, ghost name: nat, ghost announced: bool)
      ensures View() == NewSock(sokid, wire.index, announced)
      ensures this.sokid == sokid && this.wire == wire && this.ctxTomb == ctxTomb && this.name == name
    {
      this.sokid, this.wire, this.ctxTomb, this.name := sokid, wire, ctxTomb, name;
      incoming, inbuf, sendwind, recvcount, death, once := [], [], 0, 0, None, false;
      x := Aux(0, 0, false, announced, false, false, [], [], 0, 0, 0, 0);
    }

    ghost method MarkAnnounced()
      modifies `x
      ensures x == old(x).(announced := true)
    {
      x := x.(announced := true);
    }

    method Kill(err: Err)
      requires x.announced
      modifies this
      ensures View() == DieStep(old(View()), err).sock
    {
      if death == None {
        death := Some(err);
      }
    }

    method Close()
      requires x.announced && wire.Valid()
      modifies this, wire
      ensures wire.Valid()
      ensures View() == CloseStep(old(View())).sock
      ensures wire.segs == old(wire.segs) + CloseStep(old(View())).out
      ensures once && !old(once) ==>
        wire.segs == old(wire.segs) + [Segment(FL_CLOS, sokid, [])] && death == FirstKill(old(death), ClosedPipe)
      ensures old(once) ==> View() == old(View()) && wire.segs == old(wire.segs)
    {
      if !once {
        once := true;
        wire.Pack(Segment(FL_CLOS, sokid, []));
        if death == None {
          death := Some(ClosedPipe);
        }
      }
    }

    /** The select at the head of `realWrite`. When a slot is free and the socket is dying too, Go picks
        either (`coin`); when neither, nothing else running, the wait ends in the timeout. */
    method TakeSlot(coin: bool) returns (err: Option<Err>)
      requires x.announced
      modifies this
      ensures err == None ==> View() == TakeStep(old(View())).sock
      ensures err != None ==> err == death && View() == DieStep(old(View()), Timeout).sock
      ensures err == None <==> old(sendwind) < CAP && (coin || old(death) == None)
    {
      if sendwind < CAP && (coin || death == None) {
        sendwind := sendwind + 1;
        x := x.(tokens := x.tokens + 1);
        return None;
      }
      if death == None {
        death := Some(Timeout);
      }
      return death;
    }

    /** The size an emission is padded up to. */
    static method ChoosePad(n: nat, r: nat) returns (pad: nat)
      ensures pad == Target(n, r)
    {
      if n > 4096 {
        pad := 8192 + 1 + 2 + 2;
      } else if n > 2048 {
        pad := 4096;
      } else if n > 1024 {
        pad := 2048;
      } else if n > 512 {
        pad := 1024 + r % 512;
      } else if n > 256 {
        pad := 512 + r % 256;
      } else if n > 128 {
        pad := 256 + r % 128;
      } else {
        pad := 128 + r % 64;
      }
    }

    /** One chunk and its padding, in a single write to the wire. */
    method SendPadded(p: seq<byte>, r: nat)
      requires |p| <= CHUNK && wire.Valid()
      modifies wire
      ensures wire.Valid() && wire.segs == old(wire.segs) + Emission(sokid, p, r)
    {
      var pad: int := ChoosePad(|p|, r);
      var fpadlen := pad;
      pad := pad - |p|;
      pad := pad - (1 + 2 + 2) * 2;
      PaddedToTarget(sokid, p, r);
      if pad <= 0 {
        wire.Pack(DataSegment(sokid, p));
      } else {
        var data, aliv := DataSegment(sokid, p), AlivSegment(pad);
        EncodePair(data, aliv);
        var buf := Encode(data) + Encode(aliv);
        assert |buf| == fpadlen;   // otherwise the original panics
        wire.PackBuffer(buf, [data, aliv]);
      }
    }

    /** The locked part of `realWrite`. */
    method EmitChunk(p: seq<byte>, r: nat) returns (n: nat, err: Option<Err>)
      requires x.announced && x.tokens > 0 && |p| <= CHUNK && wire.Valid()
      modifies this, wire
      ensures wire.Valid()
      ensures View() == EmitStep(old(View()), p, r).sock
      ensures wire.segs == old(wire.segs) + EmitStep(old(View()), p, r).out
      ensures err == old(death) && n == if err == None then |p| else 0
    {
      x := x.(tokens := x.tokens - 1);
      if death != None {
        x := x.(abandoned := x.abandoned + 1);
        return 0, death;
      }
      SendPadded(p, r);
      x := x.(sent := x.sent + p);
      return |p|, None;
    }

    method RealWrite(p: seq<byte>, r: nat, coin: bool) returns (n: nat, err: Option<Err>)
      requires x.announced && |p| <= CHUNK && wire.Valid()
      modifies this, wire
      ensures wire.Valid()
      ensures old(death) == None && old(sendwind) < CAP ==>
        && n == |p| && err == None
        && View() == EmitStep(TakeStep(old(View())).sock, p, r).sock
        && wire.segs == old(wire.segs) + Emission(sokid, p, r)
      ensures old(death) != None || old(sendwind) >= CAP ==>
        && n == 0 && err == death == FirstKill(old(death), Timeout)
        && wire.segs == old(wire.segs) && x.sent == old(x.sent)
        && (old(death) == None ==> View() == old(View()).(death := Some(Timeout)))
      ensures x.announced && (old(sendwind) <= CAP ==> sendwind <= CAP)
    {
      err := TakeSlot(coin);
      if err != None {
        assert wire.segs == old(wire.segs);
        return 0, err;
      }
      n, err := EmitChunk(p, r);
    }

    /** With nothing else running, `Write` puts on the wire one emission a chunk for as many chunks as the
        send window has room, and then waits for room until the timeout. It reports all of the bytes, or an error
        and zero, even when some were sent. */
    method Write(p: seq<byte>, draws: nat -> nat, coin: bool) returns (n: nat, err: Option<Err>)
      requires x.announced && wire.Valid() && sendwind <= CAP
      modifies this, wire
      ensures wire.Valid() && x.announced && sendwind <= CAP
      ensures wire.segs == old(wire.segs) + EmitAll(sokid, Chunks(p)[..Room(old(View()), p)], draws)
      ensures old(death) == None ==> View() == Written(old(View()), p)
      ensures old(death) != None ==> death == old(death) && x.sent == old(x.sent)
      ensures err == death && n == if err == None then |p| else 0
      ensures err != None && old(death) == None ==> sendwind == CAP
      decreases |p|
    {
      ghost var before, segs := View(), wire.segs;
      if death != None || sendwind == CAP {
        NoneWritten(before, p, draws);
      } else if |p| > CHUNK {
        MoreWritten(before, p, draws, segs);
      } else {
        OneWritten(before, p, draws);
      }
      if |p| > CHUNK {
        n, err := RealWrite(p[..CHUNK], draws(0), coin);
        if err != None {
          return 0, err;
        }
        var fn := n;
        n, err := Write(p[CHUNK..], (i: nat) => draws(i + 1), coin);
        if err != None {
          return 0, err;
        }
        n := fn + n;
        return;
      }
      n, err := RealWrite(p, draws(0), coin);
    }

    /** `Read` with nothing else running: fills the front of the caller's buffer in place. */
    method Read(p: array<byte>, r: nat) returns (n: nat, err: Option<Err>)
      requires x.announced && !x.polling
      modifies this, p, ctxTomb
      ensures var (e, expected) := ReadCall(old(View()), p.Length, r);
        && View() == e.sock && err == expected
        && ctxTomb.cause == (if e.garbage then FirstKill(old(ctxTomb.cause), Garbage) else old(ctxTomb.cause))
      ensures n <= p.Length && x.got == old(x.got) + p[..n] && p[n..] == old(p[n..])
      ensures old(inbuf) != [] ==>
        && err == None && n == Min(p.Length, |old(inbuf)|)
        && p[..n] == old(inbuf)[..n] && inbuf == old(inbuf)[n..] && incoming == old(incoming)
      ensures old(inbuf) == [] && old(death) != None ==> n == 0 && err == old(death)
      ensures old(inbuf) == [] && old(death) == None && old(incoming) == [] ==> n == 0 && err == Some(Timeout) == death
      ensures err != None ==> n == 0 && old(inbuf) == []
    {
      if inbuf != [] {
        n := Min(p.Length, |inbuf|);
        Copy(p, inbuf[..n]);
        x := x.(got := x.got + inbuf[..n]);
        inbuf := inbuf[n..];
        return n, None;
      }
      n := 0;
      assert p[..0] == [];
      if death != None {
        return 0, death;
      }
      if incoming == [] {
        death := Some(Timeout);
        return 0, death;
      }
      var newseg := incoming[0];
      incoming := incoming[1..];
      if newseg.flag == FL_DATA {
        n := Receive(p, newseg.body, r);
        return n, None;
      } else if newseg.flag == FL_CLOS {
        death := Some(EOF);
        x := x.(eof := true);
        return 0, Some(EOF);
      } else {
        ctxTomb.Kill(Garbage);
        return 0, Some(ProtocolFail);
      }
    }

    /** The DATA branch of `Read`. */
    method Receive(p: array<byte>, body: seq<byte>, r: nat) returns (n: nat)
      modifies this, p
      ensures n == Min(p.Length, |body|) && p[..n] == body[..n] && p[n..] == old(p[n..])
      ensures var (rc, grant) := CountRead(old(recvcount), r);
        var g := if grant then 1 else 0;
        View() == old(View()).(inbuf := old(inbuf) + body[n..], recvcount := rc,
                               x := old(x).(got := old(x).got + body[..n], taken := old(x).taken + 1,
                                            granted := old(x).granted + g, pending := old(x).pending + g))
    {
      n := Min(p.Length, |body|);
      Copy(p, body[..n]);
      inbuf := inbuf + body[n..];
      recvcount := (recvcount + 255) % 256;
      ghost var g := 0;
      if recvcount < r % 64 + 32 {
        recvcount := (recvcount + COUNT) % 256;
        g := 1;
      }
      x := x.(got := x.got + body[..n], taken := x.taken + 1, granted := x.granted + g, pending := x.pending + g);
    }

    /** The goroutine `Read` starts when it grants credits. */
    method SendCredit()
      requires x.announced && x.pending > 0 && wire.Valid()
      modifies this, wire
      ensures wire.Valid()
      ensures View() == CreditStep(old(View())).sock
      ensures wire.segs == old(wire.segs) + CreditStep(old(View())).out
    {
      x := x.(pending := x.pending - 1);
      if death == None {
        wire.Pack(Segment(FL_ICWD, sokid, [COUNT]));
      } else {
        x := x.(dropped := x.dropped + 1);
      }
    }

    /** The demultiplexer's part that concerns one socket. */
    method Accept(seg: Segment) returns (kill: Option<Branch>)
      modifies this
      ensures Arrival(View(), kill) == Arrive(old(View()), seg)
    {
      if seg.flag == FL_ICWD {
        if seg.body == [] {
          return Some(Panic);
        }
        var i := 0;
        while i < seg.body[0]
          invariant 0 <= i <= seg.body[0]
          invariant i <= old(sendwind)
          invariant View() == old(View()).(sendwind := old(sendwind) - i)
        {
          if sendwind == 0 {
            return Some(IcwdOverflow);
          }
          sendwind := sendwind - 1;
          i := i + 1;
        }
        return None;
      }
      if |incoming| < CAP {
        incoming := incoming + [seg];
        return None;
      }
      if seg.flag == FL_CLOS {
        x := x.(refused := true);
      }
      return Some(Overfull);
    }
  }
}
