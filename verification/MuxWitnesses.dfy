/** The other way about: what one connection can do by itself, some context does, so the refinement of `MuxRuns`
    and the two refusals of `ExactKills` are not empty. */
module MuxWitnesses {
  import opened Segments
  import opened Sockets
  import opened Endpoints
  import opened Routing
  import opened Mux
  import opened MuxParts
  import opened MuxSteps
  import opened MuxTheorems
  import opened MuxRuns
  import Links

  /** A context with one wire and one pair of sockets, known to both ends and accepted. */
  ghost predicate OnePair(w: World) {
    && |w.c2s| == 1 && |w.s2c| == 1 && w.next == 1 && 0 in w.client.socks && 0 in w.server.socks
    && w.client.killed == None && w.server.killed == None && w.server.backlog == []
  }

  lemma OnePairFacts(w: World)
    requires Inv(w) && OnePair(w)
    ensures w.client.socks[0].x.announced && w.client.socks[0].wire == 0 && w.server.socks[0].wire == 0
    ensures PairOf(w, 0).a == w.client.socks[0] && PairOf(w, 0).b == w.server.socks[0]
    ensures PairOf(w, 0).ab == Chan(w.c2s[0], 0) && PairOf(w, 0).ba == Chan(w.s2c[0], 0)
  {
    var s := w.client.socks[0];
    assert s.x.(announced := true) == s.x;
  }

  /** The action of a context that is a given step of its only pair's link. */
  function Acting(st: Links.Step): Action {
    match st
    case Local(e, act) => Local(if e == Links.A then Client else Server, 0, act)
    case Deliver(e) => Deliver(if e == Links.A then Client else Server, 0)
  }

  lemma ClientMoves(w: World, act: Act)
    requires Sane(w) && OnePair(w) && Enabled(w, Local(Client, 0, act)) && !Do(w.client.socks[0], act).garbage
    ensures OnePair(Next(w, Local(Client, 0, act)))
  {
  }

  lemma ServerMoves(w: World, act: Act)
    requires Sane(w) && OnePair(w) && Enabled(w, Local(Server, 0, act)) && !Do(w.server.socks[0], act).garbage
    ensures OnePair(Next(w, Local(Server, 0, act)))
  {
  }

  lemma ClientLocal(w: World, act: Act)
    requires Inv(w) && OnePair(w) && Enabled(w, Local(Client, 0, act))
    ensures OnePair(Next(w, Local(Client, 0, act)))
  {
    PairFacts(w, 0);
    ClientMoves(w, act);
  }

  lemma ServerLocal(w: World, act: Act)
    requires Inv(w) && OnePair(w) && Enabled(w, Local(Server, 0, act))
    ensures OnePair(Next(w, Local(Server, 0, act)))
  {
    PairFacts(w, 0);
    ServerMoves(w, act);
  }

  lemma LocalEnabled(w: World, st: Links.Step)
    requires Sane(w) && OnePair(w) && st.Local?
    requires if st.e == Links.A then Can(w.client.socks[0], st.act) else Can(w.server.socks[0], st.act)
    ensures Enabled(w, Acting(st)) && LinkStep(w, Acting(st), 0) == Some(st)
  {
  }

  lemma LocalMoves(w: World, st: Links.Step)
    requires Inv(w) && OnePair(w) && Links.CanStep(PairOf(w, 0), st) && st.Local?
    ensures Enabled(w, Acting(st)) && LinkStep(w, Acting(st), 0) == Some(st) && OnePair(Next(w, Acting(st)))
  {
    OnePairFacts(w);
    LocalEnabled(w, st);
    if st.e == Links.A {
      ClientLocal(w, st.act);
    } else {
      ServerLocal(w, st.act);
    }
  }

  lemma {:induction false} HeadOfChan(pipe: seq<Packet>, k: nat)
    requires pipe != [] && pipe[0].inc == k && !Links.Unaddressed(pipe[0].seg)
    ensures [pipe[0].seg] <= Chan(pipe, k)
  {
    ChanFirst(pipe, k);
  }

  /** The only pair there is. */
  lemma OnlyName(w: World, pipes: Pipes)
    requires Sane(w) && w.next == 1 && (pipes == w.c2s || pipes == w.s2c) && |pipes| == 1 && pipes[0] != []
    ensures pipes[0][0].inc == 0
  {
  }

  /** The next packet is a keepalive, or the link's next segment. */
  lemma ServerHead(w: World)
    requires Inv(w) && OnePair(w) && w.c2s[0] != []
    ensures var p := w.c2s[0][0];
      p.seg.flag == FL_ALIV || (p.inc == 0 && !Links.Unaddressed(p.seg) && [p.seg] <= PairOf(w, 0).ab)
  {
    ServerRouting(w, 0);
    OnePairFacts(w);
    OnlyName(w, w.c2s);
    if w.c2s[0][0].seg.flag != FL_ALIV {
      HeadOfChan(w.c2s[0], 0);
    }
  }

  lemma ClientHead(w: World)
    requires Inv(w) && OnePair(w) && w.s2c[0] != []
    ensures var p := w.s2c[0][0];
      p.seg.flag == FL_ALIV || (p.inc == 0 && !Links.Unaddressed(p.seg) && [p.seg] <= PairOf(w, 0).ba)
  {
    ClientRouting(w, 0);
    OnePairFacts(w);
    OnlyName(w, w.s2c);
    if w.s2c[0][0].seg.flag != FL_ALIV {
      HeadOfChan(w.s2c[0], 0);
    }
  }

  /** Only an OPEN joins the accept queue. */
  lemma QueueKept(e: Endpoint, seg: Segment, wire: nat, name: nat, cfg: Config)
    requires WellFormed(e) && seg.flag != FL_OPEN
    ensures Dispatch(e, seg, wire, name, cfg).e.backlog == e.backlog
  {
  }

  /** Taking it leads to such a context again, unless it is refused. */
  lemma ServerTakesOne(w: World)
    requires Inv(w) && OnePair(w) && w.c2s[0] != []
    requires w.c2s[0][0].seg.flag == FL_ALIV || Arrive(w.server.socks[0], w.c2s[0][0].seg).kill == None
    ensures Enabled(w, Deliver(Server, 0)) && OnePair(Next(w, Deliver(Server, 0)))
    ensures LinkStep(w, Deliver(Server, 0), 0) ==
            if w.c2s[0][0].seg.flag == FL_ALIV then None else Some(Links.Deliver(Links.B))
  {
    ServerHead(w);
    HeadAllowed(w.server.table, w.c2s, 0);
    RightEntry(w.server, w.c2s[0][0], 0, w.scfg);
    QueueKept(w.server, w.c2s[0][0].seg, 0, w.c2s[0][0].inc, w.scfg);
    ServerDelivers(w, 0);
  }

  lemma ClientTakesOne(w: World)
    requires Inv(w) && OnePair(w) && w.s2c[0] != []
    requires w.s2c[0][0].seg.flag == FL_ALIV || Arrive(w.client.socks[0], w.s2c[0][0].seg).kill == None
    ensures Enabled(w, Deliver(Client, 0)) && OnePair(Next(w, Deliver(Client, 0)))
    ensures LinkStep(w, Deliver(Client, 0), 0) ==
            if w.s2c[0][0].seg.flag == FL_ALIV then None else Some(Links.Deliver(Links.A))
  {
    ClientHead(w);
    HeadAllowed(w.client.table, w.s2c, 0);
    RightEntry(w.client, w.s2c[0][0], 0, w.ccfg);
    ClientDelivers(w, 0);
  }

  /** The context can run so that its pair makes exactly these steps. */
  ghost predicate Realised(w: World, steps: seq<Links.Step>, acts: seq<Action>) {
    Legal(w, acts) && Trace(w, acts, 0) == steps && OnePair(After(w, acts))
  }

  ghost predicate Realisable(w: World, steps: seq<Links.Step>) {
    exists acts :: Realised(w, steps, acts)
  }

  function Did(st: Option<Links.Step>): seq<Links.Step> {
    match st case None => [] case Some(s) => [s]
  }

  /** One action in front of a run. */
  lemma Before(w: World, a: Action, steps: seq<Links.Step>)
    requires Sane(w) && Enabled(w, a) && !a.Tunnel? && Realisable(Next(w, a), steps)
    ensures Realisable(w, Did(LinkStep(w, a, 0)) + steps)
  {
    var acts :| Realised(Next(w, a), steps, acts);
    assert ([a] + acts)[1..] == acts;
    assert Did(None) + steps == steps;
    assert Realised(w, Did(LinkStep(w, a, 0)) + steps, [a] + acts);
  }

  /** What a step of the only pair's link needs of the context. */
  ghost predicate Ready(w: World, steps: seq<Links.Step>) {
    Inv(w) && OnePair(w) && Links.LegalRun(PairOf(w, 0), steps) && Links.Unrefused(PairOf(w, 0), steps)
  }

  function Carrying(w: World): nat
    requires |w.c2s| == 1 && |w.s2c| == 1
  {
    |w.c2s[0]| + |w.s2c[0]|
  }

  /** The keepalive that stands in the way on a wire, if any. */
  function Obstacle(w: World): Option<Side>
    requires |w.c2s| == 1 && |w.s2c| == 1
  {
    if w.c2s[0] != [] && w.c2s[0][0].seg.flag == FL_ALIV then Some(Server)
    else if w.s2c[0] != [] && w.s2c[0][0].seg.flag == FL_ALIV then Some(Client)
    else None
  }

  lemma KeepAliveTaken(w: World)
    requires Sane(w) && OnePair(w) && Obstacle(w).Some?
    ensures Enabled(w, Deliver(Obstacle(w).value, 0))
    ensures var a := Deliver(Obstacle(w).value, 0);
      LinkStep(w, a, 0) == None && Carrying(Next(w, a)) < Carrying(w) && OnePair(Next(w, a))
  {
    if Obstacle(w) == Some(Server) {
      ServerDelivers(w, 0);
    } else {
      ClientDelivers(w, 0);
    }
  }

  lemma KeepAliveSame(w: World, a: Action)
    requires Inv(w) && OnePair(w) && a.Deliver? && Enabled(w, a) && LinkStep(w, a, 0) == None
    ensures var v := Next(w, a); Inv(v) && 0 in v.client.socks && PairOf(v, 0) == PairOf(w, 0)
  {
    ActionInv(w, a);
    Refines(w, a, 0);
  }

  lemma ActingTakes(w: World, st: Links.Step)
    requires Inv(w) && OnePair(w) && Links.CanStep(PairOf(w, 0), st) && Links.Taken(PairOf(w, 0), st)
    requires st == Links.Deliver(Links.B) ==> w.c2s[0] != [] && w.c2s[0][0].seg.flag != FL_ALIV
    requires st == Links.Deliver(Links.A) ==> w.s2c[0] != [] && w.s2c[0][0].seg.flag != FL_ALIV
    ensures Enabled(w, Acting(st)) && LinkStep(w, Acting(st), 0) == Some(st) && OnePair(Next(w, Acting(st)))
  {
    OnePairFacts(w);
    match st
    case Local(_, _) =>
      LocalMoves(w, st);
    case Deliver(B) =>
      ServerHead(w);
      ServerTakesOne(w);
    case Deliver(A) =>
      ClientHead(w);
      ClientTakesOne(w);
  }

  /** Otherwise the context makes the link's next step. */
  lemma TakeOne(w: World, steps: seq<Links.Step>)
    requires Ready(w, steps) && steps != []
    requires steps[0] == Links.Deliver(Links.B) ==> w.c2s[0] != [] && w.c2s[0][0].seg.flag != FL_ALIV
    requires steps[0] == Links.Deliver(Links.A) ==> w.s2c[0] != [] && w.s2c[0][0].seg.flag != FL_ALIV
    ensures var a := Acting(steps[0]);
      Enabled(w, a) && LinkStep(w, a, 0) == Some(steps[0]) && Ready(Next(w, a), steps[1..])
  {
    var a := Acting(steps[0]);
    ActingTakes(w, steps[0]);
    ActionInv(w, a);
    Refines(w, a, 0);
  }

  lemma NothingToDo(w: World)
    requires OnePair(w)
    ensures Realisable(w, [])
  {
    var none: seq<Action> := [];
    assert Legal(w, none) && Trace(w, none, 0) == [] && After(w, none) == w;
    assert Realised(w, [], none);
  }

  lemma BeforeSame(w: World, a: Action, steps: seq<Links.Step>)
    requires Sane(w) && Enabled(w, a) && !a.Tunnel? && LinkStep(w, a, 0) == None && Realisable(Next(w, a), steps)
    ensures Realisable(w, steps)
  {
    Before(w, a, steps);
    assert Did(None) + steps == steps;
  }

  lemma DidFirst(steps: seq<Links.Step>)
    requires steps != []
    ensures Did(Some(steps[0])) + steps[1..] == steps
  {
  }

  lemma BeforeFirst(w: World, a: Action, steps: seq<Links.Step>)
    requires steps != [] && Sane(w) && Enabled(w, a) && !a.Tunnel?
    requires LinkStep(w, a, 0) == Some(steps[0]) && Realisable(Next(w, a), steps[1..])
    ensures Realisable(w, steps)
  {
    DidFirst(steps);
    Before(w, a, steps[1..]);
  }

  /** Every run of one connection that meets no refusal is, step for step, the run of the only pair of some context,
      with keepalives taken off the wires where they stand in the way. */
  lemma {:induction false} Realise(w: World, steps: seq<Links.Step>)
    requires Ready(w, steps)
    ensures Realisable(w, steps)
    decreases |steps|, Carrying(w), 1
  {
    if steps == [] {
      NothingToDo(w);
    } else if Obstacle(w).Some? {
      RealiseSkip(w, steps);
    } else {
      RealiseStep(w, steps);
    }
  }

  /** A keepalive at the head of a wire is taken first. */
  lemma {:induction false} RealiseSkip(w: World, steps: seq<Links.Step>)
    requires Ready(w, steps) && Obstacle(w).Some?
    ensures Realisable(w, steps)
    decreases |steps|, Carrying(w), 0
  {
    var a := Deliver(Obstacle(w).value, 0);
    KeepAliveTaken(w);
    KeepAliveSame(w, a);
    Realise(Next(w, a), steps);
    BeforeSame(w, a, steps);
  }

  /** What the link can take, the wire holds. */
  lemma Waiting(w: World, st: Links.Step)
    requires OnePair(w) && Links.CanStep(PairOf(w, 0), st)
    ensures st == Links.Deliver(Links.B) ==> w.c2s[0] != []
    ensures st == Links.Deliver(Links.A) ==> w.s2c[0] != []
  {
  }

  lemma {:induction false} RealiseStep(w: World, steps: seq<Links.Step>)
    requires Ready(w, steps) && steps != [] && Obstacle(w) == None
    ensures Realisable(w, steps)
    decreases |steps|, Carrying(w), 0
  {
    var a := Acting(steps[0]);
    Waiting(w, steps[0]);
    TakeOne(w, steps);
    Realise(Next(w, a), steps[1..]);
    BeforeFirst(w, a, steps);
  }

  // ---------- from the start ----------

  lemma StartReached(n: nat, ccfg: Config, scfg: Config)
    requires !scfg.rejectOpen
    ensures Reached(Init(n, ccfg, scfg))
  {
    var w, none: seq<Action> := Init(n, ccfg, scfg), [];
    assert Legal(w, none) && After(w, none) == w;
  }

  /** A state of a context with one wire. */
  function OneWire(ct: Table, cs: Socks, st: Table, ss: Socks, backlog: seq<nat>, c2s: seq<Packet>, s2c: seq<Packet>,
                   next: nat, ccfg: Config, scfg: Config): World
  {
    World(Endpoint(ct, cs, [], None), Endpoint(st, ss, backlog, None), [c2s], [s2c], next, ccfg, scfg)
  }

  lemma Same(a: World, b: World)
    requires a.client.table == b.client.table && a.client.socks == b.client.socks
    requires a.client.backlog == b.client.backlog
    requires a.server.table == b.server.table && a.server.socks == b.server.socks
    requires a.server.backlog == b.server.backlog
    requires a.client.killed == b.client.killed && a.server.killed == b.server.killed
    requires |a.c2s| == 1 == |b.c2s| && a.c2s[0] == b.c2s[0] && |a.s2c| == 1 == |b.s2c| && a.s2c[0] == b.s2c[0]
    requires a.next == b.next && a.ccfg == b.ccfg && a.scfg == b.scfg
    ensures a == b
  {
    assert a.c2s == b.c2s && a.s2c == b.s2c;
  }

  /** One pair under `id`, both ends new, and nothing under way. Until it is accepted it waits in `backlog`. */
  function Arrived(id: uint16, backlog: seq<nat>, ccfg: Config, scfg: Config): World {
    var s := NewSock(id, 0, true);
    OneWire(map[id := 0], map[0 := s], map[id := 0], map[0 := s], backlog, [], [], 1, ccfg, scfg)
  }

  function Paired(id: uint16, ccfg: Config, scfg: Config): World {
    Arrived(id, [], ccfg, scfg)
  }

  /** The two states before. */
  function Picked(id: uint16, ccfg: Config, scfg: Config): World {
    OneWire(map[id := 0], map[0 := NewSock(id, 0, false)], map[], map[], [], [], [], 1, ccfg, scfg)
  }

  function Opened(id: uint16, ccfg: Config, scfg: Config): World {
    OneWire(map[id := 0], map[0 := NewSock(id, 0, true)], map[], map[], [], [Packet(OpenSegment(id), 0)], [], 1,
            ccfg, scfg)
  }

  lemma PickedNext(id: uint16, ccfg: Config, scfg: Config)
    ensures var w := Init(1, ccfg, scfg);
      Sane(w) && Enabled(w, Tunnel(id, 0)) && Disciplined(w, Tunnel(id, 0))
      && Next(w, Tunnel(id, 0)) == Picked(id, ccfg, scfg)
  {
    var w := Init(1, ccfg, scfg);
    Same(Next(w, Tunnel(id, 0)), Picked(id, ccfg, scfg));
  }

  lemma OpenedNext(id: uint16, ccfg: Config, scfg: Config)
    ensures var w := Picked(id, ccfg, scfg);
      Sane(w) && Enabled(w, SendOpen(0)) && Next(w, SendOpen(0)) == Opened(id, ccfg, scfg)
  {
    var w := Picked(id, ccfg, scfg);
    assert Tag([OpenSegment(id)], 0) == [Packet(OpenSegment(id), 0)];
    Same(Next(w, SendOpen(0)), Opened(id, ccfg, scfg));
  }

  lemma ArrivedNext(id: uint16, ccfg: Config, scfg: Config)
    requires !scfg.rejectOpen && scfg.acceptCap > 0
    ensures var w := Opened(id, ccfg, scfg);
      Sane(w) && Enabled(w, Deliver(Server, 0)) && Next(w, Deliver(Server, 0)) == Arrived(id, [0], ccfg, scfg)
  {
    var w := Opened(id, ccfg, scfg);
    Same(Next(w, Deliver(Server, 0)), Arrived(id, [0], ccfg, scfg));
  }

  lemma PairedNext(id: uint16, ccfg: Config, scfg: Config)
    ensures var w := Arrived(id, [0], ccfg, scfg);
      Sane(w) && Enabled(w, Accept) && Next(w, Accept) == Paired(id, ccfg, scfg)
  {
    var w := Arrived(id, [0], ccfg, scfg);
    Same(Next(w, Accept), Paired(id, ccfg, scfg));
  }

  lemma PairedReached(id: uint16, ccfg: Config, scfg: Config)
    requires !scfg.rejectOpen && scfg.acceptCap > 0
    ensures Reached(Paired(id, ccfg, scfg))
  {
    StartReached(1, ccfg, scfg);
    PickedNext(id, ccfg, scfg);
    ReachedStep(Init(1, ccfg, scfg), Tunnel(id, 0));
    OpenedNext(id, ccfg, scfg);
    ReachedStep(Picked(id, ccfg, scfg), SendOpen(0));
    ArrivedNext(id, ccfg, scfg);
    ReachedStep(Opened(id, ccfg, scfg), Deliver(Server, 0));
    PairedNext(id, ccfg, scfg);
    ReachedStep(Arrived(id, [0], ccfg, scfg), Accept);
  }

  function NewLink(id: uint16): Links.Link {
    Links.Link(NewSock(id, 0, true), NewSock(id, 0, true), [], [])
  }

  /** The converse of refinement: any run of a new connection that meets no refusal is, step for step, what the pair
      does in some run of a context from the start. */
  lemma {:induction false} LinkIsRealised(id: uint16, ccfg: Config, scfg: Config, steps: seq<Links.Step>)
    requires !scfg.rejectOpen && scfg.acceptCap > 0
    requires Links.LegalRun(NewLink(id), steps) && Links.Unrefused(NewLink(id), steps)
    ensures var w := Paired(id, ccfg, scfg);
      Reached(w) && PairOf(w, 0) == NewLink(id) && Realisable(w, steps)
  {
    var w := Paired(id, ccfg, scfg);
    PairedReached(id, ccfg, scfg);
    Safety(w);
    assert PairOf(w, 0) == NewLink(id);
    Realise(w, steps);
  }

  // ---------- the two refusals ----------

  /** The server's next packet on some wire will kill it for this reason. */
  predicate Meets(w: World, b: Branch) {
    w.server.killed == None &&
    exists i | 0 <= i < |w.c2s| :: w.c2s[i] != [] && Verdict(w.server, w.c2s[i][0], w.scfg) == Some(b)
  }

  /** The link's next segment is at the front of the wire to the server. */
  ghost predicate InFront(w: World, v: World) {
    && 0 in w.client.socks && OnePair(v) && PairOf(v, 0) == PairOf(w, 0) && v.scfg == w.scfg
    && v.c2s[0] != [] && v.c2s[0][0].seg.flag != FL_ALIV
  }

  lemma ClearOne(w: World)
    requires Reached(w) && OnePair(w) && w.c2s[0] != [] && w.c2s[0][0].seg.flag == FL_ALIV
    ensures Sane(w) && Enabled(w, Deliver(Server, 0))
    ensures var w' := Next(w, Deliver(Server, 0));
      && Reached(w') && OnePair(w') && PairOf(w', 0) == PairOf(w, 0) && w'.scfg == w.scfg
      && |w'.c2s[0]| < |w.c2s[0]|
  {
    Safety(w);
    ServerTakesOne(w);
    ServerDelivers(w, 0);
    Refines(w, Deliver(Server, 0), 0);
    ReachedStep(w, Deliver(Server, 0));
  }

  /** The keepalives in front of it can be taken. */
  lemma {:induction false} Cleared(w: World)
    requires Reached(w) && OnePair(w) && PairOf(w, 0).ab != []
    ensures exists v :: Reached(v) && InFront(w, v)
    decreases |w.c2s[0]|
  {
    if w.c2s[0][0].seg.flag != FL_ALIV {
      assert InFront(w, w);
    } else {
      ClearOne(w);
      var w' := Next(w, Deliver(Server, 0));
      Cleared(w');
      var v :| Reached(v) && InFront(w', v);
      assert InFront(w, v);
    }
  }

  lemma RefusedIsClos(l: Links.Link)
    requires Links.Inv(l) && l.ab != [] && Arrive(l.b, l.ab[0]).kill == Some(Overfull)
    ensures ClosOverflow(l.b, l.ab[0])
  {
    Links.HonestArrival(l.a, l.b, l.ab, l.ba);
  }

  lemma MeetsAt(w: World, b: Branch)
    requires w.server.killed == None && |w.c2s| == 1 && w.c2s[0] != []
    requires Verdict(w.server, w.c2s[0][0], w.scfg) == Some(b)
    ensures Meets(w, b)
  {
  }

  lemma FrontIsRefused(w: World)
    requires Reached(w) && OnePair(w) && w.c2s[0] != [] && w.c2s[0][0].seg.flag != FL_ALIV && PairOf(w, 0).ab != []
    requires Arrive(PairOf(w, 0).b, PairOf(w, 0).ab[0]).kill == Some(Overfull)
    ensures Meets(w, Overfull)
  {
    ReachedPair(w, 0);
    RefusedIsClos(PairOf(w, 0));
    Safety(w);
    ServerHead(w);
    OnePairFacts(w);
    MeetsAt(w, Overfull);
  }

  lemma {:induction false} SameConfig(w: World, acts: seq<Action>)
    requires Legal(w, acts)
    ensures After(w, acts).scfg == w.scfg
    decreases |acts|
  {
    if acts != [] {
      SameConfig(Next(w, acts[0]), acts[1..]);
    }
  }

  /** A reachable context meets the refusal of a CLOS: its client writes 256 times and closes while nobody reads. */
  lemma OverfullHappens(ccfg: Config, scfg: Config)
    requires !scfg.rejectOpen && scfg.acceptCap > 0
    ensures exists w :: Reached(w) && w.scfg == scfg && Meets(w, Overfull)
  {
    var id: uint16 := 0;
    var steps, l := Links.ClosCanOverflow(id, 0);
    var w := Paired(id, ccfg, scfg);
    LinkIsRealised(id, ccfg, scfg, steps);
    var acts :| Realised(w, steps, acts);
    var v := After(w, acts);
    ReachedOn(w, acts);
    Safety(w);
    RunRefines(w, acts, 0);
    SameConfig(w, acts);
    Cleared(v);
    var u :| Reached(u) && InFront(v, u);
    FrontIsRefused(u);
  }

  /** `n` sockets were opened, and nobody has accepted any. */
  ghost predicate Piled(w: World, n: nat, scfg: Config) {
    && Reached(w) && Sane(w) && |w.c2s| == 1 && w.c2s[0] == [] && w.next == n && |w.server.backlog| == n
    && w.server.killed == None && w.scfg == scfg
    && (forall k | k in w.client.socks :: w.client.socks[k].sokid < n)
    && (forall id | id in w.client.table :: id < n)
  }

  /** One more is opened, and its OPEN is on the wire. */
  lemma OneMoreOpen(w: World, n: nat, scfg: Config)
    requires Piled(w, n, scfg) && n < 0x1_0000
    ensures Enabled(w, Tunnel(n, 0))
    ensures var w1 := Next(w, Tunnel(n, 0));
      && Sane(w1) && Enabled(w1, SendOpen(n))
      && var w2 := Next(w1, SendOpen(n));
      && Reached(w2) && Sane(w2) && w2.c2s == [[Packet(OpenSegment(n), n)]] && w2.server == w.server
      && w2.next == n + 1 && w2.scfg == scfg
      && (forall k | k in w2.client.socks :: w2.client.socks[k].sokid < n + 1)
      && (forall id | id in w2.client.table :: id < n + 1)
  {
    var w1 := Next(w, Tunnel(n, 0));
    SaneNext(w, Tunnel(n, 0));
    ReachedStep(w, Tunnel(n, 0));
    SaneNext(w1, SendOpen(n));
    ReachedStep(w1, SendOpen(n));
    assert Tag([OpenSegment(n)], n) == [Packet(OpenSegment(n), n)];
    assert [] + [Packet(OpenSegment(n), n)] == [Packet(OpenSegment(n), n)];
  }

  lemma OpenPiles(w: World, v: World, n: nat, scfg: Config)
    requires n < 0x1_0000 && w.c2s == [[Packet(OpenSegment(n), n)]] && |w.server.backlog| == n && w.next == n + 1
    requires forall k | k in w.client.socks :: w.client.socks[k].sokid < n + 1
    requires forall id | id in w.client.table :: id < n + 1
    requires Reached(v) && Sane(v) && v.client == w.client && v.c2s == Pop(w.c2s, 0) && v.next == w.next
    requires v.scfg == scfg
    requires v.server.killed == None && |v.server.backlog| == n + 1
    ensures var m := n + 1; Piled(v, m, scfg)
  {
    assert w.c2s[0][1..] == [];
  }

  lemma OpenAccepted(w: World, n: nat, scfg: Config)
    requires Reached(w) && n < scfg.acceptCap && n < 0x1_0000 && w.scfg == scfg && w.next == n + 1
    requires w.c2s == [[Packet(OpenSegment(n), n)]] && |w.server.backlog| == n && w.server.killed == None
    requires forall k | k in w.client.socks :: w.client.socks[k].sokid < n + 1
    requires forall id | id in w.client.table :: id < n + 1
    ensures var m := n + 1; exists v :: Piled(v, m, scfg)
  {
    Safety(w);
    ServerRouting(w, 0);
    OpenQueued(w, 0);
    ReachedStep(w, Deliver(Server, 0));
    OpenPiles(w, Next(w, Deliver(Server, 0)), n, scfg);
  }

  lemma OneMoreAccepted(w: World, n: nat, scfg: Config)
    requires Piled(w, n, scfg) && n < scfg.acceptCap < 0x1_0000
    ensures var m := n + 1; exists v :: Piled(v, m, scfg)
  {
    OneMoreOpen(w, n, scfg);
    OpenAccepted(Next(Next(w, Tunnel(n, 0)), SendOpen(n)), n, scfg);
  }

  lemma {:induction false} PileUp(n: nat, ccfg: Config, scfg: Config)
    requires !scfg.rejectOpen && n <= scfg.acceptCap < 0x1_0000
    ensures exists w :: Piled(w, n, scfg)
  {
    if n == 0 {
      StartReached(1, ccfg, scfg);
      assert Piled(Init(1, ccfg, scfg), 0, scfg);
    } else {
      PileUp(n - 1, ccfg, scfg);
      var w :| Piled(w, n - 1, scfg);
      OneMoreAccepted(w, n - 1, scfg);
    }
  }

  /** A reachable context meets the full accept queue: one socket too many is opened while nobody accepts. */
  lemma AcceptOverflowHappens(ccfg: Config, scfg: Config)
    requires !scfg.rejectOpen && scfg.acceptCap < 0x1_0000
    ensures exists w :: Reached(w) && w.scfg == scfg && Meets(w, AcceptOverflow)
  {
    var n := scfg.acceptCap;
    PileUp(n, ccfg, scfg);
    var w :| Piled(w, n, scfg);
    OneMoreOpen(w, n, scfg);
    MeetsAt(Next(Next(w, Tunnel(n, 0)), SendOpen(n)), AcceptOverflow);
  }
}
