/** Whole runs of a context: what holds in every state that any interleaving can reach. */
module MuxRuns {
  import opened Segments
  import opened Padding
  import opened Sockets
  import opened Endpoints
  import opened Routing
  import opened Mux
  import opened MuxParts
  import opened MuxSteps
  import opened MuxTheorems
  import Links

  /** A run: every step possible where it is taken, every ID picked by the discipline. (`Sane`, which the
      steps need to make sense, is part of the invariant.) */
  ghost predicate Legal(w: World, acts: seq<Action>)
    decreases |acts|
  {
    acts == [] ||
    (Sane(w) && Enabled(w, acts[0]) && Disciplined(w, acts[0]) && Legal(Next(w, acts[0]), acts[1..]))
  }

  ghost function After(w: World, acts: seq<Action>): World
    requires Legal(w, acts)
    decreases |acts|
  {
    if acts == [] then w else After(Next(w, acts[0]), acts[1..])
  }

  lemma {:induction false} ActionsInv(w: World, acts: seq<Action>)
    requires Inv(w) && Legal(w, acts)
    ensures Inv(After(w, acts))
    decreases |acts|
  {
    if acts != [] {
      ActionInv(w, acts[0]);
      ActionsInv(Next(w, acts[0]), acts[1..]);
    }
  }

  /** A state that some disciplined run from the start leads to, over any number of wires, with a server that
      takes OPENs. */
  ghost predicate Reached(w: World) {
    exists n: nat, ccfg: Config, scfg: Config, acts: seq<Action> ::
      !scfg.rejectOpen && Legal(Init(n, ccfg, scfg), acts) && After(Init(n, ccfg, scfg), acts) == w
  }

  /** Safety: in every state of every disciplined run from the start, however many sockets there are, on
      however many wires, and however often IDs are reused, the invariant holds. */
  lemma Safety(w: World)
    requires Reached(w)
    ensures Inv(w)
  {
    var n: nat, ccfg: Config, scfg: Config, acts: seq<Action> :|
      !scfg.rejectOpen && Legal(Init(n, ccfg, scfg), acts) && After(Init(n, ccfg, scfg), acts) == w;
    InitInv(n, ccfg, scfg);
    ActionsInv(Init(n, ccfg, scfg), acts);
  }

  /** Exact kills: in a reachable state neither side died of anything but the two refusals an honest peer can
      meet, and what comes next off a wire finds its own socket and kills a context exactly when it is refused. */
  lemma ExactKills(w: World, to: Side, wire: nat)
    requires Reached(w) && wire < |w.c2s| == |w.s2c| && (if to == Server then w.c2s else w.s2c)[wire] != []
    ensures w.client.killed == None || w.client.killed == Some(Overfull)
    ensures w.server.killed == None || w.server.killed == Some(Overfull) || w.server.killed == Some(AcceptOverflow)
    ensures var (e, p, cfg) :=
        if to == Server then (w.server, w.c2s[wire][0], w.scfg) else (w.client, w.s2c[wire][0], w.ccfg);
      && WellFormed(e) && (p.seg.flag != FL_ALIV ==> Lands(e, p))
      && Dispatch(e, p.seg, wire, p.inc, cfg).fail == Verdict(e, p, cfg)
  {
    Safety(w);
    if to == Server {
      ServerRouting(w, wire);
      ServerVerdict(w, wire);
    } else {
      ClientRouting(w, wire);
      ClientVerdict(w, wire);
    }
  }

  /** The steps of the link of pair `k` in a run of the context. */
  ghost function Trace(w: World, acts: seq<Action>, k: nat): seq<Links.Step>
    requires Legal(w, acts)
    decreases |acts|
  {
    if acts == [] then []
    else
      var rest := Trace(Next(w, acts[0]), acts[1..], k);
      match LinkStep(w, acts[0], k)
      case None => rest
      case Some(st) => [st] + rest
  }

  /** A run of the context is, for pair `k`, a run of its own link. */
  ghost predicate Follows(w: World, acts: seq<Action>, k: nat)
    requires Legal(w, acts)
  {
    && k in w.client.socks && k in After(w, acts).client.socks
    && Links.LegalRun(PairOf(w, k), Trace(w, acts, k))
    && Links.After(PairOf(w, k), Trace(w, acts, k)) == PairOf(After(w, acts), k)
  }

  lemma {:induction false} RunRefines(w: World, acts: seq<Action>, k: nat)
    requires Inv(w) && Legal(w, acts) && k in w.client.socks
    ensures Follows(w, acts, k)
    decreases |acts|
  {
    if acts != [] {
      var w' := Next(w, acts[0]);
      ActionInv(w, acts[0]);
      Refines(w, acts[0], k);
      RunRefines(w', acts[1..], k);
      var rest := Trace(w', acts[1..], k);
      if LinkStep(w, acts[0], k).Some? {
        assert ([LinkStep(w, acts[0], k).value] + rest)[1..] == rest;
      }
    }
  }

  /** Refinement: nothing any other socket, any padding or any keepalive does can be told from the point of view
      of a pair, however a run goes on from a reachable state. */
  lemma {:induction false} Refinement(w: World, acts: seq<Action>, k: nat)
    requires Reached(w) && Legal(w, acts) && k in w.client.socks
    ensures Follows(w, acts, k)
  {
    Safety(w);
    RunRefines(w, acts, k);
  }

  lemma ReachedPair(w: World, k: nat)
    requires Reached(w) && k in w.client.socks
    ensures Links.Inv(PairOf(w, k))
  {
    Safety(w);
    PairFacts(w, k);
  }

  lemma JoinFirst(a: seq<Action>, b: seq<Action>)
    ensures if a == [] then a + b == b else (a + b)[0] == a[0] && (a + b)[1..] == a[1..] + b
  {
  }

  /** Runs can be put together. */
  lemma {:induction false} RunsJoin(w: World, a: seq<Action>, b: seq<Action>)
    requires Legal(w, a) && Legal(After(w, a), b)
    ensures Legal(w, a + b) && After(w, a + b) == After(After(w, a), b)
    decreases |a|
  {
    JoinFirst(a, b);
    if a != [] {
      RunsJoin(Next(w, a[0]), a[1..], b);
    }
  }

  lemma {:induction false} LegalOne(w: World, a: Action)
    requires Sane(w) && Enabled(w, a) && Disciplined(w, a)
    ensures Legal(w, [a]) && After(w, [a]) == Next(w, a)
  {
    var rest := [a][1..];
    assert rest == [] && Legal(Next(w, a), rest) && After(Next(w, a), rest) == Next(w, a);
  }

  lemma {:induction false} ReachedOn(w: World, acts: seq<Action>)
    requires Reached(w) && Legal(w, acts)
    ensures Reached(After(w, acts))
  {
    var n: nat, ccfg: Config, scfg: Config, before: seq<Action> :|
      !scfg.rejectOpen && Legal(Init(n, ccfg, scfg), before) && After(Init(n, ccfg, scfg), before) == w;
    RunsJoin(Init(n, ccfg, scfg), before, acts);
  }

  lemma ReachedStep(w: World, a: Action)
    requires Reached(w) && Sane(w) && Enabled(w, a) && Disciplined(w, a)
    ensures Reached(Next(w, a))
  {
    LegalOne(w, a);
    ReachedOn(w, [a]);
  }

  /** Streams, both ways, for every pair in every reachable state: what was read, what is buffered, what is
      queued and what the wire carries for this pair are together, in order, what was put on the wire. */
  lemma Streams(w: World, k: nat)
    requires Reached(w) && k in w.client.socks
    ensures var s := w.client.socks[k];
      var p := Peer(w.server.socks, s, k);
      && p.x.got + p.inbuf + Payload(p.incoming) + Payload(On(w.c2s, s.wire, k)) == s.x.sent
      && s.x.got + s.inbuf + Payload(s.incoming) + Payload(On(w.s2c, s.wire, k)) == p.x.sent
  {
    ReachedPair(w, k);
  }

  /** Credits, both ways: every slot of a send window is a token, a DATA segment, a used-up part of the
      peer's receive window, a grant under way, or was lost to a death. */
  lemma CreditsConserved(w: World, k: nat)
    requires Reached(w) && k in w.client.socks
    ensures var s := w.client.socks[k];
      var p := Peer(w.server.socks, s, k);
      var (c, r) := (On(w.c2s, s.wire, k), On(w.s2c, s.wire, k));
      && s.sendwind == s.x.tokens + Links.Datas(c) + Links.Datas(p.incoming) + (CAP - p.Window())
                       + COUNT * (p.x.pending + Links.Icwds(r)) + s.x.abandoned + COUNT * p.x.dropped
      && p.sendwind == p.x.tokens + Links.Datas(r) + Links.Datas(s.incoming) + (CAP - s.Window())
                       + COUNT * (s.x.pending + Links.Icwds(c)) + p.x.abandoned + COUNT * s.x.dropped
      && (s.Alive() ==> s.x.abandoned == 0 && s.x.dropped == 0)
      && (p.Alive() ==> p.x.abandoned == 0 && p.x.dropped == 0)
  {
    ReachedPair(w, k);
  }

  /** Window safety, both ways: unread DATA and credits under way never exceed the receive window, at most two
      grants are under way, and the uint8 is the window modulo 256. */
  lemma Windows(w: World, k: nat)
    requires Reached(w) && k in w.client.socks
    ensures var s := w.client.socks[k];
      var p := Peer(w.server.socks, s, k);
      var (c, r) := (On(w.c2s, s.wire, k), On(w.s2c, s.wire, k));
      && Links.Datas(c) + Links.Datas(p.incoming) + COUNT * (p.x.pending + Links.Icwds(r)) <= p.Window()
      && Links.Datas(r) + Links.Datas(s.incoming) + COUNT * (s.x.pending + Links.Icwds(c)) <= s.Window()
      && p.x.pending + Links.Icwds(r) <= 2 && s.x.pending + Links.Icwds(c) <= 2
      && p.recvcount == p.Window() % 256 && s.recvcount == s.Window() % 256
      && 32 <= p.Window() <= CAP && 32 <= s.Window() <= CAP
  {
    ReachedPair(w, k);
    var l := PairOf(w, k);
    Links.WindowSafe(l.a, l.b, l.ab, l.ba);
    Links.WindowSafe(l.b, l.a, l.ba, l.ab);
  }

  /** No credit deadlock: between live ends a client socket whose window is full can count on a slot not yet used,
      DATA not yet read or a credit under way, and where there is none of these its peer's whole window is free. */
  lemma NoDeadlock(w: World, k: nat)
    requires Reached(w) && k in w.client.socks && k in w.server.socks
    requires w.client.socks[k].Alive() && w.server.socks[k].Alive()
    ensures var (s, p) := (w.client.socks[k], w.server.socks[k]);
      var (c, r) := (On(w.c2s, s.wire, k), On(w.s2c, s.wire, k));
      var there := s.x.tokens + Links.Datas(c) + Links.Datas(p.incoming) + p.x.pending + Links.Icwds(r);
      var back := p.x.tokens + Links.Datas(r) + Links.Datas(s.incoming) + s.x.pending + Links.Icwds(c);
      && (s.sendwind == CAP ==> there > 0) && (there == 0 ==> CAP - s.sendwind == p.Window() >= 32)
      && (p.sendwind == CAP ==> back > 0) && (back == 0 ==> CAP - p.sendwind == s.Window() >= 32)
  {
    ReachedPair(w, k);
    var l := PairOf(w, k);
    Links.NoDeadlock(l.a, l.b, l.ab, l.ba);
    Links.NoDeadlock(l.b, l.a, l.ba, l.ab);
  }

  /** Endings, both ways: a `Read` that met the peer's CLOS has returned every byte the peer put on the wire, and
      the peer has closed; also when both ends close at once. */
  lemma EofMeansAll(w: World, k: nat)
    requires Reached(w) && k in w.client.socks && k in w.server.socks
    ensures w.server.socks[k].x.eof ==>
      w.server.socks[k].x.got == w.client.socks[k].x.sent && w.client.socks[k].closed
    ensures w.client.socks[k].x.eof ==>
      w.client.socks[k].x.got == w.server.socks[k].x.sent && w.server.socks[k].closed
  {
    ReachedPair(w, k);
    var l := PairOf(w, k);
    if l.b.x.eof {
      Links.EofMeansAll(l.a, l.b, l.ab, l.ba);
    }
    if l.a.x.eof {
      Links.EofMeansAll(l.b, l.a, l.ba, l.ab);
    }
  }

  lemma ClientHas(cs: Socks, ss: Socks, t: Table, s2c: Pipes, k: nat)
    requires k in cs && QuietId(s2c, cs[k].wire, cs[k].sokid) && ClientSees(cs, ss, t, s2c)
    ensures Slot(t, cs[k].sokid) == Some(k) <==> !(k in ss && ss[k].closed)
  {
    RouteOther(Slot(t, cs[k].sokid), s2c[cs[k].wire], cs[k].sokid);
    assert Sees(t, s2c, cs[k], k) <==> !(k in ss && ss[k].closed);
  }

  lemma {:induction false} NoOpenCounted(pipe: seq<Packet>, k: nat, id: uint16, wire: nat, cs: Socks)
    requires forall i | 0 <= i < |pipe| :: !Concerns(pipe[i], id) && Belongs(cs, wire, pipe[i])
    requires k in cs && cs[k].sokid == id
    ensures Opens(pipe, k) == 0
    decreases |pipe|
  {
    if pipe != [] {
      NoOpenCounted(pipe[1..], k, id, wire, cs);
    }
  }

  lemma ServerHas(cs: Socks, ss: Socks, t: Table, c2s: Pipes, k: nat)
    requires k in cs && cs[k].x.announced && QuietId(c2s, cs[k].wire, cs[k].sokid)
    requires ServerSees(cs, t, c2s) && OpenOnce(cs, ss, c2s) && Carried(cs, c2s)
    ensures k in ss && (Slot(t, cs[k].sokid) == Some(k) <==> !cs[k].closed)
  {
    var s := cs[k];
    RouteOther(Slot(t, s.sokid), c2s[s.wire], s.sokid);
    assert Sees(t, c2s, s, k) <==> s.x.announced && !s.closed;
    assert OpenOnceAt(s, k in ss, c2s, k);
    forall i | 0 <= i < |c2s[s.wire]| ensures Belongs(cs, s.wire, c2s[s.wire][i]) {
    }
    NoOpenCounted(c2s[s.wire], k, s.sokid, s.wire, cs);
  }

  /** The two tables agree on a pair up to what is under way: once its wire has drained each end has the pair exactly
      if the other end has opened it and not closed it. Where nothing with its ID is under way they agree now. */
  lemma TablesAgree(w: World, k: nat)
    requires Reached(w) && k in w.client.socks
    ensures var s := w.client.socks[k];
      && (Sees(w.server.table, w.c2s, s, k) <==> s.x.announced && !s.closed)
      && (Sees(w.client.table, w.s2c, s, k) <==> !(k in w.server.socks && w.server.socks[k].closed))
    ensures var s := w.client.socks[k];
      s.x.announced && QuietId(w.c2s, s.wire, s.sokid) && QuietId(w.s2c, s.wire, s.sokid) ==>
        && k in w.server.socks
        && (Slot(w.server.table, s.sokid) == Some(k) <==> !s.closed)
        && (Slot(w.client.table, s.sokid) == Some(k) <==> !w.server.socks[k].closed)
  {
    Safety(w);
    var cs, ss := w.client.socks, w.server.socks;
    var s := cs[k];
    if s.x.announced && QuietId(w.c2s, s.wire, s.sokid) && QuietId(w.s2c, s.wire, s.sokid) {
      ServerHas(cs, ss, w.server.table, w.c2s, k);
      ClientHas(cs, ss, w.client.table, w.s2c, k);
    }
  }

  // ---------- quiescence ----------

  /** A keepalive still has to be taken; a socket that an OPEN makes has to be accepted as well. */
  function LooseOne(seg: Segment): nat {
    if seg.flag == FL_ALIV then 1 else if seg.flag == FL_OPEN then 2 else 0
  }

  function Loose(pipe: seq<Packet>): nat {
    if pipe == [] then 0 else LooseOne(pipe[0].seg) + Loose(pipe[1..])
  }

  function LooseAll(pipes: Pipes): nat {
    if pipes == [] then 0 else Loose(pipes[0]) + LooseAll(pipes[1..])
  }

  lemma {:induction false} LooseConcat(p: seq<Packet>, q: seq<Packet>)
    ensures Loose(p + q) == Loose(p) + Loose(q)
  {
    if p == [] {
      assert p + q == q;
    } else {
      LooseConcat(p[1..], q);
      assert (p + q)[1..] == p[1..] + q;
    }
  }

  lemma {:induction false} LooseUpdate(pipes: Pipes, wire: nat, pipe: seq<Packet>)
    requires wire < |pipes|
    ensures LooseAll(pipes[wire := pipe]) == LooseAll(pipes) - Loose(pipes[wire]) + Loose(pipe)
    decreases |pipes|
  {
    if wire == 0 {
      assert pipes[0 := pipe][1..] == pipes[1..];
    } else {
      LooseUpdate(pipes[1..], wire - 1, pipe);
      assert pipes[wire := pipe][1..] == pipes[1..][wire - 1 := pipe];
    }
  }

  ghost function PairWeight(w: World, k: nat): nat {
    if k in w.client.socks then Links.Weight(PairOf(w, k)) else 0
  }

  /** The weights of the first `n` pairs. */
  ghost function PairWeights(w: World, n: nat): nat {
    if n == 0 then 0 else PairWeights(w, n - 1) + PairWeight(w, n - 1)
  }

  ghost function WorldWeight(w: World): nat {
    PairWeights(w, w.next) + LooseAll(w.c2s) + LooseAll(w.s2c) + |w.server.backlog|
  }

  lemma {:induction false} SameWeights(w: World, w': World, n: nat)
    requires forall j: nat | j < n :: PairWeight(w', j) == PairWeight(w, j)
    ensures PairWeights(w', n) == PairWeights(w, n)
  {
    if n > 0 {
      SameWeights(w, w', n - 1);
    }
  }

  lemma {:induction false} OneWeight(w: World, w': World, n: nat, k: nat)
    requires k < n && forall j: nat | j != k :: PairWeight(w', j) == PairWeight(w, j)
    ensures PairWeights(w', n) == PairWeights(w, n) - PairWeight(w, k) + PairWeight(w', k)
  {
    if n - 1 == k {
      SameWeights(w, w', k);
    } else {
      OneWeight(w, w', n - 1, k);
    }
  }

  /** Finishing steps of a context: those of its sockets, deliveries, and accepting what was opened. */
  predicate FinishingAction(a: Action) {
    match a
    case Local(_, _, act) => Links.Finishing(act)
    case Deliver(_, _) => true
    case Accept => true
    case _ => false
  }

  lemma LooseSingle(p: Packet)
    ensures Loose([p]) == LooseOne(p.seg)
  {
    assert [p][1..] == [];
  }

  lemma OutLoose(s: Sock, k: nat, act: Act)
    requires Can(s, act)
    ensures Loose(Tag(Do(s, act).out, k)) <= if act.Emit? then 1 else 0
  {
    var out := Do(s, act).out;
    var ps := Tag(out, k);
    if |ps| == 2 {
      assert ps == [ps[0]] + [ps[1]];
      LooseConcat([ps[0]], [ps[1]]);
      LooseSingle(ps[0]);
      LooseSingle(ps[1]);
    } else if |ps| == 1 {
      assert ps == [ps[0]];
      LooseSingle(ps[0]);
    }
  }

  lemma {:induction false} ActLoose(pipes: Pipes, s: Sock, k: nat, act: Act)
    requires Can(s, act) && s.wire < |pipes|
    ensures LooseAll(Push(pipes, s.wire, Tag(Do(s, act).out, k))) <= LooseAll(pipes) + (if act.Emit? then 1 else 0)
  {
    var ps := Tag(Do(s, act).out, k);
    OutLoose(s, k, act);
    LooseConcat(pipes[s.wire], ps);
    LooseUpdate(pipes, s.wire, pipes[s.wire] + ps);
  }

  lemma {:induction false} PopLoose(pipes: Pipes, wire: nat)
    requires wire < |pipes| && pipes[wire] != []
    ensures LooseAll(Pop(pipes, wire)) == LooseAll(pipes) - LooseOne(pipes[wire][0].seg)
  {
    LooseUpdate(pipes, wire, pipes[wire][1..]);
  }

  lemma ClientDeliverSockets(w: World, wire: nat)
    requires Inv(w) && wire < |w.s2c| && w.s2c[wire] != []
    ensures var p := w.s2c[wire][0];
      Dispatch(w.client, p.seg, wire, p.inc, w.ccfg).e.socks.Keys == w.client.socks.Keys
  {
    ClientRouting(w, wire);
    HeadAllowed(w.client.table, w.s2c, wire);
    RightEntry(w.client, w.s2c[wire][0], wire, w.ccfg);
  }

  lemma OtherSameSockets(w: World, a: Action)
    requires Sane(w) && Enabled(w, a) && !a.Tunnel? && !(a.Deliver? && a.to == Client)
    ensures Next(w, a).client.socks.Keys == w.client.socks.Keys && Next(w, a).next == w.next
  {
  }

  lemma SameSockets(w: World, a: Action)
    requires Inv(w) && Enabled(w, a) && !a.Tunnel?
    ensures Next(w, a).client.socks.Keys == w.client.socks.Keys && Next(w, a).next == w.next
  {
    if a.Deliver? && a.to == Client {
      ClientDeliverSockets(w, a.wire);
    } else {
      OtherSameSockets(w, a);
    }
  }

  /** Pairs that take no step keep their weight. */
  lemma PairStays(w: World, a: Action, j: nat)
    requires Inv(w) && Enabled(w, a) && Disciplined(w, a) && !a.Tunnel? && LinkStep(w, a, j) == None
    ensures PairWeight(Next(w, a), j) == PairWeight(w, j)
  {
    if j in w.client.socks {
      Refines(w, a, j);
    } else {
      SameSockets(w, a);
    }
  }

  lemma WeightDrops(l: Links.Link, l': Links.Link, st: Links.Step)
    requires Moves(l, l', st) && Links.FinishingStep(st)
    ensures Links.Weight(l') + (if st.Local? && st.act.Emit? then 1 else 0) < Links.Weight(l)
  {
    Links.StepSinks(l, st);
  }

  /** What a finishing step of one link takes off the weight of the whole. */
  lemma {:induction false} SinksThroughPair(w: World, a: Action, k: nat, st: Links.Step)
    requires Inv(w) && Enabled(w, a) && !a.Tunnel? && k in w.client.socks
    requires LinkStep(w, a, k) == Some(st) && Links.FinishingStep(st)
    requires forall j | j != k :: LinkStep(w, a, j) == None
    ensures PairWeights(Next(w, a), w.next) + (if st.Local? && st.act.Emit? then 1 else 0) < PairWeights(w, w.next)
  {
    var w' := Next(w, a);
    forall j: nat | j != k ensures PairWeight(w', j) == PairWeight(w, j) {
      PairStays(w, a, j);
    }
    Refines(w, a, k);
    WeightDrops(PairOf(w, k), PairOf(w', k), st);
    OneWeight(w, w', w.next, k);
  }

  /** A keepalive or an OPEN that leaves a wire moves no pair. */
  lemma {:induction false} LooseSinks(w: World, a: Action)
    requires Inv(w) && Enabled(w, a) && !a.Tunnel? && forall j :: LinkStep(w, a, j) == None
    ensures PairWeights(Next(w, a), w.next) == PairWeights(w, w.next)
  {
    forall j: nat ensures PairWeight(Next(w, a), j) == PairWeight(w, j) {
      PairStays(w, a, j);
    }
    SameWeights(w, Next(w, a), w.next);
  }

  lemma ClientDeliverSinks(w: World, wire: nat)
    requires Inv(w) && Enabled(w, Deliver(Client, wire))
    ensures WorldWeight(Next(w, Deliver(Client, wire))) < WorldWeight(w)
  {
    var a, p := Deliver(Client, wire), w.s2c[wire][0];
    ClientRouting(w, wire);
    SameSockets(w, a);
    PopLoose(w.s2c, wire);
    if p.seg.flag == FL_ALIV {
      LooseSinks(w, a);
    } else {
      SinksThroughPair(w, a, p.inc, Links.Deliver(Links.A));
    }
  }

  /** Only an OPEN can lengthen the accept queue. */
  lemma ServerDeliverQueues(w: World, wire: nat)
    requires Sane(w) && Enabled(w, Deliver(Server, wire))
    ensures |Next(w, Deliver(Server, wire)).server.backlog| <=
            |w.server.backlog| + (if w.c2s[wire][0].seg.flag == FL_OPEN then 1 else 0)
  {
  }

  lemma ServerDeliverSinks(w: World, wire: nat)
    requires Inv(w) && Enabled(w, Deliver(Server, wire))
    ensures WorldWeight(Next(w, Deliver(Server, wire))) < WorldWeight(w)
  {
    var a, p := Deliver(Server, wire), w.c2s[wire][0];
    ServerRouting(w, wire);
    ServerDelivers(w, wire);
    ServerDeliverQueues(w, wire);
    PopLoose(w.c2s, wire);
    if Links.Unaddressed(p.seg) {
      LooseSinks(w, a);
    } else {
      SinksThroughPair(w, a, p.inc, Links.Deliver(Links.B));
    }
  }

  lemma ClientActSinks(w: World, k: nat, act: Act)
    requires Inv(w) && Enabled(w, Local(Client, k, act)) && Links.Finishing(act)
    ensures WorldWeight(Next(w, Local(Client, k, act))) < WorldWeight(w)
  {
    ActLoose(w.c2s, w.client.socks[k], k, act);
    SinksThroughPair(w, Local(Client, k, act), k, Links.Local(Links.A, act));
  }

  lemma ServerActWires(w: World, k: nat, act: Act)
    requires Sane(w) && Enabled(w, Local(Server, k, act))
    ensures var w' := Next(w, Local(Server, k, act));
      w'.c2s == w.c2s && w'.next == w.next && LooseAll(w'.s2c) <= LooseAll(w.s2c) + (if act.Emit? then 1 else 0)
  {
    ActLoose(w.s2c, w.server.socks[k], k, act);
  }

  lemma ServerActSinks(w: World, k: nat, act: Act)
    requires Inv(w) && Enabled(w, Local(Server, k, act)) && Links.Finishing(act)
    ensures WorldWeight(Next(w, Local(Server, k, act))) < WorldWeight(w)
  {
    ServerActWires(w, k, act);
    SinksThroughPair(w, Local(Server, k, act), k, Links.Local(Links.B, act));
  }

  lemma AcceptSinks(w: World)
    requires Inv(w) && Enabled(w, Accept)
    ensures WorldWeight(Next(w, Accept)) < WorldWeight(w)
  {
    LooseSinks(w, Accept);
  }

  /** Quiescence: every finishing step of every schedule lowers one weight of the whole context, so with no
      new write, open, close or timeout any schedule stops within `WorldWeight(w)` steps. */
  lemma ActionSinks(w: World, a: Action)
    requires Inv(w) && Enabled(w, a) && FinishingAction(a)
    ensures WorldWeight(Next(w, a)) < WorldWeight(w)
  {
    match a
    case Deliver(Client, wire) => ClientDeliverSinks(w, wire);
    case Deliver(Server, wire) => ServerDeliverSinks(w, wire);
    case Local(Client, k, act) => ClientActSinks(w, k, act);
    case Local(Server, k, act) => ServerActSinks(w, k, act);
    case Accept => AcceptSinks(w);
  }

  lemma {:induction false} FinishingRunBounded(w: World, acts: seq<Action>)
    requires Inv(w) && Legal(w, acts) && forall i | 0 <= i < |acts| :: FinishingAction(acts[i])
    ensures |acts| + WorldWeight(After(w, acts)) <= WorldWeight(w)
    decreases |acts|
  {
    if acts != [] {
      ActionInv(w, acts[0]);
      ActionSinks(w, acts[0]);
      FinishingRunBounded(Next(w, acts[0]), acts[1..]);
    }
  }

  // ---------- what a finished context has done ----------

  /** While an end is alive, none of its sockets has had to refuse a CLOS. */
  ghost predicate Unharmed(e: Endpoint) {
    e.killed == None ==> forall k | k in e.socks :: !e.socks[k].x.refused
  }

  lemma DispatchUnharmed(e: Endpoint, seg: Segment, wire: nat, name: nat, cfg: Config)
    requires WellFormed(e) && Unharmed(e)
    ensures Unharmed(Dispatch(e, seg, wire, name, cfg).e)
  {
  }

  lemma ActUnharmed(e: Endpoint, k: nat, act: Act)
    requires k in e.socks && Can(e.socks[k], act) && Unharmed(e)
    ensures Unharmed(SetSock(e, k, Do(e.socks[k], act)))
  {
  }

  lemma ActionUnharmed(w: World, a: Action)
    requires Sane(w) && Enabled(w, a) && Unharmed(w.client) && Unharmed(w.server)
    ensures Unharmed(Next(w, a).client) && Unharmed(Next(w, a).server)
  {
    match a
    case Local(Client, k, act) => ActUnharmed(w.client, k, act);
    case Local(Server, k, act) => ActUnharmed(w.server, k, act);
    case Deliver(Client, wire) => DispatchUnharmed(w.client, w.s2c[wire][0].seg, wire, w.s2c[wire][0].inc, w.ccfg);
    case Deliver(Server, wire) => DispatchUnharmed(w.server, w.c2s[wire][0].seg, wire, w.c2s[wire][0].inc, w.scfg);
    case _ =>
  }

  lemma {:induction false} RunUnharmed(w: World, acts: seq<Action>)
    requires Legal(w, acts) && Unharmed(w.client) && Unharmed(w.server)
    ensures Unharmed(After(w, acts).client) && Unharmed(After(w, acts).server)
    decreases |acts|
  {
    if acts != [] {
      ActionUnharmed(w, acts[0]);
      RunUnharmed(Next(w, acts[0]), acts[1..]);
    }
  }

  lemma ReachedUnharmed(w: World)
    requires Reached(w)
    ensures Unharmed(w.client) && Unharmed(w.server)
  {
    var n: nat, ccfg: Config, scfg: Config, acts: seq<Action> :|
      !scfg.rejectOpen && Legal(Init(n, ccfg, scfg), acts) && After(Init(n, ccfg, scfg), acts) == w;
    RunUnharmed(Init(n, ccfg, scfg), acts);
  }

  lemma {:induction false} TraceFinishing(w: World, acts: seq<Action>, k: nat)
    requires Legal(w, acts) && forall i | 0 <= i < |acts| :: FinishingAction(acts[i])
    ensures forall i | 0 <= i < |Trace(w, acts, k)| :: Links.FinishingStep(Trace(w, acts, k)[i])
    decreases |acts|
  {
    if acts != [] {
      TraceFinishing(Next(w, acts[0]), acts[1..], k);
      var rest, st := Trace(Next(w, acts[0]), acts[1..], k), LinkStep(w, acts[0], k);
      assert st.Some? ==> Links.FinishingStep(st.value);
      assert Trace(w, acts, k) == if st.Some? then [st.value] + rest else rest;
    }
  }

  /** No finishing step is left, and neither side was killed. */
  ghost predicate Quiet(w: World) {
    && Sane(w) && w.client.killed == None && w.server.killed == None
    && forall a | FinishingAction(a) :: !Enabled(w, a)
  }

  lemma NothingLeft(w: World, k: nat, st: Links.Step)
    requires Quiet(w) && Matched(w.client.socks, w.server.socks)
    requires k in w.server.socks && Links.FinishingStep(st)
    ensures !Links.CanStep(PairOf(w, k), st)
  {
    var wire := w.client.socks[k].wire;
    assert !Enabled(w, Accept);
    match st
    case Local(A, act) => assert !Enabled(w, Local(Client, k, act));
    case Local(B, act) => assert !Enabled(w, Local(Server, k, act));
    case Deliver(A) => assert !Enabled(w, Deliver(Client, wire));
    case Deliver(B) => assert !Enabled(w, Deliver(Server, wire));
  }

  /** The OPEN of pair `k` was sent. */
  predicate Open(w: World, k: nat) {
    k in w.client.socks && w.client.socks[k].x.announced
  }

  /** The server has every pair whose OPEN was sent. */
  lemma QuietKnows(w: World, k: nat)
    requires Quiet(w) && OpenOnce(w.client.socks, w.server.socks, w.c2s) && Open(w, k)
    ensures k in w.server.socks
  {
    var s := w.client.socks[k];
    assert !Enabled(w, Deliver(Server, s.wire));
    assert OpenOnceAt(s, k in w.server.socks, w.c2s, k);
  }

  lemma QuietPair(w: World, k: nat)
    requires Inv(w) && Quiet(w) && Unharmed(w.client) && Unharmed(w.server) && Open(w, k)
    ensures k in w.server.socks && Links.Settled(w.client.socks[k], w.server.socks[k])
  {
    QuietKnows(w, k);
    var s := w.client.socks[k];
    var l := PairOf(w, k);
    assert Links.Inv(l);
    assert s.x.(announced := true) == s.x;
    forall st | Links.FinishingStep(st) ensures !Links.CanStep(l, st) {
      NothingLeft(w, k, st);
    }
    Links.QuietLink(l);
  }

  /** What pair `k` has come to since the schedule began at `w`: an end that was alive then has all that its peer
      sent, and has ended if and only if its peer has closed. */
  ghost predicate Finished(w: World, end: World, k: nat)
    requires k in w.client.socks
  {
    && k in end.client.socks && k in end.server.socks
    && var s, p := end.client.socks[k], end.server.socks[k];
    && (PairOf(w, k).a.Alive() ==> Links.HasAll(s, p)) && (PairOf(w, k).b.Alive() ==> Links.HasAll(p, s))
    && Links.Settled(s, p)
  }

  lemma FinishedFrom(w: World, end: World, k: nat)
    requires k in w.client.socks && Open(end, k) && k in end.server.socks
    requires Links.Settled(end.client.socks[k], end.server.socks[k])
    requires PairOf(w, k).a.Alive() ==> Links.Spared(PairOf(end, k).a)
    requires PairOf(w, k).b.Alive() ==> Links.Spared(PairOf(end, k).b)
    ensures Finished(w, end, k)
  {
  }

  /** Nobody dies of anything but its peer's CLOS while only finishing steps are taken. */
  lemma {:induction false} BothSpared(w: World, acts: seq<Action>, k: nat)
    requires Legal(w, acts) && (forall i | 0 <= i < |acts| :: FinishingAction(acts[i])) && Follows(w, acts, k)
    ensures PairOf(w, k).a.Alive() ==> Links.Spared(PairOf(After(w, acts), k).a)
    ensures PairOf(w, k).b.Alive() ==> Links.Spared(PairOf(After(w, acts), k).b)
  {
    TraceFinishing(w, acts, k);
    Links.RunSparesBoth(PairOf(w, k), Trace(w, acts, k));
  }

  lemma {:induction false} PairFinished(w: World, acts: seq<Action>, k: nat)
    requires Inv(w) && Legal(w, acts) && (forall i | 0 <= i < |acts| :: FinishingAction(acts[i]))
    requires k in w.client.socks && Open(After(w, acts), k)
    requires Inv(After(w, acts)) && Quiet(After(w, acts))
    requires Unharmed(After(w, acts).client) && Unharmed(After(w, acts).server)
    ensures Finished(w, After(w, acts), k)
  {
    QuietPair(After(w, acts), k);
    RunRefines(w, acts, k);
    BothSpared(w, acts, k);
    FinishedFrom(w, After(w, acts), k);
  }

  /** Quiescence: from any reachable state, any schedule of finishing steps is at most as long as the weight there.
      Where it ends with nothing left to finish, every end that was alive when it began has read all that its peer
      sent, and has ended, by the CLOS, if and only if its peer has closed; and a pair that is alive has all its
      credits. */
  lemma {:induction false} Quiescence(w: World, acts: seq<Action>)
    requires Reached(w) && Legal(w, acts) && forall i | 0 <= i < |acts| :: FinishingAction(acts[i])
    ensures |acts| <= WorldWeight(w)
    ensures var end := After(w, acts);
      Quiet(end) ==> forall k | k in w.client.socks && Open(end, k) :: Finished(w, end, k)
  {
    Safety(w);
    FinishingRunBounded(w, acts);
    ReachedOn(w, acts);
    Safety(After(w, acts));
    ReachedUnharmed(After(w, acts));
    if Quiet(After(w, acts)) {
      forall k | k in w.client.socks && Open(After(w, acts), k) ensures Finished(w, After(w, acts), k) {
        PairFinished(w, acts, k);
      }
    }
  }
}
