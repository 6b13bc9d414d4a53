/** The main results about a whole context: the invariant over every disciplined run, the refinement to
    independent links, and what both say about routing, kills, bytes, credits and closing. */
module MuxTheorems {
  import opened Segments
  import opened Sockets
  import opened Endpoints
  import opened Routing
  import opened Mux
  import opened MuxParts
  import opened MuxSteps
  import Links

  // ---------- one step ----------

  lemma KnownNames(w: World)
    requires Inv(w)
    ensures forall i | i in w.server.table :: w.server.table[i] in w.client.socks
                                              && w.client.socks[w.server.table[i]].sokid == i
    ensures w.next !in w.client.socks && w.next !in w.server.socks
  {
  }

  lemma TunnelInv(w: World, id: uint16, wire: nat)
    requires Inv(w) && Enabled(w, Tunnel(id, wire)) && Retired(w, id, wire)
    ensures Inv(Next(w, Tunnel(id, wire)))
  {
    var cs, ss, n := w.client.socks, w.server.socks, w.next;
    var cs' := cs[n := NewSock(id, wire, false)];
    KnownNames(w);
    SaneNext(w, Tunnel(id, wire));
    TunnelCarried(cs, ss, w.c2s, w.s2c, id, wire, n);
    TunnelSuperseded(cs, ss, w.client.table, w.c2s, w.s2c, id, wire, n);
    TunnelSeen(cs, ss, w.server.table, w.c2s, id, wire, n);
    TunnelRouting(cs, ss, w.client.table, w.s2c, id, wire, n);
    TunnelLinks(cs, ss, w.c2s, w.s2c, id, wire, n);
    forall j | j in cs' ensures Links.Inv(Pair(cs'[j], Peer(ss, cs'[j], j), w.c2s, w.s2c, j)) {
      if j == n {
        Links.InitInv(id, wire, true, true);
      } else {
        assert Links.Inv(Pair(cs[j], Peer(ss, cs[j], j), w.c2s, w.s2c, j));
      }
    }
  }

  lemma SendOpenInv(w: World, k: nat)
    requires Inv(w) && Enabled(w, SendOpen(k))
    ensures Inv(Next(w, SendOpen(k)))
  {
    var cs, ss := w.client.socks, w.server.socks;
    KnownNames(w);
    SaneNext(w, SendOpen(k));
    OpenSeen(cs, ss, w.server.table, w.c2s, w.s2c, k);
    OpenSuperseded(cs, ss, w.c2s, w.s2c, k);
    OpenCarried(cs, ss, w.client.table, w.c2s, w.s2c, k);
    OpenCount(cs, ss, w.c2s, k);
    OpenLinksOk(cs, ss, w.c2s, w.s2c, k);
  }

  /** The sockets of a pair satisfy the per-socket part of the invariant. */
  lemma PairFacts(w: World, k: nat)
    requires Inv(w) && k in w.client.socks
    ensures Links.Inv(Pair(w.client.socks[k], Peer(w.server.socks, w.client.socks[k], k), w.c2s, w.s2c, k))
    ensures Links.Deaths(w.client.socks[k])
    ensures k in w.server.socks ==> Links.Deaths(w.server.socks[k])
    ensures forall act | Can(w.client.socks[k], act) :: !Do(w.client.socks[k], act).garbage
    ensures forall act | k in w.server.socks && Can(w.server.socks[k], act) :: !Do(w.server.socks[k], act).garbage
  {
    var s := w.client.socks[k];
    var l := Pair(s, Peer(w.server.socks, s, k), w.c2s, w.s2c, k);
    assert Links.Inv(l);
    assert s.x.announced ==> s.x.(announced := true) == s.x;
    forall act | Can(s, act) ensures !Do(s, act).garbage {
      NoGarbage(l.b, l.a, l.ba, act);
    }
    forall act | k in w.server.socks && Can(w.server.socks[k], act) ensures !Do(w.server.socks[k], act).garbage {
      NoGarbage(l.a, l.b, l.ab, act);
    }
  }

  lemma ClientActInv(w: World, k: nat, act: Act)
    requires Inv(w) && Enabled(w, Local(Client, k, act))
    ensures Inv(Next(w, Local(Client, k, act)))
  {
    var cs, ss := w.client.socks, w.server.socks;
    SaneNext(w, Local(Client, k, act));
    PairFacts(w, k);
    ClientActSeen(cs, w.server.table, w.c2s, k, act);
    ClientActCarried(cs, ss, w.c2s, w.s2c, k, act);
    ClientActSuperseded(cs, ss, w.c2s, w.s2c, k, act);
    ClientActRest(cs, ss, w.client.table, w.c2s, w.s2c, k, act);
    ClientActLinks(cs, ss, w.c2s, w.s2c, k, act);
  }

  lemma ServerActCounts(cs: Socks, ss: Socks, c2s: Pipes, k: nat, s: Sock)
    requires k in ss && OpenOnce(cs, ss, c2s)
    ensures OpenOnce(cs, ss[k := s], c2s)
  {
    forall j | j in cs ensures OpenOnceAt(cs[j], j in ss[k := s], c2s, j) {
      assert OpenOnceAt(cs[j], j in ss, c2s, j);
    }
  }

  lemma ServerActInv(w: World, k: nat, act: Act)
    requires Inv(w) && Enabled(w, Local(Server, k, act))
    ensures Inv(Next(w, Local(Server, k, act)))
  {
    var cs, ss := w.client.socks, w.server.socks;
    SaneNext(w, Local(Server, k, act));
    PairFacts(w, k);
    ServerActSeen(cs, ss, w.client.table, w.s2c, k, act);
    ServerActCarried(cs, ss, w.s2c, k, act);
    ServerActSuperseded(cs, ss, w.c2s, w.s2c, k, act);
    ServerActLinks(cs, ss, w.c2s, w.s2c, k, act);
    ServerActCounts(cs, ss, w.c2s, k, Do(ss[k], act).sock);
  }

  /** Where a packet that is taken off a wire goes. */
  predicate Lands(e: Endpoint, p: Packet) {
    match Slot(e.table, p.seg.sokid)
    case None => p.seg.flag == FL_OPEN && p.inc !in e.socks
    case Some(k) => p.seg.flag != FL_OPEN && k == p.inc && k in e.socks
  }

  /** Routing: a packet that the server takes off a wire is either the OPEN of a socket it does not have,
      under an ID its table does not hold, or it is for a socket it has, and the table names that socket.
      The stray branch is unreachable. */
  lemma ServerRouting(w: World, wire: nat)
    requires Inv(w) && wire < |w.c2s| && w.c2s[wire] != []
    ensures var p := w.c2s[wire][0]; p.seg.flag != FL_ALIV ==> Lands(w.server, p) && Belongs(w.client.socks, wire, p)
  {
    HeadAllowed(w.server.table, w.c2s, wire);
    CarriedPop(w.client.socks, w.c2s, wire);
    var p := w.c2s[wire][0];
    if p.seg.flag == FL_OPEN {
      assert OpenOnceAt(w.client.socks[p.inc], p.inc in w.server.socks, w.c2s, p.inc);
      ChanFirst(w.c2s[wire], p.inc);
    }
  }

  lemma ClientRouting(w: World, wire: nat)
    requires Inv(w) && wire < |w.s2c| && w.s2c[wire] != []
    ensures var p := w.s2c[wire][0]; p.seg.flag != FL_ALIV ==>
      Lands(w.client, p) && Belongs(w.client.socks, wire, p) && p.seg.flag != FL_OPEN
  {
    HeadAllowed(w.client.table, w.s2c, wire);
    CarriedPop(w.client.socks, w.s2c, wire);
  }

  /** The one refusal an honest peer can meet at a socket. */
  predicate ClosOverflow(s: Sock, seg: Segment) {
    seg.flag == FL_CLOS && s.x.taken == 0 && Links.Datas(s.incoming) == CAP
  }

  /** What an honest peer's packet can be refused for: an OPEN that finds the accept queue full, and a CLOS for a
      socket that never had a DATA segment read and holds the whole initial window of them. */
  predicate Refused(e: Endpoint, p: Packet, cfg: Config) {
    if p.seg.flag == FL_OPEN then |e.backlog| >= cfg.acceptCap
    else p.seg.flag != FL_ALIV && p.inc in e.socks && ClosOverflow(e.socks[p.inc], p.seg)
  }

  function Verdict(e: Endpoint, p: Packet, cfg: Config): Option<Branch> {
    if !Refused(e, p, cfg) then None else if p.seg.flag == FL_OPEN then Some(AcceptOverflow) else Some(Overfull)
  }

  lemma ServerVerdict(w: World, wire: nat)
    requires Inv(w) && wire < |w.c2s| && w.c2s[wire] != []
    ensures var p := w.c2s[wire][0];
      && (p.seg.flag != FL_ALIV && p.seg.flag != FL_OPEN ==> p.inc in w.server.socks)
      && Dispatch(w.server, p.seg, wire, p.inc, w.scfg).fail == Verdict(w.server, p, w.scfg)
  {
    var p := w.c2s[wire][0];
    ServerRouting(w, wire);
    HeadAllowed(w.server.table, w.c2s, wire);
    RightEntry(w.server, p, wire, w.scfg);
    if !Links.Unaddressed(p.seg) {
      PairFacts(w, p.inc);
      ServerTakesLink(w.client.socks, w.server.socks, w.c2s, w.s2c, wire, p.inc);
      var l := Pair(w.client.socks[p.inc], Peer(w.server.socks, w.client.socks[p.inc], p.inc), w.c2s, w.s2c, p.inc);
      Links.HonestArrival(l.a, l.b, l.ab, l.ba);
    }
  }

  lemma ClientArrival(w: World, wire: nat)
    requires Inv(w) && wire < |w.s2c| && w.s2c[wire] != [] && w.s2c[wire][0].seg.flag != FL_ALIV
    ensures var p := w.s2c[wire][0];
      && p.inc in w.client.socks
      && Arrive(w.client.socks[p.inc], p.seg).kill ==
         if ClosOverflow(w.client.socks[p.inc], p.seg) then Some(Overfull) else None
  {
    var p := w.s2c[wire][0];
    ClientRouting(w, wire);
    PairFacts(w, p.inc);
    ClientTakesLink(w.client.socks, w.server.socks, w.c2s, w.s2c, wire, p.inc);
    var l := Pair(w.client.socks[p.inc], Peer(w.server.socks, w.client.socks[p.inc], p.inc), w.c2s, w.s2c, p.inc);
    Links.HonestArrival(l.b, l.a, l.ba, l.ab);
  }

  lemma ClientVerdict(w: World, wire: nat)
    requires Inv(w) && wire < |w.s2c| && w.s2c[wire] != []
    ensures var p := w.s2c[wire][0];
      && p.seg.flag != FL_OPEN && (p.seg.flag != FL_ALIV ==> p.inc in w.client.socks)
      && Dispatch(w.client, p.seg, wire, p.inc, w.ccfg).fail == Verdict(w.client, p, w.ccfg)
  {
    var p := w.s2c[wire][0];
    ClientRouting(w, wire);
    HeadAllowed(w.client.table, w.s2c, wire);
    RightEntry(w.client, p, wire, w.ccfg);
    if p.seg.flag != FL_ALIV {
      ClientArrival(w, wire);
    }
  }

  /** What every delivery to the server has in common. */
  lemma ServerPops(w: World, wire: nat)
    requires Inv(w) && Enabled(w, Deliver(Server, wire))
    ensures var p := w.c2s[wire][0];
      var t' := Dispatch(w.server, p.seg, wire, p.inc, w.scfg).e.table;
      && Sane(Next(w, Deliver(Server, wire))) && FairDeaths(Next(w, Deliver(Server, wire)))
      && Carried(w.client.socks, Pop(w.c2s, wire)) && Routed(t', Pop(w.c2s, wire))
      && ServerSees(w.client.socks, t', Pop(w.c2s, wire))
  {
    var cs, ss, p := w.client.socks, w.server.socks, w.c2s[wire][0];
    ServerRouting(w, wire);
    SaneNext(w, Deliver(Server, wire));
    HeadAllowed(w.server.table, w.c2s, wire);
    RightEntry(w.server, p, wire, w.scfg);
    var t' := Dispatch(w.server, p.seg, wire, p.inc, w.scfg).e.table;
    CarriedPop(cs, w.c2s, wire);
    SupersededApart(cs, ss, w.c2s, w.s2c);
    RoutedPop(cs, ss, w.server.table, t', w.c2s, wire);
    PopSeen(cs, ss, w.server.table, t', w.c2s, wire);
    ServerVerdict(w, wire);
  }

  lemma SamePairs(cs: Socks, ss: Socks, c2s: Pipes, s2c: Pipes, c2s': Pipes, s2c': Pipes)
    requires LinksOk(cs, ss, c2s, s2c)
    requires forall j | j in cs ::
      Pair(cs[j], Peer(ss, cs[j], j), c2s', s2c', j) == Pair(cs[j], Peer(ss, cs[j], j), c2s, s2c, j)
    ensures LinksOk(cs, ss, c2s', s2c')
  {
    forall j | j in cs ensures Links.Inv(Pair(cs[j], Peer(ss, cs[j], j), c2s', s2c', j)) {
      assert Links.Inv(Pair(cs[j], Peer(ss, cs[j], j), c2s, s2c, j));
    }
  }

  lemma ServerAlivInv(w: World, wire: nat)
    requires Inv(w) && Enabled(w, Deliver(Server, wire)) && w.c2s[wire][0].seg.flag == FL_ALIV
    ensures Inv(Next(w, Deliver(Server, wire)))
  {
    var cs, ss := w.client.socks, w.server.socks;
    ServerPops(w, wire);
    AlivLeaves(cs, ss, w.c2s, w.s2c, wire);
    ServerPopSuperseded(cs, ss, ss, w.c2s, w.s2c, wire);
    SamePairs(cs, ss, w.c2s, w.s2c, Pop(w.c2s, wire), w.s2c);
  }

  lemma ServerOpened(w: World, wire: nat)
    requires Inv(w) && Enabled(w, Deliver(Server, wire)) && w.c2s[wire][0].seg.flag == FL_OPEN
    ensures var p := w.c2s[wire][0];
      && p.inc !in w.server.socks
      && Next(w, Deliver(Server, wire)).server.socks == w.server.socks[p.inc := NewSock(p.seg.sokid, wire, true)]
  {
    ServerRouting(w, wire);
    HeadAllowed(w.server.table, w.c2s, wire);
    RightEntry(w.server, w.c2s[wire][0], wire, w.scfg);
  }

  lemma ServerOpenInv(w: World, wire: nat)
    requires Inv(w) && Enabled(w, Deliver(Server, wire)) && w.c2s[wire][0].seg.flag == FL_OPEN
    ensures Inv(Next(w, Deliver(Server, wire)))
  {
    var cs, ss, p := w.client.socks, w.server.socks, w.c2s[wire][0];
    var ss' := ss[p.inc := NewSock(p.seg.sokid, wire, true)];
    ServerPops(w, wire);
    CarriedPop(cs, w.c2s, wire);
    ServerOpened(w, wire);
    ServerOpens(cs, ss, w.client.table, w.c2s, w.s2c, wire);
    ServerOpensLinks(cs, ss, w.c2s, w.s2c, wire);
    ServerOpenSuperseded(cs, ss, w.c2s, w.s2c, wire);
    SamePairs(cs, ss', w.c2s, w.s2c, Pop(w.c2s, wire), w.s2c);
  }

  /** The socket a packet to the server is for, and what it becomes. */
  lemma ServerEntry(w: World, wire: nat)
    requires Inv(w) && Enabled(w, Deliver(Server, wire)) && !Links.Unaddressed(w.c2s[wire][0].seg)
    ensures var p := w.c2s[wire][0];
      && p.inc in w.server.socks
      && Next(w, Deliver(Server, wire)).server.socks ==
         w.server.socks[p.inc := Arrive(w.server.socks[p.inc], p.seg).sock]
  {
    ServerRouting(w, wire);
    HeadAllowed(w.server.table, w.c2s, wire);
    RightEntry(w.server, w.c2s[wire][0], wire, w.scfg);
  }

  lemma ServerTakeInv(w: World, wire: nat)
    requires Inv(w) && Enabled(w, Deliver(Server, wire)) && !Links.Unaddressed(w.c2s[wire][0].seg)
    ensures Inv(Next(w, Deliver(Server, wire)))
  {
    var cs, ss, p := w.client.socks, w.server.socks, w.c2s[wire][0];
    ServerPops(w, wire);
    CarriedPop(cs, w.c2s, wire);
    ServerEntry(w, wire);
    ServerTakes(cs, ss, w.client.table, w.c2s, w.s2c, wire);
    ServerTakesLinks(cs, ss, w.c2s, w.s2c, wire);
    ServerTakeSuperseded(cs, ss, w.c2s, w.s2c, wire);
  }

  lemma ServerDeliverInv(w: World, wire: nat)
    requires Inv(w) && Enabled(w, Deliver(Server, wire))
    ensures Inv(Next(w, Deliver(Server, wire)))
  {
    if w.c2s[wire][0].seg.flag == FL_ALIV {
      ServerAlivInv(w, wire);
    } else if w.c2s[wire][0].seg.flag == FL_OPEN {
      ServerOpenInv(w, wire);
    } else {
      ServerTakeInv(w, wire);
    }
  }

  lemma ClientPops(w: World, wire: nat)
    requires Inv(w) && Enabled(w, Deliver(Client, wire))
    ensures var p := w.s2c[wire][0];
      var t' := Dispatch(w.client, p.seg, wire, p.inc, w.ccfg).e.table;
      && p.seg.flag != FL_OPEN
      && Sane(Next(w, Deliver(Client, wire))) && FairDeaths(Next(w, Deliver(Client, wire)))
      && Carried(w.client.socks, Pop(w.s2c, wire)) && Routed(t', Pop(w.s2c, wire)) && NoOpens(Pop(w.s2c, wire))
      && ClientSees(w.client.socks, w.server.socks, t', Pop(w.s2c, wire))
  {
    var cs, ss, p := w.client.socks, w.server.socks, w.s2c[wire][0];
    ClientRouting(w, wire);
    SaneNext(w, Deliver(Client, wire));
    HeadAllowed(w.client.table, w.s2c, wire);
    RightEntry(w.client, p, wire, w.ccfg);
    var t' := Dispatch(w.client, p.seg, wire, p.inc, w.ccfg).e.table;
    CarriedPop(cs, w.s2c, wire);
    SupersededApart(cs, ss, w.c2s, w.s2c);
    RoutedPop(cs, ss, w.client.table, t', w.s2c, wire);
    PopSeen(cs, ss, w.client.table, t', w.s2c, wire);
    ClientVerdict(w, wire);
  }

  lemma ClientAlivInv(w: World, wire: nat)
    requires Inv(w) && Enabled(w, Deliver(Client, wire)) && w.s2c[wire][0].seg.flag == FL_ALIV
    ensures Inv(Next(w, Deliver(Client, wire)))
  {
    var cs, ss := w.client.socks, w.server.socks;
    ClientPops(w, wire);
    AlivLeaves(cs, ss, w.s2c, w.c2s, wire);
    ClientPopSuperseded(cs, cs, ss, w.c2s, w.s2c, wire);
    SamePairs(cs, ss, w.c2s, w.s2c, w.c2s, Pop(w.s2c, wire));
  }

  /** The socket a packet to the client is for, and what it becomes. */
  lemma ClientEntry(w: World, wire: nat)
    requires Inv(w) && Enabled(w, Deliver(Client, wire)) && w.s2c[wire][0].seg.flag != FL_ALIV
    ensures var p := w.s2c[wire][0];
      && !Links.Unaddressed(p.seg) && p.inc in w.client.socks && w.client.socks[p.inc].x.announced
      && Next(w, Deliver(Client, wire)).client.socks ==
         w.client.socks[p.inc := Arrive(w.client.socks[p.inc], p.seg).sock]
  {
    ClientRouting(w, wire);
    HeadAllowed(w.client.table, w.s2c, wire);
    RightEntry(w.client, w.s2c[wire][0], wire, w.ccfg);
  }

  lemma ClientTakeInv(w: World, wire: nat)
    requires Inv(w) && Enabled(w, Deliver(Client, wire)) && w.s2c[wire][0].seg.flag != FL_ALIV
    ensures Inv(Next(w, Deliver(Client, wire)))
  {
    var cs, ss, p := w.client.socks, w.server.socks, w.s2c[wire][0];
    ClientPops(w, wire);
    CarriedPop(cs, w.s2c, wire);
    ClientEntry(w, wire);
    var cs' := cs[p.inc := Arrive(cs[p.inc], p.seg).sock];
    ClientTakes(cs, ss, w.server.table, w.c2s, w.s2c, wire);
    ClientTakesLinks(cs, ss, w.c2s, w.s2c, wire);
    ClientSeesKeeps(cs, cs', ss, Next(w, Deliver(Client, wire)).client.table, Pop(w.s2c, wire));
    CarriedKeeps(cs, cs', Pop(w.s2c, wire));
    ClientTakeSuperseded(cs, ss, w.c2s, w.s2c, wire);
  }

  lemma ClientDeliverInv(w: World, wire: nat)
    requires Inv(w) && Enabled(w, Deliver(Client, wire))
    ensures Inv(Next(w, Deliver(Client, wire)))
  {
    if w.s2c[wire][0].seg.flag == FL_ALIV {
      ClientAlivInv(w, wire);
    } else {
      ClientTakeInv(w, wire);
    }
  }

  lemma KeepAliveInv(w: World, from: Side, wire: nat)
    requires Inv(w) && Enabled(w, KeepAlive(from, wire))
    ensures Inv(Next(w, KeepAlive(from, wire)))
  {
    var cs, ss := w.client.socks, w.server.socks;
    SaneNext(w, KeepAlive(from, wire));
    AlivSuperseded(cs, ss, w.c2s, w.s2c, wire);
    if from == Client {
      AlivRouted(cs, ss, w.server.table, w.c2s, wire);
      AlivJoins(cs, ss, w.c2s, w.s2c, wire);
      SamePairs(cs, ss, w.c2s, w.s2c, Push(w.c2s, wire, [ALIVE]), w.s2c);
    } else {
      AlivRouted(cs, ss, w.client.table, w.s2c, wire);
      AlivJoins(cs, ss, w.s2c, w.c2s, wire);
      SamePairs(cs, ss, w.c2s, w.s2c, w.c2s, Push(w.s2c, wire, [ALIVE]));
    }
  }

  /** The invariant survives every disciplined step. */
  lemma ActionInv(w: World, a: Action)
    requires Inv(w) && Enabled(w, a) && Disciplined(w, a)
    ensures Inv(Next(w, a))
  {
    match a
    case Tunnel(id, wire) => TunnelInv(w, id, wire);
    case SendOpen(k) => SendOpenInv(w, k);
    case Local(Client, k, act) => ClientActInv(w, k, act);
    case Local(Server, k, act) => ServerActInv(w, k, act);
    case Deliver(Client, wire) => ClientDeliverInv(w, wire);
    case Deliver(Server, wire) => ServerDeliverInv(w, wire);
    case KeepAlive(from, wire) => KeepAliveInv(w, from, wire);
    case Accept =>
  }

  // ---------- the refinement to independent links ----------

  ghost function PairOf(w: World, k: nat): Links.Link
    requires k in w.client.socks
  {
    var s := w.client.socks[k];
    Pair(s, Peer(w.server.socks, s, k), w.c2s, w.s2c, k)
  }

  /** Which step of the link of pair `k` a step of the context is, if any. */
  ghost function LinkStep(w: World, a: Action, k: nat): Option<Links.Step>
    requires Sane(w) && Enabled(w, a)
  {
    match a
    case Local(side, j, act) =>
      if j == k then Some(Links.Local(if side == Client then Links.A else Links.B, act)) else None
    case Deliver(Client, wire) =>
      var p := w.s2c[wire][0];
      if p.inc == k && !Links.Unaddressed(p.seg) then Some(Links.Deliver(Links.A)) else None
    case Deliver(Server, wire) =>
      var p := w.c2s[wire][0];
      if p.inc == k && !Links.Unaddressed(p.seg) then Some(Links.Deliver(Links.B)) else None
    case _ => None
  }

  predicate Moves(l: Links.Link, l': Links.Link, st: Links.Step) {
    Links.CanStep(l, st) && l' == Links.Next(l, st)
  }

  /** Pair `k` makes the step of its link that the action is for it, or does not move. */
  ghost predicate Steps(w: World, a: Action, k: nat)
    requires Sane(w) && Enabled(w, a) && k in w.client.socks
  {
    k in Next(w, a).client.socks &&
    match LinkStep(w, a, k)
    case None => PairOf(Next(w, a), k) == PairOf(w, k)
    case Some(st) => Moves(PairOf(w, k), PairOf(Next(w, a), k), st)
  }

  /** What a delivery leaves alone. */
  lemma ServerDelivers(w: World, wire: nat)
    requires Sane(w) && Enabled(w, Deliver(Server, wire))
    ensures var w' := Next(w, Deliver(Server, wire));
      && w'.client == w.client && w'.c2s == Pop(w.c2s, wire) && w'.s2c == w.s2c && w'.next == w.next
      && w'.ccfg == w.ccfg && w'.scfg == w.scfg
      && (w.c2s[wire][0].seg.flag == FL_ALIV ==> w'.server == w.server)
  {
  }

  lemma ClientDelivers(w: World, wire: nat)
    requires Sane(w) && Enabled(w, Deliver(Client, wire))
    ensures var w' := Next(w, Deliver(Client, wire));
      && w'.server == w.server && w'.s2c == Pop(w.s2c, wire) && w'.c2s == w.c2s && w'.next == w.next
      && w'.ccfg == w.ccfg && w'.scfg == w.scfg
      && (w.s2c[wire][0].seg.flag == FL_ALIV ==> w'.client == w.client)
  {
  }

  /** An OPEN that finds room: the new pair takes the entry of its ID, and waits to be accepted. */
  lemma OpenQueued(w: World, wire: nat)
    requires Sane(w) && wire < |w.c2s| && w.c2s[wire] != [] && w.server.killed == None && !w.scfg.rejectOpen
    requires w.c2s[wire][0].seg.flag == FL_OPEN && w.c2s[wire][0].inc !in w.server.socks
    requires |w.server.backlog| < w.scfg.acceptCap
    ensures Enabled(w, Deliver(Server, wire))
    ensures var v, p := Next(w, Deliver(Server, wire)), w.c2s[wire][0];
      && Sane(v) && v.client == w.client && v.c2s == Pop(w.c2s, wire) && v.next == w.next && v.scfg == w.scfg
      && v.server.killed == None && v.server.backlog == w.server.backlog + [p.inc]
      && v.server.table == w.server.table[p.seg.sokid := p.inc]
  {
    SaneNext(w, Deliver(Server, wire));
  }

  lemma ServerAlivSteps(w: World, wire: nat, k: nat)
    requires Sane(w) && Enabled(w, Deliver(Server, wire)) && k in w.client.socks
    requires w.c2s[wire][0].seg.flag == FL_ALIV
    ensures Steps(w, Deliver(Server, wire), k)
  {
    ServerDelivers(w, wire);
    AlivLeaves(w.client.socks, w.server.socks, w.c2s, w.s2c, wire);
  }

  lemma ServerOpenSteps(w: World, wire: nat, k: nat)
    requires Sane(w) && Enabled(w, Deliver(Server, wire)) && k in w.client.socks
    requires var p := w.c2s[wire][0];
      && p.seg.flag == FL_OPEN && p.inc !in w.server.socks && Belongs(w.client.socks, wire, p)
      && Next(w, Deliver(Server, wire)).server.socks == w.server.socks[p.inc := NewSock(p.seg.sokid, wire, true)]
    ensures Steps(w, Deliver(Server, wire), k)
  {
    ServerDelivers(w, wire);
    ServerOpensLinks(w.client.socks, w.server.socks, w.c2s, w.s2c, wire);
  }

  lemma ServerTakeSteps(w: World, wire: nat, k: nat)
    requires Sane(w) && Enabled(w, Deliver(Server, wire)) && k in w.client.socks
    requires var p := w.c2s[wire][0];
      && !Links.Unaddressed(p.seg) && p.inc in w.server.socks && Belongs(w.client.socks, wire, p)
      && Next(w, Deliver(Server, wire)).server.socks ==
         w.server.socks[p.inc := Arrive(w.server.socks[p.inc], p.seg).sock]
    ensures Steps(w, Deliver(Server, wire), k)
  {
    ServerDelivers(w, wire);
    ServerTakesLink(w.client.socks, w.server.socks, w.c2s, w.s2c, wire, k);
  }

  lemma ServerDeliverRefines(w: World, wire: nat, k: nat)
    requires Inv(w) && Enabled(w, Deliver(Server, wire)) && k in w.client.socks
    ensures Steps(w, Deliver(Server, wire), k)
  {
    CarriedPop(w.client.socks, w.c2s, wire);
    if w.c2s[wire][0].seg.flag == FL_ALIV {
      ServerAlivSteps(w, wire, k);
    } else if w.c2s[wire][0].seg.flag == FL_OPEN {
      ServerOpened(w, wire);
      ServerOpenSteps(w, wire, k);
    } else {
      ServerEntry(w, wire);
      ServerTakeSteps(w, wire, k);
    }
  }

  lemma ClientAlivSteps(w: World, wire: nat, k: nat)
    requires Sane(w) && Enabled(w, Deliver(Client, wire)) && k in w.client.socks
    requires w.s2c[wire][0].seg.flag == FL_ALIV
    ensures Steps(w, Deliver(Client, wire), k)
  {
    ClientDelivers(w, wire);
    AlivLeaves(w.client.socks, w.server.socks, w.s2c, w.c2s, wire);
  }

  lemma ClientTakeSteps(w: World, wire: nat, k: nat)
    requires Sane(w) && Enabled(w, Deliver(Client, wire)) && k in w.client.socks
    requires var p := w.s2c[wire][0];
      && !Links.Unaddressed(p.seg) && p.inc in w.client.socks && Belongs(w.client.socks, wire, p)
      && Next(w, Deliver(Client, wire)).client.socks ==
         w.client.socks[p.inc := Arrive(w.client.socks[p.inc], p.seg).sock]
    ensures Steps(w, Deliver(Client, wire), k)
  {
    ClientDelivers(w, wire);
    ClientTakesLink(w.client.socks, w.server.socks, w.c2s, w.s2c, wire, k);
  }

  lemma ClientDeliverRefines(w: World, wire: nat, k: nat)
    requires Inv(w) && Enabled(w, Deliver(Client, wire)) && k in w.client.socks
    ensures Steps(w, Deliver(Client, wire), k)
  {
    CarriedPop(w.client.socks, w.s2c, wire);
    if w.s2c[wire][0].seg.flag == FL_ALIV {
      ClientAlivSteps(w, wire, k);
    } else {
      ClientEntry(w, wire);
      ClientTakeSteps(w, wire, k);
    }
  }

  lemma OtherRefines(w: World, a: Action, k: nat)
    requires Sane(w) && Enabled(w, a) && k in w.client.socks && (a.Tunnel? || a.SendOpen? || a.KeepAlive? || a.Accept?)
    ensures k in Next(w, a).client.socks && PairOf(Next(w, a), k) == PairOf(w, k)
  {
    var cs, ss := w.client.socks, w.server.socks;
    match a
    case Tunnel(id, wire) => TunnelLinks(cs, ss, w.c2s, w.s2c, id, wire, w.next);
    case SendOpen(j) => OpenLinks(cs, ss, w.c2s, w.s2c, j);
    case KeepAlive(Client, wire) => AlivJoins(cs, ss, w.c2s, w.s2c, wire);
    case KeepAlive(Server, wire) => AlivJoins(cs, ss, w.s2c, w.c2s, wire);
    case Accept =>
  }

  lemma ClientActRefines(w: World, j: nat, act: Act, k: nat)
    requires Sane(w) && Enabled(w, Local(Client, j, act)) && k in w.client.socks
    ensures var w', st := Next(w, Local(Client, j, act)), Links.Local(Links.A, act);
      k in w'.client.socks && if j == k then Moves(PairOf(w, k), PairOf(w', k), st) else PairOf(w', k) == PairOf(w, k)
  {
    ClientActLink(w.client.socks, w.server.socks, w.c2s, w.s2c, j, act, k);
  }

  lemma ServerActRefines(w: World, j: nat, act: Act, k: nat)
    requires Sane(w) && Matched(w.client.socks, w.server.socks)
    requires Enabled(w, Local(Server, j, act)) && k in w.client.socks
    ensures var w', st := Next(w, Local(Server, j, act)), Links.Local(Links.B, act);
      k in w'.client.socks && if j == k then Moves(PairOf(w, k), PairOf(w', k), st) else PairOf(w', k) == PairOf(w, k)
  {
    ServerActLink(w.client.socks, w.server.socks, w.c2s, w.s2c, j, act, k);
  }

  /** Refinement: whatever the context does, each pair makes the corresponding step of a link of its own,
      or does not move. */
  lemma Refines(w: World, a: Action, k: nat)
    requires Inv(w) && Enabled(w, a) && Disciplined(w, a) && k in w.client.socks
    ensures Steps(w, a, k)
  {
    match a
    case Local(Client, j, act) => ClientActRefines(w, j, act, k);
    case Local(Server, j, act) => ServerActRefines(w, j, act, k);
    case Deliver(Server, wire) => ServerDeliverRefines(w, wire, k);
    case Deliver(Client, wire) => ClientDeliverRefines(w, wire, k);
    case _ => OtherRefines(w, a, k);
  }
}
