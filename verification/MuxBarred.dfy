/** When a new pair can never reach the server: the server is dead, or its wire brings a CLOS first that ends it. Such
    a pick does no harm, whatever the ID: apart from the new pair, the context goes on as one where it was not made. */
module MuxBarred {
  import opened Segments
  import opened Sockets
  import opened Endpoints
  import opened Routing
  import opened Mux
  import opened MuxParts
  import opened MuxSteps
  import opened MuxTheorems
  import opened MuxRuns
  import opened MuxDelivery
  import opened MuxServing
  import Links

  // ---------- a wire without one pair ----------

  function Keep(pipe: seq<Packet>, n: nat): seq<Packet> {
    if pipe == [] then [] else (if pipe[0].inc == n then [] else [pipe[0]]) + Keep(pipe[1..], n)
  }

  function KeepAll(pipes: Pipes, n: nat): (r: Pipes)
    ensures |r| == |pipes| && forall i | 0 <= i < |r| :: r[i] == Keep(pipes[i], n)
  {
    seq(|pipes|, i requires 0 <= i < |pipes| => Keep(pipes[i], n))
  }

  lemma {:induction false} KeepConcat(p: seq<Packet>, q: seq<Packet>, n: nat)
    ensures Keep(p + q, n) == Keep(p, n) + Keep(q, n)
  {
    if p == [] {
      assert p + q == q;
    } else {
      KeepConcat(p[1..], q, n);
      assert (p + q)[1..] == p[1..] + q;
      var first := if p[0].inc == n then [] else [p[0]];
      assert first + (Keep(p[1..], n) + Keep(q, n)) == first + Keep(p[1..], n) + Keep(q, n);
    }
  }

  lemma {:induction false} KeepNone(pipe: seq<Packet>, n: nat)
    requires forall i | 0 <= i < |pipe| :: pipe[i].inc == n
    ensures Keep(pipe, n) == []
  {
    if pipe != [] {
      KeepNone(pipe[1..], n);
    }
  }

  lemma {:induction false} KeepEvery(pipe: seq<Packet>, n: nat)
    requires forall i | 0 <= i < |pipe| :: pipe[i].inc != n
    ensures Keep(pipe, n) == pipe
  {
    if pipe != [] {
      KeepEvery(pipe[1..], n);
    }
  }

  lemma {:induction false} KeptIsThere(pipe: seq<Packet>, n: nat, i: nat)
    requires i < |Keep(pipe, n)|
    ensures Keep(pipe, n)[i] in pipe
  {
    if pipe[0].inc == n {
      KeptIsThere(pipe[1..], n, i);
    } else if i > 0 {
      KeptIsThere(pipe[1..], n, i - 1);
    }
  }

  lemma KeepPush(pipes: Pipes, wire: nat, segs: seq<Segment>, k: nat, n: nat)
    requires wire < |pipes|
    ensures KeepAll(Push(pipes, wire, Tag(segs, k)), n) ==
            if k == n then KeepAll(pipes, n) else Push(KeepAll(pipes, n), wire, Tag(segs, k))
  {
    KeepConcat(pipes[wire], Tag(segs, k), n);
    if k == n {
      KeepNone(Tag(segs, k), n);
      assert Keep(pipes[wire], n) + [] == Keep(pipes[wire], n);
    } else {
      KeepEvery(Tag(segs, k), n);
    }
  }

  lemma KeepIdle(pipes: Pipes, wire: nat, n: nat)
    requires wire < |pipes| && n > 0
    ensures KeepAll(Push(pipes, wire, [ALIVE]), n) == Push(KeepAll(pipes, n), wire, [ALIVE])
  {
    KeepConcat(pipes[wire], [ALIVE], n);
    KeepEvery([ALIVE], n);
  }

  lemma {:induction false} KeepPop(pipes: Pipes, wire: nat, n: nat)
    requires wire < |pipes| && pipes[wire] != [] && pipes[wire][0].inc != n
    ensures Keep(pipes[wire], n) != [] && Keep(pipes[wire], n)[0] == pipes[wire][0]
    ensures KeepAll(Pop(pipes, wire), n) == Pop(KeepAll(pipes, n), wire)
  {
    assert Keep(pipes[wire], n)[1..] == Keep(pipes[wire][1..], n);
  }

  lemma KeepQuiet(pipes: Pipes, wire: nat, n: nat, id: uint16)
    requires QuietId(pipes, wire, id)
    ensures QuietId(KeepAll(pipes, n), wire, id)
  {
    forall i | 0 <= i < |Keep(pipes[wire], n)| ensures !Concerns(Keep(pipes[wire], n)[i], id) {
      KeptIsThere(pipes[wire], n, i);
    }
  }

  // ---------- a context without one pair ----------

  function WithoutEntry(e: Endpoint, id: uint16, n: nat): Endpoint {
    e.(table := e.table - {id}, socks := e.socks - {n})
  }

  /** The context as if pair `n`, which has the ID `id` at the client, had never been. */
  function WithoutPair(w: World, id: uint16, n: nat): World {
    w.(client := WithoutEntry(w.client, id, n), c2s := KeepAll(w.c2s, n))
  }

  /** Only the client knows pair `n`. */
  ghost predicate Alone(w: World, id: uint16, n: nat) {
    && Sane(w) && 0 < n < w.next && n in w.client.socks && n !in w.server.socks
    && id in w.client.table && w.client.table[id] == n
    && w.client.socks[n].sokid == id && w.client.socks[n].incoming == []
    && (forall i, m | 0 <= i < |w.s2c| && 0 <= m < |w.s2c[i]| :: w.s2c[i][m].inc != n)
    && (forall i, m | 0 <= i < |w.c2s| && 0 <= m < |w.c2s[i]| && i != w.client.socks[n].wire :: w.c2s[i][m].inc != n)
  }

  lemma SetWithout(e: Endpoint, k: nat, eff: Effect, id: uint16, n: nat)
    ensures WithoutEntry(SetSock(e, k, eff), id, n).socks ==
            if k == n then WithoutEntry(e, id, n).socks else SetSock(WithoutEntry(e, id, n), k, eff).socks
    ensures k != n ==> WithoutEntry(SetSock(e, k, eff), id, n) == SetSock(WithoutEntry(e, id, n), k, eff)
  {
  }

  lemma DispatchWithout(e: Endpoint, seg: Segment, wire: nat, name: nat, cfg: Config, id: uint16, n: nat)
    requires WellFormed(e) && WellFormed(WithoutEntry(e, id, n)) && id in e.table && e.table[id] == n
    requires seg.flag != FL_OPEN && (seg.flag == FL_ALIV || seg.sokid != id)
    ensures WithoutEntry(Dispatch(e, seg, wire, name, cfg).e, id, n) ==
            Dispatch(WithoutEntry(e, id, n), seg, wire, name, cfg).e
    ensures var e' := Dispatch(e, seg, wire, name, cfg).e;
      id in e'.table && e'.table[id] == n && n in e'.socks && e'.socks[n] == e.socks[n]
  {
  }

  /** A step of the new pair itself cannot be seen by the others. */
  lemma OwnStep(w: World, a: Action, id: uint16, n: nat)
    requires Alone(w, id, n) && Enabled(w, a) && (a == SendOpen(n) || (a.Local? && a.side == Client && a.k == n))
    ensures Alone(Next(w, a), id, n) && WithoutPair(Next(w, a), id, n) == WithoutPair(w, id, n)
  {
    SaneNext(w, a);
    var s := w.client.socks[n];
    var out := if a.SendOpen? then Announce(s).out else Do(s, a.act).out;
    KeepPush(w.c2s, s.wire, out, n, n);
    SetWithout(w.client, n, if a.SendOpen? then Announce(s) else Do(s, a.act), id, n);
  }

  /** A step that the context also makes without the pair, and that leads to the same. */
  ghost predicate Shared(w: World, a: Action, id: uint16, n: nat)
    requires Sane(w) && Enabled(w, a) && Sane(WithoutPair(w, id, n))
  {
    var v := WithoutPair(w, id, n);
    && Enabled(v, a) && Disciplined(v, a)
    && WithoutPair(Next(w, a), id, n) == Next(v, a) && Alone(Next(w, a), id, n)
  }

  lemma OpenShared(w: World, k: nat, id: uint16, n: nat)
    requires Alone(w, id, n) && Sane(WithoutPair(w, id, n)) && Enabled(w, SendOpen(k)) && k != n
    ensures Shared(w, SendOpen(k), id, n)
  {
    var a, s := SendOpen(k), w.client.socks[k];
    SaneNext(w, a);
    KeepPush(w.c2s, s.wire, [OpenSegment(s.sokid)], k, n);
    SetWithout(w.client, k, Announce(s), id, n);
  }

  lemma ClientActApart(w: World, k: nat, act: Act, id: uint16, n: nat)
    requires Alone(w, id, n) && Enabled(w, Local(Client, k, act)) && k != n
    ensures Alone(Next(w, Local(Client, k, act)), id, n)
  {
    SaneNext(w, Local(Client, k, act));
  }

  lemma ClientActShared(w: World, k: nat, act: Act, id: uint16, n: nat)
    requires Alone(w, id, n) && Sane(WithoutPair(w, id, n)) && Enabled(w, Local(Client, k, act)) && k != n
    ensures Shared(w, Local(Client, k, act), id, n)
  {
    var s := w.client.socks[k];
    ClientActApart(w, k, act, id, n);
    KeepPush(w.c2s, s.wire, Do(s, act).out, k, n);
    SetWithout(w.client, k, Do(s, act), id, n);
  }

  lemma ServerActShared(w: World, k: nat, act: Act, id: uint16, n: nat)
    requires Alone(w, id, n) && Sane(WithoutPair(w, id, n)) && Enabled(w, Local(Server, k, act))
    ensures Shared(w, Local(Server, k, act), id, n)
  {
    SaneNext(w, Local(Server, k, act));
  }

  /** The rest of the context keeps the discipline by itself. */
  lemma TunnelDisciplined(w: World, id': uint16, wire: nat, id: uint16, n: nat)
    requires Sane(w) && Retired(w, id', wire)
    ensures Retired(WithoutPair(w, id, n), id', wire)
  {
    var v := WithoutPair(w, id, n);
    forall j | j in v.client.socks && v.client.socks[j].sokid == id'
      ensures var s := v.client.socks[j]; s.closed && (s.wire == wire || QuietId(v.c2s, s.wire, id'))
    {
      if w.client.socks[j].wire != wire {
        KeepQuiet(w.c2s, w.client.socks[j].wire, n, id');
      }
    }
  }

  lemma TunnelShared(w: World, id': uint16, wire: nat, id: uint16, n: nat)
    requires Alone(w, id, n) && Sane(WithoutPair(w, id, n))
    requires Enabled(w, Tunnel(id', wire)) && Disciplined(w, Tunnel(id', wire))
    ensures Shared(w, Tunnel(id', wire), id, n)
  {
    var a, v := Tunnel(id', wire), WithoutPair(w, id, n);
    SaneNext(w, a);
    TunnelDisciplined(w, id', wire, id, n);
    assert Next(w, a).client.table - {id} == Next(v, a).client.table;
    assert Next(w, a).client.socks - {n} == Next(v, a).client.socks;
  }

  lemma KeepAliveShared(w: World, from: Side, wire: nat, id: uint16, n: nat)
    requires Alone(w, id, n) && Sane(WithoutPair(w, id, n)) && Enabled(w, KeepAlive(from, wire))
    ensures Shared(w, KeepAlive(from, wire), id, n)
  {
    SaneNext(w, KeepAlive(from, wire));
    if from == Client {
      KeepIdle(w.c2s, wire, n);
    }
  }

  lemma AcceptShared(w: World, id: uint16, n: nat)
    requires Alone(w, id, n) && Sane(WithoutPair(w, id, n)) && Enabled(w, Accept)
    ensures Shared(w, Accept, id, n)
  {
  }

  /** What reaches the client is for the others. */
  lemma ClientDeliverShared(w: World, i: nat, id: uint16, n: nat)
    requires Alone(w, id, n) && Sane(WithoutPair(w, id, n)) && Enabled(w, Deliver(Client, i))
    requires !Concerns(w.s2c[i][0], id) && w.s2c[i][0].seg.flag != FL_OPEN
    ensures Shared(w, Deliver(Client, i), id, n)
  {
    SaneNext(w, Deliver(Client, i));
    ClientDelivers(w, i);
    DispatchWithout(w.client, w.s2c[i][0].seg, i, w.s2c[i][0].inc, w.ccfg, id, n);
  }

  lemma ServerDeliverShared(w: World, i: nat, id: uint16, n: nat)
    requires Alone(w, id, n) && Sane(WithoutPair(w, id, n)) && Enabled(w, Deliver(Server, i))
    requires w.c2s[i][0].inc != n && (w.c2s[i][0].seg.flag == FL_OPEN ==> w.c2s[i][0].inc !in w.server.socks)
    ensures Shared(w, Deliver(Server, i), id, n)
  {
    var a := Deliver(Server, i);
    SaneNext(w, a);
    KeepPop(w.c2s, i, n);
    ServerDelivers(w, i);
  }

  // ---------- what bars the way ----------

  /** Place `m` of a wire holds the CLOS of pair `k`, and nothing of pair `n` is in front of it. */
  predicate Bar(pipe: seq<Packet>, m: nat, k: nat, n: nat) {
    m < |pipe| && pipe[m].seg.flag == FL_CLOS && pipe[m].inc == k && forall x | 0 <= x <= m :: pipe[x].inc != n
  }

  /** Such a CLOS on the pair's wire is hopeless. */
  ghost predicate BarredBy(w: World, id: uint16, n: nat, m: nat, k: nat) {
    && n in w.client.socks && w.client.socks[n].wire < |w.c2s| && Bar(w.c2s[w.client.socks[n].wire], m, k, n)
    && var v := WithoutPair(w, id, n); k in v.client.socks && Links.Doomed(PairOf(v, k))
  }

  /** Pair `n` will never reach the server, and without it the context is as any other. */
  ghost predicate Stuck(w: World, id: uint16, n: nat) {
    && Alone(w, id, n) && Inv(WithoutPair(w, id, n))
    && (w.server.killed != None || exists m, k :: BarredBy(w, id, n, m, k))
  }

  lemma BarGrows(pipe: seq<Packet>, more: seq<Packet>, m: nat, k: nat, n: nat)
    requires Bar(pipe, m, k, n) && pipe <= more
    ensures Bar(more, m, k, n)
  {
  }

  lemma BarPops(pipe: seq<Packet>, m: nat, k: nat, n: nat)
    requires Bar(pipe, m, k, n) && m > 0
    ensures Bar(pipe[1..], m - 1, k, n)
  {
  }

  /** Other steps only add to a wire. */
  lemma OnlyGrows(w: World, a: Action, i: nat)
    requires Sane(w) && Enabled(w, a) && a != Deliver(Server, i) && i < |w.c2s|
    ensures i < |Next(w, a).c2s| && w.c2s[i] <= Next(w, a).c2s[i]
  {
  }

  lemma Remains(w: World, a: Action, n: nat)
    requires Sane(w) && Enabled(w, a) && Fresh(w, a) && n in w.client.socks
    ensures n in Next(w, a).client.socks && Next(w, a).client.socks[n].wire == w.client.socks[n].wire
  {
  }

  lemma DeadStays(w: World, a: Action)
    requires Sane(w) && Enabled(w, a) && w.server.killed != None
    ensures Next(w, a).server.killed != None
  {
  }

  /** A server that lives on has refused nothing. */
  lemma NotRefused(v: World, i: nat)
    requires Inv(v) && Enabled(v, Deliver(Server, i)) && Next(v, Deliver(Server, i)).server.killed == None
    ensures Verdict(v.server, v.c2s[i][0], v.scfg) == None
  {
    ServerVerdict(v, i);
    HeadAllowed(v.server.table, v.c2s, i);
    RightEntry(v.server, v.c2s[i][0], i, v.scfg);
  }

  /** What a socket of the server takes, as a step of its link. */
  lemma TakenByLink(v: World, i: nat)
    requires Inv(v) && Enabled(v, Deliver(Server, i)) && !Links.Unaddressed(v.c2s[i][0].seg)
    ensures var p := v.c2s[i][0];
      && p.inc in v.client.socks && p.inc in v.server.socks && Links.Inv(PairOf(v, p.inc))
      && PairOf(v, p.inc).b == v.server.socks[p.inc]
      && PairOf(v, p.inc).ab != [] && PairOf(v, p.inc).ab[0] == p.seg
  {
    var p := v.c2s[i][0];
    ServerRouting(v, i);
    PairFacts(v, p.inc);
    ServerTakesLink(v.client.socks, v.server.socks, v.c2s, v.s2c, i, p.inc);
  }

  lemma DoomedRefuses(l: Links.Link)
    requires Links.Inv(l) && Links.Doomed(l) && l.ab != [] && l.ab[0].flag == FL_CLOS
    ensures l.b.x.taken == 0 && Links.Datas(l.b.incoming) == CAP
  {
    Links.CountOne(l.ab[0]);
    assert l.ab == [l.ab[0]];
  }

  /** Who takes a hopeless CLOS does not live on. */
  lemma NotHopeless(v: World, i: nat)
    requires Inv(v) && Enabled(v, Deliver(Server, i)) && Next(v, Deliver(Server, i)).server.killed == None
    ensures !Hopeless(v, v.c2s[i][0])
  {
    var p := v.c2s[i][0];
    NotRefused(v, i);
    if Hopeless(v, p) {
      TakenByLink(v, i);
      DoomedRefuses(PairOf(v, p.inc));
    }
  }

  lemma DoomMoves(v: World, i: nat, k: nat)
    requires Inv(v) && Enabled(v, Deliver(Server, i)) && Next(v, Deliver(Server, i)).server.killed == None
    requires !Links.Unaddressed(v.c2s[i][0].seg) && v.c2s[i][0].inc == k
    requires k in v.client.socks && Links.Doomed(PairOf(v, k))
    ensures Links.CanStep(PairOf(v, k), Links.Deliver(Links.B))
    ensures Links.Doomed(Links.Next(PairOf(v, k), Links.Deliver(Links.B)))
  {
    TakenByLink(v, i);
    NotRefused(v, i);
    var l := PairOf(v, k);
    Links.HonestArrival(l.a, l.b, l.ab, l.ba);
    Links.DoomedDelivery(l);
  }

  /** Who is doomed stays so while the server lives. */
  lemma DoomPersists(v: World, a: Action, k: nat)
    requires Inv(v) && Enabled(v, a) && Disciplined(v, a) && k in v.client.socks && Links.Doomed(PairOf(v, k))
    requires Next(v, a).server.killed == None
    ensures k in Next(v, a).client.socks && Links.Doomed(PairOf(Next(v, a), k))
  {
    PairFacts(v, k);
    Refines(v, a, k);
    if LinkStep(v, a, k) == Some(Links.Deliver(Links.B)) {
      DoomMoves(v, a.wire, k);
    } else if LinkStep(v, a, k) != None {
      Links.DoomedStays(PairOf(v, k), LinkStep(v, a, k).value);
    }
  }

  // ---------- every step ----------

  /** A step of the new pair itself. */
  predicate Own(a: Action, n: nat) {
    a == SendOpen(n) || (a.Local? && a.side == Client && a.k == n)
  }

  /** The ID cannot come off a wire to the client. */
  lemma IdIsQuiet(w: World, id: uint16, n: nat, i: nat)
    requires Inv(WithoutPair(w, id, n)) && i < |w.s2c| && w.s2c[i] != []
    ensures !Concerns(w.s2c[i][0], id) && w.s2c[i][0].seg.flag != FL_OPEN
  {
    var v := WithoutPair(w, id, n);
    assert RouteOk(Slot(v.client.table, id), v.s2c[i], id);
    EmptySlot(v.s2c[i], id);
  }

  /** Nor can the new pair come off a wire to the server. */
  lemma HeadIsOld(w: World, id: uint16, n: nat, i: nat)
    requires Stuck(w, id, n) && Enabled(w, Deliver(Server, i))
    ensures w.c2s[i][0].inc != n
    ensures w.c2s[i][0].seg.flag == FL_OPEN ==> w.c2s[i][0].inc !in w.server.socks
  {
    var m, k :| BarredBy(w, id, n, m, k);
    KeepPop(w.c2s, i, n);
    ServerRouting(WithoutPair(w, id, n), i);
  }

  lemma StepShared(w: World, a: Action, id: uint16, n: nat)
    requires Stuck(w, id, n) && Enabled(w, a) && Disciplined(w, a) && !Own(a, n)
    ensures Shared(w, a, id, n)
  {
    match a
    case Tunnel(id', wire) => TunnelShared(w, id', wire, id, n);
    case SendOpen(k) => OpenShared(w, k, id, n);
    case Local(Client, k, act) => ClientActShared(w, k, act, id, n);
    case Local(Server, k, act) => ServerActShared(w, k, act, id, n);
    case Deliver(Client, i) =>
      IdIsQuiet(w, id, n, i);
      ClientDeliverShared(w, i, id, n);
    case Deliver(Server, i) =>
      HeadIsOld(w, id, n, i);
      ServerDeliverShared(w, i, id, n);
    case KeepAlive(from, wire) => KeepAliveShared(w, from, wire, id, n);
    case Accept => AcceptShared(w, id, n);
  }

  /** The bar holds. */
  lemma BarStays(w: World, a: Action, id: uint16, n: nat, m: nat, k: nat)
    requires Alone(w, id, n) && Enabled(w, a) && Alone(Next(w, a), id, n) && BarredBy(w, id, n, m, k)
    requires n in Next(w, a).client.socks && Next(w, a).client.socks[n].wire == w.client.socks[n].wire
    requires a != Deliver(Server, w.client.socks[n].wire)
    requires var v := WithoutPair(Next(w, a), id, n); k in v.client.socks && Links.Doomed(PairOf(v, k))
    ensures BarredBy(Next(w, a), id, n, m, k)
  {
    var i := w.client.socks[n].wire;
    OnlyGrows(w, a, i);
    BarGrows(w.c2s[i], Next(w, a).c2s[i], m, k, n);
  }

  lemma BarMoves(w: World, id: uint16, n: nat, m: nat, k: nat)
    requires Alone(w, id, n) && BarredBy(w, id, n, m, k) && m > 0
    requires Enabled(w, Deliver(Server, w.client.socks[n].wire))
    requires var v := WithoutPair(Next(w, Deliver(Server, w.client.socks[n].wire)), id, n);
      k in v.client.socks && Links.Doomed(PairOf(v, k))
    ensures BarredBy(Next(w, Deliver(Server, w.client.socks[n].wire)), id, n, m - 1, k)
  {
    var i := w.client.socks[n].wire;
    ServerDelivers(w, i);
    BarPops(w.c2s[i], m, k, n);
  }

  /** The CLOS that bars the way is not the next packet of a server that lives on. */
  lemma BarNotFirst(w: World, id: uint16, n: nat, m: nat, k: nat)
    requires Stuck(w, id, n) && BarredBy(w, id, n, m, k) && Enabled(w, Deliver(Server, w.client.socks[n].wire))
    requires Shared(w, Deliver(Server, w.client.socks[n].wire), id, n)
    requires Next(w, Deliver(Server, w.client.socks[n].wire)).server.killed == None
    ensures m > 0
  {
    var i, v := w.client.socks[n].wire, WithoutPair(w, id, n);
    KeepPop(w.c2s, i, n);
    NotHopeless(v, i);
  }

  lemma OwnStuck(w: World, a: Action, id: uint16, n: nat)
    requires Stuck(w, id, n) && Enabled(w, a) && Own(a, n)
    ensures Stuck(Next(w, a), id, n)
  {
    OwnStep(w, a, id, n);
    Remains(w, a, n);
    if w.server.killed != None {
      DeadStays(w, a);
    } else {
      var m, k :| BarredBy(w, id, n, m, k);
      BarStays(w, a, id, n, m, k);
    }
  }

  /** Whatever the step, the bar holds if its CLOS is not the packet taken, and is still hopeless. */
  lemma BarGoesOn(w: World, a: Action, id: uint16, n: nat, m: nat, k: nat)
    requires Alone(w, id, n) && Enabled(w, a) && Fresh(w, a) && Alone(Next(w, a), id, n) && BarredBy(w, id, n, m, k)
    requires a == Deliver(Server, w.client.socks[n].wire) ==> m > 0
    requires var v := WithoutPair(Next(w, a), id, n); k in v.client.socks && Links.Doomed(PairOf(v, k))
    ensures exists m', k' :: BarredBy(Next(w, a), id, n, m', k')
  {
    if a == Deliver(Server, w.client.socks[n].wire) {
      BarMoves(w, id, n, m, k);
    } else {
      Remains(w, a, n);
      BarStays(w, a, id, n, m, k);
    }
  }

  lemma DoomShared(w: World, a: Action, id: uint16, n: nat, k: nat)
    requires Sane(w) && Enabled(w, a) && Inv(WithoutPair(w, id, n)) && Shared(w, a, id, n)
    requires Next(w, a).server.killed == None && k in WithoutPair(w, id, n).client.socks
    requires Links.Doomed(PairOf(WithoutPair(w, id, n), k))
    ensures var v := WithoutPair(Next(w, a), id, n); k in v.client.socks && Links.Doomed(PairOf(v, k))
  {
    DoomPersists(WithoutPair(w, id, n), a, k);
  }

  lemma SharedBarred(w: World, a: Action, id: uint16, n: nat)
    requires Stuck(w, id, n) && Enabled(w, a) && Fresh(w, a) && Shared(w, a, id, n)
    requires Next(w, a).server.killed == None && w.server.killed == None
    ensures exists m, k :: BarredBy(Next(w, a), id, n, m, k)
  {
    var m, k :| BarredBy(w, id, n, m, k);
    DoomShared(w, a, id, n, k);
    if a == Deliver(Server, w.client.socks[n].wire) {
      BarNotFirst(w, id, n, m, k);
    }
    BarGoesOn(w, a, id, n, m, k);
  }

  lemma StuckFresh(w: World, a: Action, id: uint16, n: nat)
    requires Stuck(w, id, n) && Enabled(w, a)
    ensures Fresh(w, a)
  {
    if a.Deliver? && a.to == Client {
      IdIsQuiet(w, id, n, a.wire);
    } else if a.Deliver? {
      HeadIsOld(w, id, n, a.wire);
    }
  }

  lemma SharedInv(w: World, a: Action, id: uint16, n: nat)
    requires Sane(w) && Enabled(w, a) && Inv(WithoutPair(w, id, n)) && Shared(w, a, id, n)
    ensures Inv(WithoutPair(Next(w, a), id, n))
  {
    ActionInv(WithoutPair(w, id, n), a);
  }

  lemma SharedStuck(w: World, a: Action, id: uint16, n: nat)
    requires Stuck(w, id, n) && Enabled(w, a) && Disciplined(w, a) && !Own(a, n)
    ensures Stuck(Next(w, a), id, n)
  {
    StuckFresh(w, a, id, n);
    StepShared(w, a, id, n);
    SharedInv(w, a, id, n);
    if w.server.killed != None {
      DeadStays(w, a);
    } else if Next(w, a).server.killed == None {
      SharedBarred(w, a, id, n);
    }
  }

  lemma {:induction false} StuckRuns(w: World, acts: seq<Action>, id: uint16, n: nat)
    requires Stuck(w, id, n) && Legal(w, acts)
    ensures Stuck(After(w, acts), id, n)
    decreases |acts|
  {
    if acts != [] {
      if Own(acts[0], n) {
        OwnStuck(w, acts[0], id, n);
      } else {
        SharedStuck(w, acts[0], id, n);
      }
      StuckRuns(Next(w, acts[0]), acts[1..], id, n);
    }
  }

  // ---------- from the pick on ----------

  /** Nothing comes off a wire that is not for its own socket. */
  lemma StuckDelivers(w: World, id: uint16, n: nat)
    requires Stuck(w, id, n)
    ensures !Misdelivers(w.client, w.s2c) && !Misdelivers(w.server, w.c2s) && w.server.killed != Some(Stray)
  {
    var v := WithoutPair(w, id, n);
    InvLands(v);
    forall i | 0 <= i < |w.s2c| && w.s2c[i] != [] ensures !Misdelivered(w.client, w.s2c[i][0]) {
      IdIsQuiet(w, id, n, i);
    }
    if w.server.killed == None {
      forall i | 0 <= i < |w.c2s| && w.c2s[i] != [] ensures !Misdelivered(w.server, w.c2s[i][0]) {
        HeadIsOld(w, id, n, i);
        KeepPop(w.c2s, i, n);
      }
    }
  }

  lemma NothingToDrop(pipes: Pipes, n: nat)
    requires Named(pipes, n) && n > 0
    ensures KeepAll(pipes, n) == pipes
    ensures forall i, m | 0 <= i < |pipes| && 0 <= m < |pipes[i]| :: pipes[i][m].inc != n
  {
    forall i | 0 <= i < |pipes| ensures Keep(pipes[i], n) == pipes[i] {
      KeepEvery(pipes[i], n);
    }
  }

  /** Nothing can come through on this wire: the server is dead, or one of its packets is a hopeless CLOS. */
  ghost predicate Barred(w: World, wire: nat)
    requires wire < |w.c2s|
  {
    w.server.killed != None || !Clear(w, wire, |w.c2s[wire]|)
  }

  /** A context where the pick only used up a name. */
  function Later(w: World): World {
    w.(next := w.next + 1)
  }

  lemma PickIsApart(w: World, id: uint16, wire: nat)
    requires Sane(w) && Enabled(w, Tunnel(id, wire)) && w.next > 0
    ensures var w1 := Next(w, Tunnel(id, wire)); Alone(w1, id, w.next) && WithoutPair(w1, id, w.next) == Later(w)
  {
    var w1 := Next(w, Tunnel(id, wire));
    SaneNext(w, Tunnel(id, wire));
    NothingToDrop(w.c2s, w.next);
    NothingToDrop(w.s2c, w.next);
    assert w1.client.table - {id} == w.client.table;
    assert w1.client.socks - {w.next} == w.client.socks;
  }

  lemma InvLater(w: World)
    requires Inv(w)
    ensures Inv(Later(w))
  {
  }

  lemma PickIsBarred(w: World, id: uint16, wire: nat, m: nat)
    requires Sane(w) && Enabled(w, Tunnel(id, wire)) && w.next > 0
    requires m < |w.c2s[wire]| && Hopeless(w, w.c2s[wire][m])
    ensures BarredBy(Next(w, Tunnel(id, wire)), id, w.next, m, w.c2s[wire][m].inc)
  {
    var k := w.c2s[wire][m].inc;
    PickIsApart(w, id, wire);
    NothingToDrop(w.c2s, w.next);
    assert PairOf(Later(w), k) == PairOf(w, k);
  }

  lemma BarredIsStuck(w: World, id: uint16, wire: nat)
    requires Inv(w) && Enabled(w, Tunnel(id, wire)) && w.next > 0 && Barred(w, wire)
    ensures Stuck(Next(w, Tunnel(id, wire)), id, w.next)
  {
    PickIsApart(w, id, wire);
    InvLater(w);
    if w.server.killed == None {
      var m :| 0 <= m < |w.c2s[wire]| && Hopeless(w, w.c2s[wire][m]);
      PickIsBarred(w, id, wire, m);
    }
  }

  /** A pick for a barred wire is safe. */
  lemma BarredIsSafe(w: World, id: uint16, wire: nat)
    requires Inv(w) && Enabled(w, Tunnel(id, wire)) && w.next > 0 && Barred(w, wire)
    ensures AlwaysDelivered(Next(w, Tunnel(id, wire))) && NeverStrays(Next(w, Tunnel(id, wire)))
  {
    var w1 := Next(w, Tunnel(id, wire));
    BarredIsStuck(w, id, wire);
    forall acts | Legal(w1, acts)
      ensures var v := After(w1, acts);
        !Misdelivers(v.client, v.s2c) && !Misdelivers(v.server, v.c2s) && v.server.killed != Some(Stray)
    {
      StuckRuns(w1, acts, id, w.next);
      StuckDelivers(After(w1, acts), id, w.next);
    }
  }
}
