/** What can happen after an ID is picked that is not retired. */
module MuxMisuse {
  import opened Segments
  import opened Padding
  import opened Sockets
  import opened Endpoints
  import opened Routing
  import opened Mux
  import opened MuxParts
  import opened MuxSteps
  import opened MuxTheorems
  import opened MuxRuns
  import opened MuxDelivery
  import opened MuxServing

  // ---------- picking an ID, and then what the server does ----------

  /** The server's step and the client's pick do not disturb each other. */
  lemma CommuteOne(w: World, a: Action, id: uint16, wire: nat)
    requires Sane(w) && Enabled(w, a) && ServerOnly(a) && Enabled(w, Tunnel(id, wire)) && Sane(Next(w, a))
    ensures Enabled(Next(w, a), Tunnel(id, wire))
    ensures var w1 := Next(w, Tunnel(id, wire));
      Sane(w1) && Enabled(w1, a) && Next(w1, a) == Next(Next(w, a), Tunnel(id, wire))
  {
    SaneNext(w, Tunnel(id, wire));
  }

  lemma {:induction false} Commute(w: World, acts: seq<Action>, id: uint16, wire: nat)
    requires Inv(w) && Legal(w, acts) && (forall i | 0 <= i < |acts| :: ServerOnly(acts[i]))
    requires Enabled(w, Tunnel(id, wire))
    ensures Inv(After(w, acts)) && Enabled(After(w, acts), Tunnel(id, wire))
    ensures Legal(Next(w, Tunnel(id, wire)), acts)
    ensures After(Next(w, Tunnel(id, wire)), acts) == Next(After(w, acts), Tunnel(id, wire))
    decreases |acts|
  {
    if acts != [] {
      ActionInv(w, acts[0]);
      CommuteOne(w, acts[0], id, wire);
      Commute(Next(w, acts[0]), acts[1..], id, wire);
    }
  }

  /** Both ends of pair `n` are new, and the pair has the entry of its ID at the server. */
  predicate New(w: World, id: uint16, wire: nat, n: nat) {
    && n in w.client.socks && w.client.socks[n] == NewSock(id, wire, true)
    && n in w.server.socks && w.server.socks[n] == NewSock(id, wire, true) && Slot(w.server.table, id) == Some(n)
  }

  /** After the pick, the OPEN goes out and is taken. */
  ghost predicate TakenOver(w: World, id: uint16, wire: nat, v: World)
    requires Sane(w) && Enabled(w, Tunnel(id, wire))
  {
    var w1, n := Next(w, Tunnel(id, wire)), w.next;
    && Sane(w1) && Sane(v) && Legal(w1, [SendOpen(n), Deliver(Server, wire)])
    && After(w1, [SendOpen(n), Deliver(Server, wire)]) == v
    && v.c2s == w.c2s && v.server.killed == None && New(v, id, wire, n)
    && forall j | j in w.client.socks :: j in v.client.socks && v.client.socks[j] == w.client.socks[j]
  }

  lemma OneOnEmpty(pipes: Pipes, wire: nat, seg: Segment, n: nat)
    requires wire < |pipes| && pipes[wire] == []
    ensures Push(pipes, wire, Tag([seg], n)) == pipes[wire := [Packet(seg, n)]]
  {
    assert Tag([seg], n) == [Packet(seg, n)];
    assert pipes[wire] + Tag([seg], n) == [Packet(seg, n)];
  }

  lemma SendsOpen(w: World, id: uint16, wire: nat)
    requires Waits(w, wire) && Enabled(w, Tunnel(id, wire))
    ensures var w1 := Next(w, Tunnel(id, wire));
      && Sane(w1) && Enabled(w1, SendOpen(w.next))
      && var w2 := Next(w1, SendOpen(w.next));
      && Sane(w2) && w2.server == w.server && w2.c2s == w.c2s[wire := [Packet(OpenSegment(id), w.next)]]
      && w2.scfg == w.scfg && w2.next == w.next + 1
      && w2.client.socks == w.client.socks[w.next := NewSock(id, wire, true)] && w.next !in w.client.socks
  {
    var w1 := Next(w, Tunnel(id, wire));
    SaneNext(w, Tunnel(id, wire));
    SaneNext(w1, SendOpen(w.next));
    OneOnEmpty(w.c2s, wire, OpenSegment(id), w.next);
    assert Next(w1, SendOpen(w.next)).client.socks == w.client.socks[w.next := NewSock(id, wire, true)];
  }

  /** A server with room takes the OPEN. */
  lemma TakesOpen(w: World, id: uint16, wire: nat, n: nat)
    requires Sane(w) && wire < |w.c2s| && w.c2s[wire] == [Packet(OpenSegment(id), n)] && n !in w.server.socks
    requires w.server.killed == None && w.server.backlog == [] && w.scfg.acceptCap > 0 && !w.scfg.rejectOpen
    ensures Enabled(w, Deliver(Server, wire))
    ensures var v := Next(w, Deliver(Server, wire));
      && Sane(v) && v.client == w.client && v.c2s == w.c2s[wire := []] && v.server.killed == None
      && Slot(v.server.table, id) == Some(n) && n in v.server.socks && v.server.socks[n] == NewSock(id, wire, true)
  {
    assert w.c2s[wire][1..] == [];
    OpenQueued(w, wire);
  }

  lemma {:induction false} LegalPair(w: World, a: Action, b: Action)
    requires Sane(w) && Enabled(w, a) && Disciplined(w, a)
    requires Sane(Next(w, a)) && Enabled(Next(w, a), b) && Disciplined(Next(w, a), b)
    ensures Legal(w, [a, b]) && After(w, [a, b]) == Next(Next(w, a), b)
  {
    var rest := [a, b][1..];
    assert rest == [b];
    LegalOne(Next(w, a), b);
    assert Legal(Next(w, a), rest) && After(Next(w, a), rest) == Next(Next(w, a), b);
  }

  lemma TakeOver(w: World, id: uint16, wire: nat)
    requires Waits(w, wire) && Enabled(w, Tunnel(id, wire))
    ensures exists v :: TakenOver(w, id, wire, v)
  {
    var w1, n := Next(w, Tunnel(id, wire)), w.next;
    SendsOpen(w, id, wire);
    var w2 := Next(w1, SendOpen(n));
    TakesOpen(w2, id, wire, n);
    var v := Next(w2, Deliver(Server, wire));
    LegalPair(w1, SendOpen(n), Deliver(Server, wire));
    assert v.c2s == w.c2s;
    assert TakenOver(w, id, wire, v);
  }

  // ---------- a pick that is not safe ----------

  /** Some run goes on from here to a state where the server, alive, misdelivers. */
  ghost predicate Errs(w: World) {
    exists acts | Legal(w, acts) :: Misdelivers(After(w, acts).server, After(w, acts).c2s)
  }

  /** The server has lost the whole context over a stray segment, a byte of pair `n` that was sent in good faith:
      nobody has closed the pair. */
  ghost predicate Lost(w: World, n: nat) {
    && w.server.killed == Some(Stray)
    && n in w.client.socks && w.client.socks[n].Alive() && |w.client.socks[n].x.sent| == 1
    && n in w.server.socks && !w.server.socks[n].closed && w.server.socks[n].x.got == []
  }

  /** Some run goes on from here to the loss of the context. */
  ghost predicate Loses(w: World, n: nat) {
    exists acts | Legal(w, acts) :: Lost(After(w, acts), n)
  }

  ghost predicate Fails(w: World, n: nat) {
    Errs(w) && Loses(w, n)
  }

  lemma {:induction false} ErrsOn(w: World, acts: seq<Action>)
    requires Legal(w, acts) && Errs(After(w, acts))
    ensures Errs(w)
  {
    var v := After(w, acts);
    var more :| Legal(v, more) && Misdelivers(After(v, more).server, After(v, more).c2s);
    RunsJoin(w, acts, more);
    assert Misdelivers(After(w, acts + more).server, After(w, acts + more).c2s);
  }

  lemma {:induction false} LosesOn(w: World, acts: seq<Action>, n: nat)
    requires Legal(w, acts) && Loses(After(w, acts), n)
    ensures Loses(w, n)
  {
    var v := After(w, acts);
    var more :| Legal(v, more) && Lost(After(v, more), n);
    RunsJoin(w, acts, more);
    assert Lost(After(w, acts + more), n);
  }

  lemma {:induction false} FailsOn(w: World, acts: seq<Action>, n: nat)
    requires Legal(w, acts) && Fails(After(w, acts), n)
    ensures Fails(w, n)
  {
    ErrsOn(w, acts);
    LosesOn(w, acts, n);
  }

  lemma ErrsNow(w: World, i: nat)
    requires w.server.killed == None && i < |w.c2s| && w.c2s[i] != [] && Misdelivered(w.server, w.c2s[i][0])
    ensures Errs(w)
  {
    var none: seq<Action> := [];
    assert Legal(w, none) && After(w, none) == w;
  }

  /** What the server does first does not matter. */
  lemma FailsBefore(w: World, v: World, id: uint16, wire: nat, n: nat)
    requires Inv(w) && Comes(w, v) && Enabled(w, Tunnel(id, wire))
    ensures Enabled(v, Tunnel(id, wire))
    ensures Fails(Next(v, Tunnel(id, wire)), n) ==> Fails(Next(w, Tunnel(id, wire)), n)
  {
    var acts :| Serves(w, acts, v);
    Commute(w, acts, id, wire);
    if Fails(Next(v, Tunnel(id, wire)), n) {
      FailsOn(Next(w, Tunnel(id, wire)), acts, n);
    }
  }

  /** The new pair has the entry, its wire is empty but for what wire `i` brings next: an earlier pair's CLOS. */
  ghost predicate Misled(w: World, id: uint16, wire: nat, n: nat, i: nat) {
    && Sane(w) && w.server.killed == None && New(w, id, wire, n) && wire < |w.c2s| && i < |w.c2s| && w.c2s[i] != []
    && w.c2s[i][0].seg.flag == FL_CLOS && w.c2s[i][0].seg.sokid == id && w.c2s[i][0].inc != n
    && Pop(w.c2s, i)[wire] == []
  }

  /** The CLOS reaches the new socket and takes its entry out of the table. */
  lemma ClosMisled(w: World, id: uint16, wire: nat, n: nat, i: nat)
    requires Misled(w, id, wire, n, i)
    ensures Enabled(w, Deliver(Server, i))
    ensures var v := Next(w, Deliver(Server, i));
      && Sane(v) && v.client == w.client && v.server.killed == None && id !in v.server.table
      && n in v.server.socks && !v.server.socks[n].closed && v.server.socks[n].x.got == []
      && wire < |v.c2s| && v.c2s[wire] == []
  {
    SaneNext(w, Deliver(Server, i));
  }

  lemma TakesSlot(w: World, id: uint16, wire: nat, n: nat)
    requires Sane(w) && n in w.client.socks && w.client.socks[n] == NewSock(id, wire, true) && wire < |w.c2s|
    ensures Enabled(w, Local(Client, n, Take))
    ensures var v := Next(w, Local(Client, n, Take));
      && Sane(v) && v.server == w.server && v.c2s[wire] == w.c2s[wire] + []
      && |v.c2s| == |w.c2s| && n in v.client.socks && v.client.socks[n] == TakeStep(NewSock(id, wire, true)).sock
  {
    SaneNext(w, Local(Client, n, Take));
    assert Tag([], n) == [];
  }

  /** The byte that the new pair's client now writes is a stray. */
  lemma ByteStrays(w: World, id: uint16, wire: nat, n: nat)
    requires Sane(w) && n in w.client.socks && w.client.socks[n] == TakeStep(NewSock(id, wire, true)).sock
    requires w.server.killed == None && id !in w.server.table && wire < |w.c2s| && w.c2s[wire] == []
    requires n in w.server.socks && !w.server.socks[n].closed && w.server.socks[n].x.got == []
    ensures Enabled(w, Local(Client, n, Emit([1], 0)))
    ensures var v := Next(w, Local(Client, n, Emit([1], 0)));
      Sane(v) && Enabled(v, Deliver(Server, wire)) && Lost(Next(v, Deliver(Server, wire)), n)
  {
    var a := Local(Client, n, Emit([1], 0));
    SaneNext(w, a);
    var out := Emission(id, [1], 0);
    assert out[0] == DataSegment(id, [1]);
    assert Next(w, a).c2s[wire] == [] + Tag(out, n);
    assert Next(w, a).c2s[wire][0] == Packet(DataSegment(id, [1]), n);
  }

  lemma ByteLosesAll(w: World, id: uint16, wire: nat, n: nat)
    requires Sane(w) && n in w.client.socks && w.client.socks[n] == NewSock(id, wire, true)
    requires w.server.killed == None && id !in w.server.table && wire < |w.c2s| && w.c2s[wire] == []
    requires n in w.server.socks && !w.server.socks[n].closed && w.server.socks[n].x.got == []
    ensures Loses(w, n)
  {
    TakesSlot(w, id, wire, n);
    var v := Next(w, Local(Client, n, Take));
    ByteStrays(v, id, wire, n);
    LegalPair(v, Local(Client, n, Emit([1], 0)), Deliver(Server, wire));
    LegalOne(w, Local(Client, n, Take));
    LosesOn(w, [Local(Client, n, Take)], n);
  }

  lemma MisledFails(w: World, id: uint16, wire: nat, n: nat, i: nat)
    requires Misled(w, id, wire, n, i)
    ensures Fails(w, n)
  {
    ErrsNow(w, i);
    ClosMisled(w, id, wire, n, i);
    ByteLosesAll(Next(w, Deliver(Server, i)), id, wire, n);
    LegalOne(w, Deliver(Server, i));
    LosesOn(w, [Deliver(Server, i)], n);
  }

  lemma CloseFails(v: World, id: uint16, wire: nat, n: nat, j: nat)
    requires Sane(v) && v.server.killed == None && New(v, id, wire, n) && wire < |v.c2s| && v.c2s[wire] == []
    requires j in v.client.socks && v.client.socks[j].sokid == id && v.client.socks[j].x.announced && j != n
    requires !v.client.socks[j].closed && v.c2s[v.client.socks[j].wire] == []
    ensures Fails(v, n)
  {
    var a, i := Local(Client, j, Close), v.client.socks[j].wire;
    OneOnEmpty(v.c2s, i, ClosSegment(id), j);
    SaneNext(v, a);
    LegalOne(v, a);
    MisledFails(Next(v, a), id, wire, n, i);
    FailsOn(v, [a], n);
  }

  /** The earlier holder of the ID is still open: its CLOS, sent after the new OPEN, reaches the new socket. */
  lemma OpenHolderFails(w: World, id: uint16, wire: nat, j: nat)
    requires Waits(w, wire) && Enabled(w, Tunnel(id, wire))
    requires j in w.client.socks && w.client.socks[j].sokid == id && w.client.socks[j].x.announced
    requires !w.client.socks[j].closed && w.c2s[w.client.socks[j].wire] == []
    ensures Fails(Next(w, Tunnel(id, wire)), w.next)
  {
    TakeOver(w, id, wire);
    var v :| TakenOver(w, id, wire, v);
    CloseFails(v, id, wire, w.next, j);
    FailsOn(Next(w, Tunnel(id, wire)), [SendOpen(w.next), Deliver(Server, wire)], w.next);
  }

  /** The earlier holder is closed, but its CLOS is still on another wire: it reaches the new socket. */
  lemma LingeringFails(w: World, id: uint16, wire: nat, i: nat)
    requires Waits(w, wire) && Enabled(w, Tunnel(id, wire)) && i < |w.c2s| && i != wire
    requires w.c2s[i] != [] && w.c2s[i][0].seg.flag == FL_CLOS && w.c2s[i][0].seg.sokid == id
    ensures Fails(Next(w, Tunnel(id, wire)), w.next)
  {
    TakeOver(w, id, wire);
    var v :| TakenOver(w, id, wire, v);
    assert w.c2s[i][0].inc < w.next;
    MisledFails(v, id, wire, w.next, i);
    FailsOn(Next(w, Tunnel(id, wire)), [SendOpen(w.next), Deliver(Server, wire)], w.next);
  }

  // ---------- what an earlier holder has left on its wire ----------

  /** A segment of this kind and ID is on the wire. */
  predicate Carries(pipe: seq<Packet>, id: uint16, flag: byte) {
    exists m | 0 <= m < |pipe| :: pipe[m].seg.flag == flag && pipe[m].seg.sokid == id
  }

  lemma CarriesFirst(pipe: seq<Packet>, id: uint16, flag: byte)
    requires pipe != []
    ensures Carries(pipe, id, flag) <==>
            (pipe[0].seg.flag == flag && pipe[0].seg.sokid == id) || Carries(pipe[1..], id, flag)
  {
    assert forall m | 0 < m < |pipe| :: pipe[m] == pipe[1..][m - 1];
  }

  /** Without an OPEN, a CLOS empties the entry for good; and without either, all is for the pair that has it. */
  lemma {:induction false} SlotWithoutOpen(slot: Option<nat>, pipe: seq<Packet>, id: uint16)
    requires RouteOk(slot, pipe, id) && !Carries(pipe, id, FL_OPEN)
    ensures Carries(pipe, id, FL_CLOS) ==> SlotEnd(slot, pipe, id) == None
    ensures !Carries(pipe, id, FL_CLOS) ==> SlotEnd(slot, pipe, id) == slot
    ensures slot == None ==> SlotEnd(slot, pipe, id) == None
    ensures forall m | 0 <= m < |pipe| :: Concerns(pipe[m], id) ==> slot == Some(pipe[m].inc)
    decreases |pipe|
  {
    if pipe != [] {
      CarriesFirst(pipe, id, FL_OPEN);
      CarriesFirst(pipe, id, FL_CLOS);
      SlotWithoutOpen(if Concerns(pipe[0], id) then SlotStep(slot, pipe[0]) else slot, pipe[1..], id);
      assert forall m | 0 < m < |pipe| :: pipe[m] == pipe[1..][m - 1];
    }
  }

  lemma {:induction false} OpenCounted(pipe: seq<Packet>, m: nat)
    requires m < |pipe| && pipe[m].seg.flag == FL_OPEN
    ensures Opens(pipe, pipe[m].inc) > 0
  {
    if m > 0 {
      OpenCounted(pipe[1..], m - 1);
    }
  }

  /** When an ID is free at the client, no OPEN with it is under way. */
  lemma NoOpenOf(w: World, id: uint16, i: nat)
    requires Inv(w) && id !in w.client.table && i < |w.c2s|
    ensures !Carries(w.c2s[i], id, FL_OPEN)
  {
    forall m | 0 <= m < |w.c2s[i]| ensures w.c2s[i][m].seg.flag != FL_OPEN || w.c2s[i][m].seg.sokid != id {
      var p := w.c2s[i][m];
      assert Belongs(w.client.socks, i, p);
      if p.seg.flag == FL_OPEN && p.seg.sokid == id {
        ServerEndClosed(w.client.socks, w.server.socks, w.client.table, w.s2c, id, p.inc);
        assert OpenOnceAt(w.client.socks[p.inc], p.inc in w.server.socks, w.c2s, p.inc);
        OpenCounted(w.c2s[i], m);
      }
    }
  }

  /** Where an earlier holder is open its wire carries no CLOS of the ID. */
  lemma OpenHolderQuiet(w: World, id: uint16, j: nat)
    requires Inv(w) && id !in w.client.table && j in w.client.socks && w.client.socks[j].sokid == id
    requires !w.client.socks[j].closed
    ensures w.client.socks[j].x.announced && !Carries(w.c2s[w.client.socks[j].wire], id, FL_CLOS)
  {
    var s := w.client.socks[j];
    ServerEndClosed(w.client.socks, w.server.socks, w.client.table, w.s2c, id, j);
    NoOpenOf(w, id, s.wire);
    assert RouteOk(Slot(w.server.table, id), w.c2s[s.wire], id);
    assert Sees(w.server.table, w.c2s, s, j);
    SlotWithoutOpen(Slot(w.server.table, id), w.c2s[s.wire], id);
  }

  /** Where all earlier holders are closed, a wire that carries anything of the ID carries a CLOS of it. */
  lemma LingeringClos(w: World, id: uint16, i: nat)
    requires Inv(w) && id !in w.client.table && i < |w.c2s| && !QuietId(w.c2s, i, id)
    requires forall j | j in w.client.socks && w.client.socks[j].sokid == id :: w.client.socks[j].closed
    ensures Carries(w.c2s[i], id, FL_CLOS)
  {
    var m :| 0 <= m < |w.c2s[i]| && Concerns(w.c2s[i][m], id);
    var j := w.c2s[i][m].inc;
    assert Belongs(w.client.socks, i, w.c2s[i][m]);
    NoOpenOf(w, id, i);
    assert RouteOk(Slot(w.server.table, id), w.c2s[i], id);
    assert !Sees(w.server.table, w.c2s, w.client.socks[j], j);
    SlotWithoutOpen(Slot(w.server.table, id), w.c2s[i], id);
  }

  /** The first CLOS of an ID on a wire. */
  function FirstClos(pipe: seq<Packet>, id: uint16): (n: nat)
    requires Carries(pipe, id, FL_CLOS)
    ensures n < |pipe| && pipe[n].seg.flag == FL_CLOS && pipe[n].seg.sokid == id
    ensures forall m | 0 <= m < n :: pipe[m].seg.flag != FL_CLOS || pipe[m].seg.sokid != id
  {
    CarriesFirst(pipe, id, FL_CLOS);
    if pipe[0].seg.flag == FL_CLOS && pipe[0].seg.sokid == id then 0 else 1 + FirstClos(pipe[1..], id)
  }

  /** No CLOS of another ID on the wire is hopeless. */
  ghost predicate Passable(w: World, i: nat, id: uint16) {
    i < |w.c2s| && forall m | 0 <= m < |w.c2s[i]| && w.c2s[i][m].seg.sokid != id :: !Hopeless(w, w.c2s[i][m])
  }

  lemma PassableClear(w: World, i: nat, id: uint16, n: nat)
    requires Passable(w, i, id) && n <= |w.c2s[i]|
    requires forall m | 0 <= m < n :: w.c2s[i][m].seg.flag != FL_CLOS || w.c2s[i][m].seg.sokid != id
    ensures Clear(w, i, n)
  {
  }

  lemma SettledOpenFails(w: World, v: World, id: uint16, wire: nat, j: nat)
    requires Inv(w) && Enabled(w, Tunnel(id, wire)) && Comes(w, v) && Waits(v, wire) && j in w.client.socks
    requires var s := w.client.socks[j];
      s.sokid == id && s.x.announced && !s.closed && s.wire < |v.c2s| && v.c2s[s.wire] == []
    ensures Fails(Next(w, Tunnel(id, wire)), w.next)
  {
    FailsBefore(w, v, id, wire, w.next);
    SameClient(w, v);
    OpenHolderFails(v, id, wire, j);
  }

  lemma OpenHolderClear(w: World, id: uint16, j: nat)
    requires Inv(w) && id !in w.client.table && j in w.client.socks && w.client.socks[j].sokid == id
    requires !w.client.socks[j].closed && Passable(w, w.client.socks[j].wire, id)
    ensures w.client.socks[j].x.announced
    ensures var i := w.client.socks[j].wire; Clear(w, i, |w.c2s[i]|)
  {
    var i := w.client.socks[j].wire;
    OpenHolderQuiet(w, id, j);
    PassableClear(w, i, id, |w.c2s[i]|);
  }

  lemma OpenIsUnsafe(w: World, id: uint16, wire: nat, j: nat)
    requires Inv(w) && Able(w) && Enabled(w, Tunnel(id, wire)) && Clear(w, wire, |w.c2s[wire]|)
    requires j in w.client.socks && w.client.socks[j].sokid == id && !w.client.socks[j].closed
    requires Passable(w, w.client.socks[j].wire, id)
    ensures Fails(Next(w, Tunnel(id, wire)), w.next)
  {
    OpenHolderClear(w, id, j);
    var i := w.client.socks[j].wire;
    Settle(w, wire, i, |w.c2s[i]|);
    var v :| Settled(w, v, wire, i, |w.c2s[i]|);
    SettledOpenFails(w, v, id, wire, j);
  }

  lemma SettledLingeringFails(w: World, v: World, id: uint16, wire: nat, i: nat)
    requires Inv(w) && Enabled(w, Tunnel(id, wire)) && Comes(w, v) && Waits(v, wire) && i < |v.c2s| && i != wire
    requires v.c2s[i] != [] && v.c2s[i][0].seg.flag == FL_CLOS && v.c2s[i][0].seg.sokid == id
    ensures Fails(Next(w, Tunnel(id, wire)), w.next)
  {
    FailsBefore(w, v, id, wire, w.next);
    SameClient(w, v);
    LingeringFails(v, id, wire, i);
  }

  lemma LingeringIsUnsafe(w: World, id: uint16, wire: nat, i: nat)
    requires Inv(w) && Able(w) && Enabled(w, Tunnel(id, wire)) && Clear(w, wire, |w.c2s[wire]|)
    requires i < |w.c2s| && i != wire && Passable(w, i, id) && Carries(w.c2s[i], id, FL_CLOS)
    ensures Fails(Next(w, Tunnel(id, wire)), w.next)
  {
    var n := FirstClos(w.c2s[i], id);
    PassableClear(w, i, id, n);
    Settle(w, wire, i, n);
    var v :| Settled(w, v, wire, i, n);
    SettledLingeringFails(w, v, id, wire, i);
  }

  /** The server can take what is on the wires that matter: it is alive, it has an accept queue, and no CLOS on the
      new pair's wire, nor one of another ID on the wire of an earlier holder, is hopeless. */
  ghost predicate Survivable(w: World, id: uint16, wire: nat) {
    && Able(w) && wire < |w.c2s| && Clear(w, wire, |w.c2s[wire]|)
    && forall j | j in w.client.socks && w.client.socks[j].sokid == id :: Passable(w, w.client.socks[j].wire, id)
  }

  lemma UnretiredIsUnsafe(w: World, id: uint16, wire: nat)
    requires Inv(w) && Survivable(w, id, wire) && Enabled(w, Tunnel(id, wire)) && !Retired(w, id, wire)
    ensures Fails(Next(w, Tunnel(id, wire)), w.next)
  {
    if j :| j in w.client.socks && w.client.socks[j].sokid == id && !w.client.socks[j].closed {
      OpenIsUnsafe(w, id, wire, j);
    } else {
      var j :| j in w.client.socks && w.client.socks[j].sokid == id &&
        w.client.socks[j].wire != wire && !QuietId(w.c2s, w.client.socks[j].wire, id);
      LingeringClos(w, id, w.client.socks[j].wire);
      LingeringIsUnsafe(w, id, wire, w.client.socks[j].wire);
    }
  }

  /** Picking an ID that is not retired is not safe: some run goes on to a misdelivery, and some to the loss of the
      context over a byte of the new pair, which nobody has closed. */
  lemma UnretiredFails(w: World, id: uint16, wire: nat)
    requires Reached(w) && Sane(w) && Survivable(w, id, wire) && Enabled(w, Tunnel(id, wire)) && !Retired(w, id, wire)
    ensures Fails(Next(w, Tunnel(id, wire)), w.next)
  {
    Safety(w);
    UnretiredIsUnsafe(w, id, wire);
  }
}
