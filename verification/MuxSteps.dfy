/** The invariant of `Mux` survives every disciplined step, and every step is, for each pair, a step of
    its own link or nothing at all. */
module MuxSteps {
  import opened Segments
  import opened Padding
  import opened Sockets
  import opened Endpoints
  import opened Routing
  import opened Mux
  import opened MuxParts
  import Links

  // ---------- a socket's own step ----------

  /** The packets a socket's own step sends are routed to its own pair, and leave the entry as it is
      unless one of them is the CLOS. */
  lemma {:induction false} OwnPackets(s: Sock, a: Act, k: nat, id: uint16, slot: Option<nat>)
    requires Can(s, a) && Links.Deaths(s)
    requires id == s.sokid && !s.closed ==> slot == Some(k)
    ensures var ps := Tag(Do(s, a).out, k);
      && RouteOk(slot, ps, id)
      && SlotEnd(slot, ps, id) == if id == s.sokid && a.Close? && !s.closed then None else slot
  {
    var out := Do(s, a).out;
    var ps := Tag(out, k);
    ActKeeps(s, a);
    if id != s.sokid {
      RouteOther(slot, ps, id);
    } else if s.closed {
      Links.Silenced(s, a);
    } else if |out| == 2 {
      assert ps[1..] == [ps[1]] && ps[1..][1..] == [];
      assert SlotEnd(slot, ps[1..], id) == SlotEnd(slot, [], id) == slot;
    } else if |out| == 1 {
      assert ps[1..] == [];
      assert forall o: Option<nat> :: SlotEnd(o, [], id) == o;
    }
  }

  /** The other end's future table, for either direction: a socket that has not sent its CLOS is seen. */
  lemma ActRouted(t: Table, pipes: Pipes, s: Sock, k: nat, act: Act)
    requires Routed(t, pipes) && Can(s, act) && Links.Deaths(s) && s.wire < |pipes|
    requires !s.closed ==> Sees(t, pipes, s, k)
    ensures Routed(t, Push(pipes, s.wire, Tag(Do(s, act).out, k)))
  {
    forall id: uint16 ensures RouteOk(SlotEnd(Slot(t, id), pipes[s.wire], id), Tag(Do(s, act).out, k), id) {
      OwnPackets(s, act, k, id, SlotEnd(Slot(t, id), pipes[s.wire], id));
    }
    RoutedPush(t, pipes, s.wire, Tag(Do(s, act).out, k));
  }

  /** How the step moves what the other end will see of any socket `r`, named `j`. */
  lemma ActSees(t: Table, pipes: Pipes, s: Sock, k: nat, act: Act, r: Sock, j: nat)
    requires Can(s, act) && Links.Deaths(s) && s.wire < |pipes|
    requires !s.closed ==> Sees(t, pipes, s, k)
    requires j == k ==> r.sokid == s.sokid && r.wire == s.wire
    ensures Sees(t, Push(pipes, s.wire, Tag(Do(s, act).out, k)), r, j) <==>
            Sees(t, pipes, r, j) && !(j == k && act.Close? && !s.closed)
  {
    SeesPush(t, pipes, s.wire, Tag(Do(s, act).out, k), r, j);
    if r.wire == s.wire {
      OwnPackets(s, act, k, r.sokid, SlotEnd(Slot(t, r.sokid), pipes[s.wire], r.sokid));
    }
  }

  lemma ActBelongs(cs: Socks, s: Sock, k: nat, act: Act)
    requires Can(s, act) && k in cs && cs[k].x.announced && cs[k].wire == s.wire && cs[k].sokid == s.sokid
    ensures var ps := Tag(Do(s, act).out, k);
      forall i | 0 <= i < |ps| :: Belongs(cs, s.wire, ps[i]) && ps[i].seg.flag != FL_OPEN
  {
    ActKeeps(s, act);
  }

  // ---------- a socket of the client ----------

  lemma ClientActSeen(cs: Socks, t: Table, c2s: Pipes, k: nat, act: Act)
    requires k in cs && Can(cs[k], act) && Links.Deaths(cs[k]) && cs[k].wire < |c2s|
    requires Routed(t, c2s) && ServerSees(cs, t, c2s)
    ensures var c2s' := Push(c2s, cs[k].wire, Tag(Do(cs[k], act).out, k));
      Routed(t, c2s') && ServerSees(cs[k := Do(cs[k], act).sock], t, c2s')
  {
    var s := cs[k];
    ActKeeps(s, act);
    assert Sees(t, c2s, s, k) <==> s.x.announced && !s.closed;
    ActRouted(t, c2s, s, k, act);
    forall j | j in cs ensures
      var s' := cs[k := Do(s, act).sock][j];
      Sees(t, Push(c2s, s.wire, Tag(Do(s, act).out, k)), s', j) <==> s'.x.announced && !s'.closed
    {
      var s' := cs[k := Do(s, act).sock][j];
      assert Sees(t, c2s, cs[j], j) <==> cs[j].x.announced && !cs[j].closed;
      ActSees(t, c2s, s, k, act, s', j);
    }
  }

  lemma ClientActCarried(cs: Socks, ss: Socks, c2s: Pipes, s2c: Pipes, k: nat, act: Act)
    requires k in cs && Can(cs[k], act) && cs[k].wire < |c2s|
    requires Matched(cs, ss) && Untouched(cs) && Carried(cs, c2s) && Carried(cs, s2c)
    ensures var cs', c2s' := cs[k := Do(cs[k], act).sock], Push(c2s, cs[k].wire, Tag(Do(cs[k], act).out, k));
      && Matched(cs', ss) && Untouched(cs') && Carried(cs', c2s') && Carried(cs', s2c)
  {
    var s, cs' := cs[k], cs[k := Do(cs[k], act).sock];
    ActKeeps(s, act);
    assert Keeps(cs, cs');
    CarriedKeeps(cs, cs', s2c);
    CarriedKeeps(cs, cs', c2s);
    ActBelongs(cs', s, k, act);
    CarriedPush(cs', c2s, s.wire, Tag(Do(s, act).out, k));
  }

  lemma ClientActSuperseded(cs: Socks, ss: Socks, c2s: Pipes, s2c: Pipes, k: nat, act: Act)
    requires k in cs && Can(cs[k], act) && Links.Deaths(cs[k]) && cs[k].wire < |c2s| && Superseded(cs, ss, c2s, s2c)
    ensures Superseded(cs[k := Do(cs[k], act).sock], ss, Push(c2s, cs[k].wire, Tag(Do(cs[k], act).out, k)), s2c)
  {
    var s := cs[k];
    var cs', c2s' := cs[k := Do(s, act).sock], Push(c2s, s.wire, Tag(Do(s, act).out, k));
    ActKeeps(s, act);
    forall j | Gone(cs, ss, c2s, s2c, j) ensures Absent(c2s', j) {
      if j == k {
        Links.Silenced(s, act);
      }
      AbsentPush(c2s, s.wire, Tag(Do(s, act).out, k), j);
    }
    SupersededKeeps(cs, ss, c2s, s2c, cs', ss, c2s', s2c);
  }

  lemma ClientActRest(cs: Socks, ss: Socks, t: Table, c2s: Pipes, s2c: Pipes, k: nat, act: Act)
    requires k in cs && Can(cs[k], act) && cs[k].wire < |c2s|
    requires ClientSees(cs, ss, t, s2c) && OpenOnce(cs, ss, c2s)
    ensures var cs', c2s' := cs[k := Do(cs[k], act).sock], Push(c2s, cs[k].wire, Tag(Do(cs[k], act).out, k));
      && ClientSees(cs', ss, t, s2c) && OpenOnce(cs', ss, c2s')
  {
    var s, cs' := cs[k], cs[k := Do(cs[k], act).sock];
    ActKeeps(s, act);
    forall j | j in cs' ensures Sees(t, s2c, cs'[j], j) <==> !(j in ss && ss[j].closed) {
      assert Sees(t, s2c, cs[j], j) <==> Sees(t, s2c, cs'[j], j);
    }
    forall j | j in cs' ensures OpenOnceAt(cs'[j], j in ss, Push(c2s, s.wire, Tag(Do(s, act).out, k)), j) {
      assert OpenOnceAt(cs[j], j in ss, c2s, j);
      OnPush(c2s, s.wire, Do(s, act).out, k, cs[j].wire, j);
    }
  }

  /** The step is a step of the pair's own link, and invisible to every other link. */
  lemma ClientActLink(cs: Socks, ss: Socks, c2s: Pipes, s2c: Pipes, k: nat, act: Act, j: nat)
    requires k in cs && j in cs && Can(cs[k], act) && cs[k].wire < |c2s|
    ensures var cs', c2s' := cs[k := Do(cs[k], act).sock], Push(c2s, cs[k].wire, Tag(Do(cs[k], act).out, k));
      var l, l' := Pair(cs[j], Peer(ss, cs[j], j), c2s, s2c, j), Pair(cs'[j], Peer(ss, cs'[j], j), c2s', s2c, j);
      && (j != k ==> l' == l)
      && (j == k ==> Links.CanStep(l, Links.Local(Links.A, act)) && l' == Links.Next(l, Links.Local(Links.A, act)))
  {
    var s := cs[k];
    ActKeeps(s, act);
    OnPush(c2s, s.wire, Do(s, act).out, k, cs[j].wire, j);
    assert s.x.(announced := true) == s.x;
  }

  lemma ClientActLinks(cs: Socks, ss: Socks, c2s: Pipes, s2c: Pipes, k: nat, act: Act)
    requires k in cs && Can(cs[k], act) && cs[k].wire < |c2s| && LinksOk(cs, ss, c2s, s2c)
    ensures LinksOk(cs[k := Do(cs[k], act).sock], ss, Push(c2s, cs[k].wire, Tag(Do(cs[k], act).out, k)), s2c)
  {
    var cs', c2s' := cs[k := Do(cs[k], act).sock], Push(c2s, cs[k].wire, Tag(Do(cs[k], act).out, k));
    forall j | j in cs' ensures Links.Inv(Pair(cs'[j], Peer(ss, cs'[j], j), c2s', s2c, j)) {
      var l := Pair(cs[j], Peer(ss, cs[j], j), c2s, s2c, j);
      assert Links.Inv(l);
      ClientActLink(cs, ss, c2s, s2c, k, act, j);
      if j == k {
        Links.StepInv(l, Links.Local(Links.A, act));
      }
    }
  }

  // ---------- a socket of the server ----------

  lemma ServerActSeen(cs: Socks, ss: Socks, t: Table, s2c: Pipes, k: nat, act: Act)
    requires k in ss && Can(ss[k], act) && Links.Deaths(ss[k]) && ss[k].wire < |s2c|
    requires Matched(cs, ss) && Routed(t, s2c) && ClientSees(cs, ss, t, s2c)
    ensures var s2c' := Push(s2c, ss[k].wire, Tag(Do(ss[k], act).out, k));
      Routed(t, s2c') && ClientSees(cs, ss[k := Do(ss[k], act).sock], t, s2c')
  {
    var s := ss[k];
    ActKeeps(s, act);
    assert Sees(t, s2c, cs[k], k) <==> !s.closed;
    assert Sees(t, s2c, s, k) <==> Sees(t, s2c, cs[k], k);
    ActRouted(t, s2c, s, k, act);
    var ss' := ss[k := Do(s, act).sock];
    forall j | j in cs ensures
      Sees(t, Push(s2c, s.wire, Tag(Do(s, act).out, k)), cs[j], j) <==> !(j in ss' && ss'[j].closed)
    {
      assert Sees(t, s2c, cs[j], j) <==> !(j in ss && ss[j].closed);
      ActSees(t, s2c, s, k, act, cs[j], j);
    }
  }

  lemma ServerActCarried(cs: Socks, ss: Socks, s2c: Pipes, k: nat, act: Act)
    requires k in ss && Can(ss[k], act) && ss[k].wire < |s2c|
    requires Matched(cs, ss) && Carried(cs, s2c) && NoOpens(s2c)
    ensures var ss', s2c' := ss[k := Do(ss[k], act).sock], Push(s2c, ss[k].wire, Tag(Do(ss[k], act).out, k));
      Matched(cs, ss') && Carried(cs, s2c') && NoOpens(s2c')
  {
    var s := ss[k];
    ActKeeps(s, act);
    ActBelongs(cs, s, k, act);
    CarriedPush(cs, s2c, s.wire, Tag(Do(s, act).out, k));
    NoOpensPush(s2c, s.wire, Tag(Do(s, act).out, k));
  }

  lemma ServerActSuperseded(cs: Socks, ss: Socks, c2s: Pipes, s2c: Pipes, k: nat, act: Act)
    requires k in ss && Can(ss[k], act) && Links.Deaths(ss[k]) && ss[k].wire < |s2c| && Superseded(cs, ss, c2s, s2c)
    ensures Superseded(cs, ss[k := Do(ss[k], act).sock], c2s, Push(s2c, ss[k].wire, Tag(Do(ss[k], act).out, k)))
  {
    var s := ss[k];
    var ss', s2c' := ss[k := Do(s, act).sock], Push(s2c, s.wire, Tag(Do(s, act).out, k));
    ActKeeps(s, act);
    forall j | Gone(cs, ss, c2s, s2c, j) ensures Absent(s2c', j) {
      if j == k {
        Links.Silenced(s, act);
      }
      AbsentPush(s2c, s.wire, Tag(Do(s, act).out, k), j);
    }
    SupersededKeeps(cs, ss, c2s, s2c, cs, ss', c2s, s2c');
  }

  lemma ServerActLink(cs: Socks, ss: Socks, c2s: Pipes, s2c: Pipes, k: nat, act: Act, j: nat)
    requires k in ss && j in cs && Can(ss[k], act) && ss[k].wire < |s2c| && Matched(cs, ss)
    ensures var ss', s2c' := ss[k := Do(ss[k], act).sock], Push(s2c, ss[k].wire, Tag(Do(ss[k], act).out, k));
      var l, l' := Pair(cs[j], Peer(ss, cs[j], j), c2s, s2c, j), Pair(cs[j], Peer(ss', cs[j], j), c2s, s2c', j);
      && (j != k ==> l' == l)
      && (j == k ==> Links.CanStep(l, Links.Local(Links.B, act)) && l' == Links.Next(l, Links.Local(Links.B, act)))
  {
    var s := ss[k];
    ActKeeps(s, act);
    OnPush(s2c, s.wire, Do(s, act).out, k, cs[j].wire, j);
  }

  lemma ServerActLinks(cs: Socks, ss: Socks, c2s: Pipes, s2c: Pipes, k: nat, act: Act)
    requires k in ss && Can(ss[k], act) && ss[k].wire < |s2c| && LinksOk(cs, ss, c2s, s2c) && Matched(cs, ss)
    ensures LinksOk(cs, ss[k := Do(ss[k], act).sock], c2s, Push(s2c, ss[k].wire, Tag(Do(ss[k], act).out, k)))
  {
    var ss', s2c' := ss[k := Do(ss[k], act).sock], Push(s2c, ss[k].wire, Tag(Do(ss[k], act).out, k));
    forall j | j in cs ensures Links.Inv(Pair(cs[j], Peer(ss', cs[j], j), c2s, s2c', j)) {
      var l := Pair(cs[j], Peer(ss, cs[j], j), c2s, s2c, j);
      assert Links.Inv(l);
      ServerActLink(cs, ss, c2s, s2c, k, act, j);
      if j == k {
        Links.StepInv(l, Links.Local(Links.B, act));
      }
    }
  }

  /** An honest peer's traffic never makes `Read` meet garbage. */
  lemma NoGarbage(x: Sock, y: Sock, c: seq<Segment>, act: Act)
    requires Links.Shape(x, y, c) && Can(y, act)
    ensures !Do(y, act).garbage
  {
  }

  // ---------- deliveries ----------

  /** What the demultiplexer does with a packet that finds the right entry. */
  lemma RightEntry(e: Endpoint, p: Packet, wire: nat, cfg: Config)
    requires WellFormed(e) && (p.seg.flag == FL_OPEN ==> !cfg.rejectOpen)
    requires Concerns(p, p.seg.sokid) ==> Allowed(Slot(e.table, p.seg.sokid), p)
    ensures var d := Dispatch(e, p.seg, wire, p.inc, cfg);
      && Moved(e.table, d.e.table, p)
      && (p.seg.flag == FL_ALIV ==> d.e.socks == e.socks && d.e.killed == e.killed)
      && (p.seg.flag == FL_OPEN ==> d.e.socks == e.socks[p.inc := NewSock(p.seg.sokid, wire, true)])
      && (p.seg.flag == FL_OPEN ==> d.fail == (if |e.backlog| < cfg.acceptCap then None else Some(AcceptOverflow)))
      && (!Links.Unaddressed(p.seg) ==> p.inc in e.socks)
      && (!Links.Unaddressed(p.seg) ==> d.e.socks == e.socks[p.inc := Arrive(e.socks[p.inc], p.seg).sock])
      && (!Links.Unaddressed(p.seg) ==> d.fail == Arrive(e.socks[p.inc], p.seg).kill)
      && d.e.killed == if d.fail.Some? then FirstKill(e.killed, d.fail.value) else e.killed
  {
  }

  lemma HeadAllowed(t: Table, pipes: Pipes, wire: nat)
    requires Routed(t, pipes) && wire < |pipes| && pipes[wire] != []
    ensures var p := pipes[wire][0]; Concerns(p, p.seg.sokid) ==> Allowed(Slot(t, p.seg.sokid), p)
  {
    assert RouteOk(Slot(t, pipes[wire][0].seg.sokid), pipes[wire], pipes[wire][0].seg.sokid);
  }

  lemma PopSeen(cs: Socks, ss: Socks, t: Table, t': Table, pipes: Pipes, wire: nat)
    requires wire < |pipes| && pipes[wire] != [] && Moved(t, t', pipes[wire][0])
    requires Carried(cs, pipes) && Apart(cs, ss, pipes)
    ensures ServerSees(cs, t, pipes) ==> ServerSees(cs, t', Pop(pipes, wire))
    ensures ClientSees(cs, ss, t, pipes) ==> ClientSees(cs, ss, t', Pop(pipes, wire))
  {
    forall k | k in cs
      ensures (Sees(t', Pop(pipes, wire), cs[k], k) <==> Sees(t, pipes, cs[k], k)) ||
              (Sees(t, pipes, cs[k], k) && cs[k].closed && k in ss && ss[k].closed)
    {
      if Concerns(pipes[wire][0], cs[k].sokid) && cs[k].wire != wire {
        assert cs[k].closed && k in ss && ss[k].closed;
        if cs[k].wire < |pipes| && !Sees(t, pipes, cs[k], k) {
          SeesPopElsewhere(cs, ss, t, t', pipes, wire, k);
        }
      } else {
        SeesPop(t, t', pipes, wire, cs[k], k);
      }
    }
  }

  /** A packet leaves a wire to the server, and closes no socket of it. */
  lemma ServerPopSuperseded(cs: Socks, ss: Socks, ss': Socks, c2s: Pipes, s2c: Pipes, wire: nat)
    requires wire < |c2s| && c2s[wire] != [] && Superseded(cs, ss, c2s, s2c)
    requires forall j | j in ss :: j in ss' && (ss[j].closed ==> ss'[j].closed)
    ensures Superseded(cs, ss', Pop(c2s, wire), s2c)
  {
    forall j | Gone(cs, ss, c2s, s2c, j) ensures Absent(Pop(c2s, wire), j) {
      AbsentPop(c2s, wire, j);
    }
    SupersededKeeps(cs, ss, c2s, s2c, cs, ss', Pop(c2s, wire), s2c);
  }

  lemma ClientPopSuperseded(cs: Socks, cs': Socks, ss: Socks, c2s: Pipes, s2c: Pipes, wire: nat)
    requires wire < |s2c| && s2c[wire] != [] && Superseded(cs, ss, c2s, s2c) && Keeps(cs, cs') && cs'.Keys == cs.Keys
    requires forall j | j in cs && cs[j].closed :: cs'[j].closed
    ensures Superseded(cs', ss, c2s, Pop(s2c, wire))
  {
    forall j | Gone(cs, ss, c2s, s2c, j) ensures Absent(Pop(s2c, wire), j) {
      AbsentPop(s2c, wire, j);
    }
    SupersededKeeps(cs, ss, c2s, s2c, cs', ss, c2s, Pop(s2c, wire));
  }

  lemma ServerTakeSuperseded(cs: Socks, ss: Socks, c2s: Pipes, s2c: Pipes, wire: nat)
    requires wire < |c2s| && c2s[wire] != [] && c2s[wire][0].inc in ss && Superseded(cs, ss, c2s, s2c)
    ensures var p := c2s[wire][0];
      Superseded(cs, ss[p.inc := Arrive(ss[p.inc], p.seg).sock], Pop(c2s, wire), s2c)
  {
    var p := c2s[wire][0];
    Links.ArrivalTouches(ss[p.inc], p.seg);
    ServerPopSuperseded(cs, ss, ss[p.inc := Arrive(ss[p.inc], p.seg).sock], c2s, s2c, wire);
  }

  lemma ServerOpenSuperseded(cs: Socks, ss: Socks, c2s: Pipes, s2c: Pipes, wire: nat)
    requires wire < |c2s| && c2s[wire] != [] && c2s[wire][0].inc !in ss && Superseded(cs, ss, c2s, s2c)
    ensures var p := c2s[wire][0];
      Superseded(cs, ss[p.inc := NewSock(p.seg.sokid, wire, true)], Pop(c2s, wire), s2c)
  {
    var p := c2s[wire][0];
    ServerPopSuperseded(cs, ss, ss[p.inc := NewSock(p.seg.sokid, wire, true)], c2s, s2c, wire);
  }

  lemma ClientTakeSuperseded(cs: Socks, ss: Socks, c2s: Pipes, s2c: Pipes, wire: nat)
    requires wire < |s2c| && s2c[wire] != [] && s2c[wire][0].inc in cs && Superseded(cs, ss, c2s, s2c)
    ensures var p := s2c[wire][0];
      Superseded(cs[p.inc := Arrive(cs[p.inc], p.seg).sock], ss, c2s, Pop(s2c, wire))
  {
    var p := s2c[wire][0];
    Links.ArrivalTouches(cs[p.inc], p.seg);
    ClientPopSuperseded(cs, cs[p.inc := Arrive(cs[p.inc], p.seg).sock], ss, c2s, s2c, wire);
  }

  /** A packet handed to a server socket. */
  lemma ServerTakes(cs: Socks, ss: Socks, t: Table, c2s: Pipes, s2c: Pipes, wire: nat)
    requires wire < |c2s| && c2s[wire] != [] && !Links.Unaddressed(c2s[wire][0].seg) && c2s[wire][0].inc in ss
    requires Matched(cs, ss) && ClientSees(cs, ss, t, s2c) && OpenOnce(cs, ss, c2s)
    ensures var p := c2s[wire][0]; var ss' := ss[p.inc := Arrive(ss[p.inc], p.seg).sock];
      Matched(cs, ss') && ClientSees(cs, ss', t, s2c) && OpenOnce(cs, ss', Pop(c2s, wire))
  {
    var p := c2s[wire][0];
    var ss' := ss[p.inc := Arrive(ss[p.inc], p.seg).sock];
    Links.ArrivalTouches(ss[p.inc], p.seg);
    forall j | j in cs ensures OpenOnceAt(cs[j], j in ss', Pop(c2s, wire), j) {
      assert OpenOnceAt(cs[j], j in ss, c2s, j);
      OnPop(c2s, wire, cs[j].wire, j);
    }
    forall j | j in cs ensures Sees(t, s2c, cs[j], j) <==> !(j in ss' && ss'[j].closed) {
      assert Sees(t, s2c, cs[j], j) <==> !(j in ss && ss[j].closed);
    }
  }

  lemma ServerTakesLink(cs: Socks, ss: Socks, c2s: Pipes, s2c: Pipes, wire: nat, j: nat)
    requires wire < |c2s| && c2s[wire] != [] && !Links.Unaddressed(c2s[wire][0].seg) && c2s[wire][0].inc in ss
    requires j in cs && Belongs(cs, wire, c2s[wire][0])
    ensures var p := c2s[wire][0]; var ss', c2s' := ss[p.inc := Arrive(ss[p.inc], p.seg).sock], Pop(c2s, wire);
      var l, l' := Pair(cs[j], Peer(ss, cs[j], j), c2s, s2c, j), Pair(cs[j], Peer(ss', cs[j], j), c2s', s2c, j);
      && (j != p.inc ==> l' == l)
      && (j == p.inc ==>
          Links.CanStep(l, Links.Deliver(Links.B)) && l.ab[0] == p.seg && l' == Links.Next(l, Links.Deliver(Links.B)))
  {
    OnPop(c2s, wire, cs[j].wire, j);
    var p := c2s[wire][0];
    if j == p.inc {
      assert ([p.seg] + On(Pop(c2s, wire), cs[j].wire, j))[1..] == On(Pop(c2s, wire), cs[j].wire, j);
    } else {
      assert [] + On(Pop(c2s, wire), cs[j].wire, j) == On(Pop(c2s, wire), cs[j].wire, j);
    }
  }

  lemma ServerTakesLinks(cs: Socks, ss: Socks, c2s: Pipes, s2c: Pipes, wire: nat)
    requires wire < |c2s| && c2s[wire] != [] && !Links.Unaddressed(c2s[wire][0].seg) && c2s[wire][0].inc in ss
    requires LinksOk(cs, ss, c2s, s2c) && Belongs(cs, wire, c2s[wire][0])
    ensures var p := c2s[wire][0];
      LinksOk(cs, ss[p.inc := Arrive(ss[p.inc], p.seg).sock], Pop(c2s, wire), s2c)
  {
    var p := c2s[wire][0];
    var ss', c2s' := ss[p.inc := Arrive(ss[p.inc], p.seg).sock], Pop(c2s, wire);
    forall j | j in cs ensures Links.Inv(Pair(cs[j], Peer(ss', cs[j], j), c2s', s2c, j)) {
      var l := Pair(cs[j], Peer(ss, cs[j], j), c2s, s2c, j);
      assert Links.Inv(l);
      ServerTakesLink(cs, ss, c2s, s2c, wire, j);
      if j == p.inc {
        Links.StepInv(l, Links.Deliver(Links.B));
      }
    }
  }

  lemma ServerOpens(cs: Socks, ss: Socks, t: Table, c2s: Pipes, s2c: Pipes, wire: nat)
    requires wire < |c2s| && c2s[wire] != [] && c2s[wire][0].seg.flag == FL_OPEN && Belongs(cs, wire, c2s[wire][0])
    requires Matched(cs, ss) && ClientSees(cs, ss, t, s2c) && OpenOnce(cs, ss, c2s)
    ensures var p := c2s[wire][0]; var ss' := ss[p.inc := NewSock(p.seg.sokid, wire, true)];
      p.inc !in ss && Matched(cs, ss') && ClientSees(cs, ss', t, s2c) && OpenOnce(cs, ss', Pop(c2s, wire))
  {
    var p := c2s[wire][0];
    var ss' := ss[p.inc := NewSock(p.seg.sokid, wire, true)];
    assert OpenOnceAt(cs[p.inc], p.inc in ss, c2s, p.inc);
    OnPop(c2s, wire, wire, p.inc);
    forall j | j in cs ensures OpenOnceAt(cs[j], j in ss', Pop(c2s, wire), j) {
      assert OpenOnceAt(cs[j], j in ss, c2s, j);
      OnPop(c2s, wire, cs[j].wire, j);
    }
    forall j | j in cs ensures Sees(t, s2c, cs[j], j) <==> !(j in ss' && ss'[j].closed) {
      assert Sees(t, s2c, cs[j], j) <==> !(j in ss && ss[j].closed);
    }
  }

  /** An OPEN makes the server's socket, where the pair already had a new one. */
  lemma ServerOpensLinks(cs: Socks, ss: Socks, c2s: Pipes, s2c: Pipes, wire: nat)
    requires wire < |c2s| && c2s[wire] != [] && c2s[wire][0].seg.flag == FL_OPEN && Belongs(cs, wire, c2s[wire][0])
    requires c2s[wire][0].inc !in ss
    ensures var p := c2s[wire][0]; var ss' := ss[p.inc := NewSock(p.seg.sokid, wire, true)];
      forall j | j in cs ::
        Pair(cs[j], Peer(ss', cs[j], j), Pop(c2s, wire), s2c, j) == Pair(cs[j], Peer(ss, cs[j], j), c2s, s2c, j)
  {
    forall j | j in cs ensures On(Pop(c2s, wire), cs[j].wire, j) == On(c2s, cs[j].wire, j) {
      OnPop(c2s, wire, cs[j].wire, j);
      assert [] + On(Pop(c2s, wire), cs[j].wire, j) == On(Pop(c2s, wire), cs[j].wire, j);
    }
  }

  /** A keepalive leaves a wire. */
  lemma AlivLeaves(cs: Socks, ss: Socks, pipes: Pipes, other: Pipes, wire: nat)
    requires wire < |pipes| && pipes[wire] != [] && pipes[wire][0].seg.flag == FL_ALIV
    ensures OpenOnce(cs, ss, pipes) ==> OpenOnce(cs, ss, Pop(pipes, wire))
    ensures forall j | j in cs ::
      && Pair(cs[j], Peer(ss, cs[j], j), Pop(pipes, wire), other, j) == Pair(cs[j], Peer(ss, cs[j], j), pipes, other, j)
      && Pair(cs[j], Peer(ss, cs[j], j), other, Pop(pipes, wire), j) == Pair(cs[j], Peer(ss, cs[j], j), other, pipes, j)
  {
    forall j, at: nat ensures On(Pop(pipes, wire), at, j) == On(pipes, at, j) {
      OnPop(pipes, wire, at, j);
      assert [] + On(Pop(pipes, wire), at, j) == On(Pop(pipes, wire), at, j);
    }
    if OpenOnce(cs, ss, pipes) {
      forall j | j in cs ensures OpenOnceAt(cs[j], j in ss, Pop(pipes, wire), j) {
        assert OpenOnceAt(cs[j], j in ss, pipes, j);
        OnPop(pipes, wire, cs[j].wire, j);
      }
    }
  }

  /** A packet handed to a client socket. */
  lemma ClientTakes(cs: Socks, ss: Socks, st: Table, c2s: Pipes, s2c: Pipes, wire: nat)
    requires wire < |s2c| && s2c[wire] != [] && s2c[wire][0].inc in cs && cs[s2c[wire][0].inc].x.announced
    requires Matched(cs, ss) && Untouched(cs)
    requires Carried(cs, c2s) && ServerSees(cs, st, c2s) && OpenOnce(cs, ss, c2s)
    ensures var p := s2c[wire][0]; var cs' := cs[p.inc := Arrive(cs[p.inc], p.seg).sock];
      && Keeps(cs, cs') && cs'.Keys == cs.Keys
      && Matched(cs', ss) && Untouched(cs')
      && Carried(cs', c2s) && ServerSees(cs', st, c2s) && OpenOnce(cs', ss, c2s)
  {
    var p := s2c[wire][0];
    var cs' := cs[p.inc := Arrive(cs[p.inc], p.seg).sock];
    Links.ArrivalTouches(cs[p.inc], p.seg);
    CarriedKeeps(cs, cs', c2s);
    forall j | j in cs' ensures Sees(st, c2s, cs'[j], j) <==> cs'[j].x.announced && !cs'[j].closed {
      assert Sees(st, c2s, cs[j], j) <==> cs[j].x.announced && !cs[j].closed;
    }
    forall j | j in cs' ensures OpenOnceAt(cs'[j], j in ss, c2s, j) {
      assert OpenOnceAt(cs[j], j in ss, c2s, j);
    }
  }

  lemma ClientSeesKeeps(cs: Socks, cs': Socks, ss: Socks, t: Table, s2c: Pipes)
    requires Keeps(cs, cs') && cs'.Keys == cs.Keys && ClientSees(cs, ss, t, s2c)
    ensures ClientSees(cs', ss, t, s2c)
  {
    forall j | j in cs' ensures Sees(t, s2c, cs'[j], j) <==> !(j in ss && ss[j].closed) {
      assert Sees(t, s2c, cs[j], j) <==> !(j in ss && ss[j].closed);
    }
  }

  lemma ClientTakesLink(cs: Socks, ss: Socks, c2s: Pipes, s2c: Pipes, wire: nat, j: nat)
    requires wire < |s2c| && s2c[wire] != [] && !Links.Unaddressed(s2c[wire][0].seg)
    requires j in cs && Belongs(cs, wire, s2c[wire][0])
    ensures var p := s2c[wire][0]; var cs', s2c' := cs[p.inc := Arrive(cs[p.inc], p.seg).sock], Pop(s2c, wire);
      var l, l' := Pair(cs[j], Peer(ss, cs[j], j), c2s, s2c, j), Pair(cs'[j], Peer(ss, cs'[j], j), c2s, s2c', j);
      && (j != p.inc ==> l' == l)
      && (j == p.inc ==>
          Links.CanStep(l, Links.Deliver(Links.A)) && l.ba[0] == p.seg && l' == Links.Next(l, Links.Deliver(Links.A)))
  {
    var p := s2c[wire][0];
    Links.ArrivalTouches(cs[p.inc], p.seg);
    OnPop(s2c, wire, cs[j].wire, j);
    if j == p.inc {
      assert cs[j].x.(announced := true) == cs[j].x;
      assert ([p.seg] + On(Pop(s2c, wire), cs[j].wire, j))[1..] == On(Pop(s2c, wire), cs[j].wire, j);
    } else {
      assert [] + On(Pop(s2c, wire), cs[j].wire, j) == On(Pop(s2c, wire), cs[j].wire, j);
    }
  }

  lemma ClientTakesLinks(cs: Socks, ss: Socks, c2s: Pipes, s2c: Pipes, wire: nat)
    requires wire < |s2c| && s2c[wire] != [] && !Links.Unaddressed(s2c[wire][0].seg)
    requires LinksOk(cs, ss, c2s, s2c) && Belongs(cs, wire, s2c[wire][0])
    ensures var p := s2c[wire][0];
      LinksOk(cs[p.inc := Arrive(cs[p.inc], p.seg).sock], ss, c2s, Pop(s2c, wire))
  {
    var p := s2c[wire][0];
    var cs', s2c' := cs[p.inc := Arrive(cs[p.inc], p.seg).sock], Pop(s2c, wire);
    forall j | j in cs' ensures Links.Inv(Pair(cs'[j], Peer(ss, cs'[j], j), c2s, s2c', j)) {
      var l := Pair(cs[j], Peer(ss, cs[j], j), c2s, s2c, j);
      assert Links.Inv(l);
      ClientTakesLink(cs, ss, c2s, s2c, wire, j);
      if j == p.inc {
        Links.StepInv(l, Links.Deliver(Links.A));
      }
    }
  }

  // ---------- opening a socket ----------

  lemma TunnelRouting(cs: Socks, ss: Socks, t: Table, s2c: Pipes, id: uint16, wire: nat, n: nat)
    requires n !in cs && id !in t && wire < |s2c| && Matched(cs, ss)
    requires Routed(t, s2c) && ClientSees(cs, ss, t, s2c) && NoOpens(s2c)
    ensures var cs', t' := cs[n := NewSock(id, wire, false)], t[id := n];
      Routed(t', s2c) && ClientSees(cs', ss, t', s2c)
  {
    var cs', t' := cs[n := NewSock(id, wire, false)], t[id := n];
    forall i | 0 <= i < |s2c| ensures forall slot :: RouteOk(slot, s2c[i], id) && SlotEnd(slot, s2c[i], id) == slot {
      assert RouteOk(Slot(t, id), s2c[i], id);
      EmptySlot(s2c[i], id);
      forall slot ensures RouteOk(slot, s2c[i], id) && SlotEnd(slot, s2c[i], id) == slot {
        RouteOther(slot, s2c[i], id);
      }
    }
    forall other: uint16, i | 0 <= i < |s2c| ensures RouteOk(Slot(t', other), s2c[i], other) {
      assert RouteOk(Slot(t, other), s2c[i], other);
    }
    forall j | j in cs' ensures Sees(t', s2c, cs'[j], j) <==> !(j in ss && ss[j].closed) {
      if j != n {
        assert Sees(t, s2c, cs[j], j) <==> !(j in ss && ss[j].closed);
      }
    }
  }

  lemma TunnelCarried(cs: Socks, ss: Socks, c2s: Pipes, s2c: Pipes, id: uint16, wire: nat, n: nat)
    requires n !in cs && Matched(cs, ss) && Untouched(cs) && Carried(cs, c2s) && Carried(cs, s2c)
    ensures var cs' := cs[n := NewSock(id, wire, false)];
      Matched(cs', ss) && Untouched(cs') && Carried(cs', c2s) && Carried(cs', s2c)
  {
    var cs' := cs[n := NewSock(id, wire, false)];
    CarriedKeeps(cs, cs', c2s);
    CarriedKeeps(cs, cs', s2c);
  }

  /** A pair whose ID left the client's table has its server end closed, and nothing on the way to the client. */
  lemma ServerEndClosed(cs: Socks, ss: Socks, t: Table, s2c: Pipes, id: uint16, j: nat)
    requires j in cs && cs[j].sokid == id && id !in t && cs[j].wire < |s2c|
    requires Routed(t, s2c) && ClientSees(cs, ss, t, s2c) && NoOpens(s2c)
    ensures j in ss && ss[j].closed
    ensures forall i | 0 <= i < |s2c| :: QuietId(s2c, i, id)
  {
    forall i | 0 <= i < |s2c| ensures QuietId(s2c, i, id) {
      assert RouteOk(Slot(t, id), s2c[i], id);
      EmptySlot(s2c[i], id);
    }
    assert QuietId(s2c, cs[j].wire, id);
    RouteOther(Slot(t, id), s2c[cs[j].wire], id);
    assert Sees(t, s2c, cs[j], j) <==> !(j in ss && ss[j].closed);
  }

  lemma QuietAbsent(cs: Socks, pipes: Pipes, id: uint16, j: nat)
    requires Carried(cs, pipes) && j in cs && cs[j].sokid == id && QuietId(pipes, cs[j].wire, id)
    ensures Absent(pipes, j)
  {
    forall i, m | 0 <= i < |pipes| && 0 <= m < |pipes[i]|
      ensures pipes[i][m].seg.flag == FL_ALIV || pipes[i][m].inc != j
    {
      assert Belongs(cs, i, pipes[i][m]);
    }
  }

  lemma TunnelSuperseded(cs: Socks, ss: Socks, t: Table, c2s: Pipes, s2c: Pipes, id: uint16, wire: nat, n: nat)
    requires n !in cs && (forall j | j in cs :: j < n && cs[j].wire < |s2c|) && id !in t
    requires forall j | j in cs && cs[j].sokid == id ::
      cs[j].closed && (cs[j].wire == wire || QuietId(c2s, cs[j].wire, id))
    requires Superseded(cs, ss, c2s, s2c) && Carried(cs, c2s) && Carried(cs, s2c)
    requires Routed(t, s2c) && ClientSees(cs, ss, t, s2c) && NoOpens(s2c)
    ensures Superseded(cs[n := NewSock(id, wire, false)], ss, c2s, s2c)
  {
    var cs' := cs[n := NewSock(id, wire, false)];
    forall j, k | j in cs' && k in cs' && j < k && cs'[j].sokid == cs'[k].sokid
      ensures cs'[j].closed && (cs'[j].wire != cs'[k].wire ==> Gone(cs', ss, c2s, s2c, j))
    {
      if k != n {
        assert Gone(cs, ss, c2s, s2c, j) ==> Gone(cs', ss, c2s, s2c, j);
      } else if cs[j].wire != wire {
        ServerEndClosed(cs, ss, t, s2c, id, j);
        QuietAbsent(cs, c2s, id, j);
        QuietAbsent(cs, s2c, id, j);
      }
    }
  }

  lemma TunnelSeen(cs: Socks, ss: Socks, st: Table, c2s: Pipes, id: uint16, wire: nat, n: nat)
    requires n !in cs && n !in ss && wire < |c2s| && Named(c2s, n) && Carried(cs, c2s)
    requires forall i | i in st :: st[i] in cs && cs[st[i]].sokid == i
    requires ServerSees(cs, st, c2s) && OpenOnce(cs, ss, c2s)
    ensures var cs' := cs[n := NewSock(id, wire, false)]; ServerSees(cs', st, c2s) && OpenOnce(cs', ss, c2s)
  {
    var cs' := cs[n := NewSock(id, wire, false)];
    ChanForeign(c2s[wire], n);
    SeenIsKnown(cs, st, c2s, wire, id);
    forall j | j in cs' ensures Sees(st, c2s, cs'[j], j) <==> cs'[j].x.announced && !cs'[j].closed {
      if j != n {
        assert Sees(st, c2s, cs[j], j) <==> cs[j].x.announced && !cs[j].closed;
      }
    }
    forall j | j in cs' ensures OpenOnceAt(cs'[j], j in ss, c2s, j) {
      if j != n {
        assert OpenOnceAt(cs[j], j in ss, c2s, j);
      }
    }
  }

  /** A new pair starts as a new link; the others stay as they are. */
  lemma TunnelLinks(cs: Socks, ss: Socks, c2s: Pipes, s2c: Pipes, id: uint16, wire: nat, n: nat)
    requires n !in cs && n !in ss && wire < |c2s| && wire < |s2c| && Named(c2s, n) && Named(s2c, n)
    ensures var cs' := cs[n := NewSock(id, wire, false)];
      && Pair(cs'[n], Peer(ss, cs'[n], n), c2s, s2c, n) ==
         Links.Link(NewSock(id, wire, true), NewSock(id, wire, true), [], [])
      && forall j | j in cs ::
        Pair(cs'[j], Peer(ss, cs'[j], j), c2s, s2c, j) == Pair(cs[j], Peer(ss, cs[j], j), c2s, s2c, j)
  {
    ChanForeign(c2s[wire], n);
    ChanForeign(s2c[wire], n);
  }

  function Announced(s: Sock): Sock {
    s.(x := s.x.(announced := true))
  }

  /** The newest holder of an ID uses one wire; on the wire of an older one that differs the ID is quiet. */
  lemma ElsewhereQuiet(cs: Socks, ss: Socks, c2s: Pipes, s2c: Pipes, k: nat, v: nat)
    requires k in cs && v in cs && cs[v].sokid == cs[k].sokid && cs[v].wire != cs[k].wire && cs[v].wire < |c2s|
    requires !cs[k].closed && Superseded(cs, ss, c2s, s2c) && Carried(cs, c2s)
    ensures QuietId(c2s, cs[v].wire, cs[k].sokid)
  {
    var wire := cs[v].wire;
    forall i | 0 <= i < |c2s[wire]| ensures !Concerns(c2s[wire][i], cs[k].sokid) {
      assert Belongs(cs, wire, c2s[wire][i]);
      if c2s[wire][i].seg.flag != FL_ALIV {
        Present(c2s, wire, i);
        assert !Gone(cs, ss, c2s, s2c, c2s[wire][i].inc);
      }
    }
  }

  /** An entry that names a pair of another wire was in the table all along. */
  lemma {:induction false} EntryFromTable(cs: Socks, t: Table, pipes: Pipes, wire: nat, id: uint16, v: nat)
    requires Carried(cs, pipes) && wire < |pipes| && v in cs && cs[v].wire != wire
    requires SlotEnd(Slot(t, id), pipes[wire], id) == Some(v)
    ensures Slot(t, id) == Some(v)
  {
    forall i | 0 <= i < |pipes[wire]| && Concerns(pipes[wire][i], id) ensures pipes[wire][i].inc != v {
      assert Belongs(cs, wire, pipes[wire][i]);
    }
    SlotSource(Slot(t, id), pipes[wire], id);
  }

  /** No earlier holder of the ID will be in the table when the OPEN arrives. */
  lemma OpenFindsRoom(cs: Socks, ss: Socks, t: Table, c2s: Pipes, s2c: Pipes, k: nat)
    requires k in cs && !cs[k].x.announced && cs[k].wire < |c2s| && (forall j | j in cs :: cs[j].wire < |c2s|)
    requires Untouched(cs) && Superseded(cs, ss, c2s, s2c) && Carried(cs, c2s)
    requires forall i | i in t :: t[i] in cs && cs[t[i]].sokid == i
    requires ServerSees(cs, t, c2s)
    ensures SlotEnd(Slot(t, cs[k].sokid), c2s[cs[k].wire], cs[k].sokid) == None
  {
    var s := cs[k];
    var end := SlotEnd(Slot(t, s.sokid), c2s[s.wire], s.sokid);
    SeenIsKnown(cs, t, c2s, s.wire, s.sokid);
    if end.Some? {
      var v := end.value;
      assert Sees(t, c2s, cs[v], v) <==> cs[v].x.announced && !cs[v].closed;
      if cs[v].wire != s.wire {
        assert v < k && Gone(cs, ss, c2s, s2c, v);
        EntryFromTable(cs, t, c2s, s.wire, s.sokid, v);
        ElsewhereQuiet(cs, ss, c2s, s2c, k, v);
        RouteOther(Slot(t, s.sokid), c2s[cs[v].wire], s.sokid);
      }
    }
  }

  lemma OpenSeen(cs: Socks, ss: Socks, t: Table, c2s: Pipes, s2c: Pipes, k: nat)
    requires k in cs && !cs[k].x.announced && cs[k].wire < |c2s| && (forall j | j in cs :: cs[j].wire < |c2s|)
    requires Untouched(cs) && Superseded(cs, ss, c2s, s2c) && Carried(cs, c2s)
    requires forall i | i in t :: t[i] in cs && cs[t[i]].sokid == i
    requires Routed(t, c2s) && ServerSees(cs, t, c2s)
    ensures var cs', c2s' := cs[k := Announced(cs[k])], Push(c2s, cs[k].wire, Tag([OpenSegment(cs[k].sokid)], k));
      Routed(t, c2s') && ServerSees(cs', t, c2s')
  {
    var s := cs[k];
    var ps := Tag([OpenSegment(s.sokid)], k);
    var cs', c2s' := cs[k := Announced(s)], Push(c2s, s.wire, ps);
    OpenFindsRoom(cs, ss, t, c2s, s2c, k);
    assert ps[1..] == [];
    forall id: uint16 ensures RouteOk(SlotEnd(Slot(t, id), c2s[s.wire], id), ps, id) {
      if id != s.sokid {
        RouteOther(SlotEnd(Slot(t, id), c2s[s.wire], id), ps, id);
      }
    }
    RoutedPush(t, c2s, s.wire, ps);
    forall j | j in cs' ensures Sees(t, c2s', cs'[j], j) <==> cs'[j].x.announced && !cs'[j].closed {
      SeesPush(t, c2s, s.wire, ps, cs'[j], j);
      assert Sees(t, c2s, cs[j], j) <==> cs[j].x.announced && !cs[j].closed;
      if cs'[j].sokid != s.sokid {
        RouteOther(SlotEnd(Slot(t, cs'[j].sokid), c2s[s.wire], cs'[j].sokid), ps, cs'[j].sokid);
      } else {
        assert SlotEnd(Some(k), [], s.sokid) == Some(k);
      }
    }
  }

  lemma OpenSuperseded(cs: Socks, ss: Socks, c2s: Pipes, s2c: Pipes, k: nat)
    requires k in cs && !cs[k].x.announced && cs[k].wire < |c2s| && Untouched(cs) && Superseded(cs, ss, c2s, s2c)
    ensures Superseded(cs[k := Announced(cs[k])], ss, Push(c2s, cs[k].wire, Tag([OpenSegment(cs[k].sokid)], k)), s2c)
  {
    var ps := Tag([OpenSegment(cs[k].sokid)], k);
    var cs', c2s' := cs[k := Announced(cs[k])], Push(c2s, cs[k].wire, ps);
    forall j | Gone(cs, ss, c2s, s2c, j) ensures Absent(c2s', j) {
      AbsentPush(c2s, cs[k].wire, ps, j);
    }
    SupersededKeeps(cs, ss, c2s, s2c, cs', ss, c2s', s2c);
  }

  lemma OpenCarried(cs: Socks, ss: Socks, ct: Table, c2s: Pipes, s2c: Pipes, k: nat)
    requires k in cs && !cs[k].x.announced && cs[k].wire < |c2s|
    requires Matched(cs, ss) && Untouched(cs) && Carried(cs, c2s) && Carried(cs, s2c)
    requires ClientSees(cs, ss, ct, s2c)
    ensures var cs', c2s' := cs[k := Announced(cs[k])], Push(c2s, cs[k].wire, Tag([OpenSegment(cs[k].sokid)], k));
      && Matched(cs', ss) && Untouched(cs') && Carried(cs', c2s') && Carried(cs', s2c)
      && ClientSees(cs', ss, ct, s2c)
  {
    var cs' := cs[k := Announced(cs[k])];
    CarriedKeeps(cs, cs', c2s);
    CarriedKeeps(cs, cs', s2c);
    CarriedPush(cs', c2s, cs[k].wire, Tag([OpenSegment(cs[k].sokid)], k));
    ClientSeesKeeps(cs, cs', ss, ct, s2c);
  }

  lemma OpenCount(cs: Socks, ss: Socks, c2s: Pipes, k: nat)
    requires k in cs && !cs[k].x.announced && cs[k].wire < |c2s| && OpenOnce(cs, ss, c2s)
    ensures OpenOnce(cs[k := Announced(cs[k])], ss, Push(c2s, cs[k].wire, Tag([OpenSegment(cs[k].sokid)], k)))
  {
    var s := cs[k];
    var open := [OpenSegment(s.sokid)];
    var cs', c2s' := cs[k := Announced(s)], Push(c2s, s.wire, Tag(open, k));
    forall j | j in cs' ensures OpenOnceAt(cs'[j], j in ss, c2s', j) {
      assert OpenOnceAt(cs[j], j in ss, c2s, j);
      OnPush(c2s, s.wire, open, k, cs[j].wire, j);
      if j == k {
        ChanConcat(c2s[s.wire], Tag(open, k), k);
        assert Tag(open, k)[1..] == [];
      }
    }
  }

  /** Sending the OPEN changes nothing in any link. */
  lemma OpenLinks(cs: Socks, ss: Socks, c2s: Pipes, s2c: Pipes, k: nat)
    requires k in cs && cs[k].wire < |c2s|
    ensures var cs', c2s' := cs[k := Announced(cs[k])], Push(c2s, cs[k].wire, Tag([OpenSegment(cs[k].sokid)], k));
      forall j | j in cs ::
        Pair(cs'[j], Peer(ss, cs'[j], j), c2s', s2c, j) == Pair(cs[j], Peer(ss, cs[j], j), c2s, s2c, j)
  {
    var open := [OpenSegment(cs[k].sokid)];
    Links.CountOne(open[0]);
    forall j | j in cs ensures
      On(Push(c2s, cs[k].wire, Tag(open, k)), cs[j].wire, j) == On(c2s, cs[j].wire, j)
    {
      OnPush(c2s, cs[k].wire, open, k, cs[j].wire, j);
      assert On(c2s, cs[j].wire, j) + [] == On(c2s, cs[j].wire, j);
    }
  }

  lemma OpenLinksOk(cs: Socks, ss: Socks, c2s: Pipes, s2c: Pipes, k: nat)
    requires k in cs && cs[k].wire < |c2s| && LinksOk(cs, ss, c2s, s2c)
    ensures LinksOk(cs[k := Announced(cs[k])], ss, Push(c2s, cs[k].wire, Tag([OpenSegment(cs[k].sokid)], k)), s2c)
  {
    var cs', c2s' := cs[k := Announced(cs[k])], Push(c2s, cs[k].wire, Tag([OpenSegment(cs[k].sokid)], k));
    OpenLinks(cs, ss, c2s, s2c, k);
    forall j | j in cs' ensures Links.Inv(Pair(cs'[j], Peer(ss, cs'[j], j), c2s', s2c, j)) {
      assert Links.Inv(Pair(cs[j], Peer(ss, cs[j], j), c2s, s2c, j));
    }
  }

  /** A keepalive joins a wire. */
  lemma AlivRouted(cs: Socks, ss: Socks, t: Table, pipes: Pipes, wire: nat)
    requires wire < |pipes| && Routed(t, pipes) && Carried(cs, pipes)
    ensures var pipes' := Push(pipes, wire, [ALIVE]);
      && Routed(t, pipes') && Carried(cs, pipes') && (NoOpens(pipes) ==> NoOpens(pipes'))
      && (ServerSees(cs, t, pipes) ==> ServerSees(cs, t, pipes'))
      && (ClientSees(cs, ss, t, pipes) ==> ClientSees(cs, ss, t, pipes'))
  {
    var pipes' := Push(pipes, wire, [ALIVE]);
    CarriedPush(cs, pipes, wire, [ALIVE]);
    forall id: uint16, slot ensures RouteOk(slot, [ALIVE], id) && SlotEnd(slot, [ALIVE], id) == slot {
      RouteOther(slot, [ALIVE], id);
    }
    RoutedPush(t, pipes, wire, [ALIVE]);
    forall j | j in cs ensures Sees(t, pipes', cs[j], j) <==> Sees(t, pipes, cs[j], j) {
      SeesPush(t, pipes, wire, [ALIVE], cs[j], j);
    }
  }

  lemma AlivSuperseded(cs: Socks, ss: Socks, c2s: Pipes, s2c: Pipes, wire: nat)
    requires wire < |c2s| == |s2c| && Superseded(cs, ss, c2s, s2c)
    ensures Superseded(cs, ss, Push(c2s, wire, [ALIVE]), s2c) && Superseded(cs, ss, c2s, Push(s2c, wire, [ALIVE]))
  {
    forall j | Gone(cs, ss, c2s, s2c, j)
      ensures Absent(Push(c2s, wire, [ALIVE]), j) && Absent(Push(s2c, wire, [ALIVE]), j)
    {
      AbsentPush(c2s, wire, [ALIVE], j);
      AbsentPush(s2c, wire, [ALIVE], j);
    }
    SupersededKeeps(cs, ss, c2s, s2c, cs, ss, Push(c2s, wire, [ALIVE]), s2c);
    SupersededKeeps(cs, ss, c2s, s2c, cs, ss, c2s, Push(s2c, wire, [ALIVE]));
  }

  lemma {:induction false} AlivOn(pipes: Pipes, wire: nat, at: nat, j: nat)
    requires wire < |pipes|
    ensures var pipes' := Push(pipes, wire, [ALIVE]);
      On(pipes', at, j) == On(pipes, at, j) && (at < |pipes| ==> Opens(pipes'[at], j) == Opens(pipes[at], j))
  {
    var alive := [AlivSegment(0)];
    assert Tag(alive, 0) == [ALIVE];
    OnPush(pipes, wire, alive, 0, at, j);
    Links.CountOne(alive[0]);
    assert On(pipes, at, j) + [] == On(pipes, at, j);
  }

  lemma AlivJoins(cs: Socks, ss: Socks, pipes: Pipes, other: Pipes, wire: nat)
    requires wire < |pipes|
    ensures var pipes' := Push(pipes, wire, [ALIVE]);
      && (OpenOnce(cs, ss, pipes) ==> OpenOnce(cs, ss, pipes'))
      && (forall j | j in cs ::
            && Pair(cs[j], Peer(ss, cs[j], j), pipes', other, j) == Pair(cs[j], Peer(ss, cs[j], j), pipes, other, j)
            && Pair(cs[j], Peer(ss, cs[j], j), other, pipes', j) == Pair(cs[j], Peer(ss, cs[j], j), other, pipes, j))
  {
    var pipes' := Push(pipes, wire, [ALIVE]);
    forall j | j in cs ensures On(pipes', cs[j].wire, j) == On(pipes, cs[j].wire, j) {
      AlivOn(pipes, wire, cs[j].wire, j);
    }
    if OpenOnce(cs, ss, pipes) {
      forall j | j in cs ensures OpenOnceAt(cs[j], j in ss, pipes', j) {
        assert OpenOnceAt(cs[j], j in ss, pipes, j);
        AlivOn(pipes, wire, cs[j].wire, j);
      }
    }
  }
}
