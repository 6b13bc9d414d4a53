/** How each part of the invariant moves when a packet joins or leaves a wire, or a socket changes. */
module MuxParts {
  import opened Segments
  import opened Sockets
  import opened Routing
  import opened Mux
  import Links

  /** The sockets kept their IDs and wires, and did not take back an announcement. */
  ghost predicate Keeps(cs: Socks, cs': Socks) {
    forall k | k in cs :: k in cs' && cs'[k].sokid == cs[k].sokid && cs'[k].wire == cs[k].wire
                          && (cs[k].x.announced ==> cs'[k].x.announced)
  }

  lemma CarriedKeeps(cs: Socks, cs': Socks, pipes: Pipes)
    requires Carried(cs, pipes) && Keeps(cs, cs')
    ensures Carried(cs', pipes)
  {
    forall i, j | 0 <= i < |pipes| && 0 <= j < |pipes[i]| ensures Belongs(cs', i, pipes[i][j]) {
      assert Belongs(cs, i, pipes[i][j]);
    }
  }

  lemma CarriedPush(cs: Socks, pipes: Pipes, wire: nat, ps: seq<Packet>)
    requires Carried(cs, pipes) && wire < |pipes|
    requires forall i | 0 <= i < |ps| :: Belongs(cs, wire, ps[i])
    ensures Carried(cs, Push(pipes, wire, ps))
  {
  }

  lemma NoOpensPush(pipes: Pipes, wire: nat, ps: seq<Packet>)
    requires NoOpens(pipes) && wire < |pipes|
    requires forall i | 0 <= i < |ps| :: ps[i].seg.flag != FL_OPEN
    ensures NoOpens(Push(pipes, wire, ps))
  {
  }

  function Pop(pipes: Pipes, wire: nat): Pipes
    requires wire < |pipes| && pipes[wire] != []
  {
    pipes[wire := pipes[wire][1..]]
  }

  lemma CarriedPop(cs: Socks, pipes: Pipes, wire: nat)
    requires Carried(cs, pipes) && wire < |pipes| && pipes[wire] != []
    ensures Carried(cs, Pop(pipes, wire)) && Belongs(cs, wire, pipes[wire][0])
    ensures NoOpens(pipes) ==> NoOpens(Pop(pipes, wire))
  {
  }

  // ---------- routing ----------

  lemma {:induction false} RoutedPush(t: Table, pipes: Pipes, wire: nat, ps: seq<Packet>)
    requires Routed(t, pipes) && wire < |pipes|
    requires forall id: uint16 :: RouteOk(SlotEnd(Slot(t, id), pipes[wire], id), ps, id)
    ensures Routed(t, Push(pipes, wire, ps))
  {
    forall id: uint16, i | 0 <= i < |pipes| ensures RouteOk(Slot(t, id), Push(pipes, wire, ps)[i], id) {
      assert RouteOk(Slot(t, id), pipes[i], id);
      RouteConcat(Slot(t, id), pipes[i], ps, id);
    }
  }

  lemma {:induction false} SeesPush(t: Table, pipes: Pipes, wire: nat, ps: seq<Packet>, s: Sock, k: nat)
    requires wire < |pipes|
    ensures Sees(t, Push(pipes, wire, ps), s, k) <==>
            if s.wire == wire then SlotEnd(SlotEnd(Slot(t, s.sokid), pipes[wire], s.sokid), ps, s.sokid) == Some(k)
            else Sees(t, pipes, s, k)
  {
    RouteConcat(Slot(t, s.sokid), pipes[wire], ps, s.sokid);
  }

  /** The receiver took the first packet `p` off a wire and moved its table accordingly. */
  ghost predicate Moved(t: Table, t': Table, p: Packet) {
    forall id: uint16 :: Slot(t', id) == if Concerns(p, id) then SlotStep(Slot(t, id), p) else Slot(t, id)
  }

  /** A packet is on a wire: the pairs that hold its ID on other wires are closed and have nothing under way. */
  ghost predicate Apart(cs: Socks, ss: Socks, pipes: Pipes) {
    forall i, m, k | 0 <= i < |pipes| && 0 <= m < |pipes[i]| && k in cs ::
      Concerns(pipes[i][m], cs[k].sokid) && cs[k].wire != i ==>
        cs[k].closed && k in ss && ss[k].closed && Absent(pipes, k)
  }

  lemma ApartOne(cs: Socks, ss: Socks, c2s: Pipes, s2c: Pipes, pipes: Pipes)
    requires Superseded(cs, ss, c2s, s2c) && Carried(cs, pipes) && (pipes == c2s || pipes == s2c)
    ensures Apart(cs, ss, pipes)
  {
    forall i, m, k | 0 <= i < |pipes| && 0 <= m < |pipes[i]| && k in cs
      ensures Concerns(pipes[i][m], cs[k].sokid) && cs[k].wire != i ==>
        cs[k].closed && k in ss && ss[k].closed && Absent(pipes, k)
    {
      if Concerns(pipes[i][m], cs[k].sokid) && cs[k].wire != i {
        assert Belongs(cs, i, pipes[i][m]);
        var j := pipes[i][m].inc;
        assert !Gone(cs, ss, c2s, s2c, j);
        assert k < j;
      }
    }
  }

  lemma SupersededApart(cs: Socks, ss: Socks, c2s: Pipes, s2c: Pipes)
    requires Superseded(cs, ss, c2s, s2c) && Carried(cs, c2s) && Carried(cs, s2c)
    ensures Apart(cs, ss, c2s) && Apart(cs, ss, s2c)
  {
    ApartOne(cs, ss, c2s, s2c, c2s);
    ApartOne(cs, ss, c2s, s2c, s2c);
  }

  /** The invariant about reused IDs survives whatever closes no socket again and revives no pair that is gone. */
  lemma SupersededKeeps(cs: Socks, ss: Socks, c2s: Pipes, s2c: Pipes, cs': Socks, ss': Socks, c2s': Pipes, s2c': Pipes)
    requires Superseded(cs, ss, c2s, s2c) && Keeps(cs, cs') && cs'.Keys == cs.Keys
    requires forall j | j in cs && cs[j].closed :: cs'[j].closed
    requires forall j | j in ss && ss[j].closed :: j in ss' && ss'[j].closed
    requires forall j | Gone(cs, ss, c2s, s2c, j) :: Absent(c2s', j) && Absent(s2c', j)
    ensures Superseded(cs', ss', c2s', s2c')
  {
    forall j, k | j in cs' && k in cs' && j < k && cs'[j].sokid == cs'[k].sokid && cs'[j].wire != cs'[k].wire
      ensures Gone(cs', ss', c2s', s2c', j)
    {
      assert Gone(cs, ss, c2s, s2c, j);
    }
  }

  lemma AbsentPush(pipes: Pipes, wire: nat, ps: seq<Packet>, j: nat)
    requires Absent(pipes, j) && wire < |pipes|
    requires forall i | 0 <= i < |ps| :: ps[i].seg.flag == FL_ALIV || ps[i].inc != j
    ensures Absent(Push(pipes, wire, ps), j)
  {
  }

  lemma AbsentPop(pipes: Pipes, wire: nat, j: nat)
    requires Absent(pipes, j) && wire < |pipes| && pipes[wire] != []
    ensures Absent(Pop(pipes, wire), j)
  {
  }

  lemma Present(pipes: Pipes, i: nat, j: nat)
    requires i < |pipes| && j < |pipes[i]| && pipes[i][j].seg.flag != FL_ALIV
    ensures !Absent(pipes, pipes[i][j].inc)
  {
  }

  lemma Elsewhere(cs: Socks, ss: Socks, pipes: Pipes, wire: nat, i: nat, id: uint16)
    requires Carried(cs, pipes) && Apart(cs, ss, pipes)
    requires wire < |pipes| && pipes[wire] != [] && i < |pipes| && i != wire && Concerns(pipes[wire][0], id)
    ensures QuietId(pipes, i, id)
  {
    forall j | 0 <= j < |pipes[i]| ensures !Concerns(pipes[i][j], id) {
      assert Belongs(cs, i, pipes[i][j]);
      if pipes[i][j].seg.flag != FL_ALIV {
        Present(pipes, i, j);
      }
    }
  }

  lemma RoutedPop(cs: Socks, ss: Socks, t: Table, t': Table, pipes: Pipes, wire: nat)
    requires Routed(t, pipes) && Carried(cs, pipes) && Apart(cs, ss, pipes) && wire < |pipes| && pipes[wire] != []
    requires Moved(t, t', pipes[wire][0])
    ensures Routed(t', Pop(pipes, wire))
  {
    forall id: uint16, i | 0 <= i < |pipes| ensures RouteOk(Slot(t', id), Pop(pipes, wire)[i], id) {
      assert RouteOk(Slot(t, id), pipes[i], id);
      if i != wire && Concerns(pipes[wire][0], id) {
        Elsewhere(cs, ss, pipes, wire, i, id);
        RouteOther(Slot(t', id), pipes[i], id);
      }
    }
  }

  lemma SeesPop(t: Table, t': Table, pipes: Pipes, wire: nat, s: Sock, k: nat)
    requires wire < |pipes| && pipes[wire] != [] && Moved(t, t', pipes[wire][0])
    requires Concerns(pipes[wire][0], s.sokid) ==> s.wire == wire
    ensures Sees(t', Pop(pipes, wire), s, k) <==> Sees(t, pipes, s, k)
  {
  }

  /** A pair on another wire whose ID a packet carries was not seen before that packet, and is not after it. */
  lemma SeesPopElsewhere(cs: Socks, ss: Socks, t: Table, t': Table, pipes: Pipes, wire: nat, k: nat)
    requires Carried(cs, pipes) && Apart(cs, ss, pipes) && k in cs && cs[k].wire < |pipes| && cs[k].wire != wire
    requires wire < |pipes| && pipes[wire] != [] && Concerns(pipes[wire][0], cs[k].sokid)
    requires Moved(t, t', pipes[wire][0]) && !Sees(t, pipes, cs[k], k)
    ensures !Sees(t', Pop(pipes, wire), cs[k], k)
  {
    var s := cs[k];
    Elsewhere(cs, ss, pipes, wire, s.wire, s.sokid);
    RouteOther(Slot(t, s.sokid), pipes[s.wire], s.sokid);
    RouteOther(Slot(t', s.sokid), pipes[s.wire], s.sokid);
    assert Belongs(cs, wire, pipes[wire][0]);
  }

  /** An entry the receiver will have under an ID is a known pair with that ID and wire. */
  lemma {:induction false} SeenIsKnown(cs: Socks, t: Table, pipes: Pipes, wire: nat, id: uint16)
    requires Carried(cs, pipes) && wire < |pipes|
    requires forall i | i in t :: t[i] in cs && cs[t[i]].sokid == i
    ensures var end := SlotEnd(Slot(t, id), pipes[wire], id);
            end.Some? ==> end.value in cs && cs[end.value].sokid == id
  {
    var end := SlotEnd(Slot(t, id), pipes[wire], id);
    SlotSource(Slot(t, id), pipes[wire], id);
    if end.Some? && end != Slot(t, id) {
      var i :| 0 <= i < |pipes[wire]| && Concerns(pipes[wire][i], id) && end == Some(pipes[wire][i].inc);
      assert Belongs(cs, wire, pipes[wire][i]);
    }
  }

  // ---------- the channels of one pair ----------

  lemma {:induction false} OnPush(pipes: Pipes, wire: nat, segs: seq<Segment>, j: nat, at: nat, k: nat)
    requires wire < |pipes|
    ensures On(Push(pipes, wire, Tag(segs, j)), at, k) ==
            On(pipes, at, k) + (if at == wire && j == k then Links.Strip(segs) else [])
    ensures at < |pipes| && (forall i | 0 <= i < |segs| :: segs[i].flag != FL_OPEN) ==>
            Opens(Push(pipes, wire, Tag(segs, j))[at], k) == Opens(pipes[at], k)
    ensures at < |pipes| && j != k ==> Opens(Push(pipes, wire, Tag(segs, j))[at], k) == Opens(pipes[at], k)
  {
    ChanConcat(pipes[wire], Tag(segs, j), k);
    ChanTag(segs, j, k);
  }

  lemma {:induction false} OnPop(pipes: Pipes, wire: nat, at: nat, k: nat)
    requires wire < |pipes| && pipes[wire] != []
    ensures var p := pipes[wire][0];
      && On(pipes, at, k) == (if at == wire && p.inc == k && !Links.Unaddressed(p.seg) then [p.seg] else [])
                             + On(Pop(pipes, wire), at, k)
      && (at < |pipes| ==>
            Opens(pipes[at], k) == (if at == wire && p.inc == k && p.seg.flag == FL_OPEN then 1 else 0)
                                   + Opens(Pop(pipes, wire)[at], k))
  {
    ChanFirst(pipes[wire], k);
  }
}
