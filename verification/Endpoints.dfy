/** One end of a context: its socket table, its accept queue and the demultiplexer. */
module Endpoints {
  import opened Segments
  import opened Sockets

  /** `acceptCap` is the size of the accept queue; a niaucchi2 client refuses OPENs. */
  datatype Config = Config(acceptCap: nat, rejectOpen: bool)

  /** Sockets have names, since a socket stays in use after its ID left the table. */
  datatype Endpoint = Endpoint(
    table: map<uint16, nat>,
    socks: map<nat, Sock>,
    backlog: seq<nat>,
    killed: Option<Branch>
  )

  ghost predicate WellFormed(e: Endpoint) {
    forall id | id in e.table :: e.table[id] in e.socks && e.socks[e.table[id]].sokid == id
  }

  function Fail(e: Endpoint, b: Branch): Endpoint {
    e.(killed := FirstKill(e.killed, b))
  }

  datatype Dispatched = Dispatched(e: Endpoint, fail: Option<Branch>)

  /** A new socket in the table. `Tunnel` does this under the table lock, before it sends the OPEN. */
  function Register(e: Endpoint, id: uint16, wire: nat, name: nat, announced: bool): Endpoint {
    e.(table := e.table[id := name], socks := e.socks[name := NewSock(id, wire, announced)])
  }

  function OpenStep(e: Endpoint, id: uint16, wire: nat, name: nat, cfg: Config): Dispatched {
    if cfg.rejectOpen then Dispatched(Fail(e, OpenAtClient), Some(OpenAtClient))
    else
      var e1 := Register(e, id, wire, name, true);
      if |e.backlog| < cfg.acceptCap then Dispatched(e1.(backlog := e.backlog + [name]), None)
      else Dispatched(Fail(e1, AcceptOverflow), Some(AcceptOverflow))
  }

  function SocketStep(e: Endpoint, seg: Segment): Dispatched
    requires seg.sokid in e.table && e.table[seg.sokid] in e.socks
  {
    var name := e.table[seg.sokid];
    var arrival := Arrive(e.socks[name], seg);
    var e1 := e.(socks := e.socks[name := arrival.sock],
                 table := if seg.flag == FL_CLOS then e.table - {seg.sokid} else e.table);
    Dispatched(if arrival.kill.Some? then Fail(e1, arrival.kill.value) else e1, arrival.kill)
  }

  /** One round of the demultiplexer, for a segment read from wire `wire`; a socket an OPEN makes gets
      the name `name`. */
  function Dispatch(e: Endpoint, seg: Segment, wire: nat, name: nat, cfg: Config): Dispatched
    requires WellFormed(e)
  {
    if seg.flag == FL_ALIV then Dispatched(e, None)
    else if seg.flag == FL_OPEN then OpenStep(e, seg.sokid, wire, name, cfg)
    else if seg.sokid !in e.table then Dispatched(Fail(e, Stray), Some(Stray))
    else SocketStep(e, seg)
  }

  lemma DispatchWellFormed(e: Endpoint, seg: Segment, wire: nat, name: nat, cfg: Config)
    requires WellFormed(e) && name !in e.socks
    ensures WellFormed(Dispatch(e, seg, wire, name, cfg).e)
    ensures Dispatch(e, seg, wire, name, cfg).e.socks.Keys <= e.socks.Keys + {name}
  {
  }

  /** A violation kills the context with its cause, if nothing has before; nothing else does. */
  lemma DispatchKills(e: Endpoint, seg: Segment, wire: nat, name: nat, cfg: Config)
    requires WellFormed(e)
    ensures var d := Dispatch(e, seg, wire, name, cfg);
      d.e.killed == if e.killed.Some? || d.fail == None then e.killed else d.fail
  {
  }

  /** Names from `next` on are unused. */
  ghost predicate Unused(e: Endpoint, next: nat) {
    forall k | k in e.socks :: k < next
  }

  /** The loop of `mainThread`: it stops after the first segment that violates the protocol. */
  ghost function DispatchAll(e: Endpoint, segs: seq<Segment>, wire: nat, next: nat, cfg: Config): Endpoint
    requires WellFormed(e) && Unused(e, next)
    decreases |segs|
  {
    if segs == [] then e
    else
      var d := Dispatch(e, segs[0], wire, next, cfg);
      DispatchWellFormed(e, segs[0], wire, next, cfg);
      if d.fail.Some? then d.e else DispatchAll(d.e, segs[1..], wire, next + 1, cfg)
  }

  /** Whether the loop goes on after these segments. */
  ghost predicate GoesOn(e: Endpoint, segs: seq<Segment>, wire: nat, next: nat, cfg: Config)
    requires WellFormed(e) && Unused(e, next)
    decreases |segs|
  {
    segs == [] ||
    var d := Dispatch(e, segs[0], wire, next, cfg);
    DispatchWellFormed(e, segs[0], wire, next, cfg);
    d.fail == None && GoesOn(d.e, segs[1..], wire, next + 1, cfg)
  }

  /** After a violation nothing more is dispatched; otherwise the loop goes on with what it has come to. A loop that has
      met a violation has killed the context, unless it was dead before, and one that has not has killed nothing. */
  lemma {:induction false} ViolationEnds(e: Endpoint, a: seq<Segment>, b: seq<Segment>, wire: nat, next: nat,
                                         cfg: Config)
    requires WellFormed(e) && Unused(e, next)
    ensures var e' := DispatchAll(e, a, wire, next, cfg);
      if GoesOn(e, a, wire, next, cfg) then
        && WellFormed(e') && Unused(e', next + |a|) && e'.killed == e.killed
        && DispatchAll(e, a + b, wire, next, cfg) == DispatchAll(e', b, wire, next + |a|, cfg)
      else e'.killed.Some? && DispatchAll(e, a + b, wire, next, cfg) == e'
    decreases |a|
  {
    if a == [] {
      assert a + b == b;
    } else {
      assert (a + b)[1..] == a[1..] + b;
      DispatchWellFormed(e, a[0], wire, next, cfg);
      var d := Dispatch(e, a[0], wire, next, cfg);
      DispatchKills(e, a[0], wire, next, cfg);
      if d.fail == None {
        ViolationEnds(d.e, a[1..], b, wire, next + 1, cfg);
      }
    }
  }

  /** A context that refuses OPENs gains no socket, and an OPEN ends it. */
  lemma {:induction false} RefusesOpens(e: Endpoint, segs: seq<Segment>, wire: nat, next: nat, cfg: Config)
    requires WellFormed(e) && Unused(e, next) && cfg.rejectOpen
    ensures var e' := DispatchAll(e, segs, wire, next, cfg); e'.socks.Keys == e.socks.Keys && e'.backlog == e.backlog
    ensures GoesOn(e, segs, wire, next, cfg) ==> forall i | 0 <= i < |segs| :: segs[i].flag != FL_OPEN
    decreases |segs|
  {
    if segs != [] {
      DispatchWellFormed(e, segs[0], wire, next, cfg);
      var d := Dispatch(e, segs[0], wire, next, cfg);
      if d.fail == None {
        RefusesOpens(d.e, segs[1..], wire, next + 1, cfg);
      }
    }
  }

  /** One round of the loop over the bytes that are left. */
  lemma DispatchMore(e: Endpoint, input: seq<byte>, wire: nat, next: nat, cfg: Config)
    requires WellFormed(e) && Unused(e, next) && Decode(input).Whole?
    ensures var u := Decode(input);
      var d := Dispatch(e, u.seg, wire, next, cfg);
      && WellFormed(d.e) && Unused(d.e, next + 1)
      && DispatchAll(e, DecodeAll(input).0, wire, next, cfg) ==
         if d.fail.Some? then d.e else DispatchAll(d.e, DecodeAll(u.rest).0, wire, next + 1, cfg)
  {
    var u, segs := Decode(input), DecodeAll(input).0;
    assert segs[0] == u.seg && segs[1..] == DecodeAll(u.rest).0;
    DispatchWellFormed(e, u.seg, wire, next, cfg);
  }

  /** The loop over the bytes that one end wrote dispatches, at the other, exactly the segments it wrote, in order. */
  lemma {:induction false} WireIsDispatched(peer: Wire, e: Endpoint, wire: nat, next: nat, cfg: Config)
    requires peer.Valid() && WellFormed(e) && Unused(e, next)
    ensures DispatchAll(e, DecodeAll(peer.out).0, wire, next, cfg) == DispatchAll(e, peer.segs, wire, next, cfg)
  {
    peer.Decodes();
  }

  function OpenSegment(id: uint16): Segment {
    Segment(FL_OPEN, id, [])
  }

  /** The rest of `Tunnel`, under the wire lock: from now on the caller holds the socket. */
  function Announce(s: Sock): Effect {
    Effect(s.(x := s.x.(announced := true)), [OpenSegment(s.sokid)], false)
  }

  // ---------- the object ----------

  predicate FirstFree(draws: seq<uint16>, taken: set<uint16>, id: uint16) {
    exists i | 0 <= i < |draws| ::
      draws[i] == id && id !in taken && forall j | 0 <= j < i :: draws[j] in taken
  }

  class Context {
    const cfg: Config
    const tomb: Tomb<Branch>
    var sokTable: map<uint16, Socket>
    var acptQueue: seq<Socket>
    ghost var all: map<nat, Socket>    // every socket ever made here, by name
    ghost var socks: map<nat, Sock>    // what they are now
    ghost var table: map<uint16, nat>  // the names in sokTable
    ghost var backlog: seq<nat>        // the names in acptQueue

    /** Every name leads to its socket, and the tables of names follow the tables of sockets. */
    ghost predicate Names()
      reads this
    {
      && socks.Keys == all.Keys && (forall k | k in all :: all[k].name == k)
      && (forall id | id in sokTable :: sokTable[id].sokid == id && Known(sokTable[id]))
      && table.Keys == sokTable.Keys && (forall id | id in table :: table[id] == sokTable[id].name)
      && |backlog| == |acptQueue| && (forall i | 0 <= i < |backlog| :: backlog[i] == acptQueue[i].name)
    }

    ghost predicate Known(s: Socket)
      reads this
    {
      s.name in all && all[s.name] == s
    }

    ghost predicate UpToDate(k: nat)
      reads this, all.Values
    {
      k in all && k in socks && socks[k] == all[k].View()
    }

    ghost predicate Valid()
      reads this, all.Values
    {
      Names() && forall k | k in all :: UpToDate(k)
    }

    ghost function View(): Endpoint
      reads this, tomb
    {
      Endpoint(table, socks, backlog, tomb.cause)
    }

    lemma ViewWellFormed()
      requires Valid()
      ensures WellFormed(View())
    {
      var e := View();
      forall id | id in e.table ensures e.table[id] in e.socks && e.socks[e.table[id]].sokid == id {
        assert Known(sokTable[id]);
      }
    }

    constructor (cfg: Config)
      ensures Valid() && this.cfg == cfg && all == map[] && fresh(tomb)
      ensures View() == Endpoint(map[], map[], [], None)
    {
      this.cfg := cfg;
      sokTable, acptQueue, all, socks, table, backlog := map[], [], map[], map[], map[], [];
      tomb := new Tomb();
    }

    /** Gives a new socket its name. */
    ghost method Adopt(newsok: Socket)
      requires Valid() && newsok.name !in all
      modifies `all, `socks
      ensures Valid() && Known(newsok) && all == old(all)[newsok.name := newsok]
      ensures socks == old(socks)[newsok.name := newsok.View()]
    {
      all, socks := all[newsok.name := newsok], socks[newsok.name := newsok.View()];
      forall id | id in sokTable ensures Known(sokTable[id]) {
        assert old(Known(sokTable[id]));
      }
    }

    /** Puts a socket in the table. */
    method Insert(newsok: Socket)
      requires Valid() && Known(newsok)
      modifies `sokTable, `table
      ensures Valid() && table == old(table)[newsok.sokid := newsok.name]
    {
      sokTable, table := sokTable[newsok.sokid := newsok], table[newsok.sokid := newsok.name];
    }

    method MakeSocket(id: uint16, sctx: Wire, ghost name: nat, ghost announced: bool)
      returns (newsok: Socket)
      requires Valid() && name !in all
      modifies this
      ensures Valid() && fresh(newsok) && newsok.name == name && newsok.sokid == id
      ensures all == old(all)[name := newsok]
      ensures View() == Register(old(View()), id, sctx.index, name, announced)
    {
      newsok := new Socket(id, sctx, tomb, name, announced);
      Adopt(newsok);
      Insert(newsok);
    }

    /** Puts a socket in the accept queue, or kills the context when the queue is full. */
    method Enqueue(newsok: Socket) returns (fail: Option<Branch>)
      requires Valid()
      modifies `acptQueue, `backlog, tomb
      ensures Valid() && fail == if old(|acptQueue|) < cfg.acceptCap then None else Some(AcceptOverflow)
      ensures fail == None ==> View() == old(View()).(backlog := old(backlog) + [newsok.name])
      ensures fail != None ==> View() == Fail(old(View()), AcceptOverflow)
    {
      if |acptQueue| < cfg.acceptCap {
        acptQueue, backlog := acptQueue + [newsok], backlog + [newsok.name];
        return None;
      }
      tomb.Kill(AcceptOverflow);
      return Some(AcceptOverflow);
    }

    /** The OPEN branch of `mainThread`. */
    method AddSocket(id: uint16, sctx: Wire, ghost name: nat) returns (fail: Option<Branch>)
      requires Valid() && name !in all && !cfg.rejectOpen
      modifies this, tomb
      ensures Valid() && name in all && fresh(all[name]) && all == old(all)[name := all[name]]
      ensures Dispatched(View(), fail) == OpenStep(old(View()), id, sctx.index, name, cfg)
    {
      var newsok := MakeSocket(id, sctx, name, true);
      fail := Enqueue(newsok);
    }

    /** `Accept`: the socket that has waited longest, or the cause of death. When there are both, Go picks either
        (`coin`). None stands for waiting. */
    method Accept(coin: bool) returns (conn: Option<Socket>, err: Option<Branch>)
      requires Valid()
      modifies `acptQueue, `backlog
      ensures Valid() && all == old(all)
      ensures conn.Some? <==> old(acptQueue) != [] && (coin || tomb.cause == None)
      ensures conn.Some? ==>
        && conn.value == old(acptQueue)[0] && err == None && |old(backlog)| > 0 && conn.value.name == old(backlog)[0]
        && View() == old(View()).(backlog := old(backlog)[1..])
      ensures conn == None ==> err == tomb.cause && View() == old(View())
    {
      if acptQueue != [] && (coin || tomb.cause == None) {
        conn := Some(acptQueue[0]);
        acptQueue, backlog := acptQueue[1..], backlog[1..];
        return conn, None;
      }
      return None, tomb.cause;
    }

    /** A CLOS deletes its ID from the table; the socket itself lives on. */
    method Unlist(seg: Segment)
      requires Valid() && seg.sokid in sokTable
      modifies `sokTable, `table
      ensures Valid() && all == old(all)
      ensures View() == old(View()).(table := if seg.flag == FL_CLOS then old(table) - {seg.sokid} else old(table))
    {
      if seg.flag == FL_CLOS {
        sokTable, table := sokTable - {seg.sokid}, table - {seg.sokid};
      }
    }

    /** Brings `socks` up to date with the one socket that has changed. */
    ghost method Refresh(d: Socket)
      requires Names() && Known(d) && forall k | k in all && k != d.name :: UpToDate(k)
      modifies `socks
      ensures Valid() && socks == old(socks)[d.name := d.View()]
    {
      socks := socks[d.name := d.View()];
    }

    /** Where only `d` has changed, the others are up to date as before. */
    twostate lemma OthersStay(d: Socket)
      requires old(Valid()) && Known(d) && unchanged(this) && forall o | o in all.Values && o != d :: unchanged(o)
      ensures Names() && forall k | k in all && k != d.name :: UpToDate(k)
    {
      forall k | k in all && k != d.name ensures UpToDate(k) {
        assert all[k] in all.Values;
        assert old(UpToDate(k)) && all[k] != d && unchanged(all[k]);
      }
    }

    /** Gives a segment to one socket. */
    method Give(dest: Socket, seg: Segment) returns (fail: Option<Branch>)
      requires Valid() && Known(dest)
      modifies `socks, dest
      ensures Valid() && all == old(all) && dest.name in old(socks)
      ensures Arrival(dest.View(), fail) == Arrive(old(socks)[dest.name], seg)
      ensures socks == old(socks)[dest.name := dest.View()]
    {
      assert UpToDate(dest.name);
      fail := dest.Accept(seg);
      OthersStay(dest);
      Refresh(dest);
    }

    /** Hands a segment to one socket and, if the socket refuses it, kills the context. */
    method Hand(dest: Socket, seg: Segment) returns (fail: Option<Branch>)
      requires Valid() && Known(dest)
      modifies `socks, tomb, dest
      ensures Valid() && all == old(all) && dest.name in old(socks)
      ensures var a := Arrive(old(socks)[dest.name], seg);
        && fail == a.kill
        && View() == old(View()).(socks := old(socks)[dest.name := a.sock],
                                  killed := if fail.Some? then FirstKill(old(tomb.cause), fail.value)
                                            else old(tomb.cause))
    {
      fail := Give(dest, seg);
      if fail.Some? {
        tomb.Kill(fail.value);
      }
    }

    /** The branch of `mainThread` for a segment that belongs to a socket in the table. */
    method Route(seg: Segment) returns (fail: Option<Branch>)
      requires Valid() && seg.sokid in sokTable
      modifies this, tomb, all.Values
      ensures Valid() && all == old(all)
      ensures seg.sokid in old(View()).table && old(View()).table[seg.sokid] in old(socks)
      ensures Dispatched(View(), fail) == SocketStep(old(View()), seg)
    {
      var dest := sokTable[seg.sokid];
      assert Known(dest) && dest in all.Values && table[seg.sokid] == dest.name;
      Unlist(seg);
      fail := Hand(dest, seg);
    }

    /** One round of `mainThread` for a segment that came over `sctx`. */
    method Demux(seg: Segment, sctx: Wire, ghost name: nat) returns (fail: Option<Branch>)
      requires Valid() && name !in all
      modifies this, tomb, all.Values
      ensures Valid() && fresh(all.Values - old(all.Values))
      ensures WellFormed(old(View()))
      ensures Dispatched(View(), fail) == Dispatch(old(View()), seg, sctx.index, name, cfg)
    {
      ViewWellFormed();
      if seg.flag == FL_ALIV {
        return None;
      }
      if seg.flag == FL_OPEN {
        if cfg.rejectOpen {
          tomb.Kill(OpenAtClient);
          return Some(OpenAtClient);
        }
        fail := AddSocket(seg.sokid, sctx, name);
        return;
      }
      if seg.sokid !in sokTable {
        tomb.Kill(Stray);
        return Some(Stray);
      }
      fail := Route(seg);
    }

    /** One turn of the loop: what is left of the bytes, and whether the loop is over. */
    method Turn(rest: seq<byte>, sctx: Wire, ghost name: nat) returns (left: seq<byte>, over: bool)
      requires Valid() && Unused(View(), name)
      modifies this, tomb, all.Values
      ensures Valid() && WellFormed(View()) && Unused(View(), name + 1) && WellFormed(old(View()))
      ensures fresh(all.Values - old(all.Values)) && (!over ==> |left| < |rest|)
      ensures DispatchAll(old(View()), DecodeAll(rest).0, sctx.index, name, cfg) ==
        if over then View() else DispatchAll(View(), DecodeAll(left).0, sctx.index, name + 1, cfg)
    {
      ViewWellFormed();
      var u := Decode(rest);
      if u.Short? {
        return rest, true;
      }
      DispatchMore(View(), rest, sctx.index, name, cfg);
      var fail := Demux(u.seg, sctx, name);
      return u.rest, fail.Some?;
    }

    /** `mainThread` over all the bytes that arrive before the connection ends: decode, dispatch, stop at
        the first violation. The error that ends the loop kills the context if nothing has yet. */
    method MainThread(input: seq<byte>, sctx: Wire, ghost next: nat)
      requires Valid() && Unused(View(), next)
      modifies this, tomb, all.Values
      ensures Valid() && WellFormed(old(View()))
      ensures View() == Fail(DispatchAll(old(View()), DecodeAll(input).0, sctx.index, next, cfg), WireEnd)
    {
      ViewWellFormed();
      ghost var start := View();
      var rest, over := input, false;
      ghost var name := next;
      while !over
        invariant Valid() && WellFormed(View()) && Unused(View(), name)
        invariant fresh(all.Values - old(all.Values))
        invariant DispatchAll(start, DecodeAll(input).0, sctx.index, next, cfg) ==
                  if over then View() else DispatchAll(View(), DecodeAll(rest).0, sctx.index, name, cfg)
        decreases !over, |rest|
      {
        rest, over := Turn(rest, sctx, name);
        name := name + 1;
      }
      tomb.Kill(WireEnd);
    }

    /** From the OPEN on, the caller of `Tunnel` holds the socket. */
    ghost method Publish(newsok: Socket)
      requires Valid() && Known(newsok)
      modifies `socks, newsok`x
      ensures Valid() && newsok.name in old(socks)
      ensures socks == old(socks)[newsok.name := Announce(old(socks)[newsok.name]).sock]
    {
      assert UpToDate(newsok.name);
      newsok.MarkAnnounced();
      OthersStay(newsok);
      Refresh(newsok);
    }

    /** A socket under `id`, and then its OPEN. */
    method OpenSocket(id: uint16, sctx: Wire, ghost name: nat) returns (newsok: Socket)
      requires Valid() && name !in all && sctx.Valid()
      modifies this, sctx
      ensures Valid() && sctx.Valid() && fresh(newsok) && newsok.name == name && newsok.sokid == id
      ensures all == old(all)[name := newsok]
      ensures var reg := Register(old(View()), id, sctx.index, name, false);
        var ann := Announce(reg.socks[name]);
        View() == reg.(socks := reg.socks[name := ann.sock]) && sctx.segs == old(sctx.segs) + ann.out
    {
      newsok := MakeSocket(id, sctx, name, false);
      sctx.Pack(Segment(FL_OPEN, newsok.sokid, []));
      Publish(newsok);
    }

    /** `Tunnel`: the first draw that is not in the table becomes the socket's ID. While every draw is
        taken, and so for ever on a full table, the original keeps drawing. */
    method Tunnel(draws: seq<uint16>, sctx: Wire, ghost name: nat) returns (r: Option<Socket>)
      requires Valid() && name !in all && sctx.Valid()
      modifies this, sctx
      ensures Valid() && sctx.Valid()
      ensures r == None <==> forall i | 0 <= i < |draws| :: draws[i] in old(sokTable)
      ensures r == None ==> View() == old(View()) && sctx.segs == old(sctx.segs)
      ensures r.Some? ==> FirstFree(draws, old(sokTable.Keys), r.value.sokid)
      ensures r.Some? ==>
        && fresh(r.value) && r.value.name == name && all == old(all)[name := r.value]
        && var reg := Register(old(View()), r.value.sokid, sctx.index, name, false);
           var ann := Announce(reg.socks[name]);
           View() == reg.(socks := reg.socks[name := ann.sock]) && sctx.segs == old(sctx.segs) + ann.out
    {
      r := None;
      var i := 0;
      while i < |draws| && draws[i] in sokTable
        invariant 0 <= i <= |draws|
        invariant forall j | 0 <= j < i :: draws[j] in sokTable
      {
        i := i + 1;
      }
      if i < |draws| {
        var newsok := OpenSocket(draws[i], sctx, name);
        r := Some(newsok);
      }
    }
  }
}
