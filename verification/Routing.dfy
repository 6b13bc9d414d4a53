/** Packets on a wire and what a demultiplexer will make of them. */
module Routing {
  import opened Segments
  import opened Sockets
  import opened Links

  /** A segment on the wire, with the name of the socket pair it was sent for. Only the segment is
      transmitted; the name is history. */
  datatype Packet = Packet(seg: Segment, inc: nat)

  function Tag(segs: seq<Segment>, k: nat): (ps: seq<Packet>)
    ensures |ps| == |segs| && forall i | 0 <= i < |ps| :: ps[i] == Packet(segs[i], k)
  {
    seq(|segs|, i requires 0 <= i < |segs| => Packet(segs[i], k))
  }

  predicate Concerns(p: Packet, id: uint16) {
    p.seg.flag != FL_ALIV && p.seg.sokid == id
  }

  /** Whether a packet finds the table entry of its ID as it should: an OPEN an empty one, any other
      packet that of its own socket. */
  predicate Allowed(slot: Option<nat>, p: Packet) {
    if p.seg.flag == FL_OPEN then slot == None else slot == Some(p.inc)
  }

  function SlotStep(slot: Option<nat>, p: Packet): Option<nat> {
    if p.seg.flag == FL_OPEN then Some(p.inc) else if p.seg.flag == FL_CLOS then None else slot
  }

  /** Whether every packet with this ID will be routed to the socket it was sent for, when the pipe is
      taken off the wire in order and the table entry is `slot` now. */
  predicate RouteOk(slot: Option<nat>, pipe: seq<Packet>, id: uint16)
    decreases |pipe|
  {
    pipe == [] ||
    if Concerns(pipe[0], id) then Allowed(slot, pipe[0]) && RouteOk(SlotStep(slot, pipe[0]), pipe[1..], id)
    else RouteOk(slot, pipe[1..], id)
  }

  /** The table entry when the pipe has drained. */
  function SlotEnd(slot: Option<nat>, pipe: seq<Packet>, id: uint16): Option<nat>
    decreases |pipe|
  {
    if pipe == [] then slot
    else SlotEnd(if Concerns(pipe[0], id) then SlotStep(slot, pipe[0]) else slot, pipe[1..], id)
  }

  lemma {:induction false} RouteConcat(slot: Option<nat>, p: seq<Packet>, q: seq<Packet>, id: uint16)
    ensures RouteOk(slot, p + q, id) <==> RouteOk(slot, p, id) && RouteOk(SlotEnd(slot, p, id), q, id)
    ensures SlotEnd(slot, p + q, id) == SlotEnd(SlotEnd(slot, p, id), q, id)
    decreases |p|
  {
    if p == [] {
      assert p + q == q;
    } else {
      assert (p + q)[1..] == p[1..] + q;
      RouteConcat(if Concerns(p[0], id) then SlotStep(slot, p[0]) else slot, p[1..], q, id);
    }
  }

  /** Packets of other IDs change nothing. */
  lemma {:induction false} RouteOther(slot: Option<nat>, q: seq<Packet>, id: uint16)
    requires forall i | 0 <= i < |q| :: !Concerns(q[i], id)
    ensures RouteOk(slot, q, id) && SlotEnd(slot, q, id) == slot
    decreases |q|
  {
    if q != [] {
      RouteOther(slot, q[1..], id);
    }
  }

  /** On a wire that carries no OPEN, an empty entry means no packet with that ID is under way. */
  lemma {:induction false} EmptySlot(pipe: seq<Packet>, id: uint16)
    requires RouteOk(None, pipe, id)
    requires forall i | 0 <= i < |pipe| :: pipe[i].seg.flag != FL_OPEN
    ensures forall i | 0 <= i < |pipe| :: !Concerns(pipe[i], id)
    decreases |pipe|
  {
    if pipe != [] {
      EmptySlot(pipe[1..], id);
      forall i | 0 <= i < |pipe| ensures !Concerns(pipe[i], id) {
        if i > 0 {
          assert pipe[i] == pipe[1..][i - 1];
        }
      }
    }
  }

  /** The entry the pipe leaves was there before, or an OPEN in the pipe made it. */
  lemma {:induction false} SlotSource(slot: Option<nat>, pipe: seq<Packet>, id: uint16)
    ensures SlotEnd(slot, pipe, id) == slot || SlotEnd(slot, pipe, id) == None ||
            exists i | 0 <= i < |pipe| :: Concerns(pipe[i], id) && SlotEnd(slot, pipe, id) == Some(pipe[i].inc)
    decreases |pipe|
  {
    if pipe != [] {
      var next := if Concerns(pipe[0], id) then SlotStep(slot, pipe[0]) else slot;
      SlotSource(next, pipe[1..], id);
      var end := SlotEnd(next, pipe[1..], id);
      if end != next && end != None {
        var i :| 0 <= i < |pipe[1..]| && Concerns(pipe[1..][i], id) && end == Some(pipe[1..][i].inc);
        assert pipe[i + 1] == pipe[1..][i];
      }
    }
  }

  /** The part of a pipe that belongs to one socket pair. */
  function Chan(pipe: seq<Packet>, k: nat): seq<Segment> {
    if pipe == [] then []
    else (if pipe[0].inc == k && !Unaddressed(pipe[0].seg) then [pipe[0].seg] else []) + Chan(pipe[1..], k)
  }

  /** How many OPENs of the pair are on the pipe. */
  function Opens(pipe: seq<Packet>, k: nat): nat {
    if pipe == [] then 0
    else (if pipe[0].inc == k && pipe[0].seg.flag == FL_OPEN then 1 else 0) + Opens(pipe[1..], k)
  }

  lemma {:induction false} ChanConcat(p: seq<Packet>, q: seq<Packet>, k: nat)
    ensures Chan(p + q, k) == Chan(p, k) + Chan(q, k)
    ensures Opens(p + q, k) == Opens(p, k) + Opens(q, k)
    decreases |p|
  {
    if p == [] {
      assert p + q == q;
    } else {
      ChanConcat(p[1..], q, k);
      assert (p + q)[1..] == p[1..] + q;
      var first := if p[0].inc == k && !Unaddressed(p[0].seg) then [p[0].seg] else [];
      assert first + (Chan(p[1..], k) + Chan(q, k)) == first + Chan(p[1..], k) + Chan(q, k);
    }
  }

  lemma {:induction false} ChanTag(segs: seq<Segment>, j: nat, k: nat)
    ensures Chan(Tag(segs, j), k) == if j == k then Strip(segs) else []
    ensures j != k ==> Opens(Tag(segs, j), k) == 0
    ensures (forall i | 0 <= i < |segs| :: segs[i].flag != FL_OPEN) ==> Opens(Tag(segs, j), k) == 0
    decreases |segs|
  {
    if segs != [] {
      assert Tag(segs, j)[1..] == Tag(segs[1..], j);
      ChanTag(segs[1..], j, k);
    }
  }

  lemma {:induction false} ChanForeign(pipe: seq<Packet>, k: nat)
    requires forall i | 0 <= i < |pipe| :: pipe[i].seg.flag != FL_ALIV ==> pipe[i].inc != k
    ensures Chan(pipe, k) == [] && Opens(pipe, k) == 0
    decreases |pipe|
  {
    if pipe != [] {
      ChanForeign(pipe[1..], k);
    }
  }

  lemma {:induction false} ChanFirst(pipe: seq<Packet>, k: nat)
    requires pipe != []
    ensures var p := pipe[0];
      && Chan(pipe, k) == (if p.inc == k && !Unaddressed(p.seg) then [p.seg] else []) + Chan(pipe[1..], k)
      && Opens(pipe, k) == (if p.inc == k && p.seg.flag == FL_OPEN then 1 else 0) + Opens(pipe[1..], k)
  {
  }
}
