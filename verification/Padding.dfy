/** How one write becomes segments: chunks of at most 8192 bytes, each followed by a keepalive
    segment that hides the chunk's exact size. */
module Padding {
  import opened Segments

  const CHUNK: nat := 8192

  /** The size the emission is padded up to; `r` is the random draw. */
  function Target(n: nat, r: nat): (t: nat) {
    if n > 4096 then 8192 + 1 + 2 + 2
    else if n > 2048 then 4096
    else if n > 1024 then 2048
    else if n > 512 then 1024 + r % 512
    else if n > 256 then 512 + r % 256
    else if n > 128 then 256 + r % 128
    else 128 + r % 64
  }

  /** Body length of the padding segment; none is sent unless this is positive. */
  function PadLen(n: nat, r: nat): int {
    Target(n, r) - n - (1 + 2 + 2) * 2
  }

  function Zeros(n: nat): (z: seq<byte>)
    ensures |z| == n
  {
    seq(n, _ => 0)
  }

  function DataSegment(id: uint16, p: seq<byte>): Segment {
    Segment(FL_DATA, id, p)
  }

  function AlivSegment(n: nat): Segment {
    Segment(FL_ALIV, 0, Zeros(n))
  }

  /** What `realWrite` puts on the wire for the chunk `p`. */
  function Emission(id: uint16, p: seq<byte>, r: nat): seq<Segment>
  {
    var pad := PadLen(|p|, r);
    if pad <= 0 then [DataSegment(id, p)] else [DataSegment(id, p), AlivSegment(pad)]
  }

  lemma EmissionFits(id: uint16, p: seq<byte>, r: nat)
    requires |p| <= CHUNK
    ensures AllFit(Emission(id, p, r))
  {
  }

  lemma EncodePair(a: Segment, b: Segment)
    requires Fits(a) && Fits(b)
    ensures EncodeAll([a, b]) == Encode(a) + Encode(b)
  {
    assert [a, b][1..] == [b] && [b][1..] == [];
    assert EncodeAll([b]) == Encode(b) + [] == Encode(b);
  }

  /** The padding panic is unreachable: a padded emission is exactly as long as its target. */
  lemma PaddedToTarget(id: uint16, p: seq<byte>, r: nat)
    requires |p| <= CHUNK
    ensures AllFit(Emission(id, p, r))
    ensures |EncodeAll(Emission(id, p, r))| ==
            if PadLen(|p|, r) > 0 then Target(|p|, r) else HEADER + |p|
  {
    EmissionFits(id, p, r);
    var pad := PadLen(|p|, r);
    if pad > 0 {
      EncodePair(DataSegment(id, p), AlivSegment(pad));
    } else {
      assert [DataSegment(id, p)][1..] == [];
    }
  }

  datatype Band = Band(lo: nat, hi: nat)

  const BANDS: seq<Band> := [Band(123, 191), Band(251, 383), Band(507, 767), Band(1019, 1535),
                             Band(2043, 2053), Band(4091, 4101), Band(8192, 8197)]

  /** The length class of a chunk, doubling from 128. */
  function LengthClass(n: nat): (c: nat)
    ensures c < |BANDS|
  {
    if n <= 128 then 0 else if n <= 256 then 1 else if n <= 512 then 2 else if n <= 1024 then 3
    else if n <= 2048 then 4 else if n <= 4096 then 5 else 6
  }

  predicate InBand(b: Band, n: nat) {
    b.lo <= n <= b.hi
  }

  /** The size an observer sees tells the length class and, within the band's slack, nothing more:
      it lies in that class's band and in no other. */
  lemma SizeInBand(id: uint16, p: seq<byte>, r: nat, c: nat)
    requires |p| <= CHUNK && c < |BANDS|
    ensures AllFit(Emission(id, p, r))
    ensures InBand(BANDS[c], |EncodeAll(Emission(id, p, r))|) <==> c == LengthClass(|p|)
  {
    PaddedToTarget(id, p, r);
  }

  /** What the chunks of a class are padded up to, before the random part. */
  function Base(c: nat): nat
    requires c < |BANDS|
  {
    if c == 0 then 128 else if c == 1 then 256 else if c == 2 then 512 else if c == 3 then 1024
    else if c == 4 then 2048 else if c == 5 then 4096 else 8192
  }

  predicate Emits(p: seq<byte>, r: nat, id: uint16, size: nat) {
    AllFit(Emission(id, p, r)) && |EncodeAll(Emission(id, p, r))| == size
  }

  /** The upper part of a random band: the shortest chunk of the class, padded to the size. */
  lemma PaddedEmits(c: nat, size: nat, id: uint16)
    requires c < 4 && Base(c) <= size <= BANDS[c].hi
    ensures var p := Zeros(if c == 0 then 0 else Base(c) / 2 + 1);
      |p| <= CHUNK && LengthClass(|p|) == c && Emits(p, size - Base(c), id, size)
  {
    var n, r := if c == 0 then 0 else Base(c) / 2 + 1, size - Base(c);
    assert Target(n, r) == size by {
      match c
      case 0 => assert r % 64 == r;
      case 1 => assert r % 128 == r;
      case 2 => assert r % 256 == r;
      case 3 => assert r % 512 == r;
    }
    PaddedToTarget(id, Zeros(n), r);
  }

  /** The rest: a chunk that fills the size with its header, with no room for padding. */
  lemma BareEmits(c: nat, size: nat, id: uint16)
    requires c < |BANDS| && InBand(BANDS[c], size) && (c < 4 ==> size < Base(c))
    ensures var p := Zeros(size - HEADER);
      |p| <= CHUNK && LengthClass(|p|) == c && Emits(p, 0, id, size)
  {
    PaddedToTarget(id, Zeros(size - HEADER), 0);
  }

  /** The bands are tight: every size in a band is met by some chunk of the class and some draw. */
  lemma BandsTight(c: nat, size: nat, id: uint16)
    requires c < |BANDS| && InBand(BANDS[c], size)
    ensures exists p: seq<byte>, r: nat :: |p| <= CHUNK && LengthClass(|p|) == c && Emits(p, r, id, size)
  {
    if c < 4 && size >= Base(c) {
      PaddedEmits(c, size, id);
    } else {
      BareEmits(c, size, id);
    }
  }

  function Chunks(p: seq<byte>): (cs: seq<seq<byte>>)
    ensures |cs| > 0
    decreases |p|
  {
    if |p| > CHUNK then [p[..CHUNK]] + Chunks(p[CHUNK..]) else [p]
  }

  function Concat(cs: seq<seq<byte>>): seq<byte> {
    if cs == [] then [] else cs[0] + Concat(cs[1..])
  }

  /** The bodies of the data segments, joined: what a receiver reassembles. */
  function Payload(segs: seq<Segment>): seq<byte> {
    if segs == [] then []
    else (if segs[0].flag == FL_DATA then segs[0].body else []) + Payload(segs[1..])
  }

  lemma {:induction false} PayloadConcat(a: seq<Segment>, b: seq<Segment>)
    ensures Payload(a + b) == Payload(a) + Payload(b)
  {
    if a == [] {
      assert a + b == b;
    } else {
      PayloadConcat(a[1..], b);
      assert (a + b)[1..] == a[1..] + b;
      Associate(if a[0].flag == FL_DATA then a[0].body else [], Payload(a[1..]), Payload(b));
    }
  }

  /** Emissions of a list of chunks, the i-th with draw `draws(i)`. */
  function EmitAll(id: uint16, cs: seq<seq<byte>>, draws: nat -> nat): seq<Segment> {
    if cs == [] then []
    else Emission(id, cs[0], draws(0)) + EmitAll(id, cs[1..], (i: nat) => draws(i + 1))
  }

  predicate AllChunks(cs: seq<seq<byte>>) {
    forall i | 0 <= i < |cs| :: |cs[i]| <= CHUNK
  }

  /** Chunking loses nothing, adds nothing, keeps every chunk within the limit, and fills all but the last. */
  lemma {:induction false} ChunksJoin(p: seq<byte>)
    ensures AllChunks(Chunks(p)) && Concat(Chunks(p)) == p
    ensures |Chunks(p)| == if |p| <= 8192 then 1 else (|p| + 8191) / 8192
    ensures forall i | 0 <= i < |Chunks(p)| - 1 :: |Chunks(p)[i]| == 8192
    decreases |p|
  {
    if |p| > CHUNK {
      ChunksJoin(p[CHUNK..]);
      assert Chunks(p)[1..] == Chunks(p[CHUNK..]);
      assert p[..CHUNK] + p[CHUNK..] == p;
    } else {
      assert Concat([p]) == p + Concat([p][1..]);
      assert p + [] == p;
    }
  }

  /** The chunk goes first, under its socket's ID, and then the keepalive, under none. */
  lemma EmissionIs(id: uint16, p: seq<byte>, r: nat)
    ensures var e := Emission(id, p, r);
      && 1 <= |e| <= 2 && e[0] == Segment(FL_DATA, id, p)
      && (|e| == 2 ==> e[1].flag == FL_ALIV && e[1].sokid == 0 && forall b | b in e[1].body :: b == 0)
  {
  }

  lemma EmissionPayload(id: uint16, p: seq<byte>, r: nat)
    ensures Payload(Emission(id, p, r)) == p
  {
    var e := Emission(id, p, r);
    assert p + [] == p;
    if |e| == 2 {
      assert e[1..] == [AlivSegment(PadLen(|p|, r))] && e[1..][1..] == [];
      assert Payload(e[1..]) == [] + Payload(e[1..][1..]);
    }
  }

  /** Emitting chunks and collecting the data bodies on the other side is the identity. */
  lemma {:induction false} EmitAllPayload(id: uint16, cs: seq<seq<byte>>, draws: nat -> nat)
    requires AllChunks(cs)
    ensures AllFit(EmitAll(id, cs, draws)) && Payload(EmitAll(id, cs, draws)) == Concat(cs)
  {
    if cs != [] {
      var e, rest := Emission(id, cs[0], draws(0)), EmitAll(id, cs[1..], (i: nat) => draws(i + 1));
      EmissionFits(id, cs[0], draws(0));
      EmissionPayload(id, cs[0], draws(0));
      EmitAllPayload(id, cs[1..], (i: nat) => draws(i + 1));
      PayloadConcat(e, rest);
    }
  }

  /** Write then decode: for bytes of any length and any pads, the emitted bytes decode, whole, to
      segments whose data bodies join to the bytes written. */
  lemma {:induction false} WriteDecodes(id: uint16, p: seq<byte>, draws: nat -> nat)
    ensures AllFit(EmitAll(id, Chunks(p), draws))
    ensures var (segs, tail) := DecodeAll(EncodeAll(EmitAll(id, Chunks(p), draws)));
            tail == [] && Payload(segs) == p
  {
    ChunksJoin(p);
    EmitAllPayload(id, Chunks(p), draws);
    var segs := EmitAll(id, Chunks(p), draws);
    DecodeEncoded(segs, []);
    assert EncodeAll(segs) + [] == EncodeAll(segs) && segs + [] == segs;
  }
}
