/** The wire format of niaucchi3: a flag, a 16-bit socket ID, and a body behind a 16-bit length,
    all big-endian and in declaration order. */
module Segments {
  type byte = x: int | 0 <= x < 256
  type uint16 = x: int | 0 <= x < 0x1_0000

  const FL_OPEN: byte := 0x01
  const FL_CLOS: byte := 0x02
  const FL_DATA: byte := 0x10
  const FL_ICWD: byte := 0x11
  const FL_ALIV: byte := 0xff

  const HEADER: nat := 5

  datatype Segment = Segment(flag: byte, sokid: uint16, body: seq<byte>)

  /** The length field is 16 bits wide. */
  predicate Fits(s: Segment) {
    |s.body| < 0x1_0000
  }

  predicate AllFit(segs: seq<Segment>) {
    forall i | 0 <= i < |segs| :: Fits(segs[i])
  }

  function Encode(s: Segment): (bs: seq<byte>)
    requires Fits(s)
    ensures |bs| == HEADER + |s.body|
  {
    [s.flag, s.sokid / 256, s.sokid % 256, |s.body| / 256, |s.body| % 256] + s.body
  }

  /** Where each field lies: the flag first, then the ID and the length, high byte first, and then the body. */
  lemma EncodedFields(s: Segment)
    requires Fits(s)
    ensures var bs := Encode(s);
      && bs[0] == s.flag && bs[1] as int * 256 + bs[2] as int == s.sokid
      && bs[3] as int * 256 + bs[4] as int == |s.body| && bs[5..] == s.body
    ensures s.flag == FL_OPEN <==> Encode(s)[0] == 1
    ensures s.flag == FL_CLOS <==> Encode(s)[0] == 2
    ensures s.flag == FL_DATA <==> Encode(s)[0] == 16
    ensures s.flag == FL_ICWD <==> Encode(s)[0] == 17
    ensures s.flag == FL_ALIV <==> Encode(s)[0] == 255
  {
  }

  function EncodeAll(segs: seq<Segment>): seq<byte>
    requires AllFit(segs)
  {
    if segs == [] then [] else Encode(segs[0]) + EncodeAll(segs[1..])
  }

  /** A 16-bit big-endian field. */
  function Word(hi: byte, lo: byte): uint16 {
    var h: int := hi;
    h * 256 + lo
  }

  /** Reading one segment: either a whole one and what follows it, or too few bytes. */
  datatype Unpacked = Whole(seg: Segment, rest: seq<byte>) | Short

  function Decode(bs: seq<byte>): (u: Unpacked)
    ensures u.Whole? ==> Fits(u.seg) && |u.rest| < |bs|
  {
    if |bs| < HEADER then Short
    else
      var n: nat := Word(bs[3], bs[4]);
      if |bs| < HEADER + n then Short
      else Whole(Segment(bs[0], Word(bs[1], bs[2]), bs[HEADER..HEADER + n]), bs[HEADER + n..])
  }

  /** Every whole segment at the front of a byte stream, and the incomplete tail. */
  function DecodeAll(bs: seq<byte>): (r: (seq<Segment>, seq<byte>))
    ensures AllFit(r.0) && |r.1| <= |bs| && Decode(r.1).Short?
    decreases |bs|
  {
    match Decode(bs)
    case Short => ([], bs)
    case Whole(seg, rest) => var (segs, tail) := DecodeAll(rest); ([seg] + segs, tail)
  }

  lemma {:induction false} EncodeAllConcat(a: seq<Segment>, b: seq<Segment>)
    requires AllFit(a) && AllFit(b)
    ensures AllFit(a + b) && EncodeAll(a + b) == EncodeAll(a) + EncodeAll(b)
  {
    if a == [] {
      assert a + b == b;
    } else {
      EncodeAllConcat(a[1..], b);
      assert (a + b)[1..] == a[1..] + b;
    }
  }

  lemma DecodeOne(s: Segment, tail: seq<byte>)
    requires Fits(s)
    ensures Decode(Encode(s) + tail) == Whole(s, tail)
  {
    var bs := Encode(s) + tail;
    assert bs[HEADER..HEADER + |s.body|] == s.body;
    assert bs[HEADER + |s.body|..] == tail;
  }

  lemma {:induction false} DecodeAllFirst(s: Segment, bs: seq<byte>)
    requires Fits(s)
    ensures DecodeAll(Encode(s) + bs) == ([s] + DecodeAll(bs).0, DecodeAll(bs).1)
  {
    DecodeOne(s, bs);
  }

  lemma Associate<T>(a: seq<T>, b: seq<T>, c: seq<T>)
    ensures (a + b) + c == a + (b + c)
  {
  }

  /** Decoding a list of encoded segments in front of any bytes gives back that list, and then
      whatever those bytes decode to. */
  lemma {:induction false} DecodeEncoded(segs: seq<Segment>, tail: seq<byte>)
    requires AllFit(segs)
    ensures DecodeAll(EncodeAll(segs) + tail) == (segs + DecodeAll(tail).0, DecodeAll(tail).1)
  {
    var more := DecodeAll(tail).0;
    if segs == [] {
      assert [] + tail == tail && segs + more == more;
    } else {
      var first, others := segs[0], segs[1..];
      DecodeEncoded(others, tail);
      DecodeAllFirst(first, EncodeAll(others) + tail);
      Associate(Encode(first), EncodeAll(others), tail);
      Associate([first], others, more);
      assert [first] + others == segs;
    }
  }

  lemma EncodeDecodedOne(bs: seq<byte>)
    requires Decode(bs).Whole?
    ensures Encode(Decode(bs).seg) + Decode(bs).rest == bs
  {
  }

  lemma {:induction false} EncodeFirst(seg: Segment, segs: seq<Segment>)
    requires Fits(seg) && AllFit(segs)
    ensures AllFit([seg] + segs) && EncodeAll([seg] + segs) == Encode(seg) + EncodeAll(segs)
  {
    assert ([seg] + segs)[1..] == segs;
  }

  /** Re-encoding what was decoded, in front of the tail, gives back the same bytes. */
  lemma {:induction false} EncodeDecoded(bs: seq<byte>)
    ensures EncodeAll(DecodeAll(bs).0) + DecodeAll(bs).1 == bs
    decreases |bs|
  {
    match Decode(bs)
    case Short =>
      assert [] + bs == bs;
    case Whole(seg, rest) =>
      EncodeDecodedOne(bs);
      EncodeDecoded(rest);
      var (segs, tail) := DecodeAll(rest);
      EncodeFirst(seg, segs);
      Associate(Encode(seg), EncodeAll(segs), tail);
  }
}
