/** The country lookup: a binary search over address ranges. */
module GeoDB {
  import opened Segments
  import opened Sockets

  datatype Entry = Entry(from: nat, to: nat, ctry: string)

  const UNKNOWN := "UN"

  predicate Holds(e: Entry, addr: nat) {
    e.from <= addr <= e.to
  }

  /** Ranges in ascending order, none of them empty and no two of them overlapping. */
  predicate Sorted(t: seq<Entry>) {
    && (forall i | 0 <= i < |t| :: t[i].from <= t[i].to)
    && (forall i, j | 0 <= i < j < |t| :: t[i].to < t[j].from)
  }

  /** The reference: the first range that holds the address. */
  function Scan(t: seq<Entry>, addr: nat): (ctry: string) {
    if t == [] then UNKNOWN else if Holds(t[0], addr) then t[0].ctry else Scan(t[1..], addr)
  }

  lemma {:induction false} ScanMisses(t: seq<Entry>, addr: nat)
    requires forall i | 0 <= i < |t| :: !Holds(t[i], addr)
    ensures Scan(t, addr) == UNKNOWN
  {
    if t != [] {
      ScanMisses(t[1..], addr);
    }
  }

  lemma {:induction false} ScanFinds(t: seq<Entry>, addr: nat, k: nat)
    requires k < |t| && Holds(t[k], addr) && forall i | 0 <= i < k :: !Holds(t[i], addr)
    ensures Scan(t, addr) == t[k].ctry
  {
    if k > 0 {
      ScanFinds(t[1..], addr, k - 1);
    }
  }

  /** What the search between `lo` and `hi` answers, and how many entries it looks at. */
  function Search(t: seq<Entry>, addr: nat, lo: nat, hi: nat): (r: (string, nat))
    requires lo < hi <= |t|
    ensures r.1 >= 1
    decreases hi - lo
  {
    var mid := (lo + hi) / 2;
    if Holds(t[mid], addr) then (t[mid].ctry, 1)
    else if lo == mid then (UNKNOWN, 1)
    else
      var (ctry, looks) := if addr < t[mid].from then Search(t, addr, lo, mid) else Search(t, addr, mid, hi);
      (ctry, looks + 1)
  }

  /** Over sorted ranges the search answers as the scan does, if nothing outside its bounds holds the address. */
  lemma {:induction false} SearchIsScan(t: seq<Entry>, addr: nat, lo: nat, hi: nat)
    requires Sorted(t) && lo < hi <= |t|
    requires forall j | 0 <= j < lo || hi <= j < |t| :: !Holds(t[j], addr)
    ensures Search(t, addr, lo, hi).0 == Scan(t, addr)
    decreases hi - lo
  {
    var mid := (lo + hi) / 2;
    if Holds(t[mid], addr) {
      ScanFinds(t, addr, mid);
    } else if lo == mid {
      ScanMisses(t, addr);
    } else if addr < t[mid].from {
      SearchIsScan(t, addr, lo, mid);
    } else {
      SearchIsScan(t, addr, mid, hi);
    }
  }

  /** Whatever the table, an answer other than "UN" is the country of a range that holds the address. */
  lemma {:induction false} SearchIsSound(t: seq<Entry>, addr: nat, lo: nat, hi: nat)
    requires lo < hi <= |t|
    ensures var ctry := Search(t, addr, lo, hi).0;
      ctry == UNKNOWN || exists k :: lo <= k < hi && Holds(t[k], addr) && ctry == t[k].ctry
    decreases hi - lo
  {
    var mid := (lo + hi) / 2;
    if !Holds(t[mid], addr) && lo != mid {
      if addr < t[mid].from {
        SearchIsSound(t, addr, lo, mid);
      } else {
        SearchIsSound(t, addr, mid, hi);
      }
    }
  }

  /** Over sorted ranges the answer is the country of the range that holds the address, first and last address
      included, and "UN" between them. */
  lemma {:induction false} AnswerIs(t: seq<Entry>, addr: nat)
    requires t != [] && Sorted(t)
    ensures forall k | 0 <= k < |t| && t[k].from <= addr <= t[k].to :: Search(t, addr, 0, |t|).0 == t[k].ctry
    ensures (forall k | 0 <= k < |t| :: addr < t[k].from || t[k].to < addr) ==> Search(t, addr, 0, |t|).0 == "UN"
  {
    SearchIsScan(t, addr, 0, |t|);
    forall k | 0 <= k < |t| && t[k].from <= addr <= t[k].to ensures Search(t, addr, 0, |t|).0 == t[k].ctry {
      ScanFinds(t, addr, k);
    }
    if forall k | 0 <= k < |t| :: addr < t[k].from || t[k].to < addr {
      ScanMisses(t, addr);
    }
  }

  function Pow2(k: nat): (p: nat)
    ensures p > 0
  {
    if k == 0 then 1 else 2 * Pow2(k - 1)
  }

  /** Among at most 2^k ranges the search looks at k + 1 entries or fewer, whatever the table. */
  lemma {:induction false} LooksAtMost(t: seq<Entry>, addr: nat, lo: nat, hi: nat, k: nat)
    requires lo < hi <= |t| && hi - lo <= Pow2(k)
    ensures Search(t, addr, lo, hi).1 <= k + 1
    decreases k
  {
    var mid := (lo + hi) / 2;
    if lo != mid && !Holds(t[mid], addr) {
      if addr < t[mid].from {
        LooksAtMost(t, addr, lo, mid, k - 1);
      } else {
        LooksAtMost(t, addr, mid, hi, k - 1);
      }
    }
  }

  /** And the bound is reached: among more than 2^k ranges, an address above them all takes more than k + 1. */
  lemma {:induction false} LooksAtLeast(t: seq<Entry>, addr: nat, lo: nat, hi: nat, k: nat)
    requires lo < hi <= |t| && hi - lo > Pow2(k)
    requires forall j | lo <= j < hi :: t[j].from <= addr && t[j].to < addr
    ensures Search(t, addr, lo, hi).1 > k + 1
    decreases k
  {
    var mid := (lo + hi) / 2;
    assert !Holds(t[mid], addr) && lo != mid;
    if k > 0 {
      LooksAtLeast(t, addr, mid, hi, k - 1);
    }
  }

  /** The whole lookup for a table of n ranges, where n <= 2^k: right answer, right cost. When also n > 2^(k-1),
      an address above every range costs exactly k + 1, so three ranges can cost three looks. */
  lemma Lookup(t: seq<Entry>, addr: nat, k: nat)
    requires t != [] && Sorted(t) && |t| <= Pow2(k)
    ensures Search(t, addr, 0, |t|).0 == Scan(t, addr)
    ensures Search(t, addr, 0, |t|).1 <= k + 1
    ensures t[|t| - 1].to < addr && k > 0 && |t| > Pow2(k - 1) ==> Search(t, addr, 0, |t|).1 == k + 1
  {
    SearchIsScan(t, addr, 0, |t|);
    LooksAtMost(t, addr, 0, |t|, k);
    if t[|t| - 1].to < addr && k > 0 && |t| > Pow2(k - 1) {
      LooksAtLeast(t, addr, 0, |t|, k - 1);
    }
  }

  /** Four bytes in network order. */
  function BigEndian(b: seq<byte>): (n: nat)
    requires |b| >= 4
    ensures n < 0x1_0000_0000
  {
    b[0] as int * 0x100_0000 + b[1] as int * 0x1_0000 + b[2] as int * 0x100 + b[3] as int
  }

  /** The bytes come first in the order in which addresses are written down. */
  predicate Before(a: seq<byte>, b: seq<byte>)
    requires |a| == |b|
  {
    a != [] && (a[0] < b[0] || (a[0] == b[0] && Before(a[1..], b[1..])))
  }

  lemma {:induction false} BeforeNext(a: seq<byte>, b: seq<byte>, k: nat)
    requires k < |a| == |b|
    ensures Before(a[k..], b[k..]) <==> a[k] < b[k] || (a[k] == b[k] && Before(a[k + 1..], b[k + 1..]))
  {
    assert a[k..][1..] == a[k + 1..] && b[k..][1..] == b[k + 1..];
  }

  /** The number of an address goes with the order of its bytes, and no two addresses share one. */
  lemma {:induction false} NumbersInOrder(a: seq<byte>, b: seq<byte>)
    requires |a| == 4 == |b|
    ensures BigEndian(a) < BigEndian(b) <==> Before(a, b)
    ensures BigEndian(a) == BigEndian(b) <==> a == b
  {
    BeforeNext(a, b, 3);
    BeforeNext(a, b, 2);
    BeforeNext(a, b, 1);
    assert a == [a[0], a[1], a[2], a[3]] && b == [b[0], b[1], b[2], b[3]];
  }

  /** The sixteen bytes that stand for a four-byte address (RFC 4291, section 2.5.5.2). */
  function Mapped(ip: seq<byte>): seq<byte> {
    [0, 0, 0, 0, 0, 0, 0, 0, 0, 0, 255, 255] + ip
  }

  /** The number searched for: a four-byte address, or the last four of sixteen. Others are out of range. */
  function Address(ip: seq<byte>): Option<nat> {
    if |ip| == 4 then Some(BigEndian(ip)) else if |ip| >= 16 then Some(BigEndian(ip[12..])) else None
  }

  /** The number searched for is that of the four bytes, or of the last four of sixteen whatever the first twelve; so
      it is the same in either of the two forms in which an address comes. */
  lemma {:induction false} AddressIs(ip: seq<byte>, first: seq<byte>)
    requires |ip| == 4 && |first| == 12
    ensures Address(ip) == Address(first + ip) == Some(((ip[0] as int * 256 + ip[1]) * 256 + ip[2]) * 256 + ip[3])
    ensures Address(Mapped(ip)) == Address(ip)
  {
    assert (first + ip)[12..] == ip && Mapped(ip)[12..] == ip;
  }

  class Database {
    var slice: seq<Entry>

    constructor (slice: seq<Entry>)
      ensures this.slice == slice
    {
      this.slice := slice;
    }

    /** None stands for a run-time panic: an address of a wrong length, or an empty table. */
    method GetCountry(ip: seq<byte>) returns (ctry: Option<string>, ghost looks: nat)
      ensures ctry == None <==> Address(ip) == None || slice == []
      ensures ctry != None ==> (ctry.value, looks) == Search(slice, Address(ip).value, 0, |slice|)
      ensures ctry == None <==> slice == [] || (|ip| != 4 && |ip| < 16)
    {
      looks := 0;
      var ipint;
      if |ip| == 4 {
        ipint := BigEndian(ip);
      } else if |ip| >= 16 {
        ipint := BigEndian(ip[12..]);
      } else {
        return None, 0;
      }
      var lo, hi := 0, |slice|;
      if hi == 0 {
        return None, 0;
      }
      while true
        invariant 0 <= lo < hi <= |slice|
        invariant var (c, n) := Search(slice, ipint, lo, hi);
          Search(slice, ipint, 0, |slice|) == (c, looks + n)
        decreases hi - lo
      {
        var mid := (lo + hi) / 2;
        var elem := slice[mid];
        looks := looks + 1;
        if elem.from <= ipint <= elem.to {
          return Some(elem.ctry), looks;
        } else if lo == mid || mid == hi {
          return Some("UN"), looks;
        } else if ipint < elem.from {
          hi := mid;
        } else if ipint > elem.to {
          lo := mid;
        } else {
          assert false;
        }
      }
    }
  }
}
