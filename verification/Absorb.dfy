/** How a niaucchi2 context numbers the connections it absorbs, and how the other side learns the number. */
module Absorb {
  import opened Segments
  import opened Sockets

  /** The client tries the numbers below this one, from 1. */
  const LIMIT: uint16 := 65535

  datatype AbsorbErr = TablesFull | ShortRead | AlreadyDead

  /** The least unused number at or above `i`. */
  function PickFrom(used: set<uint16>, i: uint16): (r: Option<uint16>)
    decreases LIMIT - i
  {
    if i >= LIMIT then None else if i !in used then Some(i) else PickFrom(used, i + 1)
  }

  lemma {:induction false} PickIsLeast(used: set<uint16>, i: uint16)
    ensures match PickFrom(used, i)
            case Some(k) => i <= k < LIMIT && k !in used && forall j | i <= j < k :: j in used
            case None => forall j | i <= j < LIMIT :: j in used
    decreases LIMIT - i
  {
    if i < LIMIT && i in used {
      PickIsLeast(used, i + 1);
    }
  }

  /** The two bytes of the handshake, and what the server reads from them. */
  function Handshake(subid: uint16): seq<byte> {
    [subid / 256, subid % 256]
  }

  lemma HandshakeRoundTrip(subid: uint16, rest: seq<byte>)
    ensures var bytes := Handshake(subid) + rest;
      |bytes| >= 2 && Word(bytes[0], bytes[1]) == subid && bytes[2..] == rest
  {
  }

  /** The table after `n` connections were absorbed by a client that started empty. */
  ghost function Numbered(n: nat): (r: Option<set<uint16>>) {
    if n == 0 then Some({})
    else
      match Numbered(n - 1)
      case None => None
      case Some(used) => match PickFrom(used, 1) case None => None case Some(k) => Some(used + {k})
  }

  /** The numbers 1 to n. */
  ghost function UpTo(n: nat): (s: set<uint16>)
    requires n < 0x1_0000
    ensures forall i: uint16 :: i in s <==> 1 <= i <= n
  {
    if n == 0 then {} else UpTo(n - 1) + {n as uint16}
  }

  lemma {:induction false} PickUpTo(n: nat)
    requires n < LIMIT
    ensures PickFrom(UpTo(n), 1) == if n + 1 < LIMIT then Some(n + 1) else None
  {
    PickIsLeast(UpTo(n), 1);
    if n + 1 < LIMIT {
      assert n + 1 !in UpTo(n);
    }
  }

  /** The n-th connection gets number n, up to 65534; the 65535th and all after it fail. */
  lemma {:induction false} NthGetsN(n: nat)
    ensures n <= 65534 ==> Numbered(n) == Some(UpTo(n))
    ensures n <= 65533 ==> PickFrom(UpTo(n), 1) == Some(n + 1)
    ensures n >= 65535 ==> Numbered(n) == None
  {
    if n > 0 {
      NthGetsN(n - 1);
    }
    if n < LIMIT {
      PickUpTo(n);
    } else if n == LIMIT {
      PickUpTo(n - 1);
    }
  }

  // ---------- the object ----------

  class Conn {
    var sent: seq<byte>
    var input: seq<byte>

    constructor (input: seq<byte>)
      ensures sent == [] && this.input == input
    {
      sent, this.input := [], input;
    }
  }

  class SubCtx {
    const subid: uint16
    const conn: Conn

    constructor (subid: uint16, conn: Conn)
      ensures this.subid == subid && this.conn == conn
    {
      this.subid, this.conn := subid, conn;
    }
  }

  class Context {
    const isClient: bool
    var subTable: map<uint16, SubCtx>
    var death: Option<AbsorbErr>

    ghost predicate Valid()
      reads this
    {
      forall i | i in subTable :: subTable[i].subid == i
    }

    constructor (isClient: bool)
      ensures Valid() && this.isClient == isClient && subTable == map[] && death == None
    {
      this.isClient := isClient;
      subTable, death := map[], None;
    }

    /** The client's search for a free number. */
    method FindFree() returns (subid: uint16)
      ensures subid == match PickFrom(subTable.Keys, 1) case Some(k) => k case None => 0
    {
      var i: uint16 := 1;
      while i < LIMIT
        invariant 1 <= i <= LIMIT
        invariant PickFrom(subTable.Keys, 1) == PickFrom(subTable.Keys, i)
      {
        if i !in subTable {
          return i;
        }
        i := i + 1;
      }
      return 0;
    }

    /** Adds a connection. A client picks a number and sends it; a server reads it, and what it reads
        replaces an earlier connection with that number. */
    method Absorb(conn: Conn) returns (err: Option<AbsorbErr>)
      requires Valid()
      modifies this, conn
      ensures Valid()
      ensures old(death) != None ==> err == Some(AlreadyDead) && subTable == old(subTable) && death == old(death)
      ensures old(death) == None && isClient ==>
        match PickFrom(old(subTable.Keys), 1)
        case None => err == Some(TablesFull) == death && subTable == old(subTable) && conn.sent == old(conn.sent)
        case Some(k) =>
          && err == None && death == None && conn.sent == old(conn.sent) + Handshake(k)
          && k in subTable && subTable == old(subTable)[k := subTable[k]] && subTable[k].conn == conn
      ensures old(death) == None && !isClient && |old(conn.input)| < 2 ==>
        err == Some(ShortRead) == death && subTable == old(subTable)
      ensures old(death) == None && !isClient && |old(conn.input)| >= 2 ==>
        var k := Word(old(conn.input)[0], old(conn.input)[1]);
        && err == None && death == None && conn.input == old(conn.input)[2..]
        && k in subTable && subTable == old(subTable)[k := subTable[k]] && subTable[k].conn == conn
    {
      if death != None {
        return Some(AlreadyDead);
      }
      var subid: uint16;
      if isClient {
        PickIsLeast(subTable.Keys, 1);
        subid := FindFree();
        if subid == 0 {
          death := Some(TablesFull);
          return Some(TablesFull);
        }
        conn.sent := conn.sent + [subid / 256, subid % 256];
      } else {
        if |conn.input| < 2 {
          death := Some(ShortRead);
          return Some(ShortRead);
        }
        subid := Word(conn.input[0], conn.input[1]);
        conn.input := conn.input[2..];
      }
      var nsc := new SubCtx(subid, conn);
      subTable := subTable[subid := nsc];
      return None;
    }
  }
}
