/** The SOCKS 5 server's side of RFC 1928, sections 3 to 5. */
module Socks {
  import opened Segments
  import opened Sockets

  /** A Go string: bytes. */
  type Text = seq<byte>

  const COLON: byte := 58
  const DOT: byte := 46

  /** How many bytes ReadRequest's scratch array holds. */
  const SCRATCH: nat := 128

  function Decimal(n: nat): (d: Text)
    ensures forall b | b in d :: 48 <= b <= 57
  {
    if n < 10 then [48 + n] else Decimal(n / 10) + [48 + n % 10]
  }

  /** The number that digits stand for. */
  function Value(d: Text): int {
    if d == [] then 0 else 10 * Value(d[..|d| - 1]) + d[|d| - 1] - 48
  }

  lemma {:induction false} DecimalValue(n: nat)
    ensures Value(Decimal(n)) == n
    ensures n > 0 ==> Decimal(n)[0] != 48
  {
    var d := Decimal(n);
    if n >= 10 {
      DecimalValue(n / 10);
      assert d[..|d| - 1] == Decimal(n / 10);
    } else {
      assert d[..0] == [];
    }
  }

  // ---------- connections ----------

  class Conn {
    var input: seq<byte>
    var output: seq<byte>
    var writable: bool
    var closed: bool

    constructor (input: seq<byte>, writable: bool)
      ensures this.input == input && this.output == [] && this.writable == writable && !closed
    {
      this.input, this.output, this.writable, closed := input, [], writable, false;
    }

    method Close()
      modifies this`closed
      ensures closed
    {
      closed := true;
    }

    /** Fills the first `n` places of the buffer, or fails having taken all there was. */
    method ReadFull(buf: array<byte>, n: nat) returns (ok: bool)
      requires n <= buf.Length
      modifies this`input, buf
      ensures ok <==> n <= |old(input)|
      ensures input == if ok then old(input)[n..] else []
      ensures ok ==> forall k | 0 <= k < n :: buf[k] == old(input)[k]
    {
      var got := if |input| < n then |input| else n;
      forall k | 0 <= k < got {
        buf[k] := input[k];
      }
      ok := got == n;
      input := input[got..];
    }

    method Write(bytes: seq<byte>) returns (ok: bool)
      modifies this`output
      ensures ok == writable && output == if ok then old(output) + bytes else old(output)
    {
      if writable {
        output := output + bytes;
      }
      return writable;
    }
  }

  // ---------- reading a SOCKS request ----------

  /** What ReadRequest returns. A panic is a slice bound past the end of the scratch array. */
  datatype Reading = Asked(dest: Text) | Failed | Panicked

  /** The result of a reading, the bytes left unread, and whether the method was answered. */
  datatype Parsed = Parsed(reading: Reading, rest: seq<byte>, answered: bool)

  function Dotted(a: byte, b: byte, c: byte, d: byte): Text {
    Decimal(a) + [DOT] + Decimal(b) + [DOT] + Decimal(c) + [DOT] + Decimal(d)
  }

  function HostPort(host: Text, port: nat): Text {
    host + [COLON] + Decimal(port)
  }

  /** Where a separator can be found. */
  lemma SeparatorAt(x: Text, y: Text, b: byte, i: nat)
    requires i < |x + [b] + y| && (x + [b] + y)[i] == b
    ensures b !in x ==> |x| <= i
    ensures b !in y ==> i <= |x|
  {
    var s := x + [b] + y;
    assert i < |x| ==> s[i] == x[i];
    assert i > |x| ==> s[i] == y[i - |x| - 1];
  }

  /** Two texts around a separator that only one of them may contain can be told apart. */
  lemma Separated(x: Text, y: Text, x': Text, y': Text, b: byte)
    requires x + [b] + y == x' + [b] + y'
    requires (b !in x && b !in x') || (b !in y && b !in y')
    ensures x == x' && y == y'
  {
    var s, s' := x + [b] + y, x' + [b] + y';
    SeparatorAt(x, y, b, |x'|);
    SeparatorAt(x', y', b, |x|);
    assert s[..|x|] == x && s'[..|x'|] == x' && s[|x| + 1..] == y && s'[|x'| + 1..] == y';
  }

  lemma {:induction false} DecimalDetermines(n: nat, n': nat)
    ensures Decimal(n) == Decimal(n') <==> n == n'
  {
    DecimalValue(n);
    DecimalValue(n');
  }

  /** The text of a request determines host and port: any two that differ in either are written differently. */
  lemma HostPortDetermines(host: Text, port: nat, host': Text, port': nat)
    ensures HostPort(host, port) == HostPort(host', port') <==> host == host' && port == port'
  {
    if HostPort(host, port) == HostPort(host', port') {
      Separated(host, Decimal(port), host', Decimal(port'), COLON);
      DecimalDetermines(port, port');
    }
  }

  lemma DottedDetermines(a: byte, b: byte, c: byte, d: byte, a': byte, b': byte, c': byte, d': byte)
    ensures Dotted(a, b, c, d) == Dotted(a', b', c', d') <==> a == a' && b == b' && c == c' && d == d'
  {
    if Dotted(a, b, c, d) == Dotted(a', b', c', d') {
      var (ab, ab') := (Decimal(a) + [DOT] + Decimal(b), Decimal(a') + [DOT] + Decimal(b'));
      Separated(ab + [DOT] + Decimal(c), Decimal(d), ab' + [DOT] + Decimal(c'), Decimal(d'), DOT);
      Separated(ab, Decimal(c), ab', Decimal(c'), DOT);
      Separated(Decimal(a), Decimal(b), Decimal(a'), Decimal(b'), DOT);
      DecimalDetermines(a, a');
      DecimalDetermines(b, b');
      DecimalDetermines(c, c');
      DecimalDetermines(d, d');
    }
  }

  function ParsePort(host: Text, input: seq<byte>): Parsed {
    if |input| < 2 then Parsed(Failed, [], true)
    else Parsed(Asked(HostPort(host, Word(input[0], input[1]))), input[2..], true)
  }

  function ParseDomain(length: byte, input: seq<byte>): Parsed {
    if length > SCRATCH then Parsed(Panicked, input, true)
    else if |input| < length as int then Parsed(Failed, [], true)
    else ParsePort(input[..length], input[length..])
  }

  function ParseAddress(kind: byte, input: seq<byte>): Parsed {
    if kind == 1 then
      if |input| < 4 then Parsed(Failed, [], true)
      else ParsePort(Dotted(input[0], input[1], input[2], input[3]), input[4..])
    else if kind == 3 then
      if |input| < 1 then Parsed(Failed, [], true) else ParseDomain(input[0], input[1..])
    else Parsed(Failed, input, true)
  }

  function ParseGreeted(input: seq<byte>): Parsed {
    if |input| < 4 then Parsed(Failed, [], true) else ParseAddress(input[3], input[4..])
  }

  function ParseMethods(count: byte, input: seq<byte>, writable: bool): Parsed {
    if count > SCRATCH then Parsed(Panicked, input, false)
    else if |input| < count as int then Parsed(Failed, [], false)
    else if !writable then Parsed(Failed, input[count..], false)
    else ParseGreeted(input[count..])
  }

  function Parse(input: seq<byte>, writable: bool): Parsed {
    if |input| < 2 then Parsed(Failed, [], false)
    else if input[0] != 5 then Parsed(Failed, input[2..], false)
    else ParseMethods(input[1], input[2..], writable)
  }

  /** The first part: the greeting and its answer. None is a panic, Some(false) an error. */
  method Greet(conn: Conn, scratch: array<byte>) returns (ok: Option<bool>)
    requires scratch.Length == SCRATCH
    modifies conn`input, conn`output, scratch
    ensures conn.output == if ok == Some(true) then old(conn.output) + [5, 0] else old(conn.output)
    ensures match ok
      case None => Parse(old(conn.input), conn.writable) == Parsed(Panicked, conn.input, false)
      case Some(false) => Parse(old(conn.input), conn.writable) == Parsed(Failed, conn.input, false)
      case Some(true) => Parse(old(conn.input), conn.writable) == ParseGreeted(conn.input)
  {
    var full := conn.ReadFull(scratch, 2);
    if !full || scratch[0] != 5 {
      return Some(false);
    }
    var i := scratch[1];
    if i as int > scratch.Length {
      return None;
    }
    full := conn.ReadFull(scratch, i as int);
    if !full {
      return Some(false);
    }
    scratch[0] := 5;
    scratch[1] := 0;
    assert scratch[..2] == [5, 0];
    full := conn.Write(scratch[..2]);
    return Some(full);
  }

  /** The second part: the address and the port. */
  method ReadAddress(conn: Conn, scratch: array<byte>) returns (r: Reading)
    requires scratch.Length == SCRATCH
    modifies conn`input, scratch
    ensures ParseGreeted(old(conn.input)) == Parsed(r, conn.input, true)
  {
    var full := conn.ReadFull(scratch, 4);
    if !full {
      return Failed;
    }
    var conntype := scratch[3];
    var toret;
    if conntype == 1 {
      full := conn.ReadFull(scratch, 4);
      if !full {
        return Failed;
      }
      toret := Dotted(scratch[0], scratch[1], scratch[2], scratch[3]);
    } else if conntype == 3 {
      full := conn.ReadFull(scratch, 1);
      if !full {
        return Failed;
      }
      var length := scratch[0];
      if length as int > scratch.Length {
        return Panicked;
      }
      ghost var rest := conn.input;
      full := conn.ReadFull(scratch, length as int);
      if !full {
        return Failed;
      }
      toret := scratch[..length];
      assert toret == rest[..length];
    } else {
      return Failed;
    }
    assert ParseGreeted(old(conn.input)) == ParsePort(toret, conn.input);
    full := conn.ReadFull(scratch, 2);
    if !full {
      return Failed;
    }
    var portnum := scratch[0] as int * 256 + scratch[1] as int;
    return Asked(HostPort(toret, portnum));
  }

  /** Both parts, in one scratch array. */
  method ReadRequest(conn: Conn) returns (r: Reading)
    modifies conn`input, conn`output
    ensures var p := Parse(old(conn.input), conn.writable);
      && r == p.reading && conn.input == p.rest
      && conn.output == if p.answered then old(conn.output) + [5, 0] else old(conn.output)
  {
    var scratch := new byte[128](_ => 0);
    var ok := Greet(conn, scratch);
    if ok == Some(true) {
      r := ReadAddress(conn, scratch);
    } else {
      r := if ok == None then Panicked else Failed;
    }
  }

  /** The reply of RFC 1928 section 6, with no address in it. */
  function Completion(errcode: byte): seq<byte> {
    [5, errcode, 0, 1, 0, 0, 0, 0, 0, 0]
  }

  method CompleteRequest(errcode: byte, conn: Conn) returns (ok: bool)
    modifies conn`output
    ensures ok == conn.writable
    ensures conn.output == if ok then old(conn.output) + Completion(errcode) else old(conn.output)
  {
    var scratch := new byte[128](_ => 0);
    scratch[0] := 5;
    scratch[1] := errcode;
    scratch[2] := 0;
    scratch[3] := 1;
    assert scratch[..10] == Completion(errcode);
    ok := conn.Write(scratch[..10]);
  }

  // ---------- requests as the RFC writes them ----------

  datatype Dest = IPv4(a: byte, b: byte, c: byte, d: byte) | Domain(name: Text)

  /** A greeting and a request. The version and reserved fields of the request, and the command, are not looked at. */
  datatype Request =
    Request(methods: seq<byte>, version: byte, command: byte, reserved: byte, dest: Dest, port: uint16)

  predicate Writable(q: Request) {
    |q.methods| < 256 && (q.dest.Domain? ==> |q.dest.name| < 256)
  }

  function DestBytes(dest: Dest): seq<byte>
    requires dest.Domain? ==> |dest.name| < 256
  {
    match dest
    case IPv4(a, b, c, d) => [1, a, b, c, d]
    case Domain(name) => [3, |name|] + name
  }

  function PortBytes(port: uint16): seq<byte> {
    [port / 256, port % 256]
  }

  function Body(q: Request): seq<byte>
    requires Writable(q)
  {
    [q.version, q.command, q.reserved] + DestBytes(q.dest) + PortBytes(q.port)
  }

  function Bytes(q: Request): seq<byte>
    requires Writable(q)
  {
    [5, |q.methods|] + q.methods + Body(q)
  }

  function HostOf(dest: Dest): Text {
    match dest case IPv4(a, b, c, d) => Dotted(a, b, c, d) case Domain(name) => name
  }

  function TextOf(q: Request): Text {
    HostPort(HostOf(q.dest), q.port)
  }

  /** What fits the scratch array. */
  predicate Small(q: Request) {
    |q.methods| <= SCRATCH && (q.dest.Domain? ==> |q.dest.name| <= SCRATCH)
  }

  lemma PortRead(host: Text, port: uint16, rest: seq<byte>)
    ensures ParsePort(host, PortBytes(port) + rest) == Parsed(Asked(HostPort(host, port)), rest, true)
  {
  }

  lemma AddressRead(dest: Dest, tail: seq<byte>)
    requires dest.Domain? ==> |dest.name| < 256
    ensures var bytes := DestBytes(dest);
      ParseAddress(bytes[0], bytes[1..] + tail) ==
        if dest.Domain? && |dest.name| > SCRATCH then Parsed(Panicked, dest.name + tail, true)
        else ParsePort(HostOf(dest), tail)
  {
    match dest
    case IPv4(a, b, c, d) =>
      assert ([a, b, c, d] + tail)[4..] == tail;
    case Domain(name) =>
      var input := [|name|] + name + tail;
      assert DestBytes(dest)[1..] + tail == input;
      assert input[1..] == name + tail;
      assert (name + tail)[..|name|] == name && (name + tail)[|name|..] == tail;
  }

  lemma BodyRead(q: Request, rest: seq<byte>)
    requires Writable(q)
    ensures if q.dest.Domain? && |q.dest.name| > SCRATCH then ParseGreeted(Body(q) + rest).reading == Panicked
            else ParseGreeted(Body(q) + rest) == Parsed(Asked(TextOf(q)), rest, true)
  {
    var tail, bytes := PortBytes(q.port) + rest, DestBytes(q.dest);
    assert (Body(q) + rest)[4..] == bytes[1..] + tail;
    AddressRead(q.dest, tail);
    PortRead(HostOf(q.dest), q.port, rest);
  }

  lemma MethodsRead(methods: seq<byte>, tail: seq<byte>, writable: bool)
    requires |methods| < 256
    ensures var input := [5, |methods|] + methods + tail;
      Parse(input, writable) ==
        if |methods| > SCRATCH then Parsed(Panicked, methods + tail, false)
        else if !writable then Parsed(Failed, tail, false)
        else ParseGreeted(tail)
  {
    var input := [5, |methods|] + methods + tail;
    assert input[2..] == methods + tail;
    assert (methods + tail)[|methods|..] == tail;
  }

  /** A request is read exactly, to its last byte and no further, if and only if it fits the scratch array and
      the answer can be written; a list of methods or a domain that does not fit is a panic. */
  lemma RoundTrip(q: Request, rest: seq<byte>, writable: bool)
    requires Writable(q)
    ensures var p := Parse(Bytes(q) + rest, writable);
      && (writable && Small(q) <==> p == Parsed(Asked(TextOf(q)), rest, true))
      && (p.reading.Asked? ==> writable && Small(q))
      && (p.reading.Panicked? <==>
          |q.methods| > SCRATCH || (writable && q.dest.Domain? && |q.dest.name| > SCRATCH))
  {
    assert Bytes(q) + rest == [5, |q.methods|] + q.methods + (Body(q) + rest);
    MethodsRead(q.methods, Body(q) + rest, writable);
    BodyRead(q, rest);
  }

  /** The address at the front of a body, when there is one. */
  function DestFrom(after: seq<byte>): (dest: Dest)
    requires ParseGreeted(after).reading.Asked?
    ensures dest.Domain? ==> |dest.name| <= SCRATCH
  {
    if after[3] == 1 then IPv4(after[4], after[5], after[6], after[7]) else Domain(after[5..][..after[4]])
  }

  lemma DestMatches(after: seq<byte>)
    requires ParseGreeted(after).reading.Asked?
    ensures var bytes := DestBytes(DestFrom(after));
      && |after| >= 3 + |bytes| + 2 && after[3..3 + |bytes|] == bytes
      && ParseGreeted(after) == ParsePort(HostOf(DestFrom(after)), after[3 + |bytes|..])
  {
    if after[3] == 1 {
      assert after[4..][4..] == after[8..];
    } else {
      var n, input := after[4] as int, after[5..];
      assert after[4..][1..] == input;
      assert input[n..] == after[5 + n..];
      assert after[3..5 + n] == [3, after[4]] + input[..n];
    }
  }

  /** A greeted input, taken apart. */
  function RequestFrom(methods: seq<byte>, after: seq<byte>): (q: Request)
    requires |methods| <= SCRATCH && ParseGreeted(after).reading.Asked?
    ensures Writable(q) && Small(q)
  {
    DestMatches(after);
    var dest := DestFrom(after);
    var at := 3 + |DestBytes(dest)|;
    Request(methods, after[0], after[1], after[2], dest, Word(after[at], after[at + 1]))
  }

  lemma Cut(s: seq<byte>, i: nat, j: nat)
    requires i <= j <= |s|
    ensures s == s[..i] + s[i..j] + s[j..]
  {
  }

  lemma Regroup(a: seq<byte>, b: seq<byte>, c: seq<byte>, d: seq<byte>)
    ensures a + b + (c + d) == a + b + c + d == a + (b + (c + d))
  {
  }

  lemma WordBytes(hi: byte, lo: byte)
    ensures PortBytes(Word(hi, lo)) == [hi, lo]
  {
  }

  lemma BodyIs(q: Request, after: seq<byte>, at: nat)
    requires Writable(q) && 3 <= at && at + 2 <= |after|
    requires q.version == after[0] && q.command == after[1] && q.reserved == after[2]
    requires DestBytes(q.dest) == after[3..at] && q.port == Word(after[at], after[at + 1])
    ensures after == Body(q) + after[at..][2..]
  {
    var tail := after[at..];
    WordBytes(after[at], after[at + 1]);
    assert tail == [after[at], after[at + 1]] + tail[2..];
    assert after[..3] == [q.version, q.command, q.reserved];
    Cut(after, 3, at);
    Regroup(after[..3], DestBytes(q.dest), PortBytes(q.port), tail[2..]);
  }

  lemma BodyMatches(methods: seq<byte>, after: seq<byte>)
    requires |methods| <= SCRATCH && ParseGreeted(after).reading.Asked?
    ensures var q := RequestFrom(methods, after);
      && after == Body(q) + ParseGreeted(after).rest
      && ParseGreeted(after).reading == Asked(TextOf(q))
  {
    DestMatches(after);
    var q := RequestFrom(methods, after);
    BodyIs(q, after, 3 + |DestBytes(q.dest)|);
  }

  lemma GreetingMatches(input: seq<byte>)
    requires |input| >= 2 && input[0] == 5 && |input| >= 2 + input[1] as int
    ensures var past := input[2..];
      input == [5, input[1]] + (past[..input[1]] + past[input[1]..])
  {
    var past := input[2..];
    assert past[..input[1]] + past[input[1]..] == past;
  }

  /** Conversely, whatever is read as a request is one, followed by what was left unread. */
  lemma OnlyRequests(input: seq<byte>, writable: bool)
    requires Parse(input, writable).reading.Asked?
    ensures exists q: Request ::
      && Writable(q) && Small(q) && input == Bytes(q) + Parse(input, writable).rest
      && Parse(input, writable).reading == Asked(TextOf(q))
  {
    GreetingMatches(input);
    var methods, after := input[2..][..input[1]], input[2..][input[1]..];
    BodyMatches(methods, after);
    var q := RequestFrom(methods, after);
    Regroup([5, |methods|], methods, Body(q), ParseGreeted(after).rest);
  }

  lemma AnsweredFrom(kind: byte, input: seq<byte>)
    ensures ParseAddress(kind, input).answered
  {
  }

  /** The greeting is answered if and only if it is whole, of version 5, fits the scratch array and can be answered. */
  lemma GreetingAnswered(input: seq<byte>, writable: bool)
    ensures Parse(input, writable).answered <==>
      writable && |input| >= 2 && input[0] == 5 && input[1] <= 128 && |input| >= 2 + input[1] as int
  {
    if |input| >= 2 && |input| >= 2 + input[1] as int {
      var after := input[2..][input[1]..];
      if |after| >= 4 {
        AnsweredFrom(after[3], after[4..]);
      }
    }
  }

  lemma AddressPanics(kind: byte, input: seq<byte>)
    ensures ParseAddress(kind, input).reading.Panicked? <==> kind == 3 && |input| >= 1 && input[0] > 128
  {
  }

  /** A panic on any input: a greeting of version 5 announces more than 128 methods, or, after an answered greeting, a
      request announces a domain of more than 128 bytes. */
  lemma PanicsExactly(input: seq<byte>, writable: bool)
    ensures Parse(input, writable).reading.Panicked? <==>
      && |input| >= 2 && input[0] == 5
      && (input[1] > 128 ||
          var at := 2 + input[1] as int;
          writable && |input| >= at + 5 && input[at + 3] == 3 && input[at + 4] > 128)
  {
    if |input| >= 2 && |input| >= 2 + input[1] as int {
      var after := input[2..][input[1]..];
      assert after == input[2 + input[1] as int..];
      if |after| >= 4 {
        AddressPanics(after[3], after[4..]);
      }
    }
  }

  // ---------- the reply ----------

  /** A reply as a client reads it (RFC 1928, section 6): the code, the bound address and port, and what follows.
      Bound addresses of sixteen bytes are left out. */
  datatype Reply = Reply(code: byte, dest: Dest, port: uint16, rest: seq<byte>) | BadReply

  function ReadReply(input: seq<byte>): Reply {
    if |input| < 10 || input[0] != 5 || input[2] != 0 then BadReply
    else if input[3] == 1 then
      Reply(input[1], IPv4(input[4], input[5], input[6], input[7]), Word(input[8], input[9]), input[10..])
    else if input[3] == 3 && |input| >= 7 + input[4] as int then
      var past := input[5 + input[4] as int..];
      Reply(input[1], Domain(input[5..5 + input[4] as int]), Word(past[0], past[1]), past[2..])
    else BadReply
  }

  /** A client reads back the code, no address, and exactly the data behind the reply. */
  lemma ReplyRead(code: byte, data: seq<byte>)
    ensures ReadReply(Completion(code) + data) == Reply(code, IPv4(0, 0, 0, 0), 0, data)
  {
    assert (Completion(code) + data)[10..] == data;
  }
}
