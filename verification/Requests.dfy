/** A destination on its way from the client, through the guard and the tunnel's framing, to the exit. */
module Requests {
  import opened Segments
  import opened Sockets
  import opened Socks
  import GeoDB

  const DOT_LAN: Text := [46, 108, 97, 110]
  const DOT_LOCAL: Text := [46, 108, 111, 99, 97, 108]
  const COMMA: byte := 44
  const OPEN_BRACKET: byte := 91
  const CLOSE_BRACKET: byte := 93

  /** "dns:" */
  const DNS_PREFIX: Text := [100, 110, 115, 58]

  /** "binder.geph.io" */
  const BINDER: Text := [98, 105, 110, 100, 101, 114, 46, 103, 101, 112, 104, 46, 105, 111]

  // ---------- splitting host and port ----------

  function FirstIndex(s: Text, b: byte): (i: Option<nat>)
    ensures i == None ==> b !in s
    ensures i != None ==> i.value < |s| && s[i.value] == b && b !in s[..i.value]
  {
    if s == [] then None
    else if s[0] == b then Some(0)
    else
      match FirstIndex(s[1..], b)
      case None => None
      case Some(k) => Some(k + 1)
  }

  function LastIndex(s: Text, b: byte): (i: Option<nat>)
    ensures i == None ==> b !in s
    ensures i != None ==> i.value < |s| && s[i.value] == b && b !in s[i.value + 1..]
  {
    if s == [] then None
    else if s[|s| - 1] == b then Some(|s| - 1)
    else LastIndex(s[..|s| - 1], b)
  }

  lemma {:induction false} FirstAt(s: Text, b: byte, k: nat)
    requires k < |s| && s[k] == b && b !in s[..k]
    ensures FirstIndex(s, b) == Some(k)
  {
    if k > 0 {
      assert s[0] in s[..k] && s[1..][..k - 1] == s[..k][1..];
      FirstAt(s[1..], b, k - 1);
    }
  }

  lemma {:induction false} LastFrom(s: Text, b: byte, k: nat)
    requires k < |s| && s[k] == b
    ensures LastIndex(s, b) != None && LastIndex(s, b).value >= k
    ensures b !in s[k + 1..] ==> LastIndex(s, b) == Some(k)
  {
    if k < |s| - 1 {
      var front := s[..|s| - 1];
      assert s[k + 1..] == front[k + 1..] + [s[|s| - 1]];
      if s[|s| - 1] != b {
        LastFrom(front, b, k);
      }
    }
  }

  /** The host in front of the last colon, without brackets; nothing if the address is malformed. */
  function Host(addr: Text): Text {
    match LastIndex(addr, COLON)
    case None => []
    case Some(i) =>
      if addr[0] == OPEN_BRACKET then
        match FirstIndex(addr, CLOSE_BRACKET)
        case None => []
        case Some(end) =>
          if end + 1 != i || OPEN_BRACKET in addr[1..] || CLOSE_BRACKET in addr[end + 1..] then []
          else addr[1..end]
      else if COLON in addr[..i] || OPEN_BRACKET in addr || CLOSE_BRACKET in addr then []
      else addr[..i]
  }

  predicate Plain(host: Text) {
    COLON !in host && OPEN_BRACKET !in host && CLOSE_BRACKET !in host
  }

  /** What a request asked for is what the guard looks at. */
  lemma HostOfHostPort(host: Text, port: nat)
    requires Plain(host)
    ensures Host(HostPort(host, port)) == host
  {
    var addr := HostPort(host, port);
    var tail := Decimal(port);
    assert addr[|host|] == COLON && addr[|host| + 1..] == tail;
    LastFrom(addr, COLON, |host|);
    assert addr[..|host|] == host;
    assert forall b | b in addr :: b in host || b == COLON || b in tail;
  }

  function Bracketed(host: Text, tail: Text): Text {
    [OPEN_BRACKET] + host + [CLOSE_BRACKET] + [COLON] + tail
  }

  lemma BracketedParts(host: Text, tail: Text)
    ensures var addr, end := Bracketed(host, tail), |host| + 1;
      && addr[end] == CLOSE_BRACKET && addr[end + 1] == COLON && addr[end + 2..] == tail
      && addr[..end] == [OPEN_BRACKET] + host && addr[1..end] == host && addr[end + 1..] == [COLON] + tail
      && addr[1..] == host + ([CLOSE_BRACKET] + [COLON] + tail)
  {
  }

  lemma {:induction false} BracketedPlaces(host: Text, tail: Text)
    requires OPEN_BRACKET !in host && CLOSE_BRACKET !in host && COLON !in tail
    ensures LastIndex(Bracketed(host, tail), COLON) == Some(|host| + 2)
    ensures FirstIndex(Bracketed(host, tail), CLOSE_BRACKET) == Some(|host| + 1)
  {
    BracketedParts(host, tail);
    LastFrom(Bracketed(host, tail), COLON, |host| + 2);
    FirstAt(Bracketed(host, tail), CLOSE_BRACKET, |host| + 1);
  }

  lemma {:induction false} HostIn(addr: Text, end: nat)
    requires addr != [] && addr[0] == OPEN_BRACKET && LastIndex(addr, COLON) == Some(end + 1)
    requires FirstIndex(addr, CLOSE_BRACKET) == Some(end) && end > 0
    requires OPEN_BRACKET !in addr[1..] && CLOSE_BRACKET !in addr[end + 1..]
    ensures Host(addr) == addr[1..end]
  {
  }

  /** The same for an address in brackets, which may hold colons. */
  lemma {:induction false} HostOfBracketed(host: Text, port: nat)
    requires OPEN_BRACKET !in host && CLOSE_BRACKET !in host
    ensures Host(Bracketed(host, Decimal(port))) == host
  {
    var tail := Decimal(port);
    BracketedParts(host, tail);
    BracketedPlaces(host, tail);
    assert OPEN_BRACKET !in host + ([CLOSE_BRACKET] + [COLON] + tail);
    HostIn(Bracketed(host, tail), |host| + 1);
  }

  /** And these are the only addresses with a host. */
  lemma OnlyHosts(addr: Text)
    requires Host(addr) != []
    ensures var host := Host(addr);
      && OPEN_BRACKET !in host && CLOSE_BRACKET !in host
      && exists tail: Text :: COLON !in tail &&
           (addr == Bracketed(host, tail) ||
            (COLON !in host && addr == host + [COLON] + tail))
  {
    var i, host := LastIndex(addr, COLON).value, Host(addr);
    var tail := addr[i + 1..];
    if addr[0] == OPEN_BRACKET {
      assert addr == Bracketed(host, tail);
    } else {
      assert addr == host + [COLON] + tail;
    }
  }

  // ---------- the guard ----------

  /** 127.0.0.0/8, 10.0.0.0/8, 172.16.0.0/12 and 192.168.0.0/16: the first address and the number of them. */
  const LOCAL_NETWORKS: seq<(nat, nat)> := [
    (0x7f00_0000, 0x100_0000), (0x0a00_0000, 0x100_0000), (0xac10_0000, 0x10_0000), (0xc0a8_0000, 0x1_0000)]

  /** Local addresses as they are usually written down. */
  predicate Local(a: byte, b: byte) {
    a == 127 || a == 10 || (a == 172 && 16 <= b < 32) || (a == 192 && b == 168)
  }

  /** An address as ParseIP or a resolver gives it. */
  datatype IP = V4(a: byte, b: byte, c: byte, d: byte) | V6(bytes: seq<byte>)

  function Number(ip: IP): nat
    requires ip.V4?
  {
    ((ip.a as int * 256 + ip.b as int) * 256 + ip.c as int) * 256 + ip.d as int
  }

  /** Whether a number lies in one of the local networks. */
  predicate InNetworks(n: nat) {
    exists k | 0 <= k < |LOCAL_NETWORKS| :: LOCAL_NETWORKS[k].0 <= n < LOCAL_NETWORKS[k].0 + LOCAL_NETWORKS[k].1
  }

  lemma LocalNetworks(a: byte, b: byte, c: byte, d: byte)
    ensures InNetworks(Number(V4(a, b, c, d))) <==> Local(a, b)
  {
    assert LOCAL_NETWORKS[0] == (0x7f00_0000, 0x100_0000) && LOCAL_NETWORKS[1] == (0x0a00_0000, 0x100_0000);
    assert LOCAL_NETWORKS[2] == (0xac10_0000, 0x10_0000) && LOCAL_NETWORKS[3] == (0xc0a8_0000, 0x1_0000);
  }

  /** The loop over the local networks. */
  method IsBlack(ip: IP) returns (black: bool)
    ensures black <==> ip.V4? && Local(ip.a, ip.b)
  {
    var i := 0;
    while i < |LOCAL_NETWORKS|
      invariant i <= |LOCAL_NETWORKS|
      invariant ip.V4? ==> forall k | 0 <= k < i ::
        !(LOCAL_NETWORKS[k].0 <= Number(ip) < LOCAL_NETWORKS[k].0 + LOCAL_NETWORKS[k].1)
    {
      var (base, size) := LOCAL_NETWORKS[i];
      if ip.V4? {
        LocalNetworks(ip.a, ip.b, ip.c, ip.d);
        if base <= Number(ip) < base + size {
          return true;
        }
      }
      i := i + 1;
    }
    if ip.V4? {
      LocalNetworks(ip.a, ip.b, ip.c, ip.d);
    }
    return false;
  }

  predicate EndsWith(s: Text, end: Text) {
    |end| <= |s| && s[|s| - |end|..] == end
  }

  /** The names the guard keeps out of the tunnel. */
  predicate LocalName(host: Text) {
    host != BINDER && (DOT !in host || EndsWith(host, DOT_LAN) || EndsWith(host, DOT_LOCAL))
  }

  /** Whether an address goes through the tunnel. `ip` is the host as an address, if it is one, and `country`
      where a loaded database puts it. Every other host name goes through, whatever its country. */
  predicate Tunnelled(addr: Text, ip: Option<IP>, country: Option<string>, whitegeo: seq<string>) {
    Host(addr) == BINDER ||
    (!LocalName(Host(addr)) &&
     match ip
     case None => true
     case Some(a) =>
       && !(a.V4? && Local(a.a, a.b))
       && !(country.Some? && country.value in whitegeo))
  }

  /** An address in the sixteen bytes that ParseIP gives. */
  function IPBytes(ip: IP): seq<byte> {
    match ip case V4(a, b, c, d) => GeoDB.Mapped([a, b, c, d]) case V6(bytes) => bytes
  }

  /** The number that is searched for is the one that tells the local networks. */
  lemma NumberIsSearched(a: byte, b: byte, c: byte, d: byte)
    ensures GeoDB.Address(IPBytes(V4(a, b, c, d))) == Some(Number(V4(a, b, c, d)))
  {
    GeoDB.AddressIs([a, b, c, d], GeoDB.Mapped([]));
  }

  /** Where a database that is not empty puts an address. */
  function Country(t: seq<GeoDB.Entry>, ip: Option<IP>): Option<string>
    requires ip.Some? && ip.value.V6? ==> |ip.value.bytes| == 16
  {
    if ip == None || t == [] then None
    else Some(GeoDB.Search(t, GeoDB.Address(IPBytes(ip.value)).value, 0, |t|).0)
  }

  /** The loop over the listed countries. */
  method Listed(country: string, whitegeo: seq<string>) returns (listed: bool)
    ensures listed <==> country in whitegeo
  {
    var i := 0;
    while i < |whitegeo|
      invariant i <= |whitegeo| && country !in whitegeo[..i]
    {
      if country == whitegeo[i] {
        return true;
      }
      i := i + 1;
    }
    assert whitegeo[..i] == whitegeo;
    return false;
  }

  /** None stands for the panic of a search in an empty database, which only an address that is neither a name nor
      local comes to. */
  method FilterDest(addr: Text, ip: Option<IP>, geodb: GeoDB.Database?, whitegeo: seq<string>)
    returns (tunnel: Option<bool>)
    requires ip.Some? && ip.value.V6? ==> |ip.value.bytes| == 16
    ensures tunnel == None <==>
      && geodb != null && geodb.slice == [] && ip.Some? && Tunnelled(addr, ip, None, [])
      && Host(addr) != BINDER
    ensures tunnel.Some? ==>
      tunnel.value == Tunnelled(addr, ip, if geodb == null then None else Country(geodb.slice, ip), whitegeo)
  {
    var host := Host(addr);
    if host == BINDER {
      return Some(true);
    }
    if DOT !in host || EndsWith(host, DOT_LAN) || EndsWith(host, DOT_LOCAL) {
      return Some(false);
    }
    if ip == None {
      return Some(true);
    }
    var black := IsBlack(ip.value);
    if black {
      return Some(false);
    }
    if geodb != null {
      var country, looks := geodb.GetCountry(IPBytes(ip.value));
      if country == None {
        return None;
      }
      var listed := Listed(country.value, whitegeo);
      return Some(!listed);
    }
    return Some(true);
  }

  /** A host without a dot never goes through. */
  lemma UndottedStays(addr: Text, ip: Option<IP>, country: Option<string>, whitegeo: seq<string>)
    requires DOT !in Host(addr)
    ensures !Tunnelled(addr, ip, country, whitegeo)
  {
    assert BINDER[6] == DOT;
  }

  /** A host name goes through if and only if it has a dot and does not end in ".lan" or ".local". */
  lemma NameDecides(name: Text, port: nat, country: Option<string>, whitegeo: seq<string>)
    requires Plain(name)
    ensures Tunnelled(HostPort(name, port), None, country, whitegeo) <==>
      && 46 in name
      && !(|name| >= 4 && name[|name| - 4..] == [46, 108, 97, 110])
      && !(|name| >= 6 && name[|name| - 6..] == [46, 108, 111, 99, 97, 108])
  {
    HostOfHostPort(name, port);
    assert BINDER[6] == DOT && BINDER[13] == 111;
    assert name == BINDER ==> name[|name| - 4..][3] == 111 && name[|name| - 6..][5] == 111;
  }

  lemma NotEnding(s: Text, end: Text)
    requires end != [] && end[|end| - 1] !in s
    ensures !EndsWith(s, end)
  {
    if |end| <= |s| {
      assert s[|s| - |end|..][|end| - 1] == s[|s| - 1];
    }
  }

  lemma DigitsAndDots(host: Text)
    requires forall x | x in host :: x == DOT || 48 <= x <= 57
    ensures Plain(host) && host != BINDER && !EndsWith(host, DOT_LAN) && !EndsWith(host, DOT_LOCAL)
  {
    assert BINDER[0] in BINDER;
    NotEnding(host, DOT_LAN);
    NotEnding(host, DOT_LOCAL);
  }

  lemma DottedIsPlain(a: byte, b: byte, c: byte, d: byte)
    ensures DOT in Dotted(a, b, c, d)
    ensures forall x | x in Dotted(a, b, c, d) :: x == DOT || 48 <= x <= 57
  {
    assert Dotted(a, b, c, d)[|Decimal(a)|] == DOT;
  }

  /** A host that is an address, and is written with a dot, goes through if and only if it is not an IPv4 address
      whose number lies in a local network, and is in no listed country. */
  lemma IPDecides(addr: Text, ip: IP, country: Option<string>, whitegeo: seq<string>)
    requires var host := Host(addr);
      46 in host && host != BINDER && !EndsWith(host, DOT_LAN) && !EndsWith(host, DOT_LOCAL)
    ensures Tunnelled(addr, Some(ip), country, whitegeo) <==>
      (ip.V4? ==> !InNetworks(Number(ip))) && (country.Some? ==> country.value !in whitegeo)
  {
    if ip.V4? {
      LocalNetworks(ip.a, ip.b, ip.c, ip.d);
    }
  }

  /** A dotted address goes through if and only if its number lies in no local network and it is in no listed
      country. */
  lemma AddressDecides(a: byte, b: byte, c: byte, d: byte, port: nat, country: Option<string>, whitegeo: seq<string>)
    ensures Tunnelled(HostPort(Dotted(a, b, c, d), port), Some(V4(a, b, c, d)), country, whitegeo) <==>
      !InNetworks(Number(V4(a, b, c, d))) && (country.Some? ==> country.value !in whitegeo)
  {
    DottedIsPlain(a, b, c, d);
    DigitsAndDots(Dotted(a, b, c, d));
    HostOfHostPort(Dotted(a, b, c, d), port);
    IPDecides(HostPort(Dotted(a, b, c, d), port), V4(a, b, c, d), country, whitegeo);
  }

  /** An address that starts as a lookup does never goes through the tunnel. */
  lemma GuardKeepsKindsApart(addr: Text, ip: Option<IP>, country: Option<string>, whitegeo: seq<string>)
    ensures DNS_PREFIX <= addr ==> !Tunnelled(addr, ip, country, whitegeo)
  {
    if DNS_PREFIX <= addr {
      assert addr[0] == 100 && addr[3] == COLON;
      LastFrom(addr, COLON, 3);
      var i := LastIndex(addr, COLON).value;
      if i == 3 {
        assert addr[..3] == [100, 110, 115];
      } else {
        assert addr[..i][3] == COLON;
      }
      assert Host(addr) == [] || Host(addr) == [100, 110, 115];
      assert BINDER[0] == 98 && DOT !in Host(addr);
    }
  }

  // ---------- the framing ----------

  /** A length in one byte, wrapped if it does not fit, and the text. */
  function Frame(text: Text): seq<byte> {
    [|text| % 256] + text
  }

  /** A framed text and what follows it. */
  function Unframe(stream: seq<byte>): Option<(Text, seq<byte>)> {
    if |stream| < 1 || |stream| - 1 < stream[0] as int then None
    else Some((stream[1..][..stream[0]], stream[1..][stream[0]..]))
  }

  /** A text comes out whole, and the data behind it is left alone, if and only if it has at most 255 bytes; a
      longer one is cut and the rest of it is taken for data. */
  lemma FrameRoundTrip(text: Text, data: seq<byte>)
    ensures Unframe(Frame(text) + data) == Some((text[..|text| % 256], text[|text| % 256..] + data))
    ensures Unframe(Frame(text) + data) == Some((text, data)) <==> |text| < 256
  {
    var stream, n := Frame(text) + data, |text| % 256;
    assert stream[1..] == text + data;
    assert stream[1..][..n] == text[..n];
    assert stream[1..][n..] == text[n..] + data;
    if |text| < 256 {
      assert text[..n] == text && text[n..] + data == data;
    }
  }

  /** What the exit takes a framed text for. */
  datatype Kind = Lookup(name: Text) | Connect(dest: Text)

  function Classify(text: Text): Kind {
    if |text| > 4 && text[..4] == DNS_PREFIX then Lookup(text[4..]) else Connect(text)
  }

  /** What the exit makes of a stream: the request, and the data that will be forwarded. */
  function Understood(stream: seq<byte>): Option<(Kind, seq<byte>)> {
    match Unframe(stream)
    case None => None
    case Some((text, data)) => Some((Classify(text), data))
  }

  /** An address the guard lets through is never taken for a lookup, not even when it is cut; and it is understood
      as it was meant if and only if it has at most 255 bytes. */
  lemma DestinationsAreUnderstood(addr: Text, ip: Option<IP>, country: Option<string>, whitegeo: seq<string>,
                                  data: seq<byte>)
    requires Tunnelled(addr, ip, country, whitegeo)
    ensures var u := Understood(Frame(addr) + data);
      && u != None && u.value.0.Connect?
      && (u == Some((Connect(addr), data)) <==> |addr| < 256)
  {
    FrameRoundTrip(addr, data);
    var cut := addr[..|addr| % 256];
    assert Classify(cut).Lookup? ==> DNS_PREFIX <= addr by {
      if Classify(cut).Lookup? {
        assert addr[..4] == cut[..4];
      }
    }
    GuardKeepsKindsApart(addr, ip, country, whitegeo);
  }

  /** The exit looks up the name that was meant if and only if it has 1 to 251 bytes. */
  lemma LookupsAreUnderstood(name: Text, data: seq<byte>)
    ensures Understood(Frame(DNS_PREFIX + name) + data) == Some((Lookup(name), data)) <==> 1 <= |name| <= 251
  {
    var text := DNS_PREFIX + name;
    FrameRoundTrip(text, data);
    assert text[4..] == name && text[..4] == DNS_PREFIX;
    if |name| > 251 {
      var cut := text[..|text| % 256];
      assert |cut| < |text|;
    }
  }

  lemma {:induction false} DecimalLength(n: nat)
    ensures n < 10 ==> |Decimal(n)| <= 1
    ensures n < 100 ==> |Decimal(n)| <= 2
    ensures n < 1000 ==> |Decimal(n)| <= 3
    ensures n < 10000 ==> |Decimal(n)| <= 4
    ensures n < 100000 ==> |Decimal(n)| <= 5
  {
    if n >= 10 {
      DecimalLength(n / 10);
    }
  }

  lemma TextIsShort(q: Request)
    requires Small(q)
    ensures |TextOf(q)| < 256
  {
    DecimalLength(q.port);
    if q.dest.IPv4? {
      DecimalLength(q.dest.a);
      DecimalLength(q.dest.b);
      DecimalLength(q.dest.c);
      DecimalLength(q.dest.d);
    }
  }

  /** The guard is what keeps the kinds apart: without it a SOCKS client could have the exit take a domain for
      a lookup. */
  lemma GuardIsNeeded(port: uint16, more: seq<byte>)
    ensures var q := Request([0], 5, 1, 0, Domain(DNS_PREFIX + [97]), port);
      && Parse(Bytes(q) + more, true).reading == Asked(TextOf(q))
      && Unframe(Frame(TextOf(q)) + more) == Some((TextOf(q), more)) && Classify(TextOf(q)).Lookup?
  {
    var q := Request([0], 5, 1, 0, Domain(DNS_PREFIX + [97]), port);
    RoundTrip(q, more, true);
    DecimalLength(port);
    FrameRoundTrip(TextOf(q), more);
  }

  // ---------- the exit ----------

  /** Where a connection goes. */
  datatype Address = Address(ip: IP, port: nat)

  /** What the exit's resolver knows, of names and of host and port together, and which addresses answer. */
  datatype Network =
    Network(hosts: map<Text, seq<Text>>, addresses: map<Text, Address>, listening: set<Address>)

  function Join(addrs: seq<Text>): Text {
    if addrs == [] then [] else if |addrs| == 1 then addrs[0] else addrs[0] + [COMMA] + Join(addrs[1..])
  }

  /** The answer to a request: what is written back, and where the exit connects, if it does. */
  function Answer(k: Kind, doAck: bool, net: Network): (seq<byte>, Option<Address>) {
    match k
    case Lookup(name) =>
      if name !in net.hosts then ([], None)
      else
        var addrs := net.hosts[name];
        (Frame(Join(if |addrs| > 3 then addrs[..3] else addrs)), None)
    case Connect(dest) =>
      if dest !in net.addresses then (if doAck then [4] else [], None)
      else
        var addr := net.addresses[dest];
        if addr.ip.V4? && Local(addr.ip.a, addr.ip.b) then (if doAck then [2] else [], None)
        else if addr !in net.listening then (if doAck then [5] else [], None)
        else (if doAck then [0] else [], Some(addr))
  }

  /** Whether a text resolves to an address in one of the local networks. */
  predicate Blocked(dest: Text, net: Network) {
    dest in net.addresses && net.addresses[dest].ip.V4? && InNetworks(Number(net.addresses[dest].ip))
  }

  /** Whether a connection to `dest` can be had: it resolves, and to an address that listens and is not local. */
  predicate Reachable(dest: Text, net: Network) {
    dest in net.addresses && !Blocked(dest, net) && net.addresses[dest] in net.listening
  }

  /** The exit's answer to an address is one byte that tells the cause, and it connects only where it says 0. */
  lemma ConnectCodes(dest: Text, net: Network)
    ensures var (answer, remote) := Answer(Connect(dest), true, net);
      && |answer| == 1 && answer[0] in {0, 2, 4, 5}
      && (answer[0] == 4 <==> dest !in net.addresses)
      && (answer[0] == 2 <==> Blocked(dest, net))
      && (answer[0] == 5 <==> dest in net.addresses && !Blocked(dest, net) && net.addresses[dest] !in net.listening)
      && (answer[0] == 0 <==> Reachable(dest, net))
      && remote == if Reachable(dest, net) then Some(net.addresses[dest]) else None
    ensures Answer(Connect(dest), false, net) == ([], Answer(Connect(dest), true, net).1)
  {
    if dest in net.addresses && net.addresses[dest].ip.V4? {
      var ip := net.addresses[dest].ip;
      LocalNetworks(ip.a, ip.b, ip.c, ip.d);
    }
  }

  /** An address the guard let through, and that resolves to itself, is never refused for being local. */
  lemma GuardedIsNotBlocked(a: byte, b: byte, c: byte, d: byte, port: nat, country: Option<string>,
                            whitegeo: seq<string>, net: Network)
    requires var dest := HostPort(Dotted(a, b, c, d), port);
      && Tunnelled(dest, Some(V4(a, b, c, d)), country, whitegeo)
      && (dest in net.addresses ==> net.addresses[dest] == Address(V4(a, b, c, d), port))
    ensures Answer(Connect(HostPort(Dotted(a, b, c, d), port)), true, net).0 != [2]
  {
    AddressDecides(a, b, c, d, port, country, whitegeo);
    ConnectCodes(HostPort(Dotted(a, b, c, d), port), net);
  }

  /** A text taken apart at the commas. */
  function Split(s: Text): seq<Text>
    decreases |s|
  {
    match FirstIndex(s, COMMA) case None => [s] case Some(i) => [s[..i]] + Split(s[i + 1..])
  }

  lemma {:induction false} SplitJoin(addrs: seq<Text>)
    requires addrs != [] && forall i | 0 <= i < |addrs| :: COMMA !in addrs[i]
    ensures Split(Join(addrs)) == addrs
    decreases |addrs|
  {
    var first, s := addrs[0], Join(addrs);
    if |addrs| > 1 {
      var rest := Join(addrs[1..]);
      assert s == first + [COMMA] + rest;
      assert s[..|first|] == first && s[|first| + 1..] == rest;
      FirstAt(s, COMMA, |first|);
      SplitJoin(addrs[1..]);
    }
  }

  /** The answer to a lookup lists the first three addresses found, in order, if it is short enough to be framed; and
      there is none if none was found. */
  lemma LookupAnswers(name: Text, net: Network, more: seq<byte>)
    requires name in net.hosts ==> net.hosts[name] != [] && forall i | 0 <= i < |net.hosts[name]| ::
      COMMA !in net.hosts[name][i]
    ensures name !in net.hosts ==> Answer(Lookup(name), true, net) == ([], None)
    ensures name in net.hosts ==>
      var found := net.hosts[name];
      var sent := if |found| <= 3 then found else [found[0], found[1], found[2]];
      && Answer(Lookup(name), true, net).1 == None
      && (|Join(sent)| < 256 ==>
            var got := Unframe(Answer(Lookup(name), true, net).0 + more);
            got.Some? && Split(got.value.0) == sent && got.value.1 == more)
  {
    if name in net.hosts {
      var found := net.hosts[name];
      var sent := if |found| <= 3 then found else [found[0], found[1], found[2]];
      assert |found| > 3 ==> found[..3] == sent;
      SplitJoin(sent);
      FrameRoundTrip(Join(sent), more);
    }
  }

  /** The first part of proxyCommon, up to forwarding. A write to a client that is gone is lost, and that is all. */
  method Serve(clnt: Conn, doAck: bool, net: Network) returns (remote: Option<Address>)
    modifies clnt`input, clnt`output
    ensures match Understood(old(clnt.input))
      case None =>
        && remote == None
        && clnt.output == old(clnt.output) + if clnt.writable && doAck && old(clnt.input) != [] then [1] else []
      case Some((kind, data)) =>
        var (answer, addr) := Answer(kind, doAck, net);
        && clnt.output == old(clnt.output) + (if clnt.writable then answer else [])
        && remote == addr && clnt.input == data
  {
    remote := None;
    assert clnt.output + [] == clnt.output;
    var lb := new byte[1](_ => 0);
    var ok := clnt.ReadFull(lb, 1);
    if !ok {
      return;
    }
    var n := lb[0] as int;
    var addrbts := new byte[n](_ => 0);
    ghost var past := clnt.input;
    ok := clnt.ReadFull(addrbts, n);
    if !ok {
      if doAck {
        ok := clnt.Write([1]);
      }
      return;
    }
    assert addrbts[..] == past[..n];
    if n > 4 && addrbts[..4] == DNS_PREFIX {
      var name := addrbts[4..];
      assert addrbts[..][..4] == addrbts[..4] && addrbts[..][4..] == name;
      if name in net.hosts {
        var addrs := net.hosts[name];
        if |addrs| > 3 {
          addrs := addrs[..3];
        }
        var towr := Join(addrs);
        ok := clnt.Write([|towr| % 256] + towr);
      }
      return;
    }
    assert n > 4 ==> addrbts[..][..4] == addrbts[..4];
    var dest := addrbts[..];
    if dest !in net.addresses {
      if doAck {
        ok := clnt.Write([4]);
      }
      return;
    }
    var addr := net.addresses[dest];
    var black := IsBlack(addr.ip);
    if black {
      if doAck {
        ok := clnt.Write([2]);
      }
      return;
    }
    if addr !in net.listening {
      if doAck {
        ok := clnt.Write([5]);
      }
      return;
    }
    if doAck {
      ok := clnt.Write([0]);
    }
    return Some(addr);
  }

  // ---------- the client's side of both requests ----------

  /** The first piece of a text between commas. */
  function FirstPiece(s: Text): Text {
    match FirstIndex(s, COMMA) case None => s case Some(i) => s[..i]
  }

  /** Asks for a connection and waits for the code; 3 stands for no answer, which also kills the context. A
      connection that was refused is closed. */
  method DialTunRaw(conn: Conn, dest: Text) returns (code: byte, kill: bool)
    modifies conn`input, conn`output, conn`closed
    ensures conn.output == if conn.writable then old(conn.output) + Frame(dest) else old(conn.output)
    ensures code == if old(conn.input) == [] then 3 else old(conn.input)[0]
    ensures conn.input == if old(conn.input) == [] then [] else old(conn.input)[1..]
    ensures kill <==> old(conn.input) == []
    ensures conn.closed <==> old(conn.closed) || code != 0
  {
    var ok := conn.Write([|dest| % 256] + dest);
    var b := new byte[1](_ => 0);
    ok := conn.ReadFull(b, 1);
    if !ok {
      conn.Close();
      return 3, true;
    }
    code := b[0];
    if code != 0 {
      conn.Close();
    }
    return code, false;
  }

  /** Asks for a name and takes the first address of the answer. Without one the connection is closed. */
  method ResolveName(conn: Conn, name: Text) returns (ip: Option<Text>)
    modifies conn`input, conn`output, conn`closed
    ensures conn.output == if conn.writable then old(conn.output) + Frame(DNS_PREFIX + name) else old(conn.output)
    ensures match Unframe(old(conn.input))
      case None => ip == None
      case Some((text, rest)) => ip == Some(FirstPiece(text)) && conn.input == rest
    ensures conn.closed <==> old(conn.closed) || ip == None
  {
    var ok := conn.Write([(|name| + 4) % 256] + (DNS_PREFIX + name));
    var blen := new byte[1](_ => 0);
    ok := conn.ReadFull(blen, 1);
    if !ok {
      conn.Close();
      return None;
    }
    var n := blen[0] as int;
    var stuff := new byte[n](_ => 0);
    ghost var past := conn.input;
    ok := conn.ReadFull(stuff, n);
    if !ok {
      conn.Close();
      return None;
    }
    assert stuff[..] == past[..n];
    return Some(FirstPiece(stuff[..]));
  }

  /** What a SOCKS client's stream leads to: the bytes the client sees before any data, where the exit connects,
      and the data that follows. */
  function Exchange(stream: seq<byte>, net: Network): Option<(seq<byte>, Option<Address>, seq<byte>)> {
    var p := Parse(stream, true);
    if !p.reading.Asked? then None
    else
      match Understood(Frame(p.reading.dest) + p.rest)
      case None => None
      case Some((kind, data)) =>
        var (answer, remote) := Answer(kind, true, net);
        Some(([5, 0] + Completion(if answer == [] then 3 else answer[0]), remote, data))
  }

  /** A code tells what became of an address: connected, local, not resolved, or not listening. */
  predicate Tells(code: byte, addr: Text, net: Network) {
    && (code == 0 <==> Reachable(addr, net)) && (code == 2 <==> Blocked(addr, net))
    && (code == 4 <==> addr !in net.addresses)
    && (code == 5 <==> addr in net.addresses && !Blocked(addr, net) && net.addresses[addr] !in net.listening)
  }

  /** The one-byte answer to an address the client may send tells what became of this very address, and it is 0 if and
      only if the exit is now connected to where its resolver puts it. */
  lemma CodeTellsOutcome(addr: Text, ip: Option<IP>, country: Option<string>, whitegeo: seq<string>,
                         data: seq<byte>, net: Network)
    requires Tunnelled(addr, ip, country, whitegeo) && |addr| < 256
    ensures Understood(Frame(addr) + data) != None
    ensures var (kind, following) := Understood(Frame(addr) + data).value;
      var (answer, remote) := Answer(kind, true, net);
      && following == data && |answer| == 1 && Tells(answer[0], addr, net)
      && remote == if Reachable(addr, net) then Some(net.addresses[addr]) else None
  {
    DestinationsAreUnderstood(addr, ip, country, whitegeo, data);
    ConnectCodes(addr, net);
  }

  /** The client sees what became of `text`, the exit is connected to where it leads if that can be had, and `more`
      follows. */
  ghost predicate Served(stream: seq<byte>, text: Text, more: seq<byte>, net: Network) {
    match Exchange(stream, net)
    case None => false
    case Some((seen, remote, data)) =>
      && data == more && |seen| == 12 && seen[..2] == [5, 0]
      && var reply := ReadReply(seen[2..]);
      && reply.Reply? && reply.rest == [] && Tells(reply.code, text, net)
      && remote == if Reachable(text, net) then Some(net.addresses[text]) else None
  }

  lemma SeenBytes(code: byte)
    ensures var seen := [5, 0] + Completion(code);
      && |seen| == 12 && seen[..2] == [5, 0]
      && ReadReply(seen[2..]) == Reply(code, IPv4(0, 0, 0, 0), 0, [])
  {
    var seen := [5, 0] + Completion(code);
    assert seen[2..] == Completion(code) + [];
    ReplyRead(code, []);
  }

  lemma AskedIsServed(stream: seq<byte>, text: Text, more: seq<byte>, ip: Option<IP>, country: Option<string>,
                      whitegeo: seq<string>, net: Network)
    requires Parse(stream, true) == Parsed(Asked(text), more, true)
    requires Tunnelled(text, ip, country, whitegeo) && |text| < 256
    ensures Served(stream, text, more, net)
  {
    CodeTellsOutcome(text, ip, country, whitegeo, more, net);
    SeenBytes(Answer(Understood(Frame(text) + more).value.0, true, net).0[0]);
  }

  /** From the SOCKS client to the far side: a request that fits the scratch array, and that the guard lets through,
      is connected where it asked if that can be had, and nowhere otherwise; the client sees the greeting answered
      and then success or failure accordingly; and what it sends next follows the request. */
  lemma RequestReachesExit(q: Request, more: seq<byte>, ip: Option<IP>, country: Option<string>, whitegeo: seq<string>,
                           net: Network)
    requires Writable(q) && Small(q) && Tunnelled(TextOf(q), ip, country, whitegeo)
    ensures Served(Bytes(q) + more, TextOf(q), more, net)
  {
    RoundTrip(q, more, true);
    TextIsShort(q);
    AskedIsServed(Bytes(q) + more, TextOf(q), more, ip, country, whitegeo, net);
  }

  lemma {:induction false} JoinStarts(addrs: seq<Text>)
    requires addrs != []
    ensures addrs[0] <= Join(addrs)
    ensures |addrs| > 1 ==> |Join(addrs)| > |addrs[0]| && Join(addrs)[|addrs[0]|] == 44
    ensures |addrs| == 1 ==> Join(addrs) == addrs[0]
  {
  }

  /** A cut text has the same first piece if and only if the cut leaves that piece whole. */
  lemma FirstPieceOfCut(first: Text, s: Text, n: nat)
    requires first <= s && COMMA !in first && (|first| < |s| ==> s[|first|] == COMMA) && n <= |s|
    ensures FirstPiece(s[..n]) == first <==> |first| <= n
  {
    var cut := s[..n];
    if |first| < n {
      assert cut[..|first|] == first;
      FirstAt(cut, COMMA, |first|);
    } else if |first| == n {
      assert cut == first;
    }
  }

  /** The client takes from the answer the first address the exit found, if and only if the answer's wrapped length
      still covers it: an answer of up to 255 bytes always does. */
  lemma FirstAddressArrives(name: Text, net: Network, more: seq<byte>)
    requires name in net.hosts && net.hosts[name] != [] && COMMA !in net.hosts[name][0]
    ensures var (answer, _) := Answer(Lookup(name), true, net);
      var got := Unframe(answer + more);
      && got != None
      && (FirstPiece(got.value.0) == net.hosts[name][0] <==> |net.hosts[name][0]| <= (|answer| - 1) % 256)
  {
    var addrs := net.hosts[name];
    var sent := if |addrs| > 3 then addrs[..3] else addrs;
    var towr := Join(sent);
    JoinStarts(sent);
    FrameRoundTrip(towr, more);
    FirstPieceOfCut(addrs[0], towr, |towr| % 256);
  }
}
