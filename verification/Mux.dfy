/** Two endpoints, any number of wires between them, any number of sockets over the wires, and every
    interleaving of their atomic steps. One wire is niaucchi3; several wires with one shared table are
    niaucchi2. */
module Mux {
  import opened Segments
  import opened Padding
  import opened Sockets
  import opened Endpoints
  import opened Routing
  import Links

  datatype Side = Client | Server

  datatype World = World(
    client: Endpoint,
    server: Endpoint,
    c2s: seq<seq<Packet>>,    // by wire, oldest packet first
    s2c: seq<seq<Packet>>,
    next: nat,                // the name of the next socket pair
    ccfg: Config,
    scfg: Config
  )

  datatype Action =
    | Tunnel(id: uint16, wire: nat)          // the client picks an ID and a wire
    | SendOpen(k: nat)
    | Local(side: Side, k: nat, act: Act)
    | Deliver(to: Side, wire: nat)
    | KeepAlive(from: Side, wire: nat)
    | Accept                                 // the server's application takes a socket

  /** `n` wires, and a server that takes OPENs. */
  function Init(n: nat, ccfg: Config, scfg: Config): World {
    World(Endpoint(map[], map[], [], None), Endpoint(map[], map[], [], None),
          seq(n, _ => []), seq(n, _ => []), 0, ccfg, scfg)
  }

  // ---------- steps ----------

  const ALIVE: Packet := Packet(AlivSegment(0), 0)

  predicate Named(pipes: seq<seq<Packet>>, next: nat) {
    forall i, j | 0 <= i < |pipes| && 0 <= j < |pipes[i]| :: pipes[i][j] == ALIVE || pipes[i][j].inc < next
  }

  ghost predicate Sane(w: World) {
    && WellFormed(w.client) && WellFormed(w.server) && |w.c2s| == |w.s2c|
    && (forall k | k in w.client.socks :: k < w.next && w.client.socks[k].wire < |w.c2s|)
    && (forall k | k in w.server.socks :: k < w.next && w.server.socks[k].wire < |w.s2c|)
    && Named(w.c2s, w.next) && Named(w.s2c, w.next)
  }

  /** While a server socket waits to be accepted nobody holds it; all that can reach it is a death. */
  ghost predicate Enabled(w: World, a: Action)
    requires Sane(w)
  {
    match a
    case Tunnel(id, wire) => id !in w.client.table && wire < |w.c2s|
    case SendOpen(k) => k in w.client.socks && !w.client.socks[k].x.announced
    case Local(Client, k, act) => k in w.client.socks && Can(w.client.socks[k], act)
    case Local(Server, k, act) =>
      k in w.server.socks && Can(w.server.socks[k], act) && (act.Die? || k !in w.server.backlog)
    case Deliver(Client, wire) => wire < |w.s2c| && w.s2c[wire] != [] && w.client.killed == None
    case Deliver(Server, wire) => wire < |w.c2s| && w.c2s[wire] != [] && w.server.killed == None
    case KeepAlive(_, wire) => wire < |w.c2s|
    case Accept => w.server.backlog != []
  }

  /** An OPEN that is delivered names a socket its receiver has not made yet. */
  ghost predicate Fresh(w: World, a: Action)
    requires Sane(w) && Enabled(w, a)
  {
    match a
    case Deliver(Client, wire) => w.s2c[wire][0].seg.flag == FL_OPEN ==> w.s2c[wire][0].inc !in w.client.socks
    case Deliver(Server, wire) => w.c2s[wire][0].seg.flag == FL_OPEN ==> w.c2s[wire][0].inc !in w.server.socks
    case _ => true
  }

  function SetSock(e: Endpoint, k: nat, eff: Effect): Endpoint {
    var e1 := e.(socks := e.socks[k := eff.sock]);
    if eff.garbage then Fail(e1, Garbage) else e1
  }

  function Push(pipes: seq<seq<Packet>>, wire: nat, ps: seq<Packet>): seq<seq<Packet>>
    requires wire < |pipes|
  {
    pipes[wire := pipes[wire] + ps]
  }

  ghost function Next(w: World, a: Action): World
    requires Sane(w) && Enabled(w, a)
  {
    match a
    case Tunnel(id, wire) =>
      w.(client := Register(w.client, id, wire, w.next, false), next := w.next + 1)
    case SendOpen(k) =>
      var eff := Announce(w.client.socks[k]);
      w.(client := SetSock(w.client, k, eff), c2s := Push(w.c2s, eff.sock.wire, Tag(eff.out, k)))
    case Local(Client, k, act) =>
      var eff := Do(w.client.socks[k], act);
      w.(client := SetSock(w.client, k, eff), c2s := Push(w.c2s, w.client.socks[k].wire, Tag(eff.out, k)))
    case Local(Server, k, act) =>
      var eff := Do(w.server.socks[k], act);
      w.(server := SetSock(w.server, k, eff), s2c := Push(w.s2c, w.server.socks[k].wire, Tag(eff.out, k)))
    case Deliver(Client, wire) =>
      var p := w.s2c[wire][0];
      w.(client := Dispatch(w.client, p.seg, wire, p.inc, w.ccfg).e, s2c := w.s2c[wire := w.s2c[wire][1..]])
    case Deliver(Server, wire) =>
      var p := w.c2s[wire][0];
      w.(server := Dispatch(w.server, p.seg, wire, p.inc, w.scfg).e, c2s := w.c2s[wire := w.c2s[wire][1..]])
    case KeepAlive(Client, wire) => w.(c2s := Push(w.c2s, wire, [ALIVE]))
    case KeepAlive(Server, wire) => w.(s2c := Push(w.s2c, wire, [ALIVE]))
    case Accept => w.(server := w.server.(backlog := w.server.backlog[1..]))
  }

  // ---------- the discipline ----------

  predicate QuietId(pipes: seq<seq<Packet>>, wire: nat, id: uint16) {
    wire < |pipes| && forall i | 0 <= i < |pipes[wire]| :: !Concerns(pipes[wire][i], id)
  }

  /** Every earlier socket with this ID has sent its own CLOS, and if it used another wire that wire has
      carried all of it to the server. (That it has also received the peer's CLOS is what took the ID out of the
      table.) On a single wire the second half always holds; when IDs are never reused the whole does. */
  ghost predicate Retired(w: World, id: uint16, wire: nat) {
    forall j | j in w.client.socks && w.client.socks[j].sokid == id ::
      w.client.socks[j].closed && (w.client.socks[j].wire == wire || QuietId(w.c2s, w.client.socks[j].wire, id))
  }

  ghost predicate Disciplined(w: World, a: Action) {
    a.Tunnel? ==> Retired(w, a.id, a.wire)
  }

  // ---------- the invariant, in parts ----------

  type Socks = map<nat, Sock>
  type Table = map<uint16, nat>
  type Pipes = seq<seq<Packet>>

  function Slot(t: Table, id: uint16): Option<nat> {
    if id in t then Some(t[id]) else None
  }

  /** Client and server sockets of a pair match. */
  ghost predicate Matched(cs: Socks, ss: Socks) {
    forall k | k in ss ::
      && k in cs && cs[k].x.announced && ss[k].x.announced
      && ss[k].sokid == cs[k].sokid && ss[k].wire == cs[k].wire
  }

  /** Before its OPEN is sent nobody holds the socket. */
  ghost predicate Untouched(cs: Socks) {
    forall k | k in cs && !cs[k].x.announced :: cs[k] == NewSock(cs[k].sokid, cs[k].wire, false)
  }

  /** No packet of pair `j` is on any wire. */
  predicate Absent(pipes: Pipes, j: nat) {
    forall i, m | 0 <= i < |pipes| && 0 <= m < |pipes[i]| :: pipes[i][m].seg.flag == FL_ALIV || pipes[i][m].inc != j
  }

  /** Both ends of pair `j` are closed and nothing of it is under way. */
  ghost predicate Gone(cs: Socks, ss: Socks, c2s: Pipes, s2c: Pipes, j: nat) {
    j in cs && cs[j].closed && j in ss && ss[j].closed && Absent(c2s, j) && Absent(s2c, j)
  }

  /** A pair that took over an ID found the earlier holders closed by the client, and quite gone if they used
      another wire. */
  ghost predicate Superseded(cs: Socks, ss: Socks, c2s: Pipes, s2c: Pipes) {
    forall j, k | j in cs && k in cs && j < k && cs[j].sokid == cs[k].sokid ::
      cs[j].closed && (cs[j].wire != cs[k].wire ==> Gone(cs, ss, c2s, s2c, j))
  }

  /** A packet on wire `i` belongs to a pair that uses that wire, and carries its ID. */
  predicate Belongs(cs: Socks, i: nat, p: Packet) {
    p.seg.flag != FL_ALIV ==>
      p.inc in cs && cs[p.inc].x.announced && cs[p.inc].wire == i && cs[p.inc].sokid == p.seg.sokid
  }

  ghost predicate Carried(cs: Socks, pipes: Pipes) {
    forall i, j | 0 <= i < |pipes| && 0 <= j < |pipes[i]| :: Belongs(cs, i, pipes[i][j])
  }

  ghost predicate NoOpens(pipes: Pipes) {
    forall i, j | 0 <= i < |pipes| && 0 <= j < |pipes[i]| :: pipes[i][j].seg.flag != FL_OPEN
  }

  /** Every packet on every wire will find its own socket. */
  ghost predicate Routed(t: Table, pipes: Pipes) {
    forall id: uint16, i | 0 <= i < |pipes| :: RouteOk(Slot(t, id), pipes[i], id)
  }

  /** Once the wire has drained, the receiver's table has the pair under its ID. */
  predicate Sees(t: Table, pipes: Pipes, s: Sock, k: nat) {
    s.wire < |pipes| && SlotEnd(Slot(t, s.sokid), pipes[s.wire], s.sokid) == Some(k)
  }

  /** The server will have exactly the pairs whose client end has sent its OPEN and not its CLOS. */
  ghost predicate ServerSees(cs: Socks, t: Table, c2s: Pipes) {
    forall k | k in cs :: Sees(t, c2s, cs[k], k) <==> cs[k].x.announced && !cs[k].closed
  }

  /** The client will have exactly the pairs whose server end has not sent its CLOS. */
  ghost predicate ClientSees(cs: Socks, ss: Socks, t: Table, s2c: Pipes) {
    forall k | k in cs :: Sees(t, s2c, cs[k], k) <==> !(k in ss && ss[k].closed)
  }

  predicate OpenOnceAt(s: Sock, arrived: bool, c2s: Pipes, k: nat) {
    && s.wire < |c2s|
    && Opens(c2s[s.wire], k) + (if arrived then 1 else 0) == if s.x.announced then 1 else 0
  }

  /** Each announced pair's OPEN is on its wire, once, or has been delivered. */
  ghost predicate OpenOnce(cs: Socks, ss: Socks, c2s: Pipes) {
    forall k | k in cs :: OpenOnceAt(cs[k], k in ss, c2s, k)
  }

  function On(pipes: Pipes, wire: nat, k: nat): seq<Segment> {
    if wire < |pipes| then Chan(pipes[wire], k) else []
  }

  /** The server's end; before the OPEN is delivered, a new socket. */
  function Peer(ss: Socks, s: Sock, k: nat): Sock {
    if k in ss then ss[k] else NewSock(s.sokid, s.wire, true)
  }

  /** One pair, seen by itself. */
  function Pair(s: Sock, peer: Sock, c2s: Pipes, s2c: Pipes, k: nat): Links.Link {
    Links.Link(s.(x := s.x.(announced := true)), peer, On(c2s, s.wire, k), On(s2c, s.wire, k))
  }

  ghost predicate LinksOk(cs: Socks, ss: Socks, c2s: Pipes, s2c: Pipes) {
    forall k | k in cs :: Links.Inv(Pair(cs[k], Peer(ss, cs[k], k), c2s, s2c, k))
  }

  ghost predicate FairDeaths(w: World) {
    && (w.client.killed.Some? ==> w.client.killed.value == Overfull)
    && (w.server.killed.Some? ==> w.server.killed.value == Overfull || w.server.killed.value == AcceptOverflow)
    && !w.scfg.rejectOpen
  }

  ghost predicate Inv(w: World) {
    && Sane(w) && FairDeaths(w)
    && Matched(w.client.socks, w.server.socks) && Untouched(w.client.socks)
    && Superseded(w.client.socks, w.server.socks, w.c2s, w.s2c)
    && Carried(w.client.socks, w.c2s) && Carried(w.client.socks, w.s2c) && NoOpens(w.s2c)
    && Routed(w.server.table, w.c2s) && ServerSees(w.client.socks, w.server.table, w.c2s)
    && Routed(w.client.table, w.s2c) && ClientSees(w.client.socks, w.server.socks, w.client.table, w.s2c)
    && OpenOnce(w.client.socks, w.server.socks, w.c2s)
    && LinksOk(w.client.socks, w.server.socks, w.c2s, w.s2c)
  }

  lemma InitInv(n: nat, ccfg: Config, scfg: Config)
    requires !scfg.rejectOpen
    ensures Inv(Init(n, ccfg, scfg))
  {
  }

  // ---------- facts about steps ----------

  /** What a socket's own step leaves alone, and what it can put on the wire. */
  lemma ActKeeps(s: Sock, a: Act)
    requires Can(s, a)
    ensures var e := Do(s, a);
      && e.sock.sokid == s.sokid && e.sock.wire == s.wire && e.sock.x.announced
      && (forall i | 0 <= i < |e.out| ::
            e.out[i].flag != FL_OPEN && (e.out[i].flag == FL_ALIV || e.out[i].sokid == s.sokid))
      && (forall i | 0 <= i < |e.out| :: e.out[i].flag == FL_CLOS <==> a.Close?)
      && (e.out == [] ==> e.sock.closed == s.closed || a.Close?)
      && (e.sock.closed <==> s.closed || a.Close?)
      && (e.out != [] && s.closed ==> a.Emit? || a.Credit?)
      && (a.Close? ==> (e.out == [] <==> s.closed))
  {
  }

  lemma NamedPush(pipes: seq<seq<Packet>>, next: nat, wire: nat, ps: seq<Packet>)
    requires Named(pipes, next) && wire < |pipes|
    requires forall i | 0 <= i < |ps| :: ps[i] == ALIVE || ps[i].inc < next
    ensures Named(Push(pipes, wire, ps), next)
  {
  }

  lemma NamedPop(pipes: seq<seq<Packet>>, next: nat, wire: nat)
    requires Named(pipes, next) && wire < |pipes| && pipes[wire] != []
    ensures Named(pipes[wire := pipes[wire][1..]], next)
    ensures pipes[wire][0] == ALIVE || pipes[wire][0].inc < next
  {
  }

  /** A dispatched segment keeps the table's names good, and makes no socket but its own. */
  lemma DispatchKeeps(e: Endpoint, seg: Segment, wire: nat, name: nat, cfg: Config)
    requires WellFormed(e)
    requires seg.flag == FL_OPEN ==> name !in e.socks
    ensures var e' := Dispatch(e, seg, wire, name, cfg).e;
      && WellFormed(e') && e.socks.Keys <= e'.socks.Keys
      && (forall k | k in e'.socks :: if k in e.socks then e'.socks[k].wire == e.socks[k].wire
                                      else k == name && seg.flag == FL_OPEN && e'.socks[k].wire == wire)
  {
  }

  lemma SaneNext(w: World, a: Action)
    requires Sane(w) && Enabled(w, a) && Fresh(w, a)
    ensures Sane(Next(w, a))
  {
    match a {
      case Tunnel(id, wire) =>
      case SendOpen(k) =>
        NamedPush(w.c2s, w.next, w.client.socks[k].wire, Tag(Announce(w.client.socks[k]).out, k));
      case Local(Client, k, act) =>
        ActKeeps(w.client.socks[k], act);
        NamedPush(w.c2s, w.next, w.client.socks[k].wire, Tag(Do(w.client.socks[k], act).out, k));
      case Local(Server, k, act) =>
        ActKeeps(w.server.socks[k], act);
        NamedPush(w.s2c, w.next, w.server.socks[k].wire, Tag(Do(w.server.socks[k], act).out, k));
      case Deliver(Client, wire) =>
        NamedPop(w.s2c, w.next, wire);
        DispatchKeeps(w.client, w.s2c[wire][0].seg, wire, w.s2c[wire][0].inc, w.ccfg);
      case Deliver(Server, wire) =>
        NamedPop(w.c2s, w.next, wire);
        DispatchKeeps(w.server, w.c2s[wire][0].seg, wire, w.c2s[wire][0].inc, w.scfg);
      case KeepAlive(Client, wire) => NamedPush(w.c2s, w.next, wire, [ALIVE]);
      case KeepAlive(Server, wire) => NamedPush(w.s2c, w.next, wire, [ALIVE]);
      case Accept =>
    }
  }
}
