/** What the original does when an ID is picked that is not retired: from the start of any context it comes to such
    a pick, and then to the loss of the context. */
module MuxReuse {
  import opened Segments
  import opened Sockets
  import opened Endpoints
  import opened Routing
  import opened Mux
  import opened MuxRuns
  import opened MuxWitnesses
  import opened MuxMisuse

  function Shut(s: Sock): Sock {
    s.(closed := true, death := Some(ClosedPipe))
  }

  /** A socket whose queue holds the peer's CLOS. */
  function Hung(s: Sock): Sock {
    s.(incoming := [ClosSegment(s.sokid)])
  }

  /** The server has closed the only pair. */
  function Closed(id: uint16, ccfg: Config, scfg: Config): World {
    var s := NewSock(id, 0, true);
    OneWire(map[id := 0], map[0 := s], map[id := 0], map[0 := Shut(s)], [], [], [Packet(ClosSegment(id), 0)], 1,
            ccfg, scfg)
  }

  /** The CLOS has arrived: the ID is free at the client, although the client has not closed its end. */
  function Freed(id: uint16, ccfg: Config, scfg: Config): World {
    var s := NewSock(id, 0, true);
    OneWire(map[], map[0 := Hung(s)], map[id := 0], map[0 := Shut(s)], [], [], [], 1, ccfg, scfg)
  }

  lemma ClosedNext(id: uint16, ccfg: Config, scfg: Config)
    ensures var w := Paired(id, ccfg, scfg);
      && Sane(w) && Enabled(w, Local(Server, 0, Close))
      && Next(w, Local(Server, 0, Close)) == Closed(id, ccfg, scfg)
  {
    var w := Paired(id, ccfg, scfg);
    assert Tag([ClosSegment(id)], 0) == [Packet(ClosSegment(id), 0)];
    Same(Next(w, Local(Server, 0, Close)), Closed(id, ccfg, scfg));
  }

  lemma FreedNext(id: uint16, ccfg: Config, scfg: Config)
    ensures var w := Closed(id, ccfg, scfg);
      Sane(w) && Enabled(w, Deliver(Client, 0)) && Next(w, Deliver(Client, 0)) == Freed(id, ccfg, scfg)
  {
    var w := Closed(id, ccfg, scfg);
    assert [] + [ClosSegment(id)] == [ClosSegment(id)];
    Same(Next(w, Deliver(Client, 0)), Freed(id, ccfg, scfg));
  }

  lemma FreedReached(id: uint16, ccfg: Config, scfg: Config)
    requires !scfg.rejectOpen && scfg.acceptCap > 0
    ensures Reached(Freed(id, ccfg, scfg))
  {
    PairedReached(id, ccfg, scfg);
    ClosedNext(id, ccfg, scfg);
    ReachedStep(Paired(id, ccfg, scfg), Local(Server, 0, Close));
    FreedNext(id, ccfg, scfg);
    ReachedStep(Closed(id, ccfg, scfg), Deliver(Client, 0));
  }

  lemma FreedUnretired(id: uint16, ccfg: Config, scfg: Config)
    requires scfg.acceptCap > 0
    ensures var w := Freed(id, ccfg, scfg);
      Sane(w) && Enabled(w, Tunnel(id, 0)) && Survivable(w, id, 0) && !Retired(w, id, 0)
  {
    var w := Freed(id, ccfg, scfg);
    assert 0 in w.client.socks && !w.client.socks[0].closed;
  }

  /** A context comes to a point where `Tunnel` may pick an ID that is not retired. Picking it can cost the whole
      context, over a byte of a pair that nobody has closed. */
  lemma ReuseKillsContext(id: uint16, ccfg: Config, scfg: Config)
    requires !scfg.rejectOpen && scfg.acceptCap > 0
    ensures exists w | Reached(w) && Sane(w) && Enabled(w, Tunnel(id, 0)) ::
      !Retired(w, id, 0) && Fails(Next(w, Tunnel(id, 0)), w.next)
  {
    FreedReached(id, ccfg, scfg);
    FreedUnretired(id, ccfg, scfg);
    UnretiredFails(Freed(id, ccfg, scfg), id, 0);
  }
}
