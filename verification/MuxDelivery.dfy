/** Whether every packet reaches its own socket, and that after a retired pick it does. */
module MuxDelivery {
  import opened Segments
  import opened Sockets
  import opened Endpoints
  import opened Routing
  import opened Mux
  import opened MuxTheorems
  import opened MuxRuns
  import Links

  // ---------- what can go wrong ----------

  /** A packet that the demultiplexer gives to another pair's socket, or to none, as a stray. */
  predicate Misdelivered(e: Endpoint, p: Packet) {
    !Links.Unaddressed(p.seg) && Slot(e.table, p.seg.sokid) != Some(p.inc)
  }

  /** An end that is alive takes such a packet next, from one of its wires. */
  predicate Misdelivers(e: Endpoint, pipes: Pipes) {
    e.killed == None && exists i | 0 <= i < |pipes| :: pipes[i] != [] && Misdelivered(e, pipes[i][0])
  }

  /** However the run goes on, neither end ever does. */
  ghost predicate AlwaysDelivered(w: World) {
    forall acts | Legal(w, acts) ::
      var v := After(w, acts); !Misdelivers(v.client, v.s2c) && !Misdelivers(v.server, v.c2s)
  }

  /** What comes next off any wire, at either end, is a keepalive or finds its own socket. */
  predicate AllLand(w: World) {
    && (forall i | 0 <= i < |w.c2s| && w.c2s[i] != [] ::
          w.c2s[i][0].seg.flag == FL_ALIV || Lands(w.server, w.c2s[i][0]))
    && (forall i | 0 <= i < |w.s2c| && w.s2c[i] != [] ::
          w.s2c[i][0].seg.flag == FL_ALIV || Lands(w.client, w.s2c[i][0]))
  }

  lemma InvLands(w: World)
    requires Inv(w)
    ensures AllLand(w)
  {
    forall i | 0 <= i < |w.c2s| && w.c2s[i] != []
      ensures w.c2s[i][0].seg.flag == FL_ALIV || Lands(w.server, w.c2s[i][0])
    {
      ServerRouting(w, i);
    }
    forall i | 0 <= i < |w.s2c| && w.s2c[i] != []
      ensures w.s2c[i][0].seg.flag == FL_ALIV || Lands(w.client, w.s2c[i][0])
    {
      ClientRouting(w, i);
    }
  }

  /** Picking a retired ID is safe: in every later state everything that comes off a wire, either way, lands. */
  lemma RetiredIsSafe(w: World, id: uint16, wire: nat)
    requires Inv(w) && Enabled(w, Tunnel(id, wire)) && Retired(w, id, wire)
    ensures var w1 := Next(w, Tunnel(id, wire)); forall acts | Legal(w1, acts) :: AllLand(After(w1, acts))
  {
    var w1 := Next(w, Tunnel(id, wire));
    TunnelInv(w, id, wire);
    forall acts | Legal(w1, acts) ensures AllLand(After(w1, acts)) {
      ActionsInv(w1, acts);
      InvLands(After(w1, acts));
    }
  }

  lemma LandedIsDelivered(w: World)
    requires AllLand(w)
    ensures !Misdelivers(w.client, w.s2c) && !Misdelivers(w.server, w.c2s)
  {
  }

  // ---------- after a retired pick ----------

  /** No run goes on from here to the loss of the context over a stray segment. */
  ghost predicate NeverStrays(w: World) {
    forall acts | Legal(w, acts) :: After(w, acts).server.killed != Some(Stray)
  }

  lemma RetiredNeverErrs(w: World, id: uint16, wire: nat)
    requires Inv(w) && Enabled(w, Tunnel(id, wire)) && Retired(w, id, wire)
    ensures AlwaysDelivered(Next(w, Tunnel(id, wire)))
  {
    var w1 := Next(w, Tunnel(id, wire));
    RetiredIsSafe(w, id, wire);
    forall acts | Legal(w1, acts)
      ensures var v := After(w1, acts); !Misdelivers(v.client, v.s2c) && !Misdelivers(v.server, v.c2s)
    {
      LandedIsDelivered(After(w1, acts));
    }
  }

  lemma RetiredNeverStrays(w: World, id: uint16, wire: nat)
    requires Inv(w) && Enabled(w, Tunnel(id, wire)) && Retired(w, id, wire)
    ensures NeverStrays(Next(w, Tunnel(id, wire)))
  {
    var w1 := Next(w, Tunnel(id, wire));
    TunnelInv(w, id, wire);
    forall acts | Legal(w1, acts) ensures After(w1, acts).server.killed != Some(Stray) {
      ActionsInv(w1, acts);
    }
  }
}
