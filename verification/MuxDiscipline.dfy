/** When an ID may be used again. `Tunnel` takes any ID that is not in the client's table, and an ID leaves that
    table when the peer's CLOS arrives; that is not enough for every packet to find its own socket, and this module
    says exactly what is. */
module MuxDiscipline {
  import opened Segments
  import opened Mux
  import opened MuxRuns
  import opened MuxDelivery
  import opened MuxMisuse
  import opened MuxBarred

  /** The server can take what earlier holders of the ID have left on other wires. */
  ghost predicate OthersPassable(w: World, id: uint16, wire: nat) {
    forall j | j in w.client.socks && w.client.socks[j].sokid == id && w.client.socks[j].wire != wire ::
      Passable(w, w.client.socks[j].wire, id)
  }

  lemma NotBarred(w: World, id: uint16, wire: nat)
    requires wire < |w.c2s| && !Barred(w, wire) && w.scfg.acceptCap > 0 && OthersPassable(w, id, wire)
    ensures Survivable(w, id, wire)
  {
  }

  lemma NoneYet(w: World, id: uint16, wire: nat)
    requires Sane(w) && w.next == 0
    ensures Retired(w, id, wire)
  {
  }

  /** The discipline is exact. In every reachable state an ID that `Tunnel` may pick, for a wire it may pick, is one
      that every packet of every later run finds its own socket after, and that never costs the context, if and only
      if it is retired, or the new pair can never reach the server anyway. With several wires, earlier holders on
      other wires are taken to be within the server's reach; with a single wire nothing is assumed but a place in the
      accept queue. */
  lemma DisciplineIsExact(w: World, id: uint16, wire: nat)
    requires Reached(w) && Sane(w) && Enabled(w, Tunnel(id, wire))
    requires w.scfg.acceptCap > 0 && OthersPassable(w, id, wire)
    ensures AlwaysDelivered(Next(w, Tunnel(id, wire))) <==> Retired(w, id, wire) || Barred(w, wire)
    ensures NeverStrays(Next(w, Tunnel(id, wire))) <==> Retired(w, id, wire) || Barred(w, wire)
  {
    Safety(w);
    if w.next == 0 {
      NoneYet(w, id, wire);
    }
    if Retired(w, id, wire) {
      RetiredNeverErrs(w, id, wire);
      RetiredNeverStrays(w, id, wire);
    } else if Barred(w, wire) {
      BarredIsSafe(w, id, wire);
    } else {
      NotBarred(w, id, wire);
      UnretiredFails(w, id, wire);
    }
  }
}
