/** The exit's accounting: a counter every connection draws on, and the periodic sync with the database. */
module Billing {
  import opened Sockets

  type UserId = int

  /** Bytes in one billed megabyte. */
  const MB: nat := 1000000

  /** The megabytes that every deduction reports as left to a user with an unlimited plan. */
  const UNLIMITED: nat := 1000000

  /** How much a pump reads, and so asks for, at once. */
  const BUFFER: nat := 8192

  // ---------- the database ----------

  datatype Ledger = Ledger(free: map<UserId, int>, unlimited: set<UserId>)

  /** Which database operation of one deduction fails, if any. A failed commit leaves nothing behind. */
  datatype Fault = NoFault | BeginFails | PlanFails | BalanceFails | UpdateFails | CommitFails

  datatype Deduction = Deduction(ledger: Ledger, rem: int, ok: bool)

  /** One deduction: it never takes a balance below zero, and it leaves unlimited users alone. */
  function Deduct(l: Ledger, uid: UserId, amt: nat, fault: Fault): Deduction {
    if fault.BeginFails? || fault.PlanFails? then Deduction(l, 0, false)
    else if uid in l.unlimited then Deduction(l, UNLIMITED, true)
    else if fault.BalanceFails? || uid !in l.free then Deduction(l, 0, false)
    else
      var rem := if l.free[uid] < amt then 0 else l.free[uid] - amt;
      if fault.NoFault? then Deduction(l.(free := l.free[uid := rem]), rem, true) else Deduction(l, rem, false)
  }

  /** What a user has left by the ledger: as many megabytes as it says, and always a million with an unlimited plan. */
  function Left(l: Ledger, uid: UserId): int {
    if uid in l.unlimited then 1000000 else if uid in l.free then l.free[uid] else 0
  }

  /** What a deduction reports, if it succeeds, is what the user has left after it; a billed user's balance goes down by
      the amount, or to zero; and no other balance moves. */
  lemma DeductionReports(l: Ledger, uid: UserId, amt: nat, fault: Fault)
    ensures var d := Deduct(l, uid, amt, fault);
      && (d.ok ==> d.rem == Left(d.ledger, uid))
      && (d.ok <==> match fault
            case NoFault => uid in l.unlimited || uid in l.free
            case BeginFails => false
            case PlanFails => false
            case _ => uid in l.unlimited)
      && (d.ok && uid !in l.unlimited ==> d.rem == if l.free[uid] <= amt then 0 else l.free[uid] - amt)
      && (!d.ok || uid in l.unlimited ==> d.ledger == l)
      && forall u | u in l.free && u != uid :: u in d.ledger.free && d.ledger.free[u] == l.free[u]
  {
  }

  class Database {
    var free: map<UserId, int>
    const unlimited: set<UserId>

    ghost function View(): Ledger
      reads this
    {
      Ledger(free, unlimited)
    }

    constructor (free: map<UserId, int>, unlimited: set<UserId>)
      ensures View() == Ledger(free, unlimited)
    {
      this.free, this.unlimited := free, unlimited;
    }

    method DecAccBalance(uid: UserId, amt: nat, fault: Fault) returns (rem: int, ok: bool)
      modifies this
      ensures Deduction(View(), rem, ok) == Deduct(old(View()), uid, amt, fault)
    {
      rem, ok := 0, false;
      if fault.BeginFails? || fault.PlanFails? {
        return;
      }
      if uid in unlimited {
        return UNLIMITED, true;
      }
      if fault.BalanceFails? || uid !in free {
        return;
      }
      rem := free[uid];
      rem := rem - amt;
      if rem < 0 {
        rem := 0;
      }
      if fault.UpdateFails? || fault.CommitFails? {
        return;
      }
      free := free[uid := rem];
      ok := true;
    }
  }

  // ---------- one session's counter ----------

  /** How far the periodic sync of a session has come. */
  datatype Phase =
    | Idle
    | Snapped(olbal: nat)
    | Charged(olbal: nat, nbal: int)
    | Dithered(olbal: nat, nbal: int)

  datatype Session = Session(uid: UserId, bal: int, lbal: nat, phase: Phase)

  /** What one goroutine does between two unlocks, or to the database. A pump that read `dec` bytes asks for
      them, and `put` of them reach the other side if it is let through. */
  datatype Act =
    | Consume(dec: nat, put: nat)
    | Snapshot
    | Charge(fault: Fault)
    | Dither(draw: real, fault: Fault)
    | Reset

  /** The extra megabyte of a sync is charged when the draw, uniform in [0, 1), falls below the remainder. */
  predicate Extra(olbal: nat, draw: real) {
    draw < (olbal % MB) as real / 1000000.0
  }

  /** The balance a sync goes on with after one deduction. */
  function NewBalance(d: Deduction): int {
    if d.ok then d.rem else 0
  }

  predicate Can(s: Session, a: Act) {
    match a
    case Consume(dec, put) => put <= dec <= BUFFER
    case Snapshot => s.phase.Idle?
    case Charge(_) => s.phase.Snapped?
    case Dither(draw, _) => s.phase.Charged? && 0.0 <= draw < 1.0
    case Reset => s.phase.Dithered?
  }

  /** The database call an action makes, if any: how many megabytes it asks for. */
  function Asks(s: Session, a: Act): Option<nat> {
    match a
    case Charge(_) => if s.phase.Snapped? then Some(s.phase.olbal / MB) else None
    case Dither(draw, _) => if s.phase.Charged? && Extra(s.phase.olbal, draw) then Some(1) else None
    case _ => None
  }

  function Step(s: Session, l: Ledger, a: Act): (r: (Session, Ledger))
    requires Can(s, a)
  {
    match a
    case Consume(dec, _) => (s.(bal := s.bal - dec, lbal := s.lbal + dec), l)
    case Snapshot => (s.(phase := Snapped(s.lbal)), l)
    case Charge(fault) =>
      var d := Deduct(l, s.uid, s.phase.olbal / MB, fault);
      (s.(phase := Charged(s.phase.olbal, NewBalance(d))), d.ledger)
    case Dither(draw, fault) =>
      if Extra(s.phase.olbal, draw) then
        var d := Deduct(l, s.uid, 1, fault);
        (s.(phase := Dithered(s.phase.olbal, NewBalance(d))), d.ledger)
      else (s.(phase := Dithered(s.phase.olbal, s.phase.nbal)), l)
    case Reset => (s.(bal := s.phase.nbal * 1000000, lbal := 0, phase := Idle), l)
  }

  /** A session starts with what a deduction of nothing reports, whether or not that deduction failed. */
  function Connect(l: Ledger, uid: UserId, fault: Fault): (r: (Session, Ledger)) {
    var d := Deduct(l, uid, 0, fault);
    (Session(uid, d.rem * 1000000, 0, Idle), d.ledger)
  }

  /** A session starts with all its user has left, also when the deduction of nothing could not be committed, and
      with nothing when it came no further than the plan or the balance. */
  lemma ConnectGives(l: Ledger, uid: UserId, fault: Fault)
    ensures var (s, l') := Connect(l, uid, fault);
      && s.lbal == 0 && s.phase == Idle && s.uid == uid && (Left(l, uid) >= 0 ==> l' == l)
      && s.bal == match fault
           case BeginFails => 0
           case PlanFails => 0
           case BalanceFails => if uid in l.unlimited then 1000000 * 1000000 else 0
           case _ => if Left(l, uid) < 0 then 0 else 1000000 * Left(l, uid)
  {
  }

  class Meter {
    const uid: UserId
    var bal: int
    var lbal: nat

    ghost function View(phase: Phase): Session
      reads this
    {
      Session(uid, bal, lbal, phase)
    }

    constructor (db: Database, uid: UserId, fault: Fault)
      modifies db
      ensures (View(Idle), db.View()) == Connect(old(db.View()), uid, fault)
    {
      var rem, ok := db.DecAccBalance(uid, 0, fault);
      rem := rem * 1000000;
      this.uid, bal, lbal := uid, rem, 0;
    }

    /** Asks for `dec` bytes. It is refused when nothing would be left. */
    method Consume(dec: nat) returns (ok: bool)
      modifies this
      ensures bal == old(bal) - dec && lbal == old(lbal) + dec
      ensures ok <==> dec < old(bal)
    {
      lbal := lbal + dec;
      bal := bal - dec;
      if bal <= 0 {
        return false;
      }
      return true;
    }

    /** One periodic sync, with nothing consumed meanwhile. */
    method Sync(db: Database, draw: real, first: Fault, second: Fault)
      requires 0.0 <= draw < 1.0
      modifies this, db
      ensures var (s1, l1) := Step(old(View(Idle)), old(db.View()), Snapshot);
        var (s2, l2) := Step(s1, l1, Charge(first));
        var (s3, l3) := Step(s2, l2, Dither(draw, second));
        (View(Idle), db.View()) == Step(s3, l3, Reset)
      ensures lbal == 0
      ensures first == NoFault && second == NoFault ==> bal == 1000000 * Left(db.View(), uid)
      ensures (if Extra(old(lbal), draw) then second else first) in {BeginFails, PlanFails} ==> bal == 0
    {
      var olbal := lbal;
      var nbal, ok := db.DecAccBalance(uid, olbal / 1000000, first);
      if !ok {
        nbal := 0;
      }
      if draw < (olbal % 1000000) as real / 1000000.0 {
        nbal, ok := db.DecAccBalance(uid, 1, second);
        if !ok {
          nbal := 0;
        }
      }
      bal := nbal * 1000000;
      lbal := 0;
    }
  }

  // ---------- one pump ----------

  /** How many of the chunks a pump lets through when it alone draws on `bal`. */
  function Passed(bal: int, chunks: seq<seq<int>>): (n: nat)
    ensures n <= |chunks|
  {
    if chunks == [] || bal <= |chunks[0]| then 0 else 1 + Passed(bal - |chunks[0]|, chunks[1..])
  }

  function Joined(chunks: seq<seq<int>>): seq<int> {
    if chunks == [] then [] else chunks[0] + Joined(chunks[1..])
  }

  /** It is the longest prefix that leaves something of the balance. */
  lemma {:induction false} PassedIsLongest(bal: int, chunks: seq<seq<int>>, n: nat)
    requires n <= |chunks|
    ensures n <= Passed(bal, chunks) <==> n == 0 || |Joined(chunks[..n])| < bal
    decreases |chunks|
  {
    if n > 0 {
      assert chunks[..n][1..] == chunks[1..][..n - 1];
      PassedIsLongest(bal - |chunks[0]|, chunks[1..], n - 1);
    }
  }

  lemma {:induction false} JoinedSnoc(chunks: seq<seq<int>>, last: seq<int>)
    ensures Joined(chunks + [last]) == Joined(chunks) + last
  {
    if chunks == [] {
      assert [last][1..] == [] && chunks + [last] == [last];
    } else {
      JoinedSnoc(chunks[1..], last);
      assert (chunks + [last])[1..] == chunks[1..] + [last];
    }
  }

  class Sink {
    var got: seq<int>
    constructor ()
      ensures got == []
    {
      got := [];
    }
  }

  lemma {:induction false} PassedNext(bal: int, chunks: seq<seq<int>>, i: nat)
    requires i < |chunks|
    ensures Passed(bal, chunks[i..]) ==
      if bal <= |chunks[i]| then 0 else 1 + Passed(bal - |chunks[i]|, chunks[i + 1..])
    ensures Joined(chunks[..i + 1]) == Joined(chunks[..i]) + chunks[i]
  {
    assert chunks[i..][1..] == chunks[i + 1..] && chunks[..i + 1] == chunks[..i] + [chunks[i]];
    JoinedSnoc(chunks[..i], chunks[i]);
  }

  /** The forwarding loop, reading `chunks` and then an error, where the far side takes `room` chunks before it
      fails. The chunk that is refused or cannot be written has been asked for all the same. */
  method Pump(meter: Meter, chunks: seq<seq<int>>, room: nat, sink: Sink)
    modifies meter, sink
    ensures var passed := Passed(old(meter.bal), chunks);
      var sent := if passed < room then passed else room;
      var asked := if sent < |chunks| then sent + 1 else sent;
      && sink.got == old(sink.got) + Joined(chunks[..sent])
      && meter.bal == old(meter.bal) - |Joined(chunks[..asked])|
      && meter.lbal == old(meter.lbal) + |Joined(chunks[..asked])|
  {
    var i := 0;
    while i < |chunks|
      invariant i <= |chunks| && i <= room
      invariant Passed(old(meter.bal), chunks) == i + Passed(meter.bal, chunks[i..])
      invariant sink.got == old(sink.got) + Joined(chunks[..i])
      invariant meter.bal == old(meter.bal) - |Joined(chunks[..i])|
      invariant meter.lbal == old(meter.lbal) + |Joined(chunks[..i])|
    {
      var buf := chunks[i];
      PassedNext(meter.bal, chunks, i);
      var ok := meter.Consume(|buf|);
      if !ok {
        return;
      }
      if i == room {
        return;
      }
      sink.got := sink.got + buf;
      i := i + 1;
    }
    assert chunks[..i] == chunks;
  }

  // ---------- every session of an exit ----------

  datatype World = World(ledger: Ledger, sessions: seq<Session>)

  datatype Event = Event(who: nat, act: Act)

  predicate Enabled(w: World, e: Event) {
    e.who < |w.sessions| && Can(w.sessions[e.who], e.act)
  }

  function Next(w: World, e: Event): (r: World)
    requires Enabled(w, e)
    ensures |r.sessions| == |w.sessions|
  {
    var (s, l) := Step(w.sessions[e.who], w.ledger, e.act);
    World(l, w.sessions[e.who := s])
  }

  /** The actions of all sessions in any order. */
  predicate Legal(w: World, t: seq<Event>)
    decreases |t|, 0
  {
    t == [] || (Legal(w, t[..|t| - 1]) && Enabled(After(w, t[..|t| - 1]), t[|t| - 1]))
  }

  function After(w: World, t: seq<Event>): (r: World)
    requires Legal(w, t)
    ensures |r.sessions| == |w.sessions|
    decreases |t|, 1
  {
    if t == [] then w else Next(After(w, t[..|t| - 1]), t[|t| - 1])
  }

  /** What session `i` asked for over the whole run. */
  function Consumed(t: seq<Event>, i: nat): nat {
    if t == [] then 0
    else
      var e := t[|t| - 1];
      Consumed(t[..|t| - 1], i) + if e.who == i && e.act.Consume? then e.act.dec else 0
  }

  /** What session `i` asked for since its last snapshot. */
  function Window(t: seq<Event>, i: nat): nat {
    if t == [] then 0
    else
      var e := t[|t| - 1];
      if e.who != i then Window(t[..|t| - 1], i)
      else if e.act.Snapshot? then 0
      else Window(t[..|t| - 1], i) + if e.act.Consume? then e.act.dec else 0
  }

  /** What session `i` asked for between a snapshot and the reset that ended that sync, over all its syncs. */
  function Lost(t: seq<Event>, i: nat): nat {
    if t == [] then 0
    else
      var e := t[|t| - 1];
      Lost(t[..|t| - 1], i) + if e.who == i && e.act.Reset? then Window(t[..|t| - 1], i) else 0
  }

  /** The sum of the snapshots of all syncs session `i` has completed. */
  function Settled(w: World, t: seq<Event>, i: nat): nat
    requires Legal(w, t) && i < |w.sessions|
  {
    if t == [] then 0
    else
      var e := t[|t| - 1];
      Settled(w, t[..|t| - 1], i)
      + if e.who == i && e.act.Reset? then After(w, t[..|t| - 1]).sessions[i].phase.olbal else 0
  }

  /** Every byte a session ever asked for is in a settled snapshot, in a window that was lost, or in `lbal`. */
  lemma {:induction false} Conservation(w: World, t: seq<Event>, i: nat)
    requires Legal(w, t) && i < |w.sessions|
    requires w.sessions[i].lbal == 0 && w.sessions[i].phase == Idle
    ensures var s := After(w, t).sessions[i];
      && Consumed(t, i) == Settled(w, t, i) + Lost(t, i) + s.lbal
      && (!s.phase.Idle? ==> s.lbal == s.phase.olbal + Window(t, i))
  {
    if t != [] {
      Conservation(w, t[..|t| - 1], i);
    }
  }

  // ---------- what a sync charges ----------

  /** The megabytes one sync asks for, given its snapshot and its draw. */
  function Requested(olbal: nat, draw: real): nat {
    olbal / MB + if Extra(olbal, draw) then 1 else 0
  }

  /** The draws fall into a million equally likely cells; within a cell the choice is the same. */
  lemma CellDecides(olbal: nat, cell: nat, draw: real)
    requires cell < MB && cell as real / 1000000.0 <= draw < (cell + 1) as real / 1000000.0
    ensures Extra(olbal, draw) <==> cell < olbal % MB
  {
    var rest := olbal % MB;
    if cell < rest {
      assert (cell + 1) as real <= rest as real;
    } else {
      assert rest as real <= cell as real;
    }
  }

  /** The sum of what a sync asks for over the first `cells` cells. */
  function TotalOver(olbal: nat, cells: nat): nat {
    if cells == 0 then 0 else TotalOver(olbal, cells - 1) + Requested(olbal, (cells - 1) as real / 1000000.0)
  }

  lemma {:induction false} TotalIs(olbal: nat, cells: nat)
    requires cells <= MB
    ensures TotalOver(olbal, cells) ==
      cells * (olbal / MB) + if cells <= olbal % MB then cells else olbal % MB
  {
    if cells > 0 {
      TotalIs(olbal, cells - 1);
      CellDecides(olbal, cells - 1, (cells - 1) as real / 1000000.0);
      assert cells * (olbal / MB) == (cells - 1) * (olbal / MB) + olbal / MB;
    }
  }

  /** A sync never asks for more than its snapshot rounded up, nor less than it rounded down; and over the
      million equally likely cells it asks for the snapshot exactly: `olbal` megabytes in `MB` draws. */
  lemma {:induction false} DitherIsFair(olbal: nat, draw: real)
    requires 0.0 <= draw < 1.0
    ensures olbal / MB <= Requested(olbal, draw) <= (olbal + MB - 1) / MB
    ensures TotalOver(olbal, MB) == olbal
  {
    TotalIs(olbal, MB);
    if olbal % MB == 0 {
      assert !Extra(olbal, draw);
    }
  }

  /** The megabytes session `i` has asked the database for in completed syncs, and in the open one. */
  function AskedFor(w: World, t: seq<Event>, i: nat): nat
    requires Legal(w, t) && i < |w.sessions|
  {
    if t == [] then 0
    else
      var e := t[|t| - 1];
      AskedFor(w, t[..|t| - 1], i)
      + if e.who == i then
          match Asks(After(w, t[..|t| - 1]).sessions[i], e.act) case Some(amt) => amt case None => 0
        else 0
  }

  /** How many syncs session `i` has started. */
  function Syncs(t: seq<Event>, i: nat): nat {
    if t == [] then 0
    else Syncs(t[..|t| - 1], i) + if t[|t| - 1] == Event(i, Snapshot) then 1 else 0
  }

  /** Over a whole run the requests exceed the settled bytes by less than a megabyte for each sync, and fall
      short by less than that, whatever the draws were. */
  lemma {:induction false} ChargesFollowSnapshots(w: World, t: seq<Event>, i: nat)
    requires Legal(w, t) && i < |w.sessions| && w.sessions[i].phase == Idle
    ensures var s := After(w, t).sessions[i];
      s.phase.Idle? ==>
        && MB * AskedFor(w, t, i) <= Settled(w, t, i) + (MB - 1) * Syncs(t, i)
        && Settled(w, t, i) <= MB * AskedFor(w, t, i) + (MB - 1) * Syncs(t, i)
    ensures var s := After(w, t).sessions[i];
      var open := match s.phase
        case Idle => 0 case Snapped(_) => 0 case Charged(o, _) => MB * (o / MB) case Dithered(o, _) => o;
      var slack := (MB - 1) * if s.phase.Snapped? || s.phase.Charged? then Syncs(t, i) - 1 else Syncs(t, i);
      && (!s.phase.Idle? ==> Syncs(t, i) > 0)
      && MB * AskedFor(w, t, i) <= Settled(w, t, i) + open + slack
      && Settled(w, t, i) + open <= MB * AskedFor(w, t, i) + slack
  {
    if t != [] {
      ChargesFollowSnapshots(w, t[..|t| - 1], i);
    }
  }

  // ---------- one balance epoch ----------

  /** Session `i` is not reset during the run. */
  predicate OneEpoch(t: seq<Event>, i: nat) {
    forall k | 0 <= k < |t| :: !(t[k].who == i && t[k].act.Reset?)
  }

  /** What session `i` was let through over the run. */
  function Accepted(w: World, t: seq<Event>, i: nat): nat
    requires Legal(w, t) && i < |w.sessions|
  {
    if t == [] then 0
    else
      var e := t[|t| - 1];
      Accepted(w, t[..|t| - 1], i)
      + if e.who == i && e.act.Consume? && e.act.dec < After(w, t[..|t| - 1]).sessions[i].bal then e.act.dec else 0
  }

  /** What the last deduction that session `i` asked for left its user, or nothing if it failed. */
  function LastLeft(w: World, t: seq<Event>, i: nat): int
    requires Legal(w, t) && i < |w.sessions|
  {
    if t == [] then 0
    else
      var e, s := t[|t| - 1], After(w, t[..|t| - 1]).sessions[i];
      if e.who != i || Asks(s, e.act) == None then LastLeft(w, t[..|t| - 1], i)
      else if Deduct(After(w, t[..|t| - 1]).ledger, s.uid, Asks(s, e.act).value, e.act.fault).ok
      then Left(After(w, t).ledger, s.uid)
      else 0
  }

  /** While a sync is open it holds what its last deduction left. */
  lemma {:induction false} SyncHolds(w: World, t: seq<Event>, i: nat)
    requires Legal(w, t) && i < |w.sessions| && w.sessions[i].phase == Idle
    ensures var phase := After(w, t).sessions[i].phase;
      (phase.Charged? ==> phase.nbal == LastLeft(w, t, i)) && (phase.Dithered? ==> phase.nbal == LastLeft(w, t, i))
  {
    if t != [] {
      var front, e := t[..|t| - 1], t[|t| - 1];
      var s, l := After(w, front).sessions[i], After(w, front).ledger;
      SyncHolds(w, front, i);
      if e.who == i && Asks(s, e.act).Some? {
        DeductionReports(l, s.uid, Asks(s, e.act).value, e.act.fault);
      }
    }
  }

  /** A reset starts an epoch with the bytes in the megabytes that the last deduction left. */
  lemma {:induction false} ResetGives(w: World, t: seq<Event>, i: nat)
    requires Legal(w, t) && i < |w.sessions| && w.sessions[i].phase == Idle
    requires t != [] && t[|t| - 1] == Event(i, Reset)
    ensures var s := After(w, t).sessions[i]; s.bal == 1000000 * LastLeft(w, t, i) && s.lbal == 0 && s.phase == Idle
  {
    SyncHolds(w, t[..|t| - 1], i);
  }

  /** What the pumps of session `i` delivered over the run. */
  function Forwarded(w: World, t: seq<Event>, i: nat): nat
    requires Legal(w, t) && i < |w.sessions|
  {
    if t == [] then 0
    else
      var e := t[|t| - 1];
      Forwarded(w, t[..|t| - 1], i)
      + if e.who == i && e.act.Consume? && e.act.dec < After(w, t[..|t| - 1]).sessions[i].bal then e.act.put else 0
  }

  /** Within one epoch the pumps of a session together deliver strictly less than a positive balance, and
      nothing on any other; and the balance left is what the epoch started with less all that was asked for. */
  lemma {:induction false} AdmissionBound(w: World, t: seq<Event>, i: nat)
    requires Legal(w, t) && i < |w.sessions| && OneEpoch(t, i)
    ensures After(w, t).sessions[i].bal == w.sessions[i].bal - Consumed(t, i)
    ensures Forwarded(w, t, i) <= Accepted(w, t, i) <= Consumed(t, i)
    ensures if w.sessions[i].bal > 0 then Accepted(w, t, i) < w.sessions[i].bal else Accepted(w, t, i) == 0
    ensures After(w, t).sessions[i].bal > 0 ==> Accepted(w, t, i) == Consumed(t, i)
  {
    if t != [] {
      AdmissionBound(w, t[..|t| - 1], i);
    }
  }

  /** An epoch that a reset begins delivers less than what the last deduction left of the balance, or nothing if it
      left nothing. */
  lemma {:induction false} EpochBound(w: World, t: seq<Event>, i: nat, epoch: seq<Event>)
    requires Legal(w, t) && i < |w.sessions| && w.sessions[i].phase == Idle
    requires t != [] && t[|t| - 1] == Event(i, Reset) && Legal(After(w, t), epoch) && OneEpoch(epoch, i)
    ensures var (given, delivered) := (1000000 * LastLeft(w, t, i), Forwarded(After(w, t), epoch, i));
      delivered < given || delivered == 0
    ensures Accepted(After(w, t), epoch, i) < 1000000 * LastLeft(w, t, i) || Accepted(After(w, t), epoch, i) == 0
  {
    ResetGives(w, t, i);
    AdmissionBound(After(w, t), epoch, i);
  }

  /** Once a session has nothing left, every later request of the same epoch is refused. */
  lemma {:induction false} RefusalLasts(w: World, t: seq<Event>, i: nat, k: nat)
    requires Legal(w, t) && i < |w.sessions| && OneEpoch(t, i) && k <= |t|
    requires w.sessions[i].bal <= Consumed(t[..k], i)
    ensures Legal(w, t[..k]) && After(w, t).sessions[i].bal <= 0
    ensures Accepted(w, t, i) == Accepted(w, t[..k], i)
  {
    if k == |t| {
      assert t[..k] == t;
      AdmissionBound(w, t, i);
    } else {
      var front := t[..|t| - 1];
      assert front[..k] == t[..k];
      RefusalLasts(w, front, i, k);
    }
  }

  /** What the pumps of all sessions of user `u` among the first `n` delivered over the run. */
  function UserForwarded(w: World, t: seq<Event>, u: UserId, n: nat): nat
    requires Legal(w, t) && n <= |w.sessions|
  {
    if n == 0 then 0
    else UserForwarded(w, t, u, n - 1) + if w.sessions[n - 1].uid == u then Forwarded(w, t, n - 1) else 0
  }

  /** All but one byte of each positive balance those sessions started with. */
  function UserShare(w: World, u: UserId, n: nat): nat
    requires n <= |w.sessions|
  {
    if n == 0 then 0
    else
      var s := w.sessions[n - 1];
      UserShare(w, u, n - 1) + if s.uid == u && s.bal > 0 then s.bal - 1 else 0
  }

  /** While none of a user's sessions is reset, together they deliver no more than all but one byte of each of
      their positive balances. */
  lemma {:induction false} UserBound(w: World, t: seq<Event>, u: UserId, n: nat)
    requires Legal(w, t) && n <= |w.sessions|
    requires forall i | 0 <= i < n && w.sessions[i].uid == u :: OneEpoch(t, i)
    ensures UserForwarded(w, t, u, n) <= UserShare(w, u, n)
  {
    if n > 0 {
      UserBound(w, t, u, n - 1);
      if w.sessions[n - 1].uid == u {
        AdmissionBound(w, t, n - 1);
      }
    }
  }

  /** `m` sessions of one user, all connected before any of them is reset. */
  function Crowd(l: Ledger, u: UserId, m: nat): (w: World)
    ensures |w.sessions| == m && forall i | 0 <= i < m :: w.sessions[i] == Connect(l, u, NoFault).0
  {
    World(l, seq(m, _ => Connect(l, u, NoFault).0))
  }

  /** A run of requests alone. */
  predicate Requesting(w: World, t: seq<Event>) {
    Legal(w, t) && forall k | 0 <= k < |t| :: t[k].act.Consume?
  }

  /** The sessions before `i` have each delivered `c` bytes, session `i` has delivered `n`, and the others nothing. */
  predicate Drawn(w: World, t: seq<Event>, c: nat, i: nat, n: nat) {
    Requesting(w, t) &&
    forall j | 0 <= j < |w.sessions| ::
      && Forwarded(w, t, j) == (if j < i then c else if j == i then n else 0)
      && After(w, t).sessions[j].bal == w.sessions[j].bal - Forwarded(w, t, j)
  }

  /** A session that has more than one byte left delivers one more. */
  lemma {:induction false} OneByte(w: World, t: seq<Event>, i: nat, j: nat)
    requires Legal(w, t) && i < |w.sessions| && j < |w.sessions| && After(w, t).sessions[i].bal > 1
    ensures var (more, d) := (t + [Event(i, Consume(1, 1))], if j == i then 1 else 0);
      && Legal(w, more) && Forwarded(w, more, j) == Forwarded(w, t, j) + d
      && After(w, more).sessions[j].bal == After(w, t).sessions[j].bal - d
  {
    var more := t + [Event(i, Consume(1, 1))];
    assert more[..|more| - 1] == t;
  }

  lemma {:induction false} DrawOne(w: World, t: seq<Event>, c: nat, i: nat, n: nat)
    requires Drawn(w, t, c, i, n) && i < |w.sessions| && n + 1 < w.sessions[i].bal
    ensures Drawn(w, t + [Event(i, Consume(1, 1))], c, i, n + 1)
  {
    var more := t + [Event(i, Consume(1, 1))];
    OneByte(w, t, i, i);
    forall j | 0 <= j < |w.sessions|
      ensures Forwarded(w, more, j) == (if j < i then c else if j == i then n + 1 else 0)
      ensures After(w, more).sessions[j].bal == w.sessions[j].bal - Forwarded(w, more, j)
    {
      OneByte(w, t, i, j);
    }
  }

  /** One byte at a time, one session after the other, each can deliver all but one byte of what it was given. */
  lemma {:induction false} Draw(w: World, c: nat, i: nat, n: nat)
    requires i <= |w.sessions| && n <= c && (i == |w.sessions| ==> n == 0)
    requires forall j | 0 <= j < |w.sessions| :: w.sessions[j].bal == c + 1
    ensures exists t :: Drawn(w, t, c, i, n)
    decreases i, n
  {
    if n > 0 {
      Draw(w, c, i, n - 1);
      var t :| Drawn(w, t, c, i, n - 1);
      DrawOne(w, t, c, i, n - 1);
      assert Drawn(w, t + [Event(i, Consume(1, 1))], c, i, n);
    } else if i > 0 {
      Draw(w, c, i - 1, c);
      var t :| Drawn(w, t, c, i - 1, c);
      assert Drawn(w, t, c, i, 0);
    } else {
      assert Drawn(w, [], c, 0, 0);
    }
  }

  /** The sums of a crowd. */
  lemma {:induction false} CrowdSums(w: World, t: seq<Event>, u: UserId, c: nat, n: nat)
    requires n <= |w.sessions| && Legal(w, t)
    requires forall j | 0 <= j < |w.sessions| :: w.sessions[j].uid == u && w.sessions[j].bal == c + 1
    ensures UserShare(w, u, n) == n * c
    ensures (forall j | 0 <= j < n :: Forwarded(w, t, j) == c) ==> UserForwarded(w, t, u, n) == n * c
  {
    if n > 0 {
      CrowdSums(w, t, u, c, n - 1);
      assert n * c == (n - 1) * c + c;
    }
  }

  /** The sessions of `u` together deliver more than `limit` bytes. */
  predicate Exceeds(w: World, t: seq<Event>, u: UserId, limit: nat) {
    Requesting(w, t) && UserForwarded(w, t, u, |w.sessions|) > limit
  }

  lemma Twice(m: nat, balance: nat)
    requires balance >= 3
    ensures balance < m * (balance - 1) <==> m >= 2
  {
    if m >= 2 {
      assert m * (balance - 1) == 2 * (balance - 1) + (m - 2) * (balance - 1);
    }
  }

  lemma {:induction false} CrowdDelivers(l: Ledger, u: UserId, m: nat, limit: nat)
    requires u in l.free && u !in l.unlimited && l.free[u] > 0
    ensures (exists t :: Exceeds(Crowd(l, u, m), t, u, limit)) <==> limit < m * (l.free[u] * 1000000 - 1)
  {
    var w, c := Crowd(l, u, m), l.free[u] * 1000000 - 1;
    forall t | Requesting(w, t) ensures UserForwarded(w, t, u, m) <= m * c {
      UserBound(w, t, u, m);
      CrowdSums(w, t, u, c, m);
    }
    Draw(w, c, m, 0);
    var t :| Drawn(w, t, c, m, 0);
    CrowdSums(w, t, u, c, m);
    assert limit < m * c ==> Exceeds(w, t, u, limit);
  }

  /** How much the sessions of one user deliver between two resets: `m` of them can exceed a limit if and only if it
      is below `m` times the user's balance less a byte, since each that connects is given the whole balance. So
      they can deliver more than the user has if and only if there are two. */
  lemma {:induction false} BalanceIsGivenTwice(l: Ledger, u: UserId, m: nat, limit: nat)
    requires u in l.free && u !in l.unlimited && l.free[u] > 0
    ensures (exists t :: Exceeds(Crowd(l, u, m), t, u, limit)) <==> limit < m * (l.free[u] * 1000000 - 1)
    ensures (exists t :: Exceeds(Crowd(l, u, m), t, u, l.free[u] * 1000000)) <==> m >= 2
  {
    CrowdDelivers(l, u, m, limit);
    CrowdDelivers(l, u, m, l.free[u] * 1000000);
    Twice(m, l.free[u] * 1000000);
  }

  // ---------- the database under all sessions ----------

  /** The deductions from user `u` that succeeded, in order, whichever session asked. */
  function Taken(w: World, t: seq<Event>, u: UserId): seq<nat>
    requires Legal(w, t)
  {
    if t == [] then []
    else
      var e := t[|t| - 1];
      var s := After(w, t[..|t| - 1]).sessions[e.who];
      match Asks(s, e.act)
      case Some(amt) =>
        if s.uid == u && e.act.fault.NoFault? then Taken(w, t[..|t| - 1], u) + [amt] else Taken(w, t[..|t| - 1], u)
      case None => Taken(w, t[..|t| - 1], u)
  }

  function Sum(amts: seq<nat>): nat {
    if amts == [] then 0 else Sum(amts[..|amts| - 1]) + amts[|amts| - 1]
  }

  /** What one deduction leaves of a balance. */
  function Less(balance: int, amt: nat): int {
    if balance < amt then 0 else balance - amt
  }

  /** One deduction: it moves only its own user's balance, and only if it succeeds and is billed. */
  lemma DeductMoves(l: Ledger, uid: UserId, amt: nat, fault: Fault, u: UserId)
    requires u in l.free
    ensures var l' := Deduct(l, uid, amt, fault).ledger;
      && l'.unlimited == l.unlimited && l'.free.Keys == l.free.Keys
      && l'.free[u] == if u == uid && fault.NoFault? && u !in l.unlimited then Less(l.free[u], amt) else l.free[u]
  {
  }

  /** One event of any session: the ledger moves by what it asks for. */
  lemma NextMoves(w: World, e: Event, u: UserId)
    requires Enabled(w, e) && u in w.ledger.free
    ensures var l, l' := w.ledger, Next(w, e).ledger;
      var s := w.sessions[e.who];
      && l'.unlimited == l.unlimited && l'.free.Keys == l.free.Keys
      && l'.free[u] == match Asks(s, e.act)
         case Some(amt) =>
           if u == s.uid && e.act.fault.NoFault? && u !in l.unlimited then Less(l.free[u], amt) else l.free[u]
         case None => l.free[u]
  {
    var s := w.sessions[e.who];
    if Asks(s, e.act).Some? {
      DeductMoves(w.ledger, s.uid, Asks(s, e.act).value, e.act.fault, u);
    }
  }

  lemma {:induction false} SumSnoc(amts: seq<nat>, amt: nat)
    ensures Sum(amts + [amt]) == Sum(amts) + amt
  {
    assert (amts + [amt])[..|amts|] == amts;
  }

  /** Deductions of many sessions of one user in any order leave what one deduction of their sum would. An
      unlimited user keeps the balance, and no user ever appears or disappears. */
  lemma {:induction false} SerialDeductions(w: World, t: seq<Event>, u: UserId)
    requires Legal(w, t) && u in w.ledger.free
    ensures var l := After(w, t).ledger;
      && l.unlimited == w.ledger.unlimited && l.free.Keys == w.ledger.free.Keys
      && (u in l.unlimited || Taken(w, t, u) == [] ==> l.free[u] == w.ledger.free[u])
      && (u !in l.unlimited && Taken(w, t, u) != [] ==>
          l.free[u] == Less(w.ledger.free[u], Sum(Taken(w, t, u))))
  {
    if t != [] {
      var front, e := t[..|t| - 1], t[|t| - 1];
      var mid := After(w, front);
      SerialDeductions(w, front, u);
      NextMoves(mid, e, u);
      var asked := Asks(mid.sessions[e.who], e.act);
      if asked.Some? {
        SumSnoc(Taken(w, front, u), asked.value);
      }
    }
  }
}
