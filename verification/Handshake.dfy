/** The sleep/wakeup handshake between the engine and any number of probes:
    no event is left behind by a blocked engine, and no arming costs more than
    one wakeup byte. */
module Handshake {
  import opened Ring
  import opened Machine
  import opened Safety

  /** Slot `j` of station `i` holds a completed event the engine has not harvested. */
  ghost predicate Fresh(s: State, i: nat, j: nat)
    requires Shaped(s) && i < s.max && j < 8
  {
    2 * Count(|s.hist[i]|, j) > s.seen[i][j]
  }

  /** Has touched a slot and will still load the flag, or swap it. */
  predicate Owing(w: Phase) {
    w.Storing? || w.Published? || w.Saw?
  }

  /** From the store of `TracerSleeping = 1` until the engine reads the socket or disarms. */
  predicate Armed(at: Control) {
    match at
    case LoadCount(kind) => kind.Rescan?
    case Visit(c) => c.kind.Rescan?
    case Copying(c, _, _, _) => c.kind.Rescan?
    case Printing(c, _, _) => c.kind.Rescan?
    case Scanned(kind, _) => kind.Rescan?
    case Disarming => true
    case Blocked => true
    case _ => false
  }

  /** The current scan will not look at this slot again. */
  predicate Passed(at: Control, i: nat, j: nat) {
    match at
    case LoadCount(_) => false
    case Visit(c) => BehindScan(c, i, j)
    case Copying(c, _, _, _) => BehindScan(c, i, j)
    case Printing(c, _, _) => BehindScan(c, i, j)
    case _ => true
  }

  predicate BehindScan(c: Scan, i: nat, j: nat) {
    i < c.i || (i == c.i && j < c.j) || i >= c.limit
  }

  /** A writer of station `i` is bound to notice the armed flag, or one already has. */
  ghost predicate Covered(s: State, i: nat) {
    !s.sleeping || Owing(WriterOf(s, i))
  }

  ghost predicate SlotCovered(s: State, i: nat, j: nat)
    requires Shaped(s) && i < s.max && j < 8
  {
    Passed(s.at, i, j) && Fresh(s, i, j) ==> Covered(s, i)
  }

  /** If the slot under the reader moved since `seq1` was loaded, its station is covered. */
  ghost predicate VisitCovered(s: State)
    requires Shaped(s)
  {
    match s.at
    case Copying(c, seq1, _, _) => SlotAt(s, c).seqNo != seq1 ==> Covered(s, c.i)
    case Printing(c, seq1, _) => SlotAt(s, c).seqNo != seq1 ==> Covered(s, c.i)
    case _ => true
  }

  /** A wakeup byte is in the socket or about to be written. */
  ghost predicate Signalled(s: State) {
    s.bytes > 0 || exists p :: 0 <= p < |s.probes| && s.probes[p].at.Won?
  }

  ghost predicate Watch(s: State)
    requires Shaped(s)
  {
    Armed(s.at) ==>
      && (!s.sleeping ==> Signalled(s))
      && (forall i, j :: 0 <= i < s.max && 0 <= j < 8 ==> SlotCovered(s, i, j))
      && VisitCovered(s)
  }

  /** Everything harvested before arming is on disk, and so is the rescan's nothing; likewise on
      return. */
  ghost predicate FlushedBeforeSleep(s: State) {
    match s.at
    case Arming => s.flushed == |s.log|
    case Blocked => s.flushed == |s.log|
    case Returned => s.flushed == |s.log|
    case LoadCount(kind) => kind.Rescan? ==> s.flushed == |s.log|
    case Scanned(kind, got) => kind.Rescan? && got == 0 ==> s.flushed == |s.log|
    case Visit(c) => c.kind.Rescan? && c.got == 0 ==> s.flushed == |s.log|
    case Copying(c, _, _, _) => c.kind.Rescan? && c.got == 0 ==> s.flushed == |s.log|
    case Printing(c, _, _) => c.kind.Rescan? && c.got == 0 ==> s.flushed == |s.log|
    case _ => true
  }

  ghost predicate Good(s: State) {
    Inv(s) && s.cap >= 1 && Watch(s) && FlushedBeforeSleep(s)
  }

  // ---- Tracee steps ----

  /** A tracee step on station `i`: coverage survives, and anything new is covered. */
  lemma WriterCovers(s: State, p: nat, d: Payload, i: nat)
    requires Inv(s) && p < |s.probes| && i < s.max
    ensures var r := WriterStep(s, p, d);
      && (Covered(s, i) ==> Covered(r, i))
      && (s.hist[i] != r.hist[i] || s.stations[i].slots != r.stations[i].slots ==> Covered(r, i))
  {
    assert ProbeOk(s, p);
    WriterFrame(s, p, d);
    if i < |s.owner| { assert TicketHeld(s, i); }
  }

  lemma WriterSignals(s: State, p: nat, d: Payload)
    requires Shaped(s) && s.cap >= 1 && p < |s.probes| && (!s.sleeping ==> Signalled(s))
    ensures var r := WriterStep(s, p, d); !r.sleeping ==> Signalled(r)
  {
    var r := WriterStep(s, p, d);
    WriterFrame(s, p, d);
    if !s.sleeping && s.bytes == 0 {
      var q :| 0 <= q < |s.probes| && s.probes[q].at.Won?;
      if q != p { assert r.probes[q].at.Won?; }
    }
    if s.sleeping && !r.sleeping { assert r.probes[p].at.Won?; }
  }

  lemma WriterWatches(s: State, p: nat, d: Payload)
    requires Inv(s) && s.cap >= 1 && Watch(s) && p < |s.probes|
    ensures Watch(WriterStep(s, p, d))
  {
    var r := WriterStep(s, p, d);
    WriterFrame(s, p, d);
    if Armed(s.at) {
      WriterSignals(s, p, d);
      forall i, j | 0 <= i < s.max && 0 <= j < 8 ensures SlotCovered(r, i, j) {
        assert SlotCovered(s, i, j);
        WriterCovers(s, p, d, i);
      }
      if s.at.Copying? || s.at.Printing? { WriterCovers(s, p, d, s.at.c.i); }
    }
  }

  lemma ConstructWatches(s: State, id: Word)
    requires Inv(s) && Watch(s)
    ensures Watch(Step(s, Construct(id)))
  {
    var r := Step(s, Construct(id));
    if Armed(s.at) {
      if !s.sleeping && s.bytes == 0 {
        var q :| 0 <= q < |s.probes| && s.probes[q].at.Won?;
        assert r.probes[q].at.Won?;
      }
      forall i | 0 <= i < s.max ensures WriterOf(r, i) == WriterOf(s, i) {
        if i < |s.owner| { assert TicketHeld(s, i); }
      }
      forall i, j | 0 <= i < s.max && 0 <= j < 8 ensures SlotCovered(r, i, j) { assert SlotCovered(s, i, j); }
    }
  }

  // ---- Engine steps ----

  /** The slot the engine leaves, however it leaves it, is drained or its station covered. */
  lemma LeftSlotCovered(s: State, wake: Wake)
    requires Inv(s) && VisitCovered(s) && (s.at.Visit? || s.at.Copying? || s.at.Printing?)
    ensures var r := ReaderStep(s, wake); var c := s.at.c;
      r.at.Copying? || r.at.Printing? || (Fresh(r, c.i, c.j) ==> Covered(r, c.i))
  {
    var c := s.at.c;
    assert StationOk(s, c.i);
    assert SlotOk(SlotAt(s, c), s.hist[c.i], c.j, WriterOf(s, c.i));
  }

  lemma PassedNext(c: Scan, i: nat, j: nat)
    requires Passed(NextSlot(c), i, j) && j < 8 && c.j < 8
    ensures BehindScan(c, i, j) || (i == c.i && j == c.j)
  {
  }

  lemma ScanCoversSlot(s: State, wake: Wake, i: nat, j: nat)
    requires Inv(s) && VisitCovered(s) && (s.at.Visit? || s.at.Copying? || s.at.Printing?) && s.at.c.kind.Rescan?
    requires i < s.max && j < 8 && SlotCovered(s, i, j)
    ensures SlotCovered(ReaderStep(s, wake), i, j)
  {
    var r := ReaderStep(s, wake);
    var c := s.at.c;
    LeftSlotCovered(s, wake);
    if Passed(r.at, i, j) && !Passed(s.at, i, j) {
      PassedNext(if s.at.Printing? then c.(got := c.got + 1) else c, i, j);
    }
  }

  /** When the count is loaded, a station beyond it has no history yet. */
  lemma CountCoversSlot(s: State, wake: Wake, i: nat, j: nat)
    requires Inv(s) && s.at == LoadCount(Rescan) && i < s.max && j < 8
    ensures SlotCovered(ReaderStep(s, wake), i, j)
  {
    assert StationOk(s, i) && SeenOk(s, i, j);
  }

  /** Inside the armed window the engine leaves flag, socket and probes alone. */
  lemma ArmedStep(s: State, wake: Wake)
    requires Shaped(s) && Armed(ReaderStep(s, wake).at) && s.at != ReaderStep(s, wake).at && !s.at.Arming?
    ensures var r := ReaderStep(s, wake);
      && Armed(s.at) && r.sleeping == s.sleeping && r.bytes == s.bytes && r.probes == s.probes && r.max == s.max
  {
  }

  lemma VisitStaysCovered(s: State, wake: Wake)
    requires Shaped(s) && ReaderOk(s) && VisitCovered(s)
    ensures VisitCovered(ReaderStep(s, wake))
  {
    match s.at {
      case Visit(_) =>
      case Copying(_, _, _, _) =>
      case Printing(_, _, _) =>
      case _ =>
    }
  }

  lemma ReaderWatches(s: State, wake: Wake)
    requires Inv(s) && Watch(s)
    ensures Watch(ReaderStep(s, wake))
  {
    var r := ReaderStep(s, wake);
    if Armed(r.at) && s.at != r.at && !s.at.Arming? {
      ArmedStep(s, wake);
      VisitStaysCovered(s, wake);
      forall i, j | 0 <= i < s.max && 0 <= j < 8 ensures SlotCovered(r, i, j) {
        assert SlotCovered(s, i, j);
        if s.at.LoadCount? { CountCoversSlot(s, wake, i, j); }
        else if !s.at.Scanned? { ScanCoversSlot(s, wake, i, j); }
      }
    }
  }

  lemma ReaderFlushes(s: State, wake: Wake)
    requires Shaped(s) && FlushedBeforeSleep(s)
    ensures FlushedBeforeSleep(ReaderStep(s, wake))
  {
    match s.at {
      case LoadCount(_) =>
      case Visit(_) =>
      case Copying(_, _, _, _) =>
      case Printing(_, _, _) =>
      case Scanned(_, _) =>
      case _ =>
    }
  }

  lemma StepGood(s: State, a: Action)
    requires Good(s)
    ensures Good(Step(s, a))
  {
    StepKeeps(s, a);
    match a {
      case Construct(id) => ConstructWatches(s, id);
      case Writer(p, d) => if p < |s.probes| { WriterFrame(s, p, d); WriterWatches(s, p, d); }
      case Reader(wake) => ReaderWatches(s, wake); ReaderFlushes(s, wake);
    }
  }

  lemma {:induction false} RunGood(s: State, acts: seq<Action>)
    requires Good(s)
    ensures Good(Run(s, acts))
    decreases |acts|
  {
    if acts != [] {
      StepGood(s, acts[0]);
      RunGood(Step(s, acts[0]), acts[1..]);
    }
  }

  lemma AlwaysGood(s: State)
    requires Reachable(s)
    ensures Good(s)
  {
    var max, cap, acts := Witness(s);
    InitInv(max, cap);
    RunGood(Init(max, cap), acts);
  }

  /** In every reachable state where the engine is blocked, everything logged is on disk,
      a cleared flag means a byte is on its way, and with the flag still set any station
      that holds an unharvested event has a writer that has yet to look at the flag. */
  lemma BlockedIsWatched(s: State)
    requires Reachable(s) && s.at.Blocked?
    ensures Inv(s) && s.flushed == |s.log|
    ensures !s.sleeping ==> Signalled(s)
    ensures forall i, j :: 0 <= i < s.max && 0 <= j < 8 && s.sleeping && Fresh(s, i, j) ==> Owing(WriterOf(s, i))
  {
    AlwaysGood(s);
    forall i, j | 0 <= i < s.max && 0 <= j < 8 && s.sleeping && Fresh(s, i, j) ensures Owing(WriterOf(s, i)) {
      assert SlotCovered(s, i, j);
    }
  }

  /** No writer is between its first store to a slot and the end of `write_trace`. */
  ghost predicate WritersQuiet(s: State) {
    forall p :: 0 <= p < |s.probes| ==> !Owing(s.probes[p].at) && !s.probes[p].at.Won?
  }

  /** No lost wakeup: blocked on an empty socket with the writers quiet, the engine has
      harvested everything the rings hold, and all of it is on disk. */
  lemma NoLostWakeup(s: State)
    requires Reachable(s) && s.at.Blocked? && s.bytes == 0 && WritersQuiet(s)
    ensures Inv(s) && s.sleeping && s.flushed == |s.log|
    ensures forall i, j :: 0 <= i < s.max && 0 <= j < 8 ==> !Fresh(s, i, j)
    ensures forall i, k :: 0 <= i < s.max && 0 <= k < |s.hist[i]| <= k + 8 ==> Logged(s.log, i, k)
  {
    BlockedIsWatched(s);
    forall i, j | 0 <= i < s.max && 0 <= j < 8 ensures !Fresh(s, i, j) {
      assert StationOk(s, i);
    }
    DrainedIsLogged(s);
  }

  lemma NewestIsLogged(s: State, i: nat, k: nat)
    requires Inv(s) && i < s.max && k < |s.hist[i]| <= k + 8 && !Fresh(s, i, k % 8)
    ensures Logged(s.log, i, k)
  {
    assert SeenOk(s, i, k % 8);
    CountBounds(|s.hist[i]|, k % 8, k);
    CountBounds(|s.hist[i]|, k % 8, k + 8);
    SeenIsLogged(s, i, k);
  }

  /** Nothing fresh means the last eight events of every station are in the log. */
  lemma DrainedIsLogged(s: State)
    requires Inv(s) && forall i, j :: 0 <= i < s.max && 0 <= j < 8 ==> !Fresh(s, i, j)
    ensures forall i, k :: 0 <= i < s.max && 0 <= k < |s.hist[i]| <= k + 8 ==> Logged(s.log, i, k)
  {
    forall i, k | 0 <= i < s.max && 0 <= k < |s.hist[i]| <= k + 8 ensures Logged(s.log, i, k) {
      NewestIsLogged(s, i, k);
    }
  }

  // ---- Wakeup economy ----

  /** Probes that have swapped the flag and not yet written their byte. */
  function WonCount(ps: seq<Probe>): (n: nat) {
    if ps == [] then 0 else WonCount(ps[..|ps| - 1]) + (if ps[|ps| - 1].at.Won? then 1 else 0)
  }

  lemma {:induction false} WonUpdate(ps: seq<Probe>, p: nat, w: Probe)
    requires p < |ps|
    ensures WonCount(ps[p := w]) == WonCount(ps) - (if ps[p].at.Won? then 1 else 0) + (if w.at.Won? then 1 else 0)
    decreases |ps|
  {
    var n := |ps| - 1;
    if p == n {
      assert ps[p := w][..n] == ps[..n];
    } else {
      WonUpdate(ps[..n], p, w);
      assert ps[p := w][..n] == ps[..n][p := w];
    }
  }

  ghost predicate Thrifty(s: State) {
    && s.wins + (if s.sleeping then 1 else 0) <= s.armings
    && s.sent + WonCount(s.probes) == s.wins
    && s.bytes <= s.cap && s.bytes <= s.sent
  }

  lemma WriterTouchesOne(s: State, p: nat, d: Payload)
    requires Shaped(s) && p < |s.probes|
    ensures var r := WriterStep(s, p, d); r.probes == s.probes[p := r.probes[p]]
  {
    WriterFrame(s, p, d);
  }

  /** The flag, the swaps and the bytes move with the phase of the probe that moves them. */
  lemma WriterCounts(s: State, p: nat, d: Payload)
    requires Shaped(s) && p < |s.probes|
    ensures var r := WriterStep(s, p, d); var w, v := s.probes[p].at, r.probes[p].at;
      && r.armings == s.armings && r.wins == s.wins + (if v.Won? then 1 else 0)
      && r.sent == s.sent + (if w.Won? then 1 else 0)
      && (v.Won? ==> s.sleeping && !r.sleeping) && (!v.Won? ==> r.sleeping == s.sleeping)
      && r.cap == s.cap && s.bytes <= r.bytes && r.bytes - s.bytes <= r.sent - s.sent && (r.bytes != s.bytes ==> r.bytes <= r.cap)
  {
    match s.probes[p].at {
      case Born =>
      case Detached =>
      case Naming =>
      case Published =>
      case Saw =>
      case Won =>
      case _ =>
    }
  }

  lemma WriterThrifty(s: State, p: nat, d: Payload)
    requires Shaped(s) && Thrifty(s) && p < |s.probes|
    ensures Thrifty(WriterStep(s, p, d))
  {
    var r := WriterStep(s, p, d);
    WriterTouchesOne(s, p, d);
    WriterCounts(s, p, d);
    WonUpdate(s.probes, p, r.probes[p]);
  }

  /** Of the engine's steps only arming and lowering the flag touch the balance. */
  lemma ReaderThrifty(s: State, wake: Wake)
    requires Shaped(s) && Thrifty(s)
    ensures Thrifty(ReaderStep(s, wake))
  {
    ReaderFrame(s, wake);
    match s.at {
      case LoadCount(_) =>
      case Visit(_) =>
      case Copying(_, _, _, _) =>
      case Printing(_, _, _) =>
      case Blocked =>
      case _ =>
    }
  }

  lemma WonSnoc(ps: seq<Probe>, w: Probe)
    ensures WonCount(ps + [w]) == WonCount(ps) + (if w.at.Won? then 1 else 0)
  {
    assert (ps + [w])[..|ps|] == ps;
  }

  lemma StepThrifty(s: State, a: Action)
    requires Shaped(s) && Thrifty(s)
    ensures Thrifty(Step(s, a))
  {
    match a {
      case Construct(id) => WonSnoc(s.probes, Probe(id, 0, 0, Born));
      case Writer(p, d) => if p < |s.probes| { WriterThrifty(s, p, d); }
      case Reader(wake) => ReaderThrifty(s, wake);
    }
  }

  lemma {:induction false} RunThrifty(s: State, acts: seq<Action>)
    requires Shaped(s) && Thrifty(s)
    ensures Thrifty(Run(s, acts))
    decreases |acts|
  {
    if acts != [] {
      StepThrifty(s, acts[0]);
      RunThrifty(Step(s, acts[0]), acts[1..]);
    }
  }

  lemma InitThrifty(max: nat, cap: nat)
    ensures Thrifty(Init(max, cap))
  {
  }

  /** Over every run, swaps won plus the flag never exceed the armings, every byte sent was paid for
      by a swap, and the socket holds no more bytes than were sent, nor than it has room for: at
      most one byte per arming, whatever the number of writers. */
  lemma WakeupEconomy(s: State)
    requires Reachable(s)
    ensures s.wins + (if s.sleeping then 1 else 0) <= s.armings
    ensures s.sent + WonCount(s.probes) == s.wins
    ensures s.bytes <= s.sent <= s.armings && s.bytes <= s.cap
  {
    var max, cap, acts := Witness(s);
    InitThrifty(max, cap);
    RunThrifty(Init(max, cap), acts);
  }
}
