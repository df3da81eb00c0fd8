/** Once the tracee stops writing, the engine drains the rings and comes to rest,
    blocked on an empty socket. */
module Converge {
  import opened Ring
  import opened Machine
  import opened Safety
  import opened Handshake
  import opened Window

  // ---- Quiet passes ----

  ghost predicate NothingFresh(s: State)
    requires Shaped(s)
  {
    forall i, j :: 0 <= i < s.max && 0 <= j < 8 ==> !Fresh(s, i, j)
  }

  ghost predicate SlotSwept(s: State, i: nat, j: nat)
    requires Shaped(s) && i < s.max && j < 8
  {
    Passed(s.at, i, j) ==> !Fresh(s, i, j)
  }

  /** The current scan began after the writers went quiet. */
  ghost predicate Sweeping(s: State)
    requires Shaped(s)
  {
    && WritersQuiet(s)
    && (forall i, j :: 0 <= i < s.max && 0 <= j < 8 ==> SlotSwept(s, i, j))
    && (s.at.Copying? || s.at.Printing? ==> SlotAt(s, s.at.c).seqNo == s.at.seq1)
  }

  lemma QuietSlot(s: State, i: nat, j: nat)
    requires Inv(s) && WritersQuiet(s) && i < s.max && j < 8
    ensures s.stations[i].slots[j].seqNo == 2 * Count(|s.hist[i]|, j)
  {
    if i < |s.owner| { assert TicketHeld(s, i); }
    IdleSlot(s, i, j);
  }

  predicate Scanning(at: Control) {
    at.LoadCount? || at.Visit? || at.Copying? || at.Printing?
  }

  /** When the count is loaded, a station beyond it has nothing to harvest. */
  lemma CountSweepsSlot(s: State, wake: Wake, i: nat, j: nat)
    requires Inv(s) && s.at.LoadCount? && i < s.max && j < 8
    ensures SlotSwept(ReaderStep(s, wake), i, j)
  {
    assert StationOk(s, i) && SeenOk(s, i, j);
  }

  lemma SweepSlot(s: State, wake: Wake, i: nat, j: nat)
    requires Inv(s) && Sweeping(s) && Scanning(s.at) && i < s.max && j < 8
    ensures SlotSwept(ReaderStep(s, wake), i, j)
  {
    if s.at.LoadCount? {
      CountSweepsSlot(s, wake, i, j);
    } else {
      var r := ReaderStep(s, wake);
      var c := s.at.c;
      assert SlotSwept(s, i, j);
      QuietSlot(s, c.i, c.j);
      if Passed(r.at, i, j) && !Passed(s.at, i, j) {
        PassedNext(if s.at.Printing? then c.(got := c.got + 1) else c, i, j);
      }
    }
  }

  lemma SweepStep(s: State, wake: Wake)
    requires Inv(s) && Sweeping(s) && Scanning(s.at)
    ensures Inv(ReaderStep(s, wake)) && Sweeping(ReaderStep(s, wake))
  {
    ReaderKeeps(s, wake);
    ReaderFrame(s, wake);
    forall i, j | 0 <= i < s.max && 0 <= j < 8 ensures SlotSwept(ReaderStep(s, wake), i, j) {
      SweepSlot(s, wake, i, j);
    }
  }

  // ---- The measure ----

  /** Sequence numbers of one station, of all stations, that the engine has yet to catch up with. */
  ghost function BehindIn(s: State, i: nat, m: nat): (n: int)
    requires Shaped(s) && i < s.max && m <= 8
  {
    if m == 0 then 0 else BehindIn(s, i, m - 1) + 2 * Count(|s.hist[i]|, m - 1) - s.seen[i][m - 1]
  }

  ghost function Behind(s: State, m: nat): (n: int)
    requires Shaped(s) && m <= s.max
  {
    if m == 0 then 0 else Behind(s, m - 1) + BehindIn(s, m - 1, 8)
  }

  lemma {:induction false} BehindInFrame(s: State, r: State, i: nat, m: nat)
    requires Shaped(s) && Shaped(r) && s.max == r.max && i < s.max && m <= 8 && s.hist[i] == r.hist[i]
    requires forall j :: 0 <= j < m ==> s.seen[i][j] == r.seen[i][j]
    ensures BehindIn(r, i, m) == BehindIn(s, i, m)
  {
    if m > 0 { BehindInFrame(s, r, i, m - 1); }
  }

  lemma {:induction false} BehindInDrops(s: State, r: State, i: nat, j: nat, m: nat)
    requires Shaped(s) && Shaped(r) && s.max == r.max && i < s.max && j < m <= 8 && s.hist[i] == r.hist[i]
    requires forall l :: 0 <= l < 8 && l != j ==> s.seen[i][l] == r.seen[i][l]
    requires s.seen[i][j] < r.seen[i][j]
    ensures BehindIn(r, i, m) < BehindIn(s, i, m)
  {
    if m - 1 == j { BehindInFrame(s, r, i, j); } else { BehindInDrops(s, r, i, j, m - 1); }
  }

  lemma {:induction false} BehindFrame(s: State, r: State, m: nat)
    requires Shaped(s) && Shaped(r) && s.max == r.max && m <= s.max
    requires forall i :: 0 <= i < m ==> s.hist[i] == r.hist[i] && s.seen[i] == r.seen[i]
    ensures Behind(r, m) == Behind(s, m)
  {
    if m > 0 { BehindFrame(s, r, m - 1); BehindInFrame(s, r, m - 1, 8); }
  }

  lemma {:induction false} BehindDrops(s: State, r: State, i: nat, j: nat, m: nat)
    requires Shaped(s) && Shaped(r) && s.max == r.max && i < m <= s.max && j < 8 && s.hist == r.hist
    requires forall l :: 0 <= l < s.max && l != i ==> s.seen[l] == r.seen[l]
    requires forall l :: 0 <= l < 8 && l != j ==> s.seen[i][l] == r.seen[i][l]
    requires s.seen[i][j] < r.seen[i][j]
    ensures Behind(r, m) < Behind(s, m)
  {
    if m - 1 == i { BehindFrame(s, r, i); BehindInDrops(s, r, i, j, 8); }
    else { BehindDrops(s, r, i, j, m - 1); BehindInFrame(s, r, m - 1, 8); }
  }

  lemma {:induction false} BehindInBound(s: State, i: nat, m: nat)
    requires Inv(s) && i < s.max && m <= 8
    ensures BehindIn(s, i, m) >= 0
  {
    if m > 0 { BehindInBound(s, i, m - 1); assert SeenOk(s, i, m - 1); }
  }

  lemma {:induction false} BehindBound(s: State, m: nat)
    requires Inv(s) && m <= s.max
    ensures Behind(s, m) >= 0
  {
    if m > 0 { BehindBound(s, m - 1); BehindInBound(s, m - 1, 8); }
  }

  /** Steps a scan may still take: seven per slot left. */
  function ScanRank(at: Control): (n: int)
    requires at.Visit? || at.Copying? || at.Printing?
  {
    7 * (8 * (at.c.limit - at.c.i) - at.c.j - 1)
    + (match at
       case Visit(_) => 6
       case Copying(_, _, n, _) => 5 - n
       case _ => 0)
  }

  /** Steps of the loop from here to a blocked read, if no scan harvests anything more. */
  function LoopRank(max: nat, at: Control): (n: int) {
    var full := 56 * max + 1;
    match at
    case Blocked => 0
    case LoadCount(kind) => if kind.Rescan? then 2 + full else 6 + 2 * full
    case Scanned(kind, got) => if got > 0 then 8 + 2 * full else if kind.Rescan? then 1 else 5 + full
    case Flushing => 4 + full
    case Arming => 3 + full
    case Disarming => 7 + 2 * full
    case Waking => 7 + 2 * full
    case LastFlush => 0
    case Returned => 0
    case _ =>
      ScanRank(at) + (if at.c.got > 0 then 9 + 2 * full else if at.c.kind.Rescan? then 2 else 6 + full)
  }

  /** On the way out after the peer hung up. */
  predicate Leaving(at: Control) {
    match at
    case LoadCount(kind) => kind.Last?
    case Visit(c) => c.kind.Last?
    case Copying(c, _, _, _) => c.kind.Last?
    case Printing(c, _, _) => c.kind.Last?
    case Scanned(kind, _) => kind.Last?
    case LastFlush => true
    case Returned => true
    case _ => false
  }

  ghost predicate Resting(s: State) {
    s.at.Blocked? && s.bytes == 0
  }

  lemma RankBound(s: State)
    requires Shaped(s) && ReaderOk(s)
    ensures LoopRank(s.max, s.at) >= 0
  {
  }

  /** A step inside a scan that does not print brings the scan's end nearer. */
  lemma ScanNearer(s: State, wake: Wake)
    requires Shaped(s) && ReaderOk(s) && Scanning(s.at)
    ensures var r := ReaderStep(s, wake);
      r.at.Scanned? || (Scanning(r.at) && !r.at.LoadCount? && 0 <= ScanRank(r.at) < (if s.at.LoadCount? then 56 * s.max + 1 else ScanRank(s.at)))
  {
  }

  lemma RankDrops(s: State, wake: Wake)
    requires Shaped(s) && ReaderOk(s) && !Leaving(s.at) && !s.at.Printing? && !s.at.Blocked?
    ensures var r := ReaderStep(s, wake); !Leaving(r.at) && r.bytes == s.bytes && LoopRank(s.max, r.at) < LoopRank(s.max, s.at)
  {
    if Scanning(s.at) { ScanNearer(s, wake); }
  }

  lemma DataEmpties(s: State)
    requires Shaped(s) && s.at.Blocked? && s.bytes > 0
    ensures ReaderStep(s, Data).bytes < s.bytes && ReaderStep(s, Data).at.Waking?
  {
  }

  /** Every step of the engine short of rest: something more is harvested, or bytes are
      read, or the loop gets closer to its blocked read. */
  lemma Progress(s: State, wake: Wake)
    requires Inv(s) && !Leaving(s.at) && !Resting(s) && (s.at.Blocked? ==> wake.Data?)
    ensures var r := ReaderStep(s, wake);
      && !Leaving(r.at)
      && (Behind(r, s.max) < Behind(s, s.max)
          || (Behind(r, s.max) == Behind(s, s.max)
              && (r.bytes < s.bytes || (r.bytes == s.bytes && LoopRank(s.max, r.at) < LoopRank(s.max, s.at)))))
  {
    var r := ReaderStep(s, wake);
    ReaderFrame(s, wake);
    if s.at.Printing? {
      BehindDrops(s, r, s.at.c.i, s.at.c.j, s.max);
    } else {
      OnlyPrintingLogs(s, wake);
      BehindFrame(s, r, s.max);
      if s.at.Blocked? { DataEmpties(s); } else { RankDrops(s, wake); }
    }
  }

  // ---- Convergence ----

  ghost predicate StepAt(t: nat -> State, wakes: nat -> Wake, n: nat) {
    Shaped(t(n)) && t(n + 1) == ReaderStep(t(n), wakes(n))
  }

  /** `t` is the engine running alone, its blocked reads ending as `wakes` says. */
  ghost predicate Alone(t: nat -> State, wakes: nat -> Wake) {
    forall n: nat :: StepAt(t, wakes, n)
  }

  ghost function Drive(s: State, wakes: nat -> Wake, n: nat): (r: State)
    ensures Shaped(s) ==> Shaped(r)
  {
    if n == 0 || !Shaped(s) then s else ReaderStep(Drive(s, wakes, n - 1), wakes(n - 1))
  }

  /** The engine can run alone from any state. */
  lemma RunsAlone(s: State, wakes: nat -> Wake) returns (t: nat -> State)
    requires Shaped(s)
    ensures t(0) == s && Alone(t, wakes)
  {
    t := (n: nat) => Drive(s, wakes, n);
    forall n: nat ensures StepAt(t, wakes, n) {}
  }

  /** A blocked read does not end by the peer hanging up. */
  ghost predicate ConnectedAt(t: nat -> State, wakes: nat -> Wake, n: nat) {
    t(n).at.Blocked? ==> !wakes(n).Hangup?
  }

  ghost predicate StaysConnected(t: nat -> State, wakes: nat -> Wake) {
    forall n: nat :: ConnectedAt(t, wakes, n)
  }

  /** With the tracee silent the flag stays up from arming to the blocked read. */
  ghost predicate FlagUp(s: State) {
    Armed(s.at) ==> s.sleeping
  }

  /** Still in the loop, and the tracee has not moved since `s`. */
  ghost predicate Waits(s: State, r: State) {
    Good(r) && !Leaving(r.at) && r.probes == s.probes && r.hist == s.hist && r.max == s.max && r.bytes <= s.bytes
  }

  lemma EngineStepWaits(s: State, wake: Wake)
    requires Good(s) && !Leaving(s.at) && (s.at.Blocked? ==> !wake.Hangup?)
    ensures var r := ReaderStep(s, wake); Waits(s, r) && (FlagUp(s) ==> FlagUp(r))
  {
    StepGood(s, Reader(wake));
    ReaderFrame(s, wake);
    match s.at {
      case LoadCount(_) =>
      case Visit(_) =>
      case Copying(_, _, _, _) =>
      case Printing(_, _, _) =>
      case Scanned(_, _) =>
      case Blocked =>
      case _ =>
    }
  }

  lemma {:induction false} AllWait(t: nat -> State, wakes: nat -> Wake, m: nat, n: nat)
    requires Alone(t, wakes) && StaysConnected(t, wakes) && Good(t(m)) && !Leaving(t(m).at) && m <= n
    ensures Waits(t(m), t(n))
    decreases n
  {
    if m < n {
      AllWait(t, wakes, m, n - 1);
      assert StepAt(t, wakes, n - 1) && ConnectedAt(t, wakes, n - 1);
      EngineStepWaits(t(n - 1), wakes(n - 1));
    }
  }

  lemma BlockNearer(s: State, wake: Wake)
    requires Good(s) && !Leaving(s.at) && !s.at.Blocked?
    ensures var r := ReaderStep(s, wake);
      && Behind(s, s.max) >= 0 && LoopRank(s.max, s.at) >= 0
      && (Behind(r, s.max) < Behind(s, s.max)
          || (Behind(r, s.max) == Behind(s, s.max) && LoopRank(s.max, r.at) < LoopRank(s.max, s.at)))
  {
    Progress(s, wake);
    BehindBound(s, s.max);
    RankBound(s);
    if !s.at.Printing? { RankDrops(s, wake); }
  }

  /** The engine comes to a blocked read, whatever it is doing. */
  lemma {:induction false} NextBlock(t: nat -> State, wakes: nat -> Wake, m: nat) returns (n: nat)
    requires Alone(t, wakes) && Good(t(m)) && !Leaving(t(m).at)
    ensures m <= n && t(n).at.Blocked? && Waits(t(m), t(n)) && (FlagUp(t(m)) ==> FlagUp(t(n)))
    decreases Behind(t(m), t(m).max), LoopRank(t(m).max, t(m).at)
  {
    if t(m).at.Blocked? {
      n := m;
    } else {
      assert StepAt(t, wakes, m);
      EngineStepWaits(t(m), wakes(m));
      BlockNearer(t(m), wakes(m));
      n := NextBlock(t, wakes, m + 1);
    }
  }

  /** A blocked read that found the flag down has a byte to return; by data or by deadline, the
      engine goes back to its scans. */
  lemma Unblocks(s: State, wake: Wake)
    requires Good(s) && s.at.Blocked? && !s.sleeping && WritersQuiet(s) && !wake.Hangup?
    ensures FlagUp(ReaderStep(s, wake))
  {
    assert Signalled(s);
  }

  /** The engine comes to a blocked read with the flag up, after one more turn if need be. */
  lemma NextWatch(t: nat -> State, wakes: nat -> Wake) returns (n: nat)
    requires Alone(t, wakes) && StaysConnected(t, wakes) && Good(t(0)) && !Leaving(t(0).at) && WritersQuiet(t(0))
    ensures t(n).at.Blocked? && t(n).sleeping && Waits(t(0), t(n))
  {
    n := NextBlock(t, wakes, 0);
    if !t(n).sleeping {
      assert StepAt(t, wakes, n) && ConnectedAt(t, wakes, n);
      EngineStepWaits(t(n), wakes(n));
      Unblocks(t(n), wakes(n));
      n := NextBlock(t, wakes, n + 1);
    }
  }

  /** Nothing to harvest, nothing in hand, nothing to flush. */
  ghost predicate Drained(s: State) {
    Inv(s) && WritersQuiet(s) && NothingFresh(s) && s.flushed == |s.log| && !s.at.Copying? && !s.at.Printing?
  }

  lemma QuietIsDrained(s: State)
    requires Good(s) && s.at.Blocked? && (s.sleeping || s.bytes == 0) && WritersQuiet(s)
    ensures Drained(s)
  {
    forall i, j | 0 <= i < s.max && 0 <= j < 8 ensures !Fresh(s, i, j) {
      assert SlotCovered(s, i, j) && StationOk(s, i);
    }
  }

  /** Quiescent convergence: from any reachable state in which the writers have stopped, in
      whatever phase the engine is and whatever the flag, and whether its reads end by data or by
      their deadline, the engine comes to a blocked read with the flag up, nothing left
      unharvested and everything on disk. */
  lemma QuiescentConvergence(t: nat -> State, wakes: nat -> Wake) returns (n: nat)
    requires Reachable(t(0)) && WritersQuiet(t(0)) && !Leaving(t(0).at)
    requires Alone(t, wakes) && StaysConnected(t, wakes)
    ensures t(n).at.Blocked? && t(n).sleeping && t(n).hist == t(0).hist && Shaped(t(n))
    ensures NothingFresh(t(n)) && t(n).flushed == |t(n).log|
    ensures forall i, k :: 0 <= i < |t(n).hist| && 0 <= k < |t(n).hist[i]| <= k + 8 ==> Logged(t(n).log, i, k)
  {
    AlwaysGood(t(0));
    n := NextWatch(t, wakes);
    QuietIsDrained(t(n));
    DrainedIsLogged(t(n));
  }

  lemma DrainedStays(s: State, wake: Wake)
    requires Drained(s)
    ensures var r := ReaderStep(s, wake); Drained(r) && r.log == s.log && r.hist == s.hist
  {
    var r := ReaderStep(s, wake);
    ReaderKeeps(s, wake);
    ReaderFrame(s, wake);
    OnlyPrintingLogs(s, wake);
    if s.at.Visit? {
      QuietSlot(s, s.at.c.i, s.at.c.j);
      assert !Fresh(s, s.at.c.i, s.at.c.j);
    }
    forall i, j | 0 <= i < r.max && 0 <= j < 8 ensures !Fresh(r, i, j) { assert !Fresh(s, i, j); }
  }

  /** What convergence reaches is final: however the engine goes on, a hang-up included, it logs
      nothing more and leaves nothing unflushed. */
  lemma {:induction false} RestIsFinal(t: nat -> State, wakes: nat -> Wake, m: nat, n: nat)
    requires Alone(t, wakes) && Drained(t(m)) && m <= n
    ensures Drained(t(n)) && t(n).log == t(m).log
    decreases n
  {
    if m < n {
      RestIsFinal(t, wakes, m, n - 1);
      assert StepAt(t, wakes, n - 1);
      DrainedStays(t(n - 1), wakes(n - 1));
    }
  }

  /** The socket is empty, or the read it is blocked on returns data. */
  ghost predicate DataAt(t: nat -> State, wakes: nat -> Wake, m: nat) {
    t(m).bytes == 0 || (t(m).at.Blocked? && wakes(m).Data?)
  }

  ghost predicate DataSince(t: nat -> State, wakes: nat -> Wake, n: nat) {
    exists m: nat :: m >= n && DataAt(t, wakes, m)
  }

  /** Reads of a socket that holds bytes do not end by their deadline for ever. */
  ghost predicate Fair(t: nat -> State, wakes: nat -> Wake) {
    forall n: nat :: DataSince(t, wakes, n)
  }

  lemma {:induction false} RunsEmpty(t: nat -> State, wakes: nat -> Wake, from: nat) returns (n: nat)
    requires Alone(t, wakes) && StaysConnected(t, wakes) && Fair(t, wakes) && Good(t(from)) && !Leaving(t(from).at)
    ensures n >= from && t(n).bytes == 0
    decreases t(from).bytes
  {
    assert DataSince(t, wakes, from);
    n :| n >= from && DataAt(t, wakes, n);
    AllWait(t, wakes, from, n);
    if t(n).bytes > 0 {
      AllWait(t, wakes, from, n + 1);
      assert StepAt(t, wakes, n);
      DataEmpties(t(n));
      n := RunsEmpty(t, wakes, n + 1);
    }
  }

  lemma EmptyStaysFair(t: nat -> State, wakes: nat -> Wake, n: nat)
    requires Alone(t, wakes) && StaysConnected(t, wakes) && Good(t(0)) && !Leaving(t(0).at) && t(n).bytes == 0
    ensures Fair(t, wakes)
  {
    AllWait(t, wakes, 0, n);
    forall l: nat ensures DataSince(t, wakes, l) {
      var m := if l > n then l else n;
      AllWait(t, wakes, n, m);
      assert DataAt(t, wakes, m);
    }
  }

  /** Rest, with its exact condition: once writers stop, the engine comes to a blocked read on an
      empty socket if and only if its reads of a non-empty socket do not end by their deadline for
      ever; and when it does, everything is harvested and on disk. */
  lemma RestsIffFair(t: nat -> State, wakes: nat -> Wake)
    requires Reachable(t(0)) && WritersQuiet(t(0)) && !Leaving(t(0).at)
    requires Alone(t, wakes) && StaysConnected(t, wakes)
    ensures Fair(t, wakes) <==> exists n: nat :: Resting(t(n))
    ensures forall n: nat :: Resting(t(n)) ==> Drained(t(n))
  {
    AlwaysGood(t(0));
    if Fair(t, wakes) {
      var m := RunsEmpty(t, wakes, 0);
      AllWait(t, wakes, 0, m);
      var n := NextBlock(t, wakes, m);
      assert Resting(t(n));
    }
    if n: nat :| Resting(t(n)) { EmptyStaysFair(t, wakes, n); }
    forall n: nat | Resting(t(n)) ensures Drained(t(n)) {
      AllWait(t, wakes, 0, n);
      QuietIsDrained(t(n));
    }
  }

  // ---- One pass is enough ----

  function KindOf(at: Control): Kind
    requires Scanning(at)
  {
    if at.LoadCount? then at.kind else at.c.kind
  }

  lemma ScanKeepsKind(s: State, wake: Wake)
    requires Shaped(s) && Scanning(s.at)
    ensures var r := ReaderStep(s, wake);
      if r.at.Scanned? then r.at.kind == KindOf(s.at) else Scanning(r.at) && KindOf(r.at) == KindOf(s.at)
  {
  }

  lemma SweptClean(s: State)
    requires Shaped(s) && Sweeping(s) && s.at.Scanned?
    ensures NothingFresh(s)
  {
    forall i, j | 0 <= i < s.max && 0 <= j < 8 ensures !Fresh(s, i, j) { assert SlotSwept(s, i, j); }
  }

  lemma {:induction false} ScanEnds(s: State) returns (acts: seq<Action>)
    requires Inv(s) && Sweeping(s) && Scanning(s.at)
    ensures forall a :: 0 <= a < |acts| ==> acts[a].Reader?
    ensures var r := Run(s, acts);
      && Inv(r) && NothingFresh(r) && r.hist == s.hist && r.at.Scanned? && r.at.kind == KindOf(s.at)
    decreases if s.at.LoadCount? then 56 * s.max + 1 else ScanRank(s.at)
  {
    var r := ReaderStep(s, Data);
    SweepStep(s, Data);
    assert r.hist == s.hist by { ReaderFrame(s, Data); }
    ScanNearer(s, Data);
    ScanKeepsKind(s, Data);
    var rest := [];
    if r.at.Scanned? { SweptClean(r); } else { rest := ScanEnds(r); }
    RunCons(s, Reader(Data), rest);
    acts := [Reader(Data)] + rest;
  }

  /** Once the writers have stopped, one full pass leaves the last eight events of every
      station, or all of them if there are fewer, in the log. */
  lemma OnePassIsEnough(s: State) returns (acts: seq<Action>)
    requires Reachable(s) && Shaped(s) && WritersQuiet(s) && s.at.LoadCount?
    ensures forall a :: 0 <= a < |acts| ==> acts[a].Reader?
    ensures var r := Run(s, acts);
      && r.at.Scanned? && r.at.kind == s.at.kind && r.hist == s.hist
      && (forall i, k :: 0 <= i < s.max && 0 <= k < |s.hist[i]| <= k + 8 ==> Logged(r.log, i, k))
  {
    Always(s);
    acts := ScanEnds(s);
    DrainedIsLogged(Run(s, acts));
  }

  // ---- A pass with writers running ----

  /** A stretch from inside a scan to its end, whatever the tracee does between the engine's steps. */
  ghost predicate InPass(s: State, acts: seq<Action>)
    requires Shaped(s)
    decreases |acts|
  {
    if acts == [] then s.at.Scanned? else Scanning(s.at) && InPass(Step(s, acts[0]), acts[1..])
  }

  /** Event `k` is held, or the scan has yet to look at its slot. */
  ghost predicate OnTrail(s: State, i: nat, k: nat)
    requires Shaped(s) && i < s.max
  {
    || Held(s, i, k)
    || (k < |s.hist[i]| && Scanning(s.at) && (s.at.LoadCount? || (i < s.at.c.limit && !Looked(s.at, i, k % 8))))
  }

  /** A scan does not end before it has looked at all slots of all stations below its limit. */
  lemma EndHasLooked(s: State, wake: Wake, i: nat, j: nat)
    requires Shaped(s) && Scanning(s.at) && !s.at.LoadCount? && i < s.at.c.limit && j < 8
    ensures var r := ReaderStep(s, wake);
      if r.at.Scanned? then Looked(s.at, i, j) || Looks(s.at, i, j) else Scanning(r.at) && !r.at.LoadCount? && r.at.c.limit == s.at.c.limit
  {
  }

  /** The loaded count covers every station that has events. */
  lemma CountCovers(s: State, wake: Wake, i: nat)
    requires Inv(s) && s.at.LoadCount? && i < s.max && s.hist[i] != []
    ensures var r := ReaderStep(s, wake); r.at.Visit? && i < r.at.c.limit && r.at.c.i == r.at.c.j == 0 && r.hist == s.hist
  {
    assert StationOk(s, i);
  }

  lemma EngineOnTrail(s: State, wake: Wake, i: nat, k: nat)
    requires Inv(s) && Scanning(s.at) && i < s.max && OnTrail(s, i, k)
    ensures OnTrail(ReaderStep(s, wake), i, k)
  {
    var r := ReaderStep(s, wake);
    if Held(s, i, k) {
      HeldStays(s, Reader(wake), i, k);
    } else if s.at.LoadCount? {
      CountCovers(s, wake, i);
    } else if Looks(s.at, i, k % 8) {
      FirstLoadHolds(s, wake, k);
    } else {
      ReaderFrame(s, wake);
      EndHasLooked(s, wake, i, k % 8);
      if Looked(r.at, i, k % 8) { LooksOnce(s, wake, i, k % 8); }
    }
  }

  lemma TraceeOnTrail(s: State, a: Action, i: nat, k: nat)
    requires Inv(s) && i < s.max && !a.Reader? && OnTrail(s, i, k)
    ensures OnTrail(Step(s, a), i, k)
  {
    StepKeeps(s, a);
    assert StationLater(s, Step(s, a), i);
    if Held(s, i, k) { HeldStays(s, a, i, k); }
  }

  lemma {:induction false} PassOnTrail(s: State, acts: seq<Action>, i: nat, k: nat)
    requires Inv(s) && i < s.max && OnTrail(s, i, k) && InPass(s, acts)
    ensures var r := Run(s, acts); Inv(r) && (Logged(r.log, i, k) || Started(r, i) > k + 8)
    decreases |acts|
  {
    if acts != [] {
      StepKeeps(s, acts[0]);
      if acts[0].Reader? { EngineOnTrail(s, acts[0].wake, i, k); } else { TraceeOnTrail(s, acts[0], i, k); }
      PassOnTrail(Step(s, acts[0]), acts[1..], i, k);
    }
  }

  /** One pass catches or loses: however writers interleave with it, every event complete when a
      pass begins is in the log when it ends, or its slot has been taken for the event eight later. */
  lemma PassCatchesOrLoses(s: State, acts: seq<Action>, i: nat, k: nat)
    requires Reachable(s) && Shaped(s) && s.at.LoadCount? && InPass(s, acts) && i < s.max && k < |s.hist[i]|
    ensures var r := Run(s, acts); Logged(r.log, i, k) || Started(r, i) > k + 8
  {
    Always(s);
    PassOnTrail(s, acts, i, k);
  }

  /** How many of the steps are the engine's. */
  function EngineSteps(acts: seq<Action>): (n: nat) {
    if acts == [] then 0 else (if acts[0].Reader? then 1 else 0) + EngineSteps(acts[1..])
  }

  /** The engine's steps to the end of its scan. */
  function PassRank(s: State): (n: int)
    requires Scanning(s.at)
  {
    if s.at.LoadCount? then 56 * s.max + 2 else ScanRank(s.at) + 1
  }

  /** A scan is over after a bounded number of the engine's own steps. */
  lemma {:induction false} PassEnds(s: State, acts: seq<Action>) returns (m: nat)
    requires Inv(s) && Scanning(s.at) && EngineSteps(acts) >= PassRank(s)
    ensures m <= |acts| && InPass(s, acts[..m])
    decreases |acts|
  {
    if !s.at.LoadCount? { RankPositive(s.at, s.max); }
    var r := Step(s, acts[0]);
    StepKeeps(s, acts[0]);
    if acts[0].Reader? { ScanNearer(s, acts[0].wake); }
    if r.at.Scanned? {
      m := 0;
    } else {
      m := PassEnds(r, acts[1..]);
    }
    m := m + 1;
    assert acts[..m][1..] == acts[1..][..m - 1];
  }

  lemma RankPositive(at: Control, max: nat)
    requires Scanning(at) && !at.LoadCount? && at.c.i < at.c.limit && at.c.j < 8 && (at.Copying? ==> at.n <= 4)
    ensures ScanRank(at) >= 0
  {
  }

  /** A run from inside a scan to the end of one has a first end. */
  lemma {:induction false} FirstEnd(s: State, acts: seq<Action>) returns (m: nat)
    requires Inv(s) && Scanning(s.at) && Run(s, acts).at.Scanned?
    ensures m <= |acts| && InPass(s, acts[..m])
    decreases |acts|
  {
    var r := Step(s, acts[0]);
    StepKeeps(s, acts[0]);
    if acts[0].Reader? { ScanNearer(s, acts[0].wake); }
    if r.at.Scanned? {
      m := 0;
    } else {
      m := FirstEnd(r, acts[1..]);
    }
    m := m + 1;
    assert acts[..m][1..] == acts[1..][..m - 1];
  }

  lemma {:induction false} RunStartedGrows(s: State, acts: seq<Action>, i: nat)
    requires Inv(s) && i < s.max
    ensures Started(s, i) <= Started(Run(s, acts), i)
    decreases |acts|
  {
    if acts != [] {
      StartedGrows(s, acts[0], i);
      StepKeeps(s, acts[0]);
      RunStartedGrows(Step(s, acts[0]), acts[1..], i);
    }
  }

  lemma LoggedStays(s: State, acts: seq<Action>, i: nat, k: nat)
    requires Inv(s) && Logged(s.log, i, k)
    ensures Logged(Run(s, acts).log, i, k)
  {
    RunGrows(s, acts);
    var e :| e in s.log && Names(e, i, k);
    assert e in Run(s, acts).log;
  }

  /** Caught or lost in bounded time: once the engine has taken 56 steps per station and two more
      from the beginning of a pass, however many steps of writers lie between them, every event that
      was complete at that beginning is in the log or overwritten. */
  lemma CaughtOrLostInTime(s: State, acts: seq<Action>, i: nat, k: nat)
    requires Reachable(s) && Shaped(s) && s.at.LoadCount? && i < s.max && k < |s.hist[i]|
    requires EngineSteps(acts) >= 56 * s.max + 2
    ensures var r := Run(s, acts); Logged(r.log, i, k) || Started(r, i) > k + 8
  {
    Always(s);
    var m := PassEnds(s, acts);
    PassOnTrail(s, acts[..m], i, k);
    RunsOn(s, acts, m);
    CaughtOrLostStays(Run(s, acts[..m]), acts[m..], i, k);
  }

  lemma RunsOn(s: State, acts: seq<Action>, m: nat)
    requires Shaped(s) && m <= |acts|
    ensures Run(s, acts) == Run(Run(s, acts[..m]), acts[m..])
  {
    assert acts == acts[..m] + acts[m..];
    RunConcat(s, acts[..m], acts[m..]);
  }

  lemma CaughtOrLostStays(s: State, acts: seq<Action>, i: nat, k: nat)
    requires Inv(s) && i < s.max && (Logged(s.log, i, k) || Started(s, i) > k + 8)
    ensures var r := Run(s, acts); Logged(r.log, i, k) || Started(r, i) > k + 8
  {
    RunStartedGrows(s, acts, i);
    if Logged(s.log, i, k) { LoggedStays(s, acts, i, k); }
  }

  /** Any run from the beginning of a scan to the end of one catches or loses every event that was
      complete when it began. */
  lemma ScanCatchesOrLoses(s: State, acts: seq<Action>, i: nat, k: nat)
    requires Inv(s) && s.at.LoadCount? && Run(s, acts).at.Scanned? && i < s.max && k < |s.hist[i]|
    ensures var r := Run(s, acts); Logged(r.log, i, k) || Started(r, i) > k + 8
  {
    var m := FirstEnd(s, acts);
    PassOnTrail(s, acts[..m], i, k);
    RunsOn(s, acts, m);
    CaughtOrLostStays(Run(s, acts[..m]), acts[m..], i, k);
  }
}
