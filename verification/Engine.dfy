/** The engine as the program it is: `Harvest`, `doScan` and the hot loop over
    memory that another process changes between any two accesses. Every
    execution of these methods is a run of the machine, so everything proved of
    the machine's runs holds of them. */
module Engine {
  import opened Machine
  import opened Safety
  import opened Window
  import opened Converge
  import opened Accounts

  predicate TraceeOnly(acts: seq<Action>) {
    forall a :: 0 <= a < |acts| ==> !acts[a].Reader?
  }

  /** The engine's own books. */
  datatype Ledger = Ledger(seen: seq<seq<nat>>, log: seq<Entry>, flushed: nat, armings: nat)

  /** The state with the engine's own part replaced. */
  function With(s: State, at: Control, l: Ledger): (r: State) {
    s.(at := at, seen := l.seen, log := l.log, flushed := l.flushed, armings := l.armings)
  }

  /** The tracee acts the same whatever the engine's books say. */
  lemma WriterIgnoresEngine(s: State, p: nat, d: Payload, at: Control, l: Ledger)
    requires Shaped(s) && Shaped(With(s, at, l)) && p < |s.probes|
    ensures With(WriterStep(s, p, d), at, l) == WriterStep(With(s, at, l), p, d)
  {
    match s.probes[p].at {
      case Born =>
      case Detached =>
      case Naming =>
      case Published =>
      case Saw =>
      case Won =>
      case _ =>
    }
  }

  lemma StepIgnoresEngine(s: State, a: Action, at: Control, l: Ledger)
    requires Shaped(s) && Shaped(With(s, at, l)) && !a.Reader?
    ensures With(Step(s, a), at, l) == Step(With(s, at, l), a)
  {
    if a.Writer? && a.p < |s.probes| {
      WriterIgnoresEngine(s, a.p, a.d, at, l);
    }
  }

  lemma {:induction false} TraceeIgnoresEngine(s: State, acts: seq<Action>, at: Control, l: Ledger)
    requires Shaped(s) && Shaped(With(s, at, l)) && TraceeOnly(acts)
    ensures With(Run(s, acts), at, l) == Run(With(s, at, l), acts)
    decreases |acts|
  {
    if acts != [] {
      StepIgnoresEngine(s, acts[0], at, l);
      TraceeIgnoresEngine(Step(s, acts[0]), acts[1..], at, l);
    }
  }

  /** Before station `i` of a scan, or past the last one. */
  function AtStation(kind: Kind, limit: nat, got: nat, i: nat): (at: Control) {
    if i < limit then Visit(Scan(kind, limit, got, i, 0)) else Scanned(kind, got)
  }

  /** Before slot `j` of a station, or past the last one. */
  function AtSlot(c: Scan): (at: Control) {
    if c.j < 8 then Visit(c) else AtStation(c.kind, c.limit, c.got, c.i + 1)
  }

  lemma NextSlotIsAt(c: Scan)
    requires c.j < 8
    ensures NextSlot(c) == AtSlot(c.(j := c.j + 1))
  {
  }

  /** Of the events of `hist` every one is in the log or its slot has been taken for the event eight
      later. */
  ghost predicate Accounted(s: State, hist: seq<seq<Payload>>) {
    Shaped(s) && |hist| == s.max &&
    forall i, k :: 0 <= i < s.max && 0 <= k < |hist[i]| ==> Logged(s.log, i, k) || Started(s, i) > k + 8
  }

  lemma InvOf(max: nat, cap: nat, acts: seq<Action>, s: State)
    requires cap >= 1 && Traced(max, cap, acts, s)
    ensures Inv(s)
  {
    assert Reachable(s);
    Always(s);
  }

  /** The run that leads from one state of a trace to a later one. */
  lemma Stretch(max: nat, cap: nat, xs: seq<Action>, s: State, ys: seq<Action>, r: State)
    requires Shaped(s) && Traced(max, cap, xs, s) && Traced(max, cap, ys, r) && xs <= ys
    ensures r == Run(s, ys[|xs|..])
  {
    LeadsRun(Init(max, cap), xs, s);
    LeadsRun(Init(max, cap), ys, r);
    RunsOn(Init(max, cap), ys, |xs|);
    assert ys[..|xs|] == xs;
  }

  /** From the beginning of a scan to the end of one. */
  lemma ScanAccounts(max: nat, cap: nat, xs: seq<Action>, s: State, ys: seq<Action>, r: State)
    requires cap >= 1 && Traced(max, cap, xs, s) && Traced(max, cap, ys, r) && xs <= ys && s.at.LoadCount? && r.at.Scanned?
    ensures Accounted(r, s.hist)
  {
    InvOf(max, cap, xs, s);
    InvOf(max, cap, ys, r);
    Stretch(max, cap, xs, s, ys, r);
    var acts := ys[|xs|..];
    forall i, k | 0 <= i < s.max && 0 <= k < |s.hist[i]| ensures Logged(r.log, i, k) || Started(r, i) > k + 8 {
      ScanCatchesOrLoses(s, acts, i, k);
    }
  }

  /** What is accounted for stays so. */
  lemma AccountedStays(max: nat, cap: nat, xs: seq<Action>, s: State, ys: seq<Action>, r: State, hist: seq<seq<Payload>>)
    requires cap >= 1 && Traced(max, cap, xs, s) && Traced(max, cap, ys, r) && xs <= ys && Accounted(s, hist)
    ensures Accounted(r, hist)
  {
    InvOf(max, cap, xs, s);
    InvOf(max, cap, ys, r);
    Stretch(max, cap, xs, s, ys, r);
    var acts := ys[|xs|..];
    forall i, k | 0 <= i < s.max && 0 <= k < |hist[i]| ensures Logged(r.log, i, k) || Started(r, i) > k + 8 {
      CaughtOrLostStays(s, acts, i, k);
    }
  }

  class TracerEngine {
    // The mapped memory and the processes that share it; the engine's part of it is in the fields below.
    var shm: State
    var lastSeen: seq<seq<nat>>
    var log: seq<Entry>
    var flushed: nat
    var armings: nat

    // What the tracee does before each access of the engine, and how each blocked read ends.
    const env: nat -> seq<Action>
    const wakes: nat -> Wake
    var tick: nat

    const max: nat
    const cap: nat
    ghost var trace: seq<Action>
    ghost var readsEnded: nat      // how many blocked reads have ended

    /** The machine state this object is in when control is at `at`. */
    ghost function System(at: Control): State
      reads this
    {
      With(shm, at, Ledger(lastSeen, log, flushed, armings))
    }

    ghost predicate At(at: Control)
      reads this
    {
      && shm.max == max && shm.cap == cap && cap >= 1 && (forall k :: TraceeOnly(env(k)))
      && Traced(max, cap, trace, System(at)) && Sums(Init(max, cap), trace, EndsRead, readsEnded)
    }

    lemma ShapedAt(at: Control)
      requires At(at)
      ensures Shaped(System(at))
    {
      assert System(at) == Run(Init(max, cap), trace);
    }

    /** Whatever these methods do, they stay within the runs of the machine. */
    lemma IsReachable(at: Control)
      requires At(at)
      ensures Reachable(System(at))
    {
    }

    constructor (max: nat, cap: nat, env: nat -> seq<Action>, wakes: nat -> Wake)
      requires cap >= 1 && forall k :: TraceeOnly(env(k))
      ensures At(LoadCount(Hot)) && trace == [] && log == [] && readsEnded == 0 && this.max == max && this.cap == cap
    {
      shm := Init(max, cap);
      lastSeen := seq(max, _ => seq(8, _ => 0));
      log, flushed, armings, tick := [], 0, 0, 0;
      this.env, this.wakes, this.max, this.cap := env, wakes, max, cap;
      trace, readsEnded := [], 0;
    }

    /** The tracee runs, for as long and as far as it likes. */
    method Interfere(ghost at: Control)
      requires At(at)
      modifies `shm, `tick, `trace
      ensures At(at) && Shaped(System(at))
      ensures trace == old(trace) + env(old(tick)) && tick == old(tick) + 1
    {
      ShapedAt(at);
      var acts := env(tick);
      var idle := With(shm, Returned, Ledger(lastSeen, log, flushed, armings));
      TraceeIgnoresEngine(idle, acts, at, Ledger(lastSeen, log, flushed, armings));
      assert System(at) == Run(Init(max, cap), trace);
      RunConcat(Init(max, cap), trace, acts);
      TraceeEndsNoRead(System(at), acts);
      SumsOn(Init(max, cap), trace, System(at), acts, EndsRead, readsEnded, 0);
      shm := Run(idle, acts);
      tick := tick + 1;
      trace := trace + acts;
    }

    /** Books the access just made as one step of the machine. */
    ghost method Took(before: State, at: Control, wake: Wake)
      requires shm.max == max && shm.cap == cap && cap >= 1 && forall k :: TraceeOnly(env(k))
      requires Shaped(before) && Traced(max, cap, trace, before) && System(at) == ReaderStep(before, wake)
      requires Sums(Init(max, cap), trace, EndsRead, readsEnded) && !before.at.Blocked?
      modifies `trace
      ensures At(at) && trace == old(trace) + [Reader(wake)]
    {
      StepBooked(before, wake);
      trace := trace + [Reader(wake)];
    }

    lemma StepBooked(before: State, wake: Wake)
      requires Shaped(before) && Traced(max, cap, trace, before) && Sums(Init(max, cap), trace, EndsRead, readsEnded)
      ensures Traced(max, cap, trace + [Reader(wake)], ReaderStep(before, wake))
      ensures Sums(Init(max, cap), trace + [Reader(wake)], EndsRead, readsEnded + EndsRead(before, Reader(wake)))
    {
      LeadsRun(Init(max, cap), trace, before);
      RunSnoc(Init(max, cap), trace, Reader(wake));
      SumsOne(before, Reader(wake), EndsRead);
      SumsOn(Init(max, cap), trace, before, [Reader(wake)], EndsRead, readsEnded, EndsRead(before, Reader(wake)));
    }

    /** One field of the payload; the tracee may have rewritten the slot since the last. */
    method CopyOne(i: nat, j: nat, ghost c: Scan, ghost seq1: nat, n: nat, d: Payload) returns (r: Payload)
      requires c.i == i && c.j == j && n < 4 && At(Copying(c, seq1, n, d))
      modifies `shm, `tick, `trace
      ensures At(Copying(c, seq1, n + 1, r)) && old(trace) <= trace
    {
      Interfere(Copying(c, seq1, n, d));
      ghost var before := System(Copying(c, seq1, n, d));
      var slot := shm.stations[i].slots[j];
      match n {
        case 0 => r := d.(tid := slot.data.tid);
        case 1 => r := d.(addr := slot.data.addr);
        case 2 => r := d.(active := slot.data.active);
        case 3 => r := d.(ts := slot.data.ts);
      }
      Took(before, Copying(c, seq1, n + 1, r), Timeout);
    }

    /** Copies the payload field by field. */
    method CopyPayload(i: nat, j: nat, ghost c: Scan, ghost seq1: nat) returns (d: Payload)
      requires c.i == i && c.j == j && At(Copying(c, seq1, 0, NOTHING))
      modifies `shm, `tick, `trace
      ensures At(Copying(c, seq1, 4, d)) && old(trace) <= trace
    {
      var d1 := CopyOne(i, j, c, seq1, 0, NOTHING);
      var d2 := CopyOne(i, j, c, seq1, 1, d1);
      var d3 := CopyOne(i, j, c, seq1, 2, d2);
      d := CopyOne(i, j, c, seq1, 3, d3);
    }

    /** The first load of `seq`, and whether there is something new and stable to copy. */
    method FirstLoad(i: nat, j: nat, ghost c: Scan) returns (seq1: nat, skip: bool)
      requires c.i == i && c.j == j && At(Visit(c))
      modifies `shm, `tick, `trace
      ensures At(if skip then NextSlot(c) else Copying(c, seq1, 0, NOTHING)) && old(trace) <= trace
    {
      Interfere(Visit(c));
      ghost var before := System(Visit(c));
      seq1 := shm.stations[i].slots[j].seqNo;
      skip := seq1 <= lastSeen[i][j] || seq1 % 2 != 0;
      Took(before, if skip then NextSlot(c) else Copying(c, seq1, 0, NOTHING), Timeout);
    }

    /** The second load of `seq`, and whether the copy survived it. */
    method SecondLoad(i: nat, j: nat, ghost c: Scan, seq1: nat, ghost d: Payload) returns (same: bool)
      requires c.i == i && c.j == j && At(Copying(c, seq1, 4, d))
      modifies `shm, `tick, `trace
      ensures At(if same then Printing(c, seq1, d) else NextSlot(c)) && old(trace) <= trace
    {
      Interfere(Copying(c, seq1, 4, d));
      ghost var before := System(Copying(c, seq1, 4, d));
      var seq2 := shm.stations[i].slots[j].seqNo;
      same := seq1 == seq2;
      Took(before, if same then Printing(c, seq1, d) else NextSlot(c), Timeout);
    }

    /** `WriteSafeSlot` with the station's probe id, then `lastSeen`. */
    method Commit(i: nat, j: nat, ghost c: Scan, seq1: nat, d: Payload)
      requires c.i == i && c.j == j && At(Printing(c, seq1, d))
      modifies `shm, `tick, `trace, `lastSeen, `log
      ensures At(NextSlot(c.(got := c.got + 1))) && old(trace) <= trace
      ensures |log| == |old(log)| + 1 && old(log) <= log
    {
      Interfere(Printing(c, seq1, d));
      ghost var before := System(Printing(c, seq1, d));
      log := log + [Entry(i, j, seq1, d, shm.stations[i].probeId)];
      lastSeen := SetSeen(lastSeen, i, j, seq1);
      Took(before, NextSlot(c.(got := c.got + 1)), Timeout);
    }

    /** One slot of `Harvest`: load, skip or copy, load again, discard or commit. */
    method HarvestSlot(i: nat, j: nat, ghost c: Scan) returns (got: bool)
      requires c.i == i && c.j == j && At(Visit(c))
      modifies `shm, `tick, `trace, `lastSeen, `log
      ensures At(NextSlot(if got then c.(got := c.got + 1) else c)) && old(trace) <= trace
      ensures |log| == |old(log)| + (if got then 1 else 0) && old(log) <= log
    {
      got := false;
      var seq1, skip := FirstLoad(i, j, c);
      if skip { return; }
      var d := CopyPayload(i, j, c, seq1);
      var same := SecondLoad(i, j, c, seq1, d);
      if !same { return; }
      Commit(i, j, c, seq1, d);
      got := true;
    }

    /** `StationData.Harvest`: the eight slots in order; the result counts the records logged. */
    method Harvest(i: nat, ghost c: Scan) returns (harvested: nat)
      requires c.i == i && c.j == 0 && At(Visit(c))
      modifies `shm, `tick, `trace, `lastSeen, `log
      ensures At(AtStation(c.kind, c.limit, c.got + harvested, i + 1)) && old(trace) <= trace
      ensures |log| == |old(log)| + harvested && old(log) <= log
    {
      harvested := 0;
      ghost var at := c;
      var j := 0;
      while j < 8
        invariant 0 <= j <= 8 && at == c.(j := j, got := c.got + harvested) && At(AtSlot(at))
        invariant old(trace) <= trace && |log| == |old(log)| + harvested && old(log) <= log
      {
        var got := HarvestSlot(i, j, at);
        if got {
          harvested := harvested + 1;
          at := at.(got := at.got + 1);
        }
        NextSlotIsAt(at);
        at := at.(j := at.j + 1);
        j := j + 1;
      }
    }

    /** Load the ticket count and clamp it. */
    method ScanLimit(kind: Kind) returns (limit: nat)
      requires At(LoadCount(kind))
      modifies `shm, `tick, `trace
      ensures limit <= max && old(trace) <= trace
      ensures At(AtStation(kind, limit, 0, 0))
    {
      Interfere(LoadCount(kind));
      ghost var before := System(LoadCount(kind));
      limit := shm.tickets;
      if limit > max { limit := max; }
      Took(before, AtStation(kind, limit, 0, 0), Timeout);
    }

    /** `doScan`: the allocated stations, no more of them than there are. */
    method DoScan(kind: Kind) returns (total: nat)
      requires At(LoadCount(kind))
      modifies `shm, `tick, `trace, `lastSeen, `log
      ensures At(Scanned(kind, total)) && old(trace) <= trace
      ensures |log| == |old(log)| + total && old(log) <= log
      ensures Accounted(System(Scanned(kind, total)), old(shm.hist))
    {
      ShapedAt(LoadCount(kind));
      ghost var xs, first := trace, System(LoadCount(kind));
      total := 0;
      var limit := ScanLimit(kind);
      var i := 0;
      ghost var at := AtStation(kind, limit, 0, 0);
      while i < limit
        invariant 0 <= i <= limit && at == AtStation(kind, limit, total, i) && At(at)
        invariant old(trace) <= trace && |log| == |old(log)| + total && old(log) <= log
      {
        var harvested := Harvest(i, at.c);
        total := total + harvested;
        i := i + 1;
        at := AtStation(kind, limit, total, i);
      }
      ScanAccounts(max, cap, xs, first, trace, System(at));
    }

    /** The test of `harvested > 0` after a scan, which touches nothing shared. */
    ghost method Decide(kind: Kind, got: nat)
      requires At(Scanned(kind, got))
      modifies `trace
      ensures At(AfterScan(kind, got)) && old(trace) <= trace
    {
      ShapedAt(Scanned(kind, got));
      Took(System(Scanned(kind, got)), AfterScan(kind, got), Timeout);
    }

    /** Where a turn that goes on, or one that ends the loop, leaves the engine. */
    ghost function After(running: bool): (s: State)
      reads this
    {
      System(if running then LoadCount(Hot) else Returned)
    }

    /** One turn of `hotHarvestLoop`: a scan, and if that harvested nothing, one flush, one arming and
        a rescan, and if that harvested nothing either, one blocked read. The result says whether the
        loop goes on. Whatever was complete at its beginning is in the log, or overwritten. */
    method Turn() returns (running: bool, ghost hot: nat, ghost rescan: nat)
      requires At(LoadCount(Hot))
      modifies this
      ensures running ==> At(LoadCount(Hot))
      ensures !running ==> At(Returned) && flushed == |log|
      ensures old(trace) <= trace && old(log) <= log
      ensures Accounted(After(running), old(shm.hist))
      ensures armings == old(armings) + (if hot == 0 then 1 else 0)
      ensures readsEnded == old(readsEnded) + (if hot == 0 && rescan == 0 then 1 else 0)
      ensures hot > 0 ==> running && rescan == 0
      ensures rescan > 0 ==> running
      ensures |log| >= |old(log)| + hot + rescan && (running ==> |log| == |old(log)| + hot + rescan)
    {
      ShapedAt(LoadCount(Hot));
      running, hot, rescan := true, 0, 0;
      var harvested := DoScan(Hot);
      ghost var mid := System(Scanned(Hot, harvested));
      ghost var xs := trace;
      hot := harvested;
      Decide(Hot, harvested);
      if harvested == 0 {
        Flush();
        Arm();
        running, rescan := Watch();
      }
      AccountedStays(max, cap, xs, mid, trace, After(running), old(shm.hist));
    }

    /** The armed half of a turn. */
    method Watch() returns (running: bool, ghost rescan: nat)
      requires At(LoadCount(Rescan))
      modifies `shm, `tick, `trace, `lastSeen, `log, `flushed, `readsEnded
      ensures running ==> At(LoadCount(Hot))
      ensures !running ==> At(Returned) && flushed == |log|
      ensures old(trace) <= trace && old(log) <= log
      ensures readsEnded == old(readsEnded) + (if rescan == 0 then 1 else 0)
      ensures rescan > 0 ==> running
      ensures |log| >= |old(log)| + rescan && (running ==> |log| == |old(log)| + rescan)
    {
      var harvested := DoScan(Rescan);
      rescan := harvested;
      Decide(Rescan, harvested);
      if harvested > 0 {
        Disarm(Disarming);
        running := true;
      } else {
        running := Wait();
      }
    }

    method Flush()
      requires At(Flushing)
      modifies `trace, `flushed
      ensures At(Arming) && flushed == |log| && old(trace) <= trace
    {
      ShapedAt(Flushing);
      ghost var before := System(Flushing);
      flushed := |log|;
      Took(before, Arming, Timeout);
    }

    /** Raise the flag. */
    method Arm()
      requires At(Arming)
      modifies `shm, `tick, `trace, `armings
      ensures At(LoadCount(Rescan)) && old(trace) <= trace && shm.sleeping && armings == old(armings) + 1
    {
      Interfere(Arming);
      ghost var before := System(Arming);
      shm := shm.(sleeping := true);
      armings := armings + 1;
      Took(before, LoadCount(Rescan), Timeout);
    }

    /** Lower the flag and go round. */
    method Disarm(ghost at: Control)
      requires At(at) && (at.Disarming? || at.Waking?)
      modifies `shm, `tick, `trace
      ensures At(LoadCount(Hot)) && old(trace) <= trace && !shm.sleeping
    {
      Interfere(at);
      ghost var before := System(at);
      shm := shm.(sleeping := false);
      Took(before, LoadCount(Hot), Timeout);
    }

    /** The peer is gone: one more scan, one more flush. */
    method Leave()
      requires At(LoadCount(Last))
      modifies `shm, `tick, `trace, `lastSeen, `log, `flushed
      ensures At(Returned) && flushed == |log| && old(trace) <= trace && old(log) <= log
      ensures Accounted(System(Returned), old(shm.hist))
    {
      ShapedAt(LoadCount(Last));
      var harvested := DoScan(Last);
      ghost var mid := System(Scanned(Last, harvested));
      ghost var xs := trace;
      Decide(Last, harvested);
      ShapedAt(LastFlush);
      ghost var before := System(LastFlush);
      flushed := |log|;
      Took(before, Returned, Timeout);
      AccountedStays(max, cap, xs, mid, trace, System(Returned), old(shm.hist));
    }

    /** `conn.Read` into 1024 bytes: data, the deadline, or the end of the connection. A read of an
        empty socket that nobody wakes ends at its deadline. */
    method Read() returns (wake: Wake)
      requires At(Blocked)
      modifies `shm, `tick, `trace, `readsEnded
      ensures At(match wake case Timeout => LoadCount(Hot) case Data => Waking case Hangup => LoadCount(Last))
      ensures old(trace) <= trace && readsEnded == old(readsEnded) + 1
      ensures wake == wakes(old(tick) + 1) || (wakes(old(tick) + 1).Data? && wake.Timeout? && shm.bytes == 0)
    {
      Interfere(Blocked);
      ghost var before := System(Blocked);
      wake := wakes(tick);
      if wake.Data? {
        if shm.bytes == 0 {
          wake := Timeout;
        } else {
          shm := shm.(bytes := if shm.bytes > 1024 then shm.bytes - 1024 else 0);
        }
      }
      StepBooked(before, wake);
      trace := trace + [Reader(wake)];
      readsEnded := readsEnded + 1;
    }

    /** Block on the socket and act on how the read ends. */
    method Wait() returns (running: bool)
      requires At(Blocked)
      modifies `shm, `tick, `trace, `lastSeen, `log, `flushed, `readsEnded
      ensures running ==> At(LoadCount(Hot)) && log == old(log)
      ensures !running ==> At(Returned) && flushed == |log|
      ensures old(trace) <= trace && old(log) <= log && readsEnded == old(readsEnded) + 1
      ensures running == !wakes(old(tick) + 1).Hangup?
    {
      var wake := Read();
      running := !wake.Hangup?;
      match wake {
        case Hangup => Leave();
        case Data => Disarm(Waking);
        case Timeout =>
      }
    }

    /** `hotHarvestLoop`, for at most `turns` turns. Each turn arms or logs something, and after the
        first everything complete at the beginning is accounted for. */
    method HotHarvestLoop(turns: nat) returns (running: bool)
      requires At(LoadCount(Hot))
      modifies this
      ensures running ==> At(LoadCount(Hot))
      ensures !running ==> At(Returned) && flushed == |log|
      ensures old(trace) <= trace && old(log) <= log
      ensures turns >= 1 ==> Accounted(After(running), old(shm.hist))
      ensures running ==> (armings - old(armings)) + (|log| - |old(log)|) >= turns
    {
      running := true;
      var n := turns;
      while running && n > 0
        invariant n <= turns
        invariant running ==> At(LoadCount(Hot))
        invariant !running ==> At(Returned) && flushed == |log|
        invariant old(trace) <= trace && old(log) <= log
        invariant n == turns ==> shm == old(shm)
        invariant n < turns ==> Accounted(After(running), old(shm.hist))
        invariant running ==> (armings - old(armings)) + (|log| - |old(log)|) >= turns - n
        invariant !running ==> n < turns
        decreases n
      {
        ghost var s, xs := After(true), trace;
        ghost var hot, rescan;
        running, hot, rescan := Turn();
        if n < turns { AccountedStays(max, cap, xs, s, trace, After(running), old(shm.hist)); }
        n := n - 1;
      }
    }
  }
}
