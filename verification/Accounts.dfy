/** Accounts kept over whole runs: what became of every wakeup byte, when the flag
    may be up, and which scans lead to a flush, a block or another scan. */
module Accounts {
  import opened Machine
  import opened Safety
  import opened Handshake
  import opened Converge

  // ---- Adding up the steps of a run ----

  function Total(s: State, acts: seq<Action>, w: (State, Action) -> nat): (n: nat)
    requires Shaped(s)
    decreases |acts|
  {
    if acts == [] then 0 else w(s, acts[0]) + Total(Step(s, acts[0]), acts[1..], w)
  }

  lemma {:induction false} TotalConcat(s: State, xs: seq<Action>, ys: seq<Action>, w: (State, Action) -> nat)
    requires Shaped(s)
    ensures Total(s, xs + ys, w) == Total(s, xs, w) + Total(Run(s, xs), ys, w)
    decreases |xs|
  {
    if xs == [] {
      assert xs + ys == ys;
    } else {
      assert (xs + ys)[0] == xs[0] && (xs + ys)[1..] == xs[1..] + ys;
      TotalConcat(Step(s, xs[0]), xs[1..], ys, w);
    }
  }

  /** The steps of the run add up to `n`. (Quantified so that the sum is unfolded only where a proof
      names it.) */
  ghost predicate Sums(s: State, acts: seq<Action>, w: (State, Action) -> nat, n: nat)
    requires Shaped(s)
  {
    forall xs {:trigger Total(s, xs, w)} :: xs == acts ==> Total(s, xs, w) == n
  }

  lemma SumsOn(s: State, xs: seq<Action>, t: State, ys: seq<Action>, w: (State, Action) -> nat, m: nat, n: nat)
    requires Shaped(s) && Shaped(t) && Leads(s, xs, t) && Sums(s, xs, w, m) && Sums(t, ys, w, n)
    ensures Sums(s, xs + ys, w, m + n)
  {
    LeadsRun(s, xs, t);
    TotalConcat(s, xs, ys, w);
    assert Total(s, xs, w) == m && Total(t, ys, w) == n;
  }

  lemma SumsOne(s: State, a: Action, w: (State, Action) -> nat)
    requires Shaped(s)
    ensures Sums(s, [a], w, w(s, a))
  {
    assert [a][1..] == [];
  }

  /** The tracee ends no read of the engine's. */
  lemma {:induction false} TraceeEndsNoRead(s: State, acts: seq<Action>)
    requires Shaped(s) && forall a :: 0 <= a < |acts| ==> !acts[a].Reader?
    ensures Sums(s, acts, EndsRead, 0)
    decreases |acts|
  {
    if acts != [] {
      TraceeEndsNoRead(Step(s, acts[0]), acts[1..]);
      assert Total(Step(s, acts[0]), acts[1..], EndsRead) == 0;
    }
  }

  /** Probe `a.p` is about to write its wakeup byte. */
  function Sends(s: State, a: Action): (n: nat) {
    if a.Writer? && a.p < |s.probes| && s.probes[a.p].at.Won? then 1 else 0
  }

  /** It does so with the socket full. */
  function Drops(s: State, a: Action): (n: nat) {
    if s.bytes >= s.cap then Sends(s, a) else 0
  }

  /** The engine's read returns data: what is there, up to 1024 bytes. */
  function Takes(s: State, a: Action): (n: nat) {
    if a == Reader(Data) && s.at.Blocked? then (if s.bytes > 1024 then 1024 else s.bytes) else 0
  }

  /** The engine stores 1 to the flag. */
  function Arms(s: State, a: Action): (n: nat) {
    if a.Reader? && s.at.Arming? then 1 else 0
  }

  /** A probe swaps the flag from 1 to 0. */
  function Swaps(s: State, a: Action): (n: nat) {
    if a.Writer? && a.p < |s.probes| && s.probes[a.p].at.Saw? && s.sleeping then 1 else 0
  }

  /** A blocked read ends; one for data goes on while there is none. */
  function EndsRead(s: State, a: Action): (n: nat) {
    if a.Reader? && s.at.Blocked? && !(a.wake.Data? && s.bytes == 0) then 1 else 0
  }

  // ---- Wakeup bytes ----

  lemma WriterBalance(s: State, p: nat, d: Payload)
    requires Shaped(s) && s.bytes <= s.cap && p < |s.probes|
    ensures var r := WriterStep(s, p, d); var a := Writer(p, d);
      && r.bytes + Drops(s, a) == s.bytes + Sends(s, a) && r.bytes <= r.cap
      && r.armings == s.armings && r.wins == s.wins + Swaps(s, a) && r.sent == s.sent + Sends(s, a)
  {
    match s.probes[p].at {
      case Born =>
      case Detached =>
      case Naming =>
      case Published =>
      case Saw =>
      case Won =>
      case _ =>
    }
  }

  lemma ReaderBalance(s: State, wake: Wake)
    requires Shaped(s) && s.bytes <= s.cap
    ensures var r := ReaderStep(s, wake); var a := Reader(wake);
      && r.bytes + Takes(s, a) == s.bytes && r.bytes <= r.cap
      && r.armings == s.armings + Arms(s, a) && r.wins == s.wins && r.sent == s.sent
  {
    match s.at {
      case LoadCount(_) =>
      case Visit(_) =>
      case Copying(_, _, _, _) =>
      case Printing(_, _, _) =>
      case Blocked =>
      case _ =>
    }
  }

  lemma StepBalance(s: State, a: Action)
    requires Shaped(s) && s.bytes <= s.cap
    ensures var r := Step(s, a);
      && r.bytes + Takes(s, a) + Drops(s, a) == s.bytes + Sends(s, a) && r.bytes <= r.cap
      && r.armings == s.armings + Arms(s, a) && r.wins == s.wins + Swaps(s, a) && r.sent == s.sent + Sends(s, a)
  {
    match a {
      case Construct(_) =>
      case Writer(p, d) => if p < |s.probes| { WriterBalance(s, p, d); }
      case Reader(wake) => ReaderBalance(s, wake);
    }
  }

  lemma {:induction false} RunBalance(s: State, acts: seq<Action>)
    requires Shaped(s) && s.bytes <= s.cap
    ensures var r := Run(s, acts);
      && r.bytes + Total(s, acts, Takes) + Total(s, acts, Drops) == s.bytes + Total(s, acts, Sends) && r.bytes <= r.cap
      && r.armings == s.armings + Total(s, acts, Arms)
      && r.wins == s.wins + Total(s, acts, Swaps) && r.sent == s.sent + Total(s, acts, Sends)
    decreases |acts|
  {
    if acts != [] {
      StepBalance(s, acts[0]);
      RunBalance(Step(s, acts[0]), acts[1..]);
    }
  }

  /** The account of the wakeup bytes, over every run: those sent are in the socket, were taken by
      reads of at most 1024, or were dropped at a full socket; the socket never holds more than its
      capacity; and no more are sent than the engine has armed. */
  lemma ByteAccount(max: nat, cap: nat, acts: seq<Action>)
    requires cap >= 1
    ensures var start := Init(max, cap); var r := Run(start, acts);
      && r.bytes + Total(start, acts, Takes) + Total(start, acts, Drops) == Total(start, acts, Sends) && r.bytes <= cap
      && Total(start, acts, Sends) <= Total(start, acts, Swaps)
      && Total(start, acts, Swaps) + (if r.sleeping then 1 else 0) <= Total(start, acts, Arms)
  {
    var start := Init(max, cap);
    RunBalance(start, acts);
    assert Traced(max, cap, acts, Run(start, acts));
    WakeupEconomy(Run(start, acts));
  }

  // ---- The flag ----

  /** Who moves the flag: the engine raises it arming and lowers it disarming and waking, a probe
      lowers it swapping. Nothing else touches it; in particular a deadline leaves it as it was. */
  lemma FlagMoves(s: State, a: Action)
    requires Shaped(s)
    ensures Step(s, a).sleeping ==
      if a.Reader? && s.at.Arming? then true
      else if a.Reader? && (s.at.Disarming? || s.at.Waking?) then false
      else s.sleeping && Swaps(s, a) == 0
  {
    match a {
      case Construct(_) =>
      case Writer(p, d) => if p < |s.probes| { WriterCounts(s, p, d); WriterFlag(s, p, d); }
      case Reader(wake) => ReaderFlag(s, wake);
    }
  }

  lemma WriterFlag(s: State, p: nat, d: Payload)
    requires Shaped(s) && p < |s.probes|
    ensures WriterStep(s, p, d).sleeping == (s.sleeping && !s.probes[p].at.Saw?)
  {
    match s.probes[p].at {
      case Born =>
      case Detached =>
      case Naming =>
      case Published =>
      case Saw =>
      case Won =>
      case _ =>
    }
  }

  lemma ReaderFlag(s: State, wake: Wake)
    requires Shaped(s)
    ensures ReaderStep(s, wake).sleeping == if s.at.Arming? then true else if s.at.Disarming? || s.at.Waking? then false else s.sleeping
  {
    match s.at {
      case LoadCount(_) =>
      case Visit(_) =>
      case Copying(_, _, _, _) =>
      case Printing(_, _, _) =>
      case Blocked =>
      case _ =>
    }
  }

  /** Whether the last blocked read to end did so by its deadline. */
  ghost function LateAfter(s: State, a: Action, late: bool): bool {
    if EndsRead(s, a) == 1 then a.wake.Timeout? else late
  }

  ghost function LateFrom(s: State, acts: seq<Action>, late: bool): bool
    requires Shaped(s)
    decreases |acts|
  {
    if acts == [] then late else LateFrom(Step(s, acts[0]), acts[1..], LateAfter(s, acts[0], late))
  }

  /** In the loop, outside the window between raising the flag and acting on it. */
  predicate Awake(at: Control) {
    !Armed(at) && !Leaving(at) && !at.Waking?
  }

  lemma AwakeStep(s: State, wake: Wake)
    requires Shaped(s) && Awake(ReaderStep(s, wake).at) && ReaderStep(s, wake).sleeping
    ensures s.sleeping && (Awake(s.at) || (s.at.Blocked? && wake.Timeout?))
  {
    match s.at {
      case LoadCount(_) =>
      case Visit(_) =>
      case Copying(_, _, _, _) =>
      case Printing(_, _, _) =>
      case Scanned(_, _) =>
      case Blocked =>
      case _ =>
    }
  }

  lemma {:induction false} RunAwake(s: State, acts: seq<Action>, late: bool)
    requires Inv(s) && (Awake(s.at) && s.sleeping ==> late)
    ensures var r := Run(s, acts); Awake(r.at) && r.sleeping ==> LateFrom(s, acts, late)
    decreases |acts|
  {
    if acts != [] {
      var a, r := acts[0], Step(s, acts[0]);
      StepKeeps(s, a);
      FlagMoves(s, a);
      if a.Reader? && Awake(r.at) && r.sleeping { AwakeStep(s, a.wake); }
      RunAwake(r, acts[1..], LateAfter(s, a, late));
    }
  }

  /** The flag of an engine that is awake: over every run, outside the armed window and before
      leaving, it is up only if the last blocked read ended by its deadline. */
  lemma FlagOnlyAfterDeadline(max: nat, cap: nat, acts: seq<Action>)
    ensures var r := Run(Init(max, cap), acts); Awake(r.at) && r.sleeping ==> LateFrom(Init(max, cap), acts, false)
  {
    InitInv(max, cap);
    RunAwake(Init(max, cap), acts, false);
  }

  // ---- What a scan decides ----

  /** How long the log was when the current scan, or the last one, began, and what kind it is. */
  datatype Began = Began(size: nat, kind: Kind)

  ghost function BeganAfter(s: State, a: Action, b: Began): Began {
    if a.Reader? && s.at.LoadCount? then Began(|s.log|, s.at.kind) else b
  }

  ghost function BeganFrom(s: State, acts: seq<Action>, b: Began): Began
    requires Shaped(s)
    decreases |acts|
  {
    if acts == [] then b else BeganFrom(Step(s, acts[0]), acts[1..], BeganAfter(s, acts[0], b))
  }

  /** A scan counts what it prints; and by that count the engine goes to scan again, flush and arm,
      lower the flag, or block. */
  ghost predicate Decided(s: State, b: Began) {
    match s.at
    case Visit(c) => c.kind == b.kind && c.got + b.size == |s.log|
    case Copying(c, _, _, _) => c.kind == b.kind && c.got + b.size == |s.log|
    case Printing(c, _, _) => c.kind == b.kind && c.got + b.size == |s.log|
    case Scanned(kind, got) => kind == b.kind && got + b.size == |s.log|
    case Flushing => b == Began(|s.log|, Hot)
    case Arming => b == Began(|s.log|, Hot)
    case Disarming => b.kind == Rescan && b.size < |s.log|
    case Blocked => b == Began(|s.log|, Rescan)
    case Waking => b == Began(|s.log|, Rescan)
    case LastFlush => b.kind == Last
    case Returned => b.kind == Last
    case LoadCount(kind) =>
      match kind
      case Hot => b.kind == Hot ==> b.size < |s.log|
      case Rescan => b == Began(|s.log|, Hot)
      case Last => b == Began(|s.log|, Rescan)
  }

  lemma ScanningDecides(s: State, wake: Wake, b: Began)
    requires Shaped(s) && Decided(s, b) && (s.at.Visit? || s.at.Copying? || s.at.Printing?)
    ensures Decided(ReaderStep(s, wake), b)
  {
    match s.at {
      case Visit(_) => VisitStep(s, wake);
      case Copying(_, _, _, _) =>
      case Printing(_, _, _) =>
    }
  }

  lemma VerdictDecides(s: State, wake: Wake, b: Began)
    requires Shaped(s) && Decided(s, b) && s.at.Scanned?
    ensures Decided(ReaderStep(s, wake), b)
  {
    match s.at.kind {
      case Hot =>
      case Rescan =>
      case Last =>
    }
  }

  lemma ReaderDecides(s: State, wake: Wake, b: Began)
    requires Shaped(s) && Decided(s, b)
    ensures Decided(ReaderStep(s, wake), BeganAfter(s, Reader(wake), b))
  {
    if s.at.Visit? || s.at.Copying? || s.at.Printing? {
      ScanningDecides(s, wake, b);
    } else if s.at.Scanned? {
      VerdictDecides(s, wake, b);
    }
  }

  lemma {:induction false} RunDecides(s: State, acts: seq<Action>, b: Began)
    requires Inv(s) && Decided(s, b)
    ensures Decided(Run(s, acts), BeganFrom(s, acts, b))
    decreases |acts|
  {
    if acts != [] {
      var a := acts[0];
      StepKeeps(s, a);
      if a.Reader? { ReaderDecides(s, a.wake, b); }
      RunDecides(Step(s, a), acts[1..], BeganAfter(s, a, b));
    }
  }

  /** Over every run: the engine flushes and arms only after a hot scan that printed nothing, blocks
      only after a rescan that printed nothing, lowers the flag unread only after one that printed
      something, and goes from one hot scan straight to the next only if the first printed. */
  lemma ScansDecide(max: nat, cap: nat, acts: seq<Action>)
    ensures Decided(Run(Init(max, cap), acts), BeganFrom(Init(max, cap), acts, Began(0, Rescan)))
  {
    InitInv(max, cap);
    RunDecides(Init(max, cap), acts, Began(0, Rescan));
  }
}
