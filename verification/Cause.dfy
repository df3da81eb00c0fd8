/** Why the order of writing is lost: in terms of the loads of the engine and the
    stores of the writer, a pass looks at a slot before an event is complete there
    and logs a later event of the same round. */
module Cause {
  import opened Ring
  import opened Machine
  import opened Safety
  import opened LogLaws
  import opened Window
  import opened Conserve
  import opened Order

  // ---- When a pass looked ----

  /** Whether the current pass, when it looked at the slot of event `k`, came before the even store
      that completes `k`. Each first load of that slot decides it afresh, each new pass forgets it. */
  ghost predicate EarlyAfter(s: State, a: Action, i: nat, k: nat, was: bool)
    requires Shaped(s) && i < s.max
  {
    if !a.Reader? then was
    else if s.at.LoadCount? then false
    else if Looks(s.at, i, k % 8) then |s.hist[i]| <= k
    else was
  }

  ghost predicate EarlyFrom(s: State, acts: seq<Action>, i: nat, k: nat, was: bool)
    requires Shaped(s) && i < s.max
    decreases |acts|
  {
    if acts == [] then was else EarlyFrom(Step(s, acts[0]), acts[1..], i, k, EarlyAfter(s, acts[0], i, k, was))
  }

  /** At the end of the run the engine is in a pass that looked at the slot of event `k` too early
      to find it. */
  ghost predicate TooEarly(s: State, acts: seq<Action>, i: nat, k: nat)
    requires Shaped(s) && i < s.max
  {
    EarlyFrom(s, acts, i, k, false)
  }

  // ---- Not too early: the event is caught, lost or in hand ----

  ghost predicate InTime(s: State, i: nat, k: nat, early: bool)
    requires Shaped(s) && i < s.max
  {
    Looked(s.at, i, k % 8) && !early ==> Held(s, i, k)
  }

  lemma StepInTime(s: State, a: Action, i: nat, k: nat, was: bool)
    requires Inv(s) && i < s.max && InTime(s, i, k, was)
    ensures InTime(Step(s, a), i, k, EarlyAfter(s, a, i, k, was))
  {
    var r := Step(s, a);
    if Looked(r.at, i, k % 8) && !EarlyAfter(s, a, i, k, was) {
      if a.Reader? {
        LooksOnce(s, a.wake, i, k % 8);
        if Looks(s.at, i, k % 8) { FirstLoadHolds(s, a.wake, k); } else { HeldStays(s, a, i, k); }
      } else {
        StepKeeps(s, a);
        HeldStays(s, a, i, k);
      }
    }
  }

  // ---- Too early: the pass cannot log the event ----

  ghost predicate Misses(s: State, i: nat, k: nat, early: bool) {
    early ==> !Caught(s, i, k) && (InSlot(s, i, k % 8) ==> s.at.seq1 < 2 * (k / 8 + 1))
  }

  /** A first load before event `k` is complete finds an earlier round, or an odd `seq`. */
  lemma LookMisses(s: State, wake: Wake, i: nat, k: nat)
    requires Inv(s) && Looks(s.at, i, k % 8) && |s.hist[i]| <= k
    ensures Misses(ReaderStep(s, wake), i, k, true)
  {
    VisitStep(s, wake);
    assert StationOk(s, i) && SlotOk(s.stations[i].slots[k % 8], s.hist[i], k % 8, WriterOf(s, i));
    CountBounds(|s.hist[i]|, k % 8, k);
    if Logged(s.log, i, k) { LoggedIsComplete(s, i, k); }
  }

  lemma LoggedIsComplete(s: State, i: nat, k: nat)
    requires Inv(s) && i < s.max && Logged(s.log, i, k)
    ensures k < |s.hist[i]|
  {
    var e :| e in s.log && Names(e, i, k);
    assert EntryOk(s, e);
    CountBounds(|s.hist[i]|, k % 8, k);
  }

  /** A copy in hand is the one whose first load began it. */
  lemma SameCopy(s: State, wake: Wake, i: nat, j: nat)
    requires Shaped(s) && InSlot(ReaderStep(s, wake), i, j) && !Looks(s.at, i, j)
    ensures InSlot(s, i, j) && ReaderStep(s, wake).at.seq1 == s.at.seq1
  {
  }

  lemma StepMisses(s: State, a: Action, i: nat, k: nat, was: bool)
    requires Inv(s) && i < s.max && Misses(s, i, k, was)
    ensures Misses(Step(s, a), i, k, EarlyAfter(s, a, i, k, was))
  {
    if EarlyAfter(s, a, i, k, was) {
      if a.Reader? && Looks(s.at, i, k % 8) {
        LookMisses(s, a.wake, i, k);
      } else {
        StepKeeps(s, a);
        if Caught(Step(s, a), i, k) { CatchingStep(s, a, i, k); }
        if a.Reader? && InSlot(Step(s, a), i, k % 8) { SameCopy(s, a.wake, i, k % 8); }
      }
    }
  }

  // ---- Over runs ----

  lemma {:induction false} EarlyDecides(s: State, acts: seq<Action>, i: nat, k: nat, was: bool)
    requires Inv(s) && i < s.max && InTime(s, i, k, was) && Misses(s, i, k, was)
    ensures var r := Run(s, acts); var early := EarlyFrom(s, acts, i, k, was);
      Inv(r) && InTime(r, i, k, early) && Misses(r, i, k, early)
    decreases |acts|
  {
    if acts != [] {
      var a := acts[0];
      StepKeeps(s, a);
      StepInTime(s, a, i, k, was);
      StepMisses(s, a, i, k, was);
      EarlyDecides(Step(s, a), acts[1..], i, k, EarlyAfter(s, a, i, k, was));
    }
  }

  /** The engine is printing an event of the same round as `k`, from a later slot. */
  ghost predicate PrintsPast(s: State, i: nat, k: nat) {
    s.at.Printing? && s.at.c.i == i && s.at.c.j > k % 8 && s.at.seq1 == 2 * (k / 8 + 1)
  }

  /** In a pass that looked at its slot in time, an event passed by is in the log or gone for good. */
  lemma PassedInTime(s: State, i: nat, k: nat)
    requires Inv(s) && i < s.max && InTime(s, i, k, false) && PrintsPast(s, i, k)
    ensures Logged(s.log, i, k) || Gone(s, i, k)
  {
  }

  /** Step `m` prints past event `k` in a pass that looked at `k`'s slot before `k` was complete. */
  ghost predicate RacesAt(s: State, acts: seq<Action>, m: nat, i: nat, k: nat)
    requires Shaped(s) && i < s.max
  {
    m < |acts| && acts[m].Reader? && PrintsPast(Run(s, acts[..m]), i, k) && TooEarly(s, acts[..m], i, k)
  }

  /** A writer has raced a pass: it completed event `k` behind the pass's look at its slot and a
      later event of the round before the look at that one's, and `k` was logged after all. */
  ghost predicate Raced(s: State, acts: seq<Action>, i: nat)
    requires Shaped(s) && i < s.max
  {
    exists m: nat, k: nat :: RacesAt(s, acts, m, i, k) && Logged(Run(s, acts).log, i, k)
  }

  /** An event overtaken and logged in the end was complete when it was overtaken, but not yet when
      that pass looked at its slot. */
  lemma OvertakenWasEarly(max: nat, cap: nat, acts: seq<Action>, m: nat, i: nat, k: nat)
    requires i < max && OvertakesAt(Init(max, cap), acts, m, i, k) && Logged(Run(Init(max, cap), acts).log, i, k)
    ensures TooEarly(Init(max, cap), acts[..m], i, k) && k < |Run(Init(max, cap), acts[..m]).hist[i]|
  {
    var start := Init(max, cap);
    var t := Run(start, acts[..m]);
    InitInv(max, cap);
    EarlyDecides(start, acts[..m], i, k, false);
    OvertakenIsComplete(t, i, k);
    if !TooEarly(start, acts[..m], i, k) {
      PassedInTime(t, i, k);
      GoneForGood(t, acts[m..], i, k);
      assert acts == acts[..m] + acts[m..];
      RunConcat(start, acts[..m], acts[m..]);
    }
  }

  /** What a pass looked at too early it has not logged. */
  lemma EarlyIsOvertaken(max: nat, cap: nat, acts: seq<Action>, m: nat, i: nat, k: nat)
    requires i < max && RacesAt(Init(max, cap), acts, m, i, k)
    ensures OvertakesAt(Init(max, cap), acts, m, i, k)
  {
    InitInv(max, cap);
    EarlyDecides(Init(max, cap), acts[..m], i, k, false);
  }

  lemma LostIffRaced(max: nat, cap: nat, acts: seq<Action>, i: nat)
    requires i < max
    ensures OrderLost(Init(max, cap), acts, i) <==> Raced(Init(max, cap), acts, i)
  {
    var start := Init(max, cap);
    if OrderLost(start, acts, i) {
      var m: nat, k: nat :| OvertakesAt(start, acts, m, i, k) && Logged(Run(start, acts).log, i, k);
      OvertakenWasEarly(max, cap, acts, m, i, k);
      assert RacesAt(start, acts, m, i, k);
    }
    if Raced(start, acts, i) {
      var m: nat, k: nat :| RacesAt(start, acts, m, i, k) && Logged(Run(start, acts).log, i, k);
      EarlyIsOvertaken(max, cap, acts, m, i, k);
    }
  }

  /** Order recovery, with its exact condition in terms of loads and stores: over every run, sorting
      one station's log by `seq` restores the order of writing unless its writer raced a pass. */
  lemma SortWorksUnlessRaced(max: nat, cap: nat, acts: seq<Action>, i: nat)
    requires cap >= 1 && i < max
    ensures InWriteOrder(SortBySeq(OfStation(Run(Init(max, cap), acts).log, i))) <==> !Raced(Init(max, cap), acts, i)
  {
    SortWorksUnlessLost(max, cap, acts, i);
    LostIffRaced(max, cap, acts, i);
  }
}
