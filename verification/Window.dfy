/** Events are lost only by being overwritten: an event that is complete when the
    engine first loads its slot's `seq`, and whose slot is not taken for the
    event eight later before the second load, ends up in the log. */
module Window {
  import opened Ring
  import opened Machine
  import opened Safety

  /** Events of station `i` whose odd store has happened. */
  ghost function Started(s: State, i: nat): nat
    requires Shaped(s) && i < s.max
  {
    |s.hist[i]| + (if WriterOf(s, i).Storing? then 1 else 0)
  }

  predicate InSlot(s: State, i: nat, j: nat) {
    (s.at.Copying? || s.at.Printing?) && s.at.c.i == i && s.at.c.j == j
  }

  /** Event `k` is logged, or validated and about to be. */
  ghost predicate Caught(s: State, i: nat, k: nat) {
    || Logged(s.log, i, k)
    || (InSlot(s, i, k % 8) && s.at.Printing? && s.at.seq1 == 2 * (k / 8 + 1))
  }

  /** Event `k` is caught, is being overwritten, or its slot is being copied at its round or later. */
  ghost predicate Held(s: State, i: nat, k: nat)
    requires Shaped(s) && i < s.max
  {
    || Caught(s, i, k)
    || Started(s, i) > k + 8
    || (InSlot(s, i, k % 8) && s.at.Copying? && s.at.seq1 >= 2 * (k / 8 + 1))
  }

  lemma CaughtStays(s: State, a: Action, i: nat, k: nat)
    requires Shaped(s) && Caught(s, i, k)
    ensures Caught(Step(s, a), i, k)
  {
    var r := Step(s, a);
    if Logged(s.log, i, k) {
      var e :| e in s.log && Names(e, i, k);
      if a.Writer? && a.p < |s.probes| { WriterFrame(s, a.p, a.d); }
      assert e in r.log;
    } else if a.Reader? {
      var e := Entry(s.at.c.i, s.at.c.j, s.at.seq1, s.at.data, s.stations[s.at.c.i].probeId);
      assert e in r.log && Names(e, i, k);
    } else if a.Writer? && a.p < |s.probes| {
      WriterFrame(s, a.p, a.d);
    }
  }

  lemma {:induction false} CaughtForever(s: State, acts: seq<Action>, i: nat, k: nat)
    requires Shaped(s) && Caught(s, i, k)
    ensures Caught(Run(s, acts), i, k)
    decreases |acts|
  {
    if acts != [] {
      CaughtStays(s, acts[0], i, k);
      CaughtForever(Step(s, acts[0]), acts[1..], i, k);
    }
  }

  lemma OwnStartedGrows(s: State, p: nat, d: Payload)
    requires Inv(s) && p < |s.probes| && Attached(s.probes[p])
    ensures var i := s.probes[p].ticket; Started(s, i) <= Started(WriterStep(s, p, d), i)
  {
    assert ProbeOk(s, p);
    WriterFrame(s, p, d);
  }

  lemma StartedGrows(s: State, a: Action, i: nat)
    requires Inv(s) && i < s.max
    ensures Started(s, i) <= Started(Step(s, a), i)
  {
    if i < |s.owner| { assert TicketHeld(s, i); }
    match a {
      case Writer(p, d) =>
        if p < |s.probes| {
          assert ProbeOk(s, p);
          WriterFrame(s, p, d);
          if Attached(s.probes[p]) && s.probes[p].ticket == i { OwnStartedGrows(s, p, d); }
        }
      case Construct(_) =>
      case Reader(wake) => ReaderFrame(s, wake);
    }
  }

  /** While event `k + 8` has not begun, slot `k % 8` stands no later than `k`'s round. */
  lemma NotOverwritten(s: State, i: nat, k: nat)
    requires Shaped(s) && i < s.max && StationOk(s, i) && Started(s, i) <= k + 8
    ensures s.stations[i].slots[k % 8].seqNo <= 2 * (k / 8 + 1)
  {
    assert SlotOk(s.stations[i].slots[k % 8], s.hist[i], k % 8, WriterOf(s, i));
    CountBounds(|s.hist[i]|, k % 8, k + 8);
  }

  /** A complete event whose slot has not been taken for the next stands there whole. */
  lemma NewestInSlot(s: State, i: nat, k: nat)
    requires Shaped(s) && i < s.max && StationOk(s, i) && k < |s.hist[i]| && Started(s, i) <= k + 8
    ensures s.stations[i].slots[k % 8] == Slot(2 * (k / 8 + 1), s.hist[i][k])
    ensures Count(|s.hist[i]|, k % 8) == k / 8 + 1
  {
    var n := |s.hist[i]|;
    CountBounds(n, k % 8, k);
    CountBounds(n, k % 8, k + 8);
    assert Count(n, k % 8) == k / 8 + 1;
    assert WriterOf(s, i).Storing? ==> n < k + 8;
    assert n < k + 8 ==> n % 8 != k % 8;
    assert SlotOk(s.stations[i].slots[k % 8], s.hist[i], k % 8, WriterOf(s, i));
  }

  // ---- What a pass has looked at ----

  /** The engine is about to load `seq` of slot `j` of station `i` for the first time in this pass. */
  predicate Looks(at: Control, i: nat, j: nat) {
    at.Visit? && at.c.i == i && at.c.j == j
  }

  /** In this pass it has done so. */
  predicate Looked(at: Control, i: nat, j: nat) {
    (at.Visit? || at.Copying? || at.Printing?) &&
    (i < at.c.i || (i == at.c.i && j < at.c.j) || (i == at.c.i && j == at.c.j && !at.Visit?))
  }

  /** What a step of the engine has looked at, it had looked at before, or it was the look. */
  lemma LooksOnce(s: State, wake: Wake, i: nat, j: nat)
    requires Shaped(s) && j < 8 && Looked(ReaderStep(s, wake).at, i, j)
    ensures !s.at.LoadCount? && (Looked(s.at, i, j) || Looks(s.at, i, j))
  {
  }

  // ---- On the trail of an event ----

  /** Loading `seq` after event `k` is complete puts the engine on its trail. */
  lemma FirstLoadHolds(s: State, wake: Wake, k: nat)
    requires Inv(s) && s.at.Visit? && k < |s.hist[s.at.c.i]| && k % 8 == s.at.c.j
    ensures Held(ReaderStep(s, wake), s.at.c.i, k)
  {
    var c := s.at.c;
    VisitStep(s, wake);
    var r := ReaderStep(s, wake);
    if Started(s, c.i) > k + 8 {
      assert Started(r, c.i) == Started(s, c.i);
    } else {
      assert StationOk(s, c.i) && SeenOk(s, c.i, c.j);
      NewestInSlot(s, c.i, k);
      if SlotAt(s, c).seqNo <= s.seen[c.i][c.j] {
        SeenIsLogged(s, c.i, k);
      } else {
        assert r.at == Copying(c, 2 * (k / 8 + 1), 0, NOTHING);
      }
    }
  }

  lemma HeldStays(s: State, a: Action, i: nat, k: nat)
    requires Inv(s) && i < s.max && Held(s, i, k)
    ensures Held(Step(s, a), i, k)
  {
    StartedGrows(s, a, i);
    if Caught(s, i, k) {
      CaughtStays(s, a, i, k);
    } else if Started(s, i) <= k + 8 {
      match a {
        case Reader(wake) =>
          assert StationOk(s, i);
          NotOverwritten(s, i, k);
        case Writer(p, d) => if p < |s.probes| { WriterFrame(s, p, d); }
        case Construct(_) =>
      }
    }
  }

  lemma {:induction false} HeldForever(s: State, acts: seq<Action>, i: nat, k: nat)
    requires Inv(s) && i < s.max && Held(s, i, k)
    ensures Held(Run(s, acts), i, k) && Inv(Run(s, acts))
    decreases |acts|
  {
    if acts != [] {
      StepKeeps(s, acts[0]);
      HeldStays(s, acts[0], i, k);
      HeldForever(Step(s, acts[0]), acts[1..], i, k);
    }
  }

  /** Loss only by overwrite. At `s` the engine is about to load `seq` of a slot in which event
      `k` is already complete. However the run goes on to `m`, where the second load is next or
      the slot is already behind: if event `k + 8` has not begun by `m`, then whatever happens
      afterwards, once the engine has left the slot event `k` is in the log. */
  lemma LossOnlyByOverwrite(s: State, w1: Wake, xs: seq<Action>, m: State, w2: Wake, ys: seq<Action>, k: nat)
    requires Reachable(s) && s.at.Visit? && Shaped(s) && k < |s.hist[s.at.c.i]| && k % 8 == s.at.c.j
    requires m == Run(Step(s, Reader(w1)), xs)
    requires InSlot(m, s.at.c.i, s.at.c.j) && m.at.Copying? ==> m.at.n == 4
    requires Started(m, s.at.c.i) <= k + 8
    ensures var r := Run(Step(m, Reader(w2)), ys); !InSlot(r, s.at.c.i, s.at.c.j) ==> Logged(r.log, s.at.c.i, k)
  {
    Always(s);
    var i := s.at.c.i;
    FirstLoadHolds(s, w1, k);
    ReaderKeeps(s, w1);
    HeldForever(Step(s, Reader(w1)), xs, i, k);
    if Caught(m, i, k) {
      CaughtStays(m, Reader(w2), i, k);
    } else {
      assert StationOk(m, i);
      NotOverwritten(m, i, k);
    }
    CaughtForever(Step(m, Reader(w2)), ys, i, k);
  }
}
