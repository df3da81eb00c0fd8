/** What becomes of every completed event: it is in the log, it was overwritten
    before anyone read it, or it stands whole in its slot waiting to be read. */
module Conserve {
  import opened Ring
  import opened Machine
  import opened Safety
  import opened LogLaws
  import opened Window

  // ---- The three fates ----

  /** Taken for the event eight later before the engine had a valid copy. */
  ghost predicate Gone(s: State, i: nat, k: nat)
    requires Shaped(s) && i < s.max
  {
    !Caught(s, i, k) && Started(s, i) > k + 8
  }

  /** Not read yet, and its slot not taken for another. */
  ghost predicate Waiting(s: State, i: nat, k: nat)
    requires Shaped(s) && i < s.max
  {
    !Caught(s, i, k) && Started(s, i) <= k + 8
  }

  ghost function AllCaught(s: State, i: nat): set<nat>
    requires Shaped(s) && i < s.max
  {
    set k | 0 <= k < |s.hist[i]| && Caught(s, i, k)
  }

  ghost function AllGone(s: State, i: nat): set<nat>
    requires Shaped(s) && i < s.max
  {
    set k | 0 <= k < |s.hist[i]| && Gone(s, i, k)
  }

  ghost function AllWaiting(s: State, i: nat): set<nat>
    requires Shaped(s) && i < s.max
  {
    set k | 0 <= k < |s.hist[i]| && Waiting(s, i, k)
  }

  // ---- What each fate means ----

  /** A waiting event is the newest of its slot, which holds all of it under its `seq`, past
      what the engine has seen there. */
  lemma WaitingIsWhole(s: State, i: nat, k: nat)
    requires Inv(s) && i < s.max && k < |s.hist[i]| && Waiting(s, i, k)
    ensures |s.hist[i]| <= k + 8
    ensures s.stations[i].slots[k % 8] == Slot(2 * (k / 8 + 1), s.hist[i][k])
    ensures s.seen[i][k % 8] < 2 * (k / 8 + 1)
  {
    assert StationOk(s, i) && SeenOk(s, i, k % 8);
    NewestInSlot(s, i, k);
    if s.seen[i][k % 8] == 2 * (k / 8 + 1) { SeenIsLogged(s, i, k); }
  }

  /** Once event `k + 8` has begun, slot `k % 8` is past `k`'s round. */
  lemma Overwritten(s: State, i: nat, k: nat)
    requires Shaped(s) && i < s.max && StationOk(s, i) && Started(s, i) > k + 8
    ensures s.stations[i].slots[k % 8].seqNo > 2 * (k / 8 + 1)
  {
    assert SlotOk(s.stations[i].slots[k % 8], s.hist[i], k % 8, WriterOf(s, i));
    CountBounds(|s.hist[i]|, k % 8, k + 8);
    CountBounds(|s.hist[i]|, k % 8, k);
  }

  /** Only the second load catches an event, and only one its slot still holds. */
  lemma CatchingStep(s: State, a: Action, i: nat, k: nat)
    requires Shaped(s) && !Caught(s, i, k) && Caught(Step(s, a), i, k)
    ensures a.Reader? && s.at.Copying? && InSlot(s, i, k % 8) && SlotAt(s, s.at.c).seqNo == 2 * (k / 8 + 1)
  {
    if a.Writer? && a.p < |s.probes| { WriterFrame(s, a.p, a.d); }
    if a.Reader? {
      if s.at.Printing? { BookedNames(s, i, k); } else { OnlyPrintingLogs(s, a.wake); }
    }
  }

  lemma GoneStays(s: State, a: Action, i: nat, k: nat)
    requires Inv(s) && i < s.max && Gone(s, i, k)
    ensures Gone(Step(s, a), i, k)
  {
    StartedGrows(s, a, i);
    assert StationOk(s, i);
    Overwritten(s, i, k);
    if Caught(Step(s, a), i, k) { CatchingStep(s, a, i, k); }
  }

  /** An event that is gone never reaches the log, whatever happens. */
  lemma {:induction false} GoneForGood(s: State, acts: seq<Action>, i: nat, k: nat)
    requires Inv(s) && i < s.max && Gone(s, i, k)
    ensures Gone(Run(s, acts), i, k) && !Logged(Run(s, acts).log, i, k)
    decreases |acts|
  {
    if acts != [] {
      StepKeeps(s, acts[0]);
      GoneStays(s, acts[0], i, k);
      GoneForGood(Step(s, acts[0]), acts[1..], i, k);
    }
  }

  // ---- Counting ----

  ghost function Below(n: nat): (r: set<nat>)
    ensures |r| == n && forall k: nat :: k in r <==> k < n
  {
    if n == 0 then {} else Below(n - 1) + {n - 1}
  }

  /** The log, with the validated record the engine is about to print. */
  function Booked(s: State): (log: seq<Entry>)
    requires Shaped(s)
  {
    if s.at.Printing? then ReaderStep(s, Timeout).log else s.log
  }

  lemma BookedNames(s: State, i: nat, k: nat)
    requires Shaped(s)
    ensures Logged(Booked(s), i, k) <==> Caught(s, i, k)
  {
    if s.at.Printing? {
      var c := s.at.c;
      var e := Entry(c.i, c.j, s.at.seq1, s.at.data, s.stations[c.i].probeId);
      assert Booked(s) == s.log + [e];
      if Caught(s, i, k) {
        if Logged(s.log, i, k) {
          var f :| f in s.log && Names(f, i, k);
          assert f in Booked(s);
        } else {
          assert e in Booked(s) && Names(e, i, k);
        }
      }
    }
  }

  /** As many events are logged as there are records. */
  lemma RecordsSize(s: State, i: nat)
    requires Inv(s) && i < s.max
    ensures |Indices(OfStation(s.log, i))| == |OfStation(s.log, i)|
  {
    StationLog(s, i);
    IndicesSize(OfStation(s.log, i));
  }

  /** The caught events are as many as the station's records. */
  lemma CaughtSize(s: State, i: nat)
    requires Inv(s) && i < s.max
    ensures |AllCaught(s, i)| == |OfStation(Booked(s), i)|
  {
    var r := if s.at.Printing? then ReaderStep(s, Timeout) else s;
    if s.at.Printing? { ReaderKeeps(s, Timeout); ReaderFrame(s, Timeout); }
    assert Inv(r) && r.hist == s.hist && r.log == Booked(s);
    RecordsSize(r, i);
    forall k: nat ensures k in Indices(OfStation(r.log, i)) <==> k in AllCaught(s, i) {
      IndicesAreLogged(r, i, k);
      BookedNames(s, i, k);
      if k in Indices(OfStation(r.log, i)) { IndexInHistory(r, i, k); }
    }
    assert Indices(OfStation(r.log, i)) == AllCaught(s, i);
  }

  lemma IndexInHistory(s: State, i: nat, k: nat)
    requires Inv(s) && i < s.max && k in Indices(OfStation(s.log, i))
    ensures k < |s.hist[i]|
  {
    var es := OfStation(s.log, i);
    StationLog(s, i);
    var e :| e in es && Proper(e) && k == Index(e);
    var a :| 0 <= a < |es| && es[a] == e;
  }

  lemma WaitingSize(s: State, i: nat)
    requires Inv(s) && i < s.max
    ensures |AllWaiting(s, i)| <= 8
  {
    var n := |s.hist[i]|;
    var old8 := if n < 8 then 0 else n - 8;
    forall k | k in AllWaiting(s, i) ensures k in Below(n) - Below(old8) { WaitingIsWhole(s, i, k); }
    assert Below(old8) <= Below(n);
    SubsetSize(AllWaiting(s, i), Below(n) - Below(old8));
  }

  lemma {:induction false} SubsetSize(a: set<nat>, b: set<nat>)
    requires a <= b
    ensures |a| <= |b|
  {
    assert b == a + (b - a);
  }

  lemma ThreeParts(n: nat, c: set<nat>, g: set<nat>, w: set<nat>)
    requires c !! g && c + g !! w && forall k: nat :: k < n <==> k in c || k in g || k in w
    ensures n == |c| + |g| + |w|
  {
    assert Below(n) == c + g + w;
    assert |c + g + w| == |c + g| + |w|;
  }

  /** Conservation: in every reachable state the completed events of a station are those in its log
      (or validated and about to be), those overwritten unread, which no run ever logs, and those
      waiting whole in their slots, at most one in each. */
  lemma Conservation(s: State, i: nat)
    requires Reachable(s) && Shaped(s) && i < s.max
    ensures |s.hist[i]| == |OfStation(Booked(s), i)| + |AllGone(s, i)| + |AllWaiting(s, i)|
    ensures |AllWaiting(s, i)| <= 8
    ensures forall k :: k in AllWaiting(s, i) ==> s.stations[i].slots[k % 8] == Slot(2 * (k / 8 + 1), s.hist[i][k]) && |s.hist[i]| <= k + 8
    ensures forall k, acts :: k in AllGone(s, i) ==> !Logged(Run(s, acts).log, i, k)
  {
    Always(s);
    ThreeParts(|s.hist[i]|, AllCaught(s, i), AllGone(s, i), AllWaiting(s, i));
    CaughtSize(s, i);
    WaitingSize(s, i);
    forall k | k in AllWaiting(s, i)
      ensures s.stations[i].slots[k % 8] == Slot(2 * (k / 8 + 1), s.hist[i][k]) && |s.hist[i]| <= k + 8 {
      WaitingIsWhole(s, i, k);
    }
    forall k, acts | k in AllGone(s, i) ensures !Logged(Run(s, acts).log, i, k) { GoneForGood(s, acts, i, k); }
  }
}
