/** What the log means in every reachable state: whose events it holds, in what
    order, how often, and how many were overwritten before anyone saw them. */
module LogLaws {
  import opened Ring
  import opened Machine
  import opened Safety

  // ---- Content, order, attribution ----

  /** Every record carries the full payload of one completed event, the one its slot and
      `seq` name, and the id of the probe that holds the station's ticket. */
  lemma LoggedIsWritten(s: State, a: nat)
    requires Reachable(s) && a < |s.log|
    ensures Inv(s)
    ensures var e := s.log[a];
      && e.i < s.max && e.j < 8 && e.seqNo % 2 == 0 && 2 <= e.seqNo
      && EventAt(e.j, e.seqNo / 2) < |s.hist[e.i]|
      && e.data == s.hist[e.i][EventAt(e.j, e.seqNo / 2)]
      && Names(e, e.i, EventAt(e.j, e.seqNo / 2))
      && e.i < |s.owner| && s.owner[e.i] < |s.probes| && e.probe == s.probes[s.owner[e.i]].id
  {
    Always(s);
    var e := s.log[a];
    assert EntryOk(s, e);
    CountBounds(|s.hist[e.i]|, e.j, EventAt(e.j, e.seqNo / 2));
  }

  /** Only the probe that holds a station's ticket adds to its history, one event at a time. */
  lemma OnlyHolderWrites(s: State, a: Action, i: nat)
    requires Inv(s) && i < s.max && Step(s, a).hist[i] != s.hist[i]
    ensures a.Writer? && i < |s.owner| && s.owner[i] == a.p < |s.probes| && s.probes[a.p].at.Storing?
    ensures Step(s, a).hist[i] == s.hist[i] + [s.probes[a.p].at.d]
  {
    match a {
      case Construct(_) =>
      case Writer(p, d) =>
        if p < |s.probes| {
          WriterFrame(s, p, d);
          assert ProbeOk(s, p);
        }
      case Reader(wake) => ReaderFrame(s, wake);
    }
  }

  /** The step of a run that completed event `k` of station `i`. */
  lemma {:induction false} StepOfEvent(s: State, acts: seq<Action>, i: nat, k: nat) returns (m: nat)
    requires Inv(s) && i < s.max && |s.hist[i]| <= k < |Run(s, acts).hist[i]|
    ensures m < |acts| && Inv(Run(s, acts[..m]))
    ensures |Run(s, acts[..m]).hist[i]| == k && Step(Run(s, acts[..m]), acts[m]).hist[i] != Run(s, acts[..m]).hist[i]
    decreases |acts|
  {
    var r := Step(s, acts[0]);
    StepKeeps(s, acts[0]);
    if r.hist[i] != s.hist[i] { OnlyHolderWrites(s, acts[0], i); }
    if |r.hist[i]| > k {
      m := 0;
    } else {
      m := StepOfEvent(r, acts[1..], i, k);
      RunPrefix(s, acts, m);
      m := m + 1;
    }
  }

  /** Correct attribution: every record was written by the probe whose id it is printed with. The
      even store that completed its event is a step of that probe, and it stored that payload. */
  lemma LoggedByItsWriter(max: nat, cap: nat, acts: seq<Action>, a: nat) returns (m: nat)
    requires cap >= 1 && a < |Run(Init(max, cap), acts).log|
    ensures m < |acts| && acts[m].Writer?
    ensures var e := Run(Init(max, cap), acts).log[a]; var s := Run(Init(max, cap), acts[..m]); var p := acts[m].p;
      && e.i < max && e.j < 8 && e.seqNo >= 2 && p < |s.probes| && s.probes[p].at.Storing?
      && s.probes[p].id == e.probe && s.probes[p].at.d == e.data
      && |s.hist[e.i]| == EventAt(e.j, e.seqNo / 2) && Step(s, acts[m]).hist[e.i] == s.hist[e.i] + [e.data]
  {
    var start := Init(max, cap);
    var last := Run(start, acts);
    assert Traced(max, cap, acts, last);
    LoggedIsWritten(last, a);
    InitInv(max, cap);
    var e := last.log[a];
    m := StepOfEvent(start, acts, e.i, EventAt(e.j, e.seqNo / 2));
    var s := Run(start, acts[..m]);
    OnlyHolderWrites(s, acts[m], e.i);
    RunSplit(start, acts, m);
    StepGrows(s, acts[m]);
    RunGrows(Step(s, acts[m]), acts[m + 1..]);
  }

  /** Per slot, the logged sequence numbers are even, at least 2 and strictly increasing;
      `lastSeen` is the last of them and never ahead of the slot. */
  lemma SlotDiscipline(s: State, i: nat, j: nat)
    requires Reachable(s) && i < s.max && j < 8
    ensures Inv(s)
    ensures Disciplined(Of(s.log, i, j), s.seen[i][j])
    ensures s.seen[i][j] <= s.stations[i].slots[j].seqNo
  {
    Always(s);
    assert SeenOk(s, i, j) && StationOk(s, i);
    assert SlotOk(s.stations[i].slots[j], s.hist[i], j, WriterOf(s, i));
  }

  /** After `n` completed events slot `j` stands at twice its share of them, one more while
      it is being rewritten. */
  lemma RingArithmetic(s: State, i: nat, j: nat)
    requires Reachable(s) && i < s.max && j < 8
    ensures Inv(s)
    ensures var q := s.stations[i].slots[j].seqNo; var n := |s.hist[i]|;
      if WriterOf(s, i).Storing? && j == n % 8 then q == 2 * ((n - j + 7) / 8) + 1
      else q == 2 * ((n - j + 7) / 8)
  {
    Always(s);
    assert StationOk(s, i);
    assert SlotOk(s.stations[i].slots[j], s.hist[i], j, WriterOf(s, i));
  }

  // ---- One station's log ----

  /** `Of` keeps log order: two entries of one slot keep their order in its sub-log. */
  lemma {:induction false} OfKeepsOrder(log: seq<Entry>, a: nat, b: nat) returns (a': nat, b': nat)
    requires a < b < |log| && log[a].i == log[b].i && log[a].j == log[b].j
    ensures var es := Of(log, log[a].i, log[a].j); a' < b' < |es| && es[a'] == log[a] && es[b'] == log[b]
    decreases |log|
  {
    var n := |log| - 1;
    var i, j := log[a].i, log[a].j;
    var front := log[..n];
    if b == n {
      OfIsFilter(front, i, j);
      assert front[a] in Of(front, i, j);
      a' :| 0 <= a' < |Of(front, i, j)| && Of(front, i, j)[a'] == log[a];
      b' := |Of(front, i, j)|;
    } else {
      a', b' := OfKeepsOrder(front, a, b);
    }
  }

  /** The log never repeats itself: later records of a slot have larger `seq`. */
  lemma SlotOrder(s: State, a: nat, b: nat)
    requires Inv(s) && a < b < |s.log| && s.log[a].i == s.log[b].i && s.log[a].j == s.log[b].j
    ensures s.log[a].seqNo < s.log[b].seqNo
  {
    assert EntryOk(s, s.log[a]);
    assert SeenOk(s, s.log[a].i, s.log[a].j);
    var a', b' := OfKeepsOrder(s.log, a, b);
  }

  /** The entries of station `i`, in log order. */
  function OfStation(log: seq<Entry>, i: nat): (r: seq<Entry>) {
    if log == [] then []
    else
      var e := log[|log| - 1];
      OfStation(log[..|log| - 1], i) + (if e.i == i then [e] else [])
  }

  lemma OfStationSnoc(log: seq<Entry>, e: Entry, i: nat)
    ensures OfStation(log + [e], i) == OfStation(log, i) + (if e.i == i then [e] else [])
  {
    assert (log + [e])[..|log|] == log;
  }

  lemma {:induction false} OfStationIsFilter(log: seq<Entry>, i: nat)
    ensures forall e :: e in OfStation(log, i) <==> e in log && e.i == i
    decreases |log|
  {
    if log != [] {
      OfStationIsFilter(log[..|log| - 1], i);
      assert log == log[..|log| - 1] + [log[|log| - 1]];
    }
  }

  /** A station's log and the whole log have the same entries of a slot. */
  lemma {:induction false} OfOfStation(log: seq<Entry>, i: nat, j: nat)
    ensures Of(OfStation(log, i), i, j) == Of(log, i, j)
    decreases |log|
  {
    if log != [] {
      var front, e := log[..|log| - 1], log[|log| - 1];
      OfOfStation(front, i, j);
      if e.i == i { OfSnoc(OfStation(front, i), e, i, j); }
      else { assert OfStation(front, i) + [] == OfStation(front, i) && Of(front, i, j) + [] == Of(front, i, j); }
    }
  }

  /** Two entries of a station keep their order in its log, and come from entries in that order. */
  lemma {:induction false} StationKeepsOrder(log: seq<Entry>, i: nat, a: nat, b: nat) returns (a': nat, b': nat)
    requires a < b < |log| && log[a].i == i && log[b].i == i
    ensures var es := OfStation(log, i); a' < b' < |es| && es[a'] == log[a] && es[b'] == log[b]
    decreases |log|
  {
    var front := log[..|log| - 1];
    if b == |log| - 1 {
      OfStationIsFilter(front, i);
      assert front[a] in OfStation(front, i);
      a' :| 0 <= a' < |OfStation(front, i)| && OfStation(front, i)[a'] == log[a];
      b' := |OfStation(front, i)|;
    } else {
      a', b' := StationKeepsOrder(front, i, a, b);
    }
  }

  lemma {:induction false} StationOrderBack(log: seq<Entry>, i: nat, a: nat, b: nat) returns (a': nat, b': nat)
    requires a < b < |OfStation(log, i)|
    ensures var es := OfStation(log, i); a' < b' < |log| && log[a'] == es[a] && log[b'] == es[b]
    decreases |log|
  {
    var front, e := log[..|log| - 1], log[|log| - 1];
    var es := OfStation(front, i);
    if b < |es| {
      a', b' := StationOrderBack(front, i, a, b);
    } else {
      OfStationIsFilter(front, i);
      assert es[a] in front;
      a' :| 0 <= a' < |front| && front[a'] == es[a];
      b' := |front|;
    }
  }

  /** Slot and `seq` of the entry name an event. */
  ghost predicate Proper(e: Entry) {
    e.j < 8 && e.seqNo % 2 == 0 && 2 <= e.seqNo
  }

  /** Which event of its station the record is. */
  ghost function Index(e: Entry): (k: nat)
    requires Proper(e)
    ensures Names(e, e.i, k)
  {
    EventAt(e.j, e.seqNo / 2)
  }

  /** The entries name events, and no two the same. */
  ghost predicate Distinct(es: seq<Entry>) {
    && (forall a :: 0 <= a < |es| ==> Proper(es[a]))
    && (forall a, b :: 0 <= a < b < |es| ==> Index(es[a]) != Index(es[b]))
  }

  /** Every record of a station is one of its events, whole, and no event is there twice. */
  lemma StationLog(s: State, i: nat)
    requires Inv(s) && i < s.max
    ensures var es := OfStation(s.log, i);
      && Distinct(es)
      && (forall a :: 0 <= a < |es| ==> es[a].i == i && Index(es[a]) < |s.hist[i]| && es[a].data == s.hist[i][Index(es[a])])
  {
    var es := OfStation(s.log, i);
    OfStationIsFilter(s.log, i);
    forall a | 0 <= a < |es|
      ensures es[a].i == i && Proper(es[a]) && Index(es[a]) < |s.hist[i]| && es[a].data == s.hist[i][Index(es[a])] {
      assert es[a] in es;
      var b :| 0 <= b < |s.log| && s.log[b] == es[a];
      assert EntryOk(s, s.log[b]);
      CountBounds(|s.hist[i]|, es[a].j, Index(es[a]));
    }
    forall a, b | 0 <= a < b < |es| ensures Index(es[a]) != Index(es[b]) {
      var a', b' := StationOrderBack(s.log, i, a, b);
      if es[a].j == es[b].j { SlotOrder(s, a', b'); }
    }
  }

  /** The events a sequence of records names. */
  ghost function Indices(es: seq<Entry>): (r: set<nat>) {
    set e | e in es && Proper(e) :: Index(e)
  }

  lemma {:induction false} IndicesSize(es: seq<Entry>)
    requires Distinct(es)
    ensures |Indices(es)| == |es|
    decreases |es|
  {
    if es != [] {
      var n := |es| - 1;
      var front := es[..n];
      IndicesSize(front);
      assert es == front + [es[n]];
      forall e | e in front ensures Proper(e) && Index(e) != Index(es[n]) {
        var a :| 0 <= a < n && front[a] == e;
        assert es[a] == e;
      }
      assert Indices(es) == Indices(front) + {Index(es[n])};
    }
  }

  /** The records of a station name exactly the logged events. */
  lemma IndicesAreLogged(s: State, i: nat, k: nat)
    requires Inv(s) && i < s.max
    ensures k in Indices(OfStation(s.log, i)) <==> Logged(s.log, i, k)
  {
    var es := OfStation(s.log, i);
    OfStationIsFilter(s.log, i);
    if k in Indices(es) {
      var e :| e in es && Proper(e) && k == Index(e);
      assert Names(e, i, k);
    }
    if Logged(s.log, i, k) {
      var e :| e in s.log && Names(e, i, k);
      assert e in es && Proper(e) && Index(e) == k;
    }
  }

  /** How often `q` occurs as a sequence number in the log of station `i`. */
  function Occurrences(log: seq<Entry>, i: nat, q: nat): (n: nat) {
    if log == [] then 0
    else
      var e := log[|log| - 1];
      Occurrences(log[..|log| - 1], i, q) + (if e.i == i && e.seqNo == q then 1 else 0)
  }

  lemma {:induction false} OccurrencesBound(log: seq<Entry>, i: nat, q: nat, js: set<nat>)
    requires forall a :: 0 <= a < |log| && log[a].i == i && log[a].seqNo == q ==> log[a].j in js
    requires forall a, b :: 0 <= a < b < |log| && log[a].i == i && log[b].i == i && log[a].j == log[b].j ==> log[a].seqNo != log[b].seqNo
    ensures Occurrences(log, i, q) <= |js|
    decreases |log|
  {
    if log != [] {
      var n := |log| - 1;
      var e := log[n];
      var front := log[..n];
      if e.i == i && e.seqNo == q {
        forall a | 0 <= a < n && front[a].i == i && front[a].seqNo == q ensures front[a].j in js - {e.j} {
          assert log[a].j in js && log[n].j == e.j;
        }
        OccurrencesBound(front, i, q, js - {e.j});
      } else {
        OccurrencesBound(front, i, q, js);
      }
    }
  }

  /** One station's log holds any given `seq` at most eight times, once per slot. */
  lemma SeqAtMostEightTimes(s: State, i: nat, q: nat)
    requires Reachable(s)
    ensures Occurrences(s.log, i, q) <= 8
  {
    Always(s);
    forall a | 0 <= a < |s.log| ensures s.log[a].j < 8 { assert EntryOk(s, s.log[a]); }
    forall a, b | 0 <= a < b < |s.log| && s.log[a].i == i && s.log[b].i == i && s.log[a].j == s.log[b].j
      ensures s.log[a].seqNo != s.log[b].seqNo {
      SlotOrder(s, a, b);
    }
    OccurrencesBound(s.log, i, q, {0, 1, 2, 3, 4, 5, 6, 7});
  }

  // ---- Gaps ----

  ghost function Upto(n: nat): (r: set<nat>)
    ensures |r| == n && forall c: nat :: c in r <==> 1 <= c <= n
  {
    if n == 0 then {} else Upto(n - 1) + {n}
  }

  /** The rounds of slot `j` up to the `last` seen that never made it into the log. */
  ghost function Missed(log: seq<Entry>, i: nat, j: nat, last: nat): (r: set<nat>)
    requires j < 8
  {
    set c | c in Upto(last / 2) && !Logged(log, i, EventAt(j, c))
  }

  ghost function Rounds(es: seq<Entry>): (r: set<nat>) {
    set e | e in es :: e.seqNo / 2
  }

  lemma {:induction false} RoundsSize(es: seq<Entry>)
    requires forall a :: 0 <= a < |es| ==> es[a].seqNo % 2 == 0
    requires forall a, b :: 0 <= a < b < |es| ==> es[a].seqNo < es[b].seqNo
    ensures |Rounds(es)| == |es|
    decreases |es|
  {
    if es != [] {
      var n := |es| - 1;
      var front, c := es[..n], es[n].seqNo / 2;
      RoundsSize(front);
      assert es == front + [es[n]];
      forall e | e in front ensures e.seqNo / 2 < c {
        var a :| 0 <= a < n && front[a] == e;
        assert es[a].seqNo < es[n].seqNo;
      }
      assert Rounds(es) == Rounds(front) + {c};
    }
  }

  lemma RoundIsLogged(log: seq<Entry>, i: nat, j: nat, c: nat)
    requires j < 8 && c >= 1 && forall e :: e in Of(log, i, j) ==> e.seqNo % 2 == 0
    ensures c in Rounds(Of(log, i, j)) <==> Logged(log, i, EventAt(j, c))
  {
    OfIsFilter(log, i, j);
    if c in Rounds(Of(log, i, j)) {
      var e :| e in Of(log, i, j) && e.seqNo / 2 == c;
      assert Names(e, i, EventAt(j, c));
    }
    if Logged(log, i, EventAt(j, c)) {
      var e :| e in log && Names(e, i, EventAt(j, c));
      assert e in Of(log, i, j);
    }
  }

  lemma RoundsBound(es: seq<Entry>, last: nat, c: nat)
    requires Disciplined(es, last) && c in Rounds(es)
    ensures 1 <= c <= last / 2
  {
    var e :| e in es && e.seqNo / 2 == c;
    var a :| 0 <= a < |es| && es[a] == e;
    assert a < |es| - 1 ==> es[a].seqNo < es[|es| - 1].seqNo;
  }

  lemma SplitSize(all: set<nat>, hit: set<nat>, miss: set<nat>)
    requires hit <= all && forall c :: c in miss <==> c in all && c !in hit
    ensures |hit| + |miss| == |all|
  {
    assert hit + miss == all;
  }

  /** The rounds up to the last seen split into the logged and the missed. */
  lemma RoundsSplit(log: seq<Entry>, i: nat, j: nat, last: nat)
    requires j < 8 && Disciplined(Of(log, i, j), last)
    ensures |Of(log, i, j)| + |Missed(log, i, j, last)| == last / 2
  {
    var es := Of(log, i, j);
    RoundsSize(es);
    forall c | c in Upto(last / 2) ensures c in Rounds(es) <==> Logged(log, i, EventAt(j, c)) {
      RoundIsLogged(log, i, j, c);
    }
    forall c | c in Rounds(es) ensures c in Upto(last / 2) { RoundsBound(es, last, c); }
    SplitSize(Upto(last / 2), Rounds(es), Missed(log, i, j, last));
  }

  /** Gap counting: half of `lastSeen` minus the slot's records is exactly the number of
      its events that were overwritten unseen. */
  lemma GapCounting(s: State, i: nat, j: nat)
    requires Reachable(s) && i < s.max && j < 8
    ensures Inv(s)
    ensures |Missed(s.log, i, j, s.seen[i][j])| == s.seen[i][j] / 2 - |Of(s.log, i, j)|
    ensures forall c :: c in Missed(s.log, i, j, s.seen[i][j]) ==> EventAt(j, c) + 8 < |s.hist[i]|
  {
    Always(s);
    assert SeenOk(s, i, j);
    RoundsSplit(s.log, i, j, s.seen[i][j]);
    forall c | c in Missed(s.log, i, j, s.seen[i][j]) ensures EventAt(j, c) + 8 < |s.hist[i]| {
      MissedIsOverwritten(s, i, j, c);
    }
  }

  lemma MissedIsOverwritten(s: State, i: nat, j: nat, c: nat)
    requires Shaped(s) && i < s.max && j < 8 && SeenOk(s, i, j) && c in Missed(s.log, i, j, s.seen[i][j])
    ensures EventAt(j, c) + 8 < |s.hist[i]|
  {
    if 2 * c == s.seen[i][j] { SeenIsLogged(s, i, EventAt(j, c)); }
    CountBounds(|s.hist[i]|, j, EventAt(j, c) + 8);
  }
}
