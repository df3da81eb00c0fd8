/** The order of the log. Each pass emits a station's records slot by slot, so the
    order of writing has to be recovered; this says when a stable sort by `seq`
    does so, in terms of the log and in terms of the run. */
module Order {
  import opened Ring
  import opened Machine
  import opened Safety
  import opened LogLaws

  // ---- Stable sort ----

  /** Put `e` after everything whose `seq` does not exceed its own. */
  function Insert(es: seq<Entry>, e: Entry): (r: seq<Entry>)
    ensures multiset(r) == multiset(es) + multiset{e}
    ensures forall f :: f in r <==> f in es || f == e
  {
    if es == [] || es[|es| - 1].seqNo <= e.seqNo then es + [e]
    else
      var n := |es| - 1;
      assert es == es[..n] + [es[n]];
      Insert(es[..n], e) + [es[n]]
  }

  /** Stable sort by `seq`: equal keys keep their order. */
  function SortBySeq(es: seq<Entry>): (r: seq<Entry>)
    ensures multiset(r) == multiset(es)
    ensures forall f :: f in r <==> f in es
  {
    if es == [] then []
    else
      var n := |es| - 1;
      assert es == es[..n] + [es[n]];
      Insert(SortBySeq(es[..n]), es[n])
  }

  // ---- In order of writing ----

  ghost predicate InWriteOrder(es: seq<Entry>) {
    && (forall a :: 0 <= a < |es| ==> Proper(es[a]))
    && (forall a, b :: 0 <= a < b < |es| ==> Index(es[a]) < Index(es[b]))
  }

  /** A larger `seq`, or an equal one in a later slot, means a later event. */
  lemma IndexOrder(f: Entry, e: Entry)
    requires Proper(f) && Proper(e) && (f.seqNo < e.seqNo || (f.seqNo == e.seqNo && f.j < e.j))
    ensures Index(f) < Index(e)
  {
  }

  lemma SnocInOrder(es: seq<Entry>, e: Entry)
    requires InWriteOrder(es) && Proper(e) && forall f :: f in es ==> Proper(f) && Index(f) < Index(e)
    ensures InWriteOrder(es + [e])
  {
    forall a | 0 <= a < |es| ensures Index(es[a]) < Index(e) { assert es[a] in es; }
  }

  lemma IndexBySeq(f: Entry, e: Entry)
    requires Proper(f) && Proper(e) && Index(f) < Index(e)
    ensures f.seqNo <= e.seqNo
  {
  }

  lemma {:induction false} InsertInOrder(es: seq<Entry>, e: Entry)
    requires InWriteOrder(es) && Proper(e)
    requires forall f :: f in es && f.seqNo == e.seqNo ==> f.j < e.j
    ensures InWriteOrder(Insert(es, e))
    decreases |es|
  {
    if es == [] || es[|es| - 1].seqNo <= e.seqNo {
      forall f | f in es ensures Proper(f) && Index(f) < Index(e) {
        var a :| 0 <= a < |es| && es[a] == f;
        if a < |es| - 1 { IndexBySeq(f, es[|es| - 1]); }
        IndexOrder(f, e);
      }
      SnocInOrder(es, e);
    } else {
      var n := |es| - 1;
      var front := es[..n];
      InsertInOrder(front, e);
      IndexOrder(e, es[n]);
      forall f | f in Insert(front, e) ensures Proper(f) && Index(f) < Index(es[n]) {
        if f != e {
          var a :| 0 <= a < n && front[a] == f;
          assert es[a] == f;
        }
      }
      SnocInOrder(Insert(front, e), es[n]);
    }
  }

  lemma {:induction false} SortInOrder(es: seq<Entry>)
    requires forall a :: 0 <= a < |es| ==> Proper(es[a])
    requires forall a, b :: 0 <= a < b < |es| && es[a].seqNo == es[b].seqNo ==> es[a].j < es[b].j
    ensures InWriteOrder(SortBySeq(es))
    decreases |es|
  {
    if es != [] {
      var n := |es| - 1;
      SortInOrder(es[..n]);
      forall f | f in SortBySeq(es[..n]) && f.seqNo == es[n].seqNo ensures f.j < es[n].j {
        var a :| 0 <= a < n && es[..n][a] == f;
        assert es[a] == f;
      }
      InsertInOrder(SortBySeq(es[..n]), es[n]);
    }
  }

  // ---- Stability ----

  /** Somewhere `f` stands before `g`. */
  ghost predicate Precedes(es: seq<Entry>, f: Entry, g: Entry) {
    exists a, b :: 0 <= a < b < |es| && es[a] == f && es[b] == g
  }

  lemma PrecedesSnoc(es: seq<Entry>, e: Entry, f: Entry, g: Entry)
    ensures Precedes(es + [e], f, g) <==> Precedes(es, f, g) || (f in es && g == e)
  {
    var r := es + [e];
    if Precedes(r, f, g) {
      var a, b :| 0 <= a < b < |r| && r[a] == f && r[b] == g;
      assert es[a] == f;
      if b < |es| { assert es[b] == g; }
    }
    if Precedes(es, f, g) {
      var a, b :| 0 <= a < b < |es| && es[a] == f && es[b] == g;
      assert r[a] == f && r[b] == g;
    }
    if f in es && g == e {
      var a :| 0 <= a < |es| && es[a] == f;
      assert r[a] == f && r[|es|] == g;
    }
  }

  lemma {:induction false} InsertKeepsPair(es: seq<Entry>, e: Entry, f: Entry, g: Entry)
    requires Precedes(es, f, g)
    ensures Precedes(Insert(es, e), f, g)
    decreases |es|
  {
    var n := |es| - 1;
    if es[n].seqNo <= e.seqNo {
      PrecedesSnoc(es, e, f, g);
    } else {
      assert es == es[..n] + [es[n]];
      PrecedesSnoc(es[..n], es[n], f, g);
      PrecedesSnoc(Insert(es[..n], e), es[n], f, g);
      if Precedes(es[..n], f, g) { InsertKeepsPair(es[..n], e, f, g); }
    }
  }

  /** The new entry comes after everything its `seq` is not below. */
  lemma {:induction false} InsertComesAfter(es: seq<Entry>, e: Entry, f: Entry)
    requires f in es && f.seqNo <= e.seqNo
    ensures Precedes(Insert(es, e), f, e)
    decreases |es|
  {
    var n := |es| - 1;
    if es[n].seqNo <= e.seqNo {
      PrecedesSnoc(es, e, f, e);
    } else {
      assert es == es[..n] + [es[n]];
      InsertComesAfter(es[..n], e, f);
      PrecedesSnoc(Insert(es[..n], e), es[n], f, e);
    }
  }

  /** The sort never swaps two entries that are not out of order by `seq`. */
  lemma {:induction false} SortKeepsPair(es: seq<Entry>, f: Entry, g: Entry)
    requires Precedes(es, f, g) && f.seqNo <= g.seqNo
    ensures Precedes(SortBySeq(es), f, g)
    decreases |es|
  {
    var n := |es| - 1;
    assert es == es[..n] + [es[n]];
    PrecedesSnoc(es[..n], es[n], f, g);
    if Precedes(es[..n], f, g) {
      SortKeepsPair(es[..n], f, g);
      InsertKeepsPair(SortBySeq(es[..n]), es[n], f, g);
    } else {
      InsertComesAfter(SortBySeq(es[..n]), es[n], f);
    }
  }

  // ---- When sorting works ----

  /** Records of one station with equal `seq` stand in slot order. */
  ghost predicate InOrder(log: seq<Entry>, i: nat) {
    forall a, b :: 0 <= a < b < |log| && log[a].i == i && log[b].i == i && log[a].seqNo == log[b].seqNo ==> log[a].j < log[b].j
  }

  lemma SortsInOrder(s: State, i: nat)
    requires Inv(s) && i < s.max && InOrder(s.log, i)
    ensures InWriteOrder(SortBySeq(OfStation(s.log, i)))
  {
    var es := OfStation(s.log, i);
    StationLog(s, i);
    forall a, b | 0 <= a < b < |es| && es[a].seqNo == es[b].seqNo ensures es[a].j < es[b].j {
      var a', b' := StationOrderBack(s.log, i, a, b);
    }
    SortInOrder(es);
  }

  lemma SortNeedsOrder(log: seq<Entry>, i: nat)
    requires InWriteOrder(SortBySeq(OfStation(log, i)))
    ensures InOrder(log, i)
  {
    forall a, b | 0 <= a < b < |log| && log[a].i == i && log[b].i == i && log[a].seqNo == log[b].seqNo
      ensures log[a].j < log[b].j {
      var a', b' := StationKeepsOrder(log, i, a, b);
      var es := OfStation(log, i);
      assert Precedes(es, log[a], log[b]);
      SortKeepsPair(es, log[a], log[b]);
      var r := SortBySeq(es);
      a', b' :| 0 <= a' < b' < |r| && r[a'] == log[a] && r[b'] == log[b];
    }
  }

  /** Sorting restores the order of writing of a station's records if and only if those of equal
      `seq` were logged in slot order, in every reachable state. */
  lemma SortWorksIff(s: State, i: nat)
    requires Reachable(s) && i < s.max
    ensures InWriteOrder(SortBySeq(OfStation(s.log, i))) <==> InOrder(s.log, i)
  {
    Always(s);
    if InOrder(s.log, i) { SortsInOrder(s, i); }
    if InWriteOrder(SortBySeq(OfStation(s.log, i))) { SortNeedsOrder(s.log, i); }
  }

  // ---- When a run loses the order ----

  /** The engine is printing a later event of the same round while event `k`
      is not in the log. */
  ghost predicate Overtakes(s: State, i: nat, k: nat) {
    s.at.Printing? && s.at.c.i == i && s.at.c.j > k % 8 && s.at.seq1 == 2 * (k / 8 + 1) && !Logged(s.log, i, k)
  }

  /** An event that is overtaken is complete. */
  lemma OvertakenIsComplete(s: State, i: nat, k: nat)
    requires Inv(s) && Overtakes(s, i, k)
    ensures i < s.max && k < |s.hist[i]|
  {
    CountBounds(|s.hist[i]|, s.at.c.j, EventAt(s.at.c.j, k / 8 + 1));
  }

  /** The step of a run that printed entry `a` of its log. */
  lemma {:induction false} StepOfEntry(s: State, acts: seq<Action>, a: nat) returns (m: nat)
    requires Inv(s) && |s.log| <= a < |Run(s, acts).log|
    ensures m < |acts| && acts[m].Reader?
    ensures var t := Run(s, acts[..m]);
      && Inv(t) && t.at.Printing? && |t.log| == a && |Step(t, acts[m]).log| == a + 1
    decreases |acts|
  {
    var r := Step(s, acts[0]);
    StepKeeps(s, acts[0]);
    if |r.log| > a {
      PrintsOne(s, acts[0]);
      m := 0;
    } else {
      m := StepOfEntry(r, acts[1..], a);
      RunPrefix(s, acts, m);
      m := m + 1;
    }
  }

  lemma PrintsOne(s: State, a: Action)
    requires Inv(s) && |Step(s, a).log| > |s.log|
    ensures a.Reader? && s.at.Printing? && |Step(s, a).log| == |s.log| + 1
  {
    match a {
      case Construct(_) =>
      case Writer(p, d) => if p < |s.probes| { WriterFrame(s, p, d); }
      case Reader(wake) => if !s.at.Printing? { OnlyPrintingLogs(s, wake); }
    }
  }

  /** What step `m` printed stands at its place in the log of the whole run. */
  lemma PrintedAt(s: State, acts: seq<Action>, m: nat)
    requires Inv(s) && m < |acts| && Run(s, acts[..m]).at.Printing? && acts[m].Reader?
    ensures var t := Run(s, acts[..m]); var n := |t.log|; var last := Run(s, acts);
      && Inv(t) && n < |last.log| && last.log[..n] == t.log && last.log[n].i == t.at.c.i
      && last.log[n].j == t.at.c.j && last.log[n].seqNo == t.at.seq1
  {
    RunKeeps(s, acts[..m]);
    var t := Run(s, acts[..m]);
    RunSplit(s, acts, m);
    StepKeeps(t, acts[m]);
    RunGrows(Step(t, acts[m]), acts[m + 1..]);
    var r := Step(t, acts[m]);
    assert r.log[|t.log|] == Run(s, acts).log[|t.log|] && r.log[..|t.log|] == t.log;
  }

  ghost predicate OvertakesAt(s: State, acts: seq<Action>, m: nat, i: nat, k: nat)
    requires Shaped(s)
  {
    m < |acts| && acts[m].Reader? && Overtakes(Run(s, acts[..m]), i, k)
  }

  /** Some step of the run logs an event past an earlier one of the same round that is itself
      logged later. */
  ghost predicate OrderLost(s: State, acts: seq<Action>, i: nat)
    requires Shaped(s)
  {
    exists m: nat, k: nat :: OvertakesAt(s, acts, m, i, k) && Logged(Run(s, acts).log, i, k)
  }

  /** An overtaken event that is logged later is logged out of order. */
  lemma OvertakenBreaks(t: State, log: seq<Entry>, i: nat, k: nat)
    requires Overtakes(t, i, k) && |t.log| < |log| && log[..|t.log|] == t.log && Logged(log, i, k)
    requires var e := log[|t.log|]; e.i == i && e.j == t.at.c.j && e.seqNo == t.at.seq1
    ensures !InOrder(log, i)
  {
    var n := |t.log|;
    var e :| e in log && Names(e, i, k);
    assert log == t.log + log[n..];
    var c :| 0 <= c < |log| - n && log[n..][c] == e;
    var b := n + c;
    assert n < b && log[n].seqNo == log[b].seqNo && log[n].j > log[b].j;
  }

  lemma LostIsOutOfOrder(s: State, acts: seq<Action>, i: nat)
    requires Inv(s) && OrderLost(s, acts, i)
    ensures !InOrder(Run(s, acts).log, i)
  {
    var m: nat, k: nat :| OvertakesAt(s, acts, m, i, k) && Logged(Run(s, acts).log, i, k);
    PrintedAt(s, acts, m);
    OvertakenBreaks(Run(s, acts[..m]), Run(s, acts).log, i, k);
  }

  /** Of two records out of order, the one printed first overtook the other's event. */
  lemma BrokenIsOvertaken(t: State, last: State, i: nat, a: nat, b: nat)
    requires Inv(last) && a < b < |last.log| && last.log[a].i == last.log[b].i == i
    requires last.log[a].seqNo == last.log[b].seqNo && last.log[a].j >= last.log[b].j
    requires t.log == last.log[..a] && t.at.Printing?
    requires var e := last.log[a]; e.i == t.at.c.i && e.j == t.at.c.j && e.seqNo == t.at.seq1
    ensures EntryOk(last, last.log[b]) && Overtakes(t, i, Index(last.log[b])) && Logged(last.log, i, Index(last.log[b]))
  {
    if last.log[a].j == last.log[b].j { SlotOrder(last, a, b); }
    assert EntryOk(last, last.log[b]);
    var k := Index(last.log[b]);
    if Logged(t.log, i, k) {
      var e :| e in t.log && Names(e, i, k);
      var c :| 0 <= c < a && t.log[c] == e;
      assert last.log[..a][c] == e;
      SlotOrder(last, c, b);
    }
    assert last.log[b] in last.log;
  }

  lemma OutOfOrderIsLost(s: State, acts: seq<Action>, i: nat)
    requires Inv(s) && s.log == [] && !InOrder(Run(s, acts).log, i)
    ensures OrderLost(s, acts, i)
  {
    var last := Run(s, acts);
    RunKeeps(s, acts);
    var a, b :| 0 <= a < b < |last.log| && last.log[a].i == i && last.log[b].i == i && last.log[a].seqNo == last.log[b].seqNo && last.log[a].j >= last.log[b].j;
    var m := StepOfEntry(s, acts, a);
    PrintedAt(s, acts, m);
    BrokenIsOvertaken(Run(s, acts[..m]), last, i, a, b);
    assert OvertakesAt(s, acts, m, i, Index(last.log[b]));
  }

  /** Order recovery, with its exact condition in terms of the run: sorting one station's log by
      `seq` restores the order of writing unless some step logged an event of the station while an
      earlier event of the same round was complete and not in the log, and that event got in
      later. */
  lemma SortWorksUnlessLost(max: nat, cap: nat, acts: seq<Action>, i: nat)
    requires cap >= 1 && i < max
    ensures InWriteOrder(SortBySeq(OfStation(Run(Init(max, cap), acts).log, i))) <==> !OrderLost(Init(max, cap), acts, i)
  {
    var start := Init(max, cap);
    InitInv(max, cap);
    assert Traced(max, cap, acts, Run(start, acts));
    SortWorksIff(Run(start, acts), i);
    if OrderLost(start, acts, i) { LostIsOutOfOrder(start, acts, i); }
    if !InOrder(Run(start, acts).log, i) { OutOfOrderIsLost(start, acts, i); }
  }
}
