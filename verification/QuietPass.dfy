/** Harvesting a station in passes during which its own writer stores nothing,
    whatever all other probes do meanwhile: which events the log then holds, how
    often, and in what order. */
module QuietPass {
  import opened Ring
  import opened Machine
  import opened Safety
  import opened LogLaws
  import opened Converge
  import opened Conserve
  import opened Order

  // ---- What a pass can find ----

  /** Among the first `b` slots, those that events `n0` to `n - 1` landed in. */
  function Hits(n0: nat, n: nat, b: nat): (h: nat)
    requires b <= 8
    decreases n0, n, b
  {
    if b == 0 then 0 else Hits(n0, n, b - 1) + (if Count(n, b - 1) > Count(n0, b - 1) then 1 else 0)
  }

  /** The slot event `n` will take was already taken since event `n0` exactly if a whole ring has gone by. */
  lemma Overlaps(n0: nat, n: nat)
    requires n0 <= n
    ensures Count(n, n % 8) > Count(n0, n % 8) <==> n >= n0 + 8
    ensures Count(n, n % 8) >= Count(n0, n % 8)
  {
  }

  lemma {:induction false} HitsStep(n0: nat, n: nat, b: nat)
    requires n0 <= n && b <= 8
    ensures Hits(n0, n + 1, b) == Hits(n0, n, b) + (if n % 8 < b && n < n0 + 8 then 1 else 0)
  {
    if b > 0 {
      HitsStep(n0, n, b - 1);
      CountStep(n, b - 1);
      if n % 8 == b - 1 { Overlaps(n0, n); }
    }
  }

  lemma {:induction false} HitsNone(n: nat, b: nat)
    requires b <= 8
    ensures Hits(n, n, b) == 0
  {
    if b > 0 { HitsNone(n, b - 1); }
  }

  /** A pass finds as many of the events since the last one as the ring has room for. */
  lemma {:induction false} HitsAll(n0: nat, n: nat)
    requires n0 <= n
    ensures Hits(n0, n, 8) == if n <= n0 + 8 then n - n0 else 8
    decreases n
  {
    if n == n0 {
      HitsNone(n, 8);
    } else {
      HitsAll(n0, n - 1);
      HitsStep(n0, n - 1, 8);
    }
  }

  lemma CountFalls(n: nat, j: nat, k: nat)
    requires j <= k < 8
    ensures Count(n, k) <= Count(n, j)
  {
  }

  lemma CountGrows(n0: nat, n: nat, j: nat)
    requires n0 <= n && j < 8
    ensures Count(n0, j) <= Count(n, j)
  {
  }

  // ---- One station during a scan ----

  /** Of station `i` the pass has read the first `b` slots. Before it the station had `n0` events
      and `r0` records. */
  ghost predicate Through(s: State, i: nat, b: nat, n0: nat, r0: nat) {
    && Shaped(s) && i < s.max && n0 <= |s.hist[i]| && b <= 8
    && InOrder(s.log, i)
    && |OfStation(s.log, i)| == r0 + Hits(n0, |s.hist[i]|, b)
    && (forall j :: 0 <= j < 8 ==> s.seen[i][j] == 2 * Count(if j < b then |s.hist[i]| else n0, j))
  }

  predicate InStation(at: Control) {
    at.Visit? || at.Copying? || at.Printing?
  }

  /** How many slots of station `i` the scan has left behind. */
  function Past(at: Control, i: nat): (b: nat) {
    if at.LoadCount? then 0
    else if !InStation(at) || i < at.c.i then 8
    else if i == at.c.i then at.c.j
    else 0
  }

  ghost predicate MidScan(s: State, i: nat, n0: nat, r0: nat) {
    && Through(s, i, Past(s.at, i), n0, r0)
    && (InStation(s.at) ==> i < s.at.c.limit || s.hist[i] == [])
    && ((s.at.Copying? || s.at.Printing?) && s.at.c.i == i ==> s.at.seq1 == 2 * Count(|s.hist[i]|, s.at.c.j))
  }

  /** Having dealt with slot `c.j` of station `c.i`, the scan goes to the next slot or is over. */
  lemma NextPast(c: Scan, i: nat)
    requires c.j < 8 && c.i < c.limit
    ensures var at := NextSlot(c);
      && (at.Visit? || at.Scanned?) && (at.Visit? ==> at.c.limit == c.limit)
      && (Past(at, i) == (if i < c.i then 8 else if i == c.i then c.j + 1 else 0) || c.limit <= i)
  {
  }

  /** A station without events is as good as read. */
  lemma EmptyThrough(s: State, i: nat, b: nat, b': nat, n0: nat, r0: nat)
    requires Through(s, i, b, n0, r0) && s.hist[i] == [] && b' <= 8
    ensures Through(s, i, b', n0, r0)
  {
    HitsNone(0, b);
    HitsNone(0, b');
  }

  ghost predicate SameBooks(s: State, r: State) {
    Shaped(s) && Shaped(r) && r.max == s.max && r.hist == s.hist && r.seen == s.seen && r.log == s.log
  }

  /** Same books, next slot: nothing new was to be found in this one. */
  lemma SkipThrough(s: State, r: State, i: nat, b: nat, n0: nat, r0: nat)
    requires Through(s, i, b, n0, r0) && SameBooks(s, r) && b < 8 && 2 * Count(|s.hist[i]|, b) <= s.seen[i][b]
    ensures Through(r, i, b + 1, n0, r0)
  {
    CountGrows(n0, |s.hist[i]|, b);
  }

  /** The slot's record comes after all of equal `seq` from slots before it, and there are none
      from slots after it. */
  lemma PrintInOrder(s: State, i: nat, n0: nat, r0: nat)
    requires Inv(s) && MidScan(s, i, n0, r0) && s.at.Printing? && s.at.c.i == i
    ensures InOrder(ReaderStep(s, Timeout).log, i)
  {
    var n, j, log := |s.log|, s.at.c.j, ReaderStep(s, Timeout).log;
    forall a | 0 <= a < n && log[a].i == i && log[a].seqNo == s.at.seq1 ensures log[a].j < j {
      assert EntryOk(s, s.log[a]);
      SeenCovers(s, a);
      if log[a].j >= j { CountFalls(n0, j, log[a].j); }
    }
  }

  /** No record is ahead of its slot's `lastSeen`. */
  lemma SeenCovers(s: State, a: nat)
    requires Inv(s) && a < |s.log|
    ensures EntryOk(s, s.log[a]) && s.log[a].seqNo <= s.seen[s.log[a].i][s.log[a].j]
  {
    var e := s.log[a];
    assert EntryOk(s, e) && SeenOk(s, e.i, e.j);
    OfIsFilter(s.log, e.i, e.j);
    var es := Of(s.log, e.i, e.j);
    assert e in es;
    var b :| 0 <= b < |es| && es[b] == e;
  }

  lemma PrintThrough(s: State, i: nat, n0: nat, r0: nat)
    requires Inv(s) && MidScan(s, i, n0, r0) && s.at.Printing? && s.at.c.i == i
    ensures Through(ReaderStep(s, Timeout), i, s.at.c.j + 1, n0, r0)
  {
    var c := s.at.c;
    PrintInOrder(s, i, n0, r0);
    OfStationSnoc(s.log, Entry(i, c.j, s.at.seq1, s.at.data, s.stations[i].probeId), i);
  }

  lemma PrintElsewhere(s: State, i: nat, b: nat, n0: nat, r0: nat)
    requires Through(s, i, b, n0, r0) && s.at.Printing? && s.at.c.i != i
    ensures Through(ReaderStep(s, Timeout), i, b, n0, r0)
  {
    var c := s.at.c;
    OfStationSnoc(s.log, Entry(c.i, c.j, s.at.seq1, s.at.data, s.stations[c.i].probeId), i);
  }

  /** The engine has left a slot. */
  lemma Arrive(r: State, limit: nat, b: nat, i: nat, n0: nat, r0: nat)
    requires Through(r, i, b, n0, r0) && (i < limit || r.hist[i] == [])
    requires (r.at.Visit? || r.at.Scanned?) && (r.at.Visit? ==> InScan(r, r.at.c) && r.at.c.limit == limit)
    requires Past(r.at, i) == b || limit <= i
    ensures MidScan(r, i, n0, r0)
  {
    if limit <= i { EmptyThrough(r, i, b, Past(r.at, i), n0, r0); }
  }

  /** Printing moves the engine on, with one record more. */
  lemma PrintStep(s: State)
    requires Shaped(s) && s.at.Printing?
    ensures ReaderStep(s, Timeout).at == NextSlot(s.at.c.(got := s.at.c.got + 1)) && ReaderStep(s, Timeout).hist == s.hist
  {
  }

  lemma PrintMid(s: State, r: State, i: nat, n0: nat, r0: nat)
    requires MidScan(s, i, n0, r0) && s.at.Printing? && Shaped(r) && r.max == s.max && r.hist == s.hist
    requires r.at == NextSlot(s.at.c.(got := s.at.c.got + 1))
    requires Through(r, i, if s.at.c.i == i then Past(s.at, i) + 1 else Past(s.at, i), n0, r0)
    ensures MidScan(r, i, n0, r0)
  {
    var c := s.at.c.(got := s.at.c.got + 1);
    var b := Past(s.at, i);
    NextPast(c, i);
    Arrive(r, c.limit, if c.i == i then b + 1 else b, i, n0, r0);
  }

  lemma PrintingMid(s: State, i: nat, n0: nat, r0: nat)
    requires Inv(s) && MidScan(s, i, n0, r0) && s.at.Printing?
    ensures MidScan(ReaderStep(s, Timeout), i, n0, r0)
  {
    if s.at.c.i == i { PrintThrough(s, i, n0, r0); } else { PrintElsewhere(s, i, Past(s.at, i), n0, r0); }
    PrintStep(s);
    PrintMid(s, ReaderStep(s, Timeout), i, n0, r0);
  }

  lemma CountMid(s: State, i: nat, n0: nat, r0: nat)
    requires Inv(s) && MidScan(s, i, n0, r0) && s.at.LoadCount?
    ensures MidScan(ReaderStep(s, Timeout), i, n0, r0)
  {
    var r := ReaderStep(s, Timeout);
    assert StationOk(s, i);
    if r.at.Scanned? { EmptyThrough(s, i, 0, 8, n0, r0); }
  }

  /** Leaving a slot without a record: there was none to be had, or it is another station's. */
  lemma LeaveMid(s: State, r: State, i: nat, n0: nat, r0: nat)
    requires MidScan(s, i, n0, r0) && SameBooks(s, r) && (s.at.Visit? || s.at.Copying?) && r.at == NextSlot(s.at.c)
    requires s.at.c.i == i ==> 2 * Count(|s.hist[i]|, s.at.c.j) <= s.seen[i][s.at.c.j]
    ensures MidScan(r, i, n0, r0)
  {
    var c, b := s.at.c, Past(s.at, i);
    if c.i == i { SkipThrough(s, r, i, b, n0, r0); }
    NextPast(c, i);
    Arrive(r, c.limit, if c.i == i then b + 1 else b, i, n0, r0);
  }

  lemma StayMid(s: State, r: State, i: nat, n0: nat, r0: nat)
    requires MidScan(s, i, n0, r0) && SameBooks(s, r) && (s.at.Visit? || s.at.Copying?)
    requires (r.at.Copying? || r.at.Printing?) && r.at.c == s.at.c
    requires s.at.c.i == i ==> r.at.seq1 == 2 * Count(|s.hist[i]|, s.at.c.j)
    ensures MidScan(r, i, n0, r0)
  {
  }

  lemma VisitMid(s: State, r: State, i: nat, n0: nat, r0: nat)
    requires Inv(s) && MidScan(s, i, n0, r0) && s.at.Visit? && !WriterOf(s, i).Storing? && SameBooks(s, r)
    requires var c := s.at.c; var q := SlotAt(s, c).seqNo;
      r.at == if q <= s.seen[c.i][c.j] || q % 2 != 0 then NextSlot(c) else Copying(c, q, 0, NOTHING)
    ensures MidScan(r, i, n0, r0)
  {
    var c := s.at.c;
    IdleSlot(s, i, c.j);
    var q := SlotAt(s, c).seqNo;
    if q <= s.seen[c.i][c.j] || q % 2 != 0 { LeaveMid(s, r, i, n0, r0); } else { StayMid(s, r, i, n0, r0); }
  }

  lemma CopyMid(s: State, i: nat, n0: nat, r0: nat)
    requires Inv(s) && MidScan(s, i, n0, r0) && s.at.Copying? && !WriterOf(s, i).Storing?
    ensures MidScan(ReaderStep(s, Timeout), i, n0, r0)
  {
    var r := ReaderStep(s, Timeout);
    IdleSlot(s, i, s.at.c.j);
    if s.at.n < 4 || SlotAt(s, s.at.c).seqNo == s.at.seq1 { StayMid(s, r, i, n0, r0); } else { LeaveMid(s, r, i, n0, r0); }
  }

  lemma EngineMid(s: State, wake: Wake, i: nat, n0: nat, r0: nat)
    requires Inv(s) && MidScan(s, i, n0, r0) && Scanning(s.at) && !WriterOf(s, i).Storing?
    ensures MidScan(ReaderStep(s, wake), i, n0, r0)
  {
    match s.at {
      case LoadCount(_) => CountMid(s, i, n0, r0);
      case Printing(_, _, _) => PrintingMid(s, i, n0, r0);
      case Visit(_) => VisitStep(s, Timeout); VisitMid(s, ReaderStep(s, Timeout), i, n0, r0);
      case _ => CopyMid(s, i, n0, r0);
    }
  }

  lemma TraceeMid(s: State, a: Action, i: nat, n0: nat, r0: nat)
    requires Inv(s) && MidScan(s, i, n0, r0) && !a.Reader? && !WriterOf(s, i).Storing?
    ensures MidScan(Step(s, a), i, n0, r0)
  {
    var r := Step(s, a);
    StepKeeps(s, a);
    if r.hist[i] != s.hist[i] { OnlyHolderWrites(s, a, i); }
  }

  /** A scan, from wherever it is to its end, in no state of which the writer of station `i` is
      between its odd and its even store. Every other probe may do as it likes. */
  ghost predicate QuietScan(s: State, acts: seq<Action>, i: nat)
    requires Shaped(s)
    decreases |acts|
  {
    && !WriterOf(s, i).Storing?
    && (if acts == [] then s.at.Scanned? else Scanning(s.at) && QuietScan(Step(s, acts[0]), acts[1..], i))
  }

  /** Such a scan reads station `i` as one undisturbed pass would. */
  lemma {:induction false} ScanReads(s: State, acts: seq<Action>, i: nat, n0: nat, r0: nat)
    requires Inv(s) && MidScan(s, i, n0, r0) && QuietScan(s, acts, i)
    ensures var t := Run(s, acts); Inv(t) && t.at.Scanned? && t.hist[i] == s.hist[i] && Through(t, i, 8, n0, r0)
    decreases |acts|
  {
    if acts != [] {
      var a := acts[0];
      StepKeeps(s, a);
      HistoryStill(s, a, i);
      if a.Reader? { EngineMid(s, a.wake, i, n0, r0); } else { TraceeMid(s, a, i, n0, r0); }
      ScanReads(Step(s, a), acts[1..], i, n0, r0);
    }
  }

  lemma HistoryStill(s: State, a: Action, i: nat)
    requires Inv(s) && i < s.max && !WriterOf(s, i).Storing?
    ensures Step(s, a).hist[i] == s.hist[i]
  {
    if Step(s, a).hist[i] != s.hist[i] { OnlyHolderWrites(s, a, i); }
  }

  // ---- Rounds ----

  /** Anything that logs no record of the station, then a scan with its writer quiet. */
  datatype Round = Round(before: seq<Action>, scan: seq<Action>)

  ghost predicate IsQuietRound(s: State, r: Round, i: nat)
    requires Shaped(s)
  {
    var m := Run(s, r.before);
    m.at.LoadCount? && OfStation(m.log, i) == OfStation(s.log, i) && QuietScan(m, r.scan, i)
  }

  function AfterRound(s: State, r: Round): (t: State)
    requires Shaped(s)
    ensures Shaped(t) && t.max == s.max
  {
    Run(Run(s, r.before), r.scan)
  }

  function AfterRounds(s: State, rs: seq<Round>): (t: State)
    requires Shaped(s)
    ensures Shaped(t) && t.max == s.max
    decreases |rs|
  {
    if rs == [] then s else AfterRounds(AfterRound(s, rs[0]), rs[1..])
  }

  ghost predicate AreQuietRounds(s: State, rs: seq<Round>, i: nat)
    requires Shaped(s)
    decreases |rs|
  {
    rs == [] || (IsQuietRound(s, rs[0], i) && AreQuietRounds(AfterRound(s, rs[0]), rs[1..], i))
  }

  /** How many events of station `i` each round completed. */
  function EventsPerRound(s: State, rs: seq<Round>, i: nat): (ns: seq<int>)
    requires Shaped(s) && i < s.max
    ensures |ns| == |rs|
    decreases |rs|
  {
    if rs == [] then []
    else
      var t := AfterRound(s, rs[0]);
      [|t.hist[i]| - |s.hist[i]|] + EventsPerRound(t, rs[1..], i)
  }

  /** The events each round completed beyond eight. */
  function Excess(ns: seq<int>): (n: nat)
    ensures n == 0 <==> forall a :: 0 <= a < |ns| ==> ns[a] <= 8
  {
    if ns == [] then 0
    else
      assert forall a :: 1 <= a < |ns| ==> ns[a] == ns[1..][a - 1];
      (if ns[0] <= 8 then 0 else ns[0] - 8) + Excess(ns[1..])
  }

  /** Between rounds the station is fully read. */
  ghost predicate Settled(s: State, i: nat) {
    && Inv(s) && i < s.max && InOrder(s.log, i)
    && forall j :: 0 <= j < 8 ==> s.seen[i][j] == 2 * Count(|s.hist[i]|, j)
  }

  /** `lastSeen` is a matter of the station's own records. */
  lemma SameRecordsSameSeen(s: State, r: State, i: nat, j: nat)
    requires Inv(s) && Inv(r) && i < s.max == r.max && j < 8 && OfStation(r.log, i) == OfStation(s.log, i)
    ensures r.seen[i][j] == s.seen[i][j]
  {
    assert SeenOk(s, i, j) && SeenOk(r, i, j);
    OfOfStation(s.log, i, j);
    OfOfStation(r.log, i, j);
  }

  lemma SameRecordsSameOrder(s: seq<Entry>, r: seq<Entry>, i: nat)
    requires InOrder(s, i) && OfStation(r, i) == OfStation(s, i)
    ensures InOrder(r, i)
  {
    forall a, b | 0 <= a < b < |r| && r[a].i == i && r[b].i == i && r[a].seqNo == r[b].seqNo ensures r[a].j < r[b].j {
      var a', b' := StationKeepsOrder(r, i, a, b);
      a', b' := StationOrderBack(s, i, a', b');
    }
  }

  /** What happens between scans leaves the station where a scan begins. */
  lemma BeforeScan(s: State, m: State, i: nat)
    requires Settled(s, i) && Inv(m) && Grows(s, m) && m.max == s.max && m.at.LoadCount?
    requires OfStation(m.log, i) == OfStation(s.log, i)
    ensures MidScan(m, i, |s.hist[i]|, |OfStation(s.log, i)|)
  {
    forall j | 0 <= j < 8 ensures m.seen[i][j] == s.seen[i][j] { SameRecordsSameSeen(s, m, i, j); }
    SameRecordsSameOrder(s.log, m.log, i);
  }

  /** One round: all that is left of what was written gets logged, in order. */
  lemma RoundSettles(s: State, r: Round, i: nat)
    requires Settled(s, i) && IsQuietRound(s, r, i)
    ensures var t := AfterRound(s, r); var d := |t.hist[i]| - |s.hist[i]|;
      && Settled(t, i) && 0 <= d && |OfStation(t.log, i)| == |OfStation(s.log, i)| + (if d <= 8 then d else 8)
  {
    var m := Run(s, r.before);
    RunGrows(s, r.before);
    BeforeScan(s, m, i);
    ScanReads(m, r.scan, i, |s.hist[i]|, |OfStation(s.log, i)|);
    HitsAll(|s.hist[i]|, |m.hist[i]|);
  }

  lemma {:induction false} RoundsSettle(s: State, rs: seq<Round>, i: nat)
    requires Settled(s, i) && AreQuietRounds(s, rs, i)
    ensures var t := AfterRounds(s, rs);
      && Settled(t, i)
      && |OfStation(t.log, i)| + Excess(EventsPerRound(s, rs, i)) - |OfStation(s.log, i)| == |t.hist[i]| - |s.hist[i]|
    decreases |rs|
  {
    if rs != [] {
      RoundSettles(s, rs[0], i);
      var t := AfterRound(s, rs[0]);
      RoundsSettle(t, rs[1..], i);
      var ns := EventsPerRound(s, rs, i);
      assert ns[1..] == EventsPerRound(t, rs[1..], i);
    }
  }

  lemma StartSettled(max: nat, cap: nat, i: nat)
    requires i < max
    ensures Settled(Init(max, cap), i)
  {
    InitInv(max, cap);
  }

  /** A station's log is complete exactly if it has as many records as there are events. */
  lemma FullIsComplete(s: State, i: nat)
    requires Inv(s) && i < s.max
    ensures |OfStation(s.log, i)| == |s.hist[i]| <==> forall k :: 0 <= k < |s.hist[i]| ==> Logged(s.log, i, k)
  {
    var ks, all := Indices(OfStation(s.log, i)), Below(|s.hist[i]|);
    RecordsSize(s, i);
    forall k | k in ks ensures k in all { IndexInHistory(s, i, k); }
    forall k: nat ensures k in ks <==> Logged(s.log, i, k) { IndicesAreLogged(s, i, k); }
    SubsetFull(ks, all);
  }

  lemma SubsetFull(a: set<nat>, b: set<nat>)
    requires a <= b
    ensures |a| == |b| <==> forall k :: k in b ==> k in a
  {
    assert b == a + (b - a);
    assert |b - a| == |b| - |a|;
    if |a| == |b| { assert b - a == {}; }
    if forall k :: k in b ==> k in a { assert a == b; }
  }

  /** Exactly-once completeness and its exact condition. Rounds are quiet for station `i` if its
      writer stores nothing during a scan; all other probes, and this one between scans, run
      freely. After any such rounds the log holds every event of the station, each once, if and
      only if no round completed more than eight; and in any case records and excess add up. */
  lemma HarvestsExactlyOnce(max: nat, cap: nat, rs: seq<Round>, i: nat)
    requires i < max && AreQuietRounds(Init(max, cap), rs, i)
    ensures var s := AfterRounds(Init(max, cap), rs); var ns := EventsPerRound(Init(max, cap), rs, i);
      && ((forall k :: 0 <= k < |s.hist[i]| ==> Logged(s.log, i, k)) <==> forall a :: 0 <= a < |ns| ==> ns[a] <= 8)
      && |OfStation(s.log, i)| + Excess(ns) == |s.hist[i]|
      && Distinct(OfStation(s.log, i))
  {
    StartSettled(max, cap, i);
    RoundsSettle(Init(max, cap), rs, i);
    var s := AfterRounds(Init(max, cap), rs);
    FullIsComplete(s, i);
    StationLog(s, i);
  }

  /** Order recovery: after any rounds quiet for station `i`, however many events they completed, a
      stable sort by `seq` of its log is the order of writing. */
  lemma SortRestoresOrder(max: nat, cap: nat, rs: seq<Round>, i: nat)
    requires i < max && AreQuietRounds(Init(max, cap), rs, i)
    ensures var s := AfterRounds(Init(max, cap), rs); var raw := OfStation(s.log, i); var es := SortBySeq(raw);
      && multiset(es) == multiset(raw) && InWriteOrder(es)
      && (forall a :: 0 <= a < |es| ==> Index(es[a]) < |s.hist[i]| && es[a].data == s.hist[i][Index(es[a])])
  {
    StartSettled(max, cap, i);
    RoundsSettle(Init(max, cap), rs, i);
    var s := AfterRounds(Init(max, cap), rs);
    SortsInOrder(s, i);
    SortedIsWritten(s, i);
  }

  lemma SortedIsWritten(s: State, i: nat)
    requires Inv(s) && i < s.max && InWriteOrder(SortBySeq(OfStation(s.log, i)))
    ensures var es := SortBySeq(OfStation(s.log, i));
      forall a :: 0 <= a < |es| ==> Index(es[a]) < |s.hist[i]| && es[a].data == s.hist[i][Index(es[a])]
  {
    var raw := OfStation(s.log, i);
    var es := SortBySeq(raw);
    StationLog(s, i);
    forall a | 0 <= a < |es| ensures Index(es[a]) < |s.hist[i]| && es[a].data == s.hist[i][Index(es[a])] {
      assert es[a] in es && es[a] in raw;
      var b :| 0 <= b < |raw| && raw[b] == es[a];
    }
  }
}
