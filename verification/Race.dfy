/** Uninterrupted stretches of the machine, and a run put together from them in
    which a writer races the pass and the log can no longer be sorted. */
module Race {
  import opened Machine
  import opened Safety
  import opened LogLaws
  import opened Order
  import opened Cause

  function Repeat(a: Action, n: nat): (acts: seq<Action>) {
    seq(n, _ => a)
  }

  lemma LeadsNowhere(s: State, a: Action)
    requires Shaped(s)
    ensures Leads(s, Repeat(a, 0), s)
  {
  }

  /** Once more. */
  lemma LeadsAgain(s: State, a: Action, n: nat, m: State, r: State)
    requires Shaped(s) && Shaped(m) && Leads(s, Repeat(a, n), m) && Step(m, a) == r
    ensures Leads(s, Repeat(a, n + 1), r)
  {
    LeadsRun(s, Repeat(a, n), m);
    assert Repeat(a, n + 1) == Repeat(a, n) + [a];
    RunSnoc(s, Repeat(a, n), a);
  }

  // ---- A write nobody interrupts ----

  /** `n` steps of `write_trace` on one station. */
  function RingSteps(x: Cell, d: Payload, n: nat): (r: Cell)
    requires |x.slots| == 8
    ensures |r.slots| == 8
    decreases |x.slots|, n
  {
    if n == 0 then x else RingStep(RingSteps(x, d, n - 1), d)
  }

  /** The payload after the first `n` field stores. */
  function StoredUpto(was: Payload, d: Payload, n: nat): (r: Payload)
    requires n <= 4
    ensures Stored(r, d, n)
    decreases was, n
  {
    if n == 0 then was else StoreField(StoredUpto(was, d, n - 1), d, n - 1)
  }

  lemma {:induction false} FieldSteps(x: Cell, d: Payload, n: nat)
    requires |x.slots| == 8 && x.w.at.Idle? && n <= 4
    ensures var j := x.w.count % 8; var slot := x.slots[j];
      RingSteps(x, d, n + 2) == Cell(x.slots[j := Slot(slot.seqNo + 1, StoredUpto(slot.data, d, n))], x.hist,
                                     x.w.(at := Storing(d, slot.seqNo, n)))
  {
    var j := x.w.count % 8;
    if n == 0 {
      var x1 := RingStep(x, d);
      assert RingSteps(x, d, 0) == x && RingSteps(x, d, 1) == x1;
    } else {
      FieldSteps(x, d, n - 1);
    }
  }

  /** The seven steps of a write, taken without interruption: one slot gets the whole event and
      moves two up in `seq`. */
  lemma SevenStepsWrite(x: Cell, d: Payload)
    requires |x.slots| == 8 && x.w.at.Idle?
    ensures var j := x.w.count % 8;
      RingSteps(x, d, 7) == Cell(x.slots[j := Slot(x.slots[j].seqNo + 2, d)], x.hist + [d], x.w.(at := Published, count := x.w.count + 1))
  {
    FieldSteps(x, d, 4);
    var y := RingSteps(x, d, 6);
    assert RingSteps(x, d, 7) == RingStep(y, d);
  }

  lemma StillInRing(x: Cell, d: Payload, n: nat)
    requires |x.slots| == 8 && x.w.at.Idle? && n < 7
    ensures var w := RingSteps(x, d, n).w; InRing(w.at) && w.ticket == x.w.ticket
  {
    if n >= 2 { FieldSteps(x, d, n - 2); }
    else if n == 1 { assert RingSteps(x, d, 0) == x; }
  }

  /** The state with one station, its history and its probe replaced. */
  function Put(s: State, p: nat, i: nat, x: Cell): (r: State)
    requires Shaped(s) && p < |s.probes| && i < s.max && |x.slots| == 8 && x.w.ticket == i
    ensures Shaped(r)
  {
    s.(probes := s.probes[p := x.w], hist := s.hist[i := x.hist], stations := s.stations[i := s.stations[i].(slots := x.slots)])
  }

  lemma PutStep(s: State, p: nat, i: nat, x: Cell, d: Payload)
    requires Shaped(s) && p < |s.probes| && i < s.max && |x.slots| == 8 && x.w.ticket == i && InRing(x.w.at)
    ensures WriterStep(Put(s, p, i, x), p, d) == Put(s, p, i, RingStep(x, d))
  {
    var r := Put(s, p, i, x);
    var y := RingStep(x, d);
    assert Cell(r.stations[i].slots, r.hist[i], r.probes[p]) == x;
    assert r.probes[p := y.w] == s.probes[p := y.w] && r.hist[i := y.hist] == s.hist[i := y.hist];
    assert r.stations[i := r.stations[i].(slots := y.slots)] == s.stations[i := s.stations[i].(slots := y.slots)];
  }

  lemma {:induction false} PutSteps(s: State, p: nat, i: nat, x: Cell, d: Payload, n: nat)
    requires Shaped(s) && p < |s.probes| && s.probes[p].at.Idle? && i == s.probes[p].ticket && n <= 7
    requires x == Cell(s.stations[i].slots, s.hist[i], s.probes[p])
    ensures RingSteps(x, d, n).w.ticket == i && Leads(s, Repeat(Writer(p, d), n), Put(s, p, i, RingSteps(x, d, n)))
    decreases n
  {
    if n == 0 {
      assert Put(s, p, i, x) == s;
      LeadsNowhere(s, Writer(p, d));
    } else {
      PutSteps(s, p, i, x, d, n - 1);
      StillInRing(x, d, n - 1);
      var y := RingSteps(x, d, n - 1);
      PutStep(s, p, i, y, d);
      LeadsAgain(s, Writer(p, d), n - 1, Put(s, p, i, y), Put(s, p, i, RingStep(y, d)));
    }
  }

  /** Station `i` after one more event of probe `p`. */
  function Written(s: State, p: nat, d: Payload): (r: State)
    requires Shaped(s) && p < |s.probes| && Attached(s.probes[p])
    ensures Shaped(r)
  {
    var w := s.probes[p];
    var i, j := w.ticket, w.count % 8;
    var slots := s.stations[i].slots;
    Put(s, p, i, Cell(slots[j := Slot(slots[j].seqNo + 2, d)], s.hist[i] + [d], w.(at := Idle, count := w.count + 1)))
  }

  lemma FlagDown(s: State, p: nat, i: nat, x: Cell, d: Payload)
    requires Shaped(s) && p < |s.probes| && i < s.max && |x.slots| == 8 && x.w.ticket == i && x.w.at.Published? && !s.sleeping
    ensures Step(Put(s, p, i, x), Writer(p, d)) == Put(s, p, i, x.(w := x.w.(at := Idle)))
  {
    assert s.probes[p := x.w][p := x.w.(at := Idle)] == s.probes[p := x.w.(at := Idle)];
  }

  /** With the flag down, eight steps of a probe write one event and are back where they began. */
  lemma EightStepsWrite(s: State, p: nat, d: Payload)
    requires Shaped(s) && p < |s.probes| && s.probes[p].at.Idle? && !s.sleeping
    ensures Leads(s, Repeat(Writer(p, d), 8), Written(s, p, d))
  {
    var i := s.probes[p].ticket;
    var x := Cell(s.stations[i].slots, s.hist[i], s.probes[p]);
    PutSteps(s, p, i, x, d, 7);
    SevenStepsWrite(x, d);
    var y := RingSteps(x, d, 7);
    FlagDown(s, p, i, y, d);
    LeadsAgain(s, Writer(p, d), 7, Put(s, p, i, y), Written(s, p, d));
  }

  // ---- A visit nobody interrupts ----

  const STEP := Reader(Timeout)

  /** The engine after logging the slot it is about to visit. */
  function Harvested(s: State): (r: State)
    requires Shaped(s) && s.at.Visit?
    ensures Shaped(r)
  {
    var c, slot := s.at.c, SlotAt(s, s.at.c);
    s.(log := s.log + [Entry(c.i, c.j, slot.seqNo, slot.data, s.stations[c.i].probeId)],
       seen := SetSeen(s.seen, c.i, c.j, slot.seqNo), at := NextSlot(c.(got := c.got + 1)))
  }

  function CopiedUpto(d: Payload, n: nat): (r: Payload)
    requires n <= 4
    ensures Copied(r, d, n)
    decreases d, n
  {
    if n == 0 then NOTHING else CopyField(CopiedUpto(d, n - 1), d, n - 1)
  }

  predicate News(s: State)
    requires Shaped(s)
  {
    s.at.Visit? && s.seen[s.at.c.i][s.at.c.j] < SlotAt(s, s.at.c).seqNo && SlotAt(s, s.at.c).seqNo % 2 == 0
  }

  function CopyingAt(s: State, n: nat): (r: State)
    requires Shaped(s) && s.at.Visit? && n <= 4
    ensures Shaped(r)
  {
    var slot := SlotAt(s, s.at.c);
    s.(at := Copying(s.at.c, slot.seqNo, n, CopiedUpto(slot.data, n)))
  }

  lemma {:induction false} CopySteps(s: State, n: nat)
    requires Shaped(s) && News(s) && n <= 4
    ensures Leads(s, Repeat(STEP, n + 1), CopyingAt(s, n))
    decreases n
  {
    if n == 0 {
      LeadsNowhere(s, STEP);
      LeadsAgain(s, STEP, 0, s, CopyingAt(s, 0));
    } else {
      CopySteps(s, n - 1);
      LeadsAgain(s, STEP, n, CopyingAt(s, n - 1), CopyingAt(s, n));
    }
  }

  /** Seven steps of the engine harvest a slot that has something new. */
  lemma SevenStepsHarvest(s: State)
    requires Shaped(s) && News(s)
    ensures Leads(s, Repeat(STEP, 7), Harvested(s))
  {
    CopySteps(s, 4);
    var slot := SlotAt(s, s.at.c);
    var m := s.(at := Printing(s.at.c, slot.seqNo, slot.data));
    LeadsAgain(s, STEP, 5, CopyingAt(s, 4), m);
    LeadsAgain(s, STEP, 6, m, Harvested(s));
  }

  lemma SkipOne(s: State, m: State, c: Scan)
    requires Shaped(s) && m == s.(at := Visit(c)) && InScan(s, c) && SlotAt(s, c).seqNo <= s.seen[c.i][c.j]
    ensures Step(m, STEP) == s.(at := NextSlot(c))
  {
  }

  function VisitAt(s: State, c: Scan, j: nat): (r: State) {
    s.(at := Visit(c.(j := j)))
  }

  /** One step per slot passes over slots with nothing new. */
  lemma {:induction false} StepsSkip(s: State, c: Scan, n: nat)
    requires Shaped(s) && s.at == Visit(c) && c.j + n < 8
    requires forall j :: c.j <= j < c.j + n ==> s.stations[c.i].slots[j].seqNo <= s.seen[c.i][j]
    ensures Leads(s, Repeat(STEP, n), VisitAt(s, c, c.j + n))
    decreases n
  {
    if n == 0 {
      LeadsNowhere(s, STEP);
    } else {
      StepsSkip(s, c, n - 1);
      var j := c.j + (n - 1);
      SkipOne(s, VisitAt(s, c, j), c.(j := j));
      LeadsAgain(s, STEP, n - 1, VisitAt(s, c, j), VisitAt(s, c, j + 1));
    }
  }

  // ---- The race ----

  function Boot(id: Word): (acts: seq<Action>) {
    [Construct(id), Writer(0, NOTHING), Writer(0, NOTHING), STEP, STEP]
  }

  /** Where the first write begins. */
  function Booted(id: Word, cap: nat): (s: State)
    ensures Shaped(s)
  {
    Init(1, cap).(tickets := 1, owner := [0], probes := [Probe(id, 0, 0, Idle)],
                  stations := [Station(id, seq(8, _ => Slot(0, NOTHING)))], at := Visit(Scan(Hot, 1, 0, 0, 1)))
  }

  lemma BootRuns(id: Word, cap: nat)
    ensures Leads(Init(1, cap), Boot(id), Booted(id, cap))
  {
    var s0, acts := Init(1, cap), Boot(id);
    var s1 := Step(s0, acts[0]);
    var s2 := Step(s1, acts[1]);
    var s3 := Step(s2, acts[2]);
    assert s3.stations == [Station(id, seq(8, _ => Slot(0, NOTHING)))];
    var s4 := Step(s3, acts[3]);
    assert s4.at == Visit(Scan(Hot, 1, 0, 0, 0));
    assert Step(s4, acts[4]) == Booted(id, cap);
    RunFive(s0, acts);
  }

  lemma RunFive(s: State, acts: seq<Action>)
    requires Shaped(s) && |acts| == 5
    ensures Run(s, acts) == Step(Step(Step(Step(Step(s, acts[0]), acts[1]), acts[2]), acts[3]), acts[4])
  {
    assert acts == [] + [acts[0]] + [acts[1]] + [acts[2]] + [acts[3]] + [acts[4]];
    RunSnoc(s, [], acts[0]);
    RunSnoc(s, [] + [acts[0]], acts[1]);
    RunSnoc(s, [] + [acts[0]] + [acts[1]], acts[2]);
    RunSnoc(s, [] + [acts[0]] + [acts[1]] + [acts[2]], acts[3]);
    RunSnoc(s, [] + [acts[0]] + [acts[1]] + [acts[2]] + [acts[3]], acts[4]);
  }

  /** Station 0 as the engine finds it, past slot 0 of its first scan. */
  ghost predicate Found(s: State, slots: seq<Slot>, hist: seq<Payload>) {
    && Shaped(s) && s.max == 1 && s.tickets == 1 && s.log == [] && !s.sleeping
    && s.hist == [hist] && s.stations[0].slots == slots && s.at == Visit(Scan(Hot, 1, 0, 0, 1))
    && (forall j :: 0 <= j < 8 ==> s.seen[0][j] == 0)
    && |s.probes| == 1 && s.probes[0] == Probe(s.probes[0].id, 0, |hist|, Idle)
  }

  lemma WriteFound(s: State, slots: seq<Slot>, hist: seq<Payload>, d: Payload) returns (r: State)
    requires Found(s, slots, hist) && |slots| == 8 && |hist| < 8
    ensures Leads(s, Repeat(Writer(0, d), 8), r)
    ensures Found(r, slots[|hist| := Slot(slots[|hist|].seqNo + 2, d)], hist + [d]) && r.stations[0].probeId == s.stations[0].probeId
  {
    EightStepsWrite(s, 0, d);
    r := Written(s, 0, d);
  }

  const EMPTY := Slot(0, NOTHING)

  function TwoFull(d0: Payload, d1: Payload): (slots: seq<Slot>) {
    [Slot(2, d0), Slot(2, d1), EMPTY, EMPTY, EMPTY, EMPTY, EMPTY, EMPTY]
  }

  lemma BootFound(id: Word, cap: nat)
    ensures Found(Booted(id, cap), [EMPTY, EMPTY, EMPTY, EMPTY, EMPTY, EMPTY, EMPTY, EMPTY], [])
  {
  }

  lemma TwoWrites(id: Word, cap: nat, d0: Payload, d1: Payload) returns (t: State, r: State)
    ensures Found(t, TwoFull(d0, d1)[1 := EMPTY], [d0]) && Leads(Booted(id, cap), Repeat(Writer(0, d0), 8), t)
    ensures Found(r, TwoFull(d0, d1), [d0, d1]) && Leads(t, Repeat(Writer(0, d1), 8), r) && r.stations[0].probeId == id
  {
    var none := [EMPTY, EMPTY, EMPTY, EMPTY, EMPTY, EMPTY, EMPTY, EMPTY];
    BootFound(id, cap);
    t := WriteFound(Booted(id, cap), none, [], d0);
    assert none[0 := Slot(2, d0)] == TwoFull(d0, d1)[1 := EMPTY] && [] + [d0] == [d0];
    r := WriteFound(t, TwoFull(d0, d1)[1 := EMPTY], [d0], d1);
    assert TwoFull(d0, d1)[1 := EMPTY][1 := Slot(2, d1)] == TwoFull(d0, d1) && [d0] + [d1] == [d0, d1];
  }

  /** The scan finds nothing in its last slots; the next one begins. */
  lemma SkipToNext(s: State)
    requires Shaped(s) && s.max == 1 && s.tickets == 1 && s.at == Visit(Scan(Hot, 1, 1, 0, 2))
    requires forall j :: 2 <= j < 8 ==> s.stations[0].slots[j].seqNo <= s.seen[0][j]
    ensures Leads(s, Repeat(STEP, 8), s.(at := Visit(Scan(Hot, 1, 0, 0, 0))))
  {
    var c := Scan(Hot, 1, 1, 0, 2);
    StepsSkip(s, c, 5);
    SkipOne(s, VisitAt(s, c, 7), c.(j := 7));
    LeadsAgain(s, STEP, 5, VisitAt(s, c, 7), s.(at := Scanned(Hot, 1)));
    LeadsAgain(s, STEP, 6, s.(at := Scanned(Hot, 1)), s.(at := LoadCount(Hot)));
    LeadsAgain(s, STEP, 7, s.(at := LoadCount(Hot)), s.(at := Visit(Scan(Hot, 1, 0, 0, 0))));
  }

  lemma FirstHarvest(s: State, d0: Payload, d1: Payload) returns (r: State)
    requires Found(s, TwoFull(d0, d1), [d0, d1])
    ensures Leads(s, Repeat(STEP, 7), r) && Shaped(r) && r.max == 1 && r.tickets == 1 && r.at == Visit(Scan(Hot, 1, 1, 0, 2))
    ensures r.log == [Entry(0, 1, 2, d1, s.stations[0].probeId)] && r.stations == s.stations && r.hist == s.hist
    ensures forall j :: 0 <= j < 8 && j != 1 ==> r.seen[0][j] == 0
  {
    SevenStepsHarvest(s);
    r := Harvested(s);
  }

  lemma SecondHarvest(s: State, d0: Payload) returns (r: State)
    requires Shaped(s) && s.max == 1 && s.at == Visit(Scan(Hot, 1, 0, 0, 0))
    requires s.stations[0].slots[0] == Slot(2, d0) && s.seen[0][0] == 0
    ensures Leads(s, Repeat(STEP, 7), r) && r.hist == s.hist && r.log == s.log + [Entry(0, 0, 2, d0, s.stations[0].probeId)]
  {
    SevenStepsHarvest(s);
    r := Harvested(s);
  }

  /** The rest of that scan and the start of the next log the two events the wrong way round. */
  lemma TwoHarvests(s: State, d0: Payload, d1: Payload) returns (r: State)
    requires Found(s, TwoFull(d0, d1), [d0, d1])
    ensures Leads(s, Repeat(STEP, 7) + Repeat(STEP, 8) + Repeat(STEP, 7), r) && r.hist == s.hist
    ensures var id := s.stations[0].probeId; r.log == [Entry(0, 1, 2, d1, id), Entry(0, 0, 2, d0, id)]
  {
    var s1 := FirstHarvest(s, d0, d1);
    SkipToNext(s1);
    var s2 := s1.(at := Visit(Scan(Hot, 1, 0, 0, 0)));
    r := SecondHarvest(s2, d0);
    LeadsOn(s, Repeat(STEP, 7), s1, Repeat(STEP, 8), s2);
    LeadsOn(s, Repeat(STEP, 7) + Repeat(STEP, 8), s2, Repeat(STEP, 7), r);
  }

  /** One probe takes the only station; the engine starts a scan and finds slot 0 empty. Then two
      events are written. The scan finds the second, in slot 1; the next scan finds the first. */
  function Racing(id: Word, d0: Payload, d1: Payload): (acts: seq<Action>) {
    Boot(id) + Repeat(Writer(0, d0), 8) + Repeat(Writer(0, d1), 8) + (Repeat(STEP, 7) + Repeat(STEP, 8) + Repeat(STEP, 7))
  }

  lemma RaceRuns(id: Word, cap: nat, d0: Payload, d1: Payload) returns (r: State)
    ensures Leads(Init(1, cap), Racing(id, d0, d1), r)
    ensures r.hist == [[d0, d1]] && r.log == [Entry(0, 1, 2, d1, id), Entry(0, 0, 2, d0, id)]
  {
    var s0, s := Init(1, cap), Booted(id, cap);
    BootRuns(id, cap);
    var s1, s2 := TwoWrites(id, cap, d0, d1);
    r := TwoHarvests(s2, d0, d1);
    var a, w0, w1 := Boot(id), Repeat(Writer(0, d0), 8), Repeat(Writer(0, d1), 8);
    LeadsOn(s0, a, s, w0, s1);
    LeadsOn(s0, a + w0, s1, w1, s2);
    LeadsOn(s0, a + w0 + w1, s2, Repeat(STEP, 7) + Repeat(STEP, 8) + Repeat(STEP, 7), r);
  }

  /** Order recovery fails when the writer races the pass: this run logs its two events, which
      share `seq` 2, in the wrong order, and no stable sort by `seq` can put them right. */
  lemma RacingMisorders(id: Word, cap: nat, d0: Payload, d1: Payload) returns (r: State)
    requires cap >= 1
    ensures r == Run(Init(1, cap), Racing(id, d0, d1)) && Reachable(r)
    ensures r.hist == [[d0, d1]] && r.log == [Entry(0, 1, 2, d1, id), Entry(0, 0, 2, d0, id)]
    ensures !InWriteOrder(SortBySeq(OfStation(r.log, 0))) && Raced(Init(1, cap), Racing(id, d0, d1), 0)
  {
    r := RaceRuns(id, cap, d0, d1);
    LeadsRun(Init(1, cap), Racing(id, d0, d1), r);
    assert Traced(1, cap, Racing(id, d0, d1), r);
    OutOfOrder(r.log);
    SortWorksIff(r, 0);
    SortWorksUnlessRaced(1, cap, Racing(id, d0, d1), 0);
  }

  lemma OutOfOrder(log: seq<Entry>)
    requires |log| == 2 && log[0].i == log[1].i == 0 && log[0].seqNo == log[1].seqNo && log[0].j > log[1].j
    ensures !InOrder(log, 0)
  {
    assert log[0].seqNo == log[1].seqNo;
  }
}
