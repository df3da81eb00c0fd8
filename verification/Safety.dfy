/** What every step of the machine keeps: rings that spell out their history,
    a reader that never holds a torn payload past validation, a log that is a
    sub-history of what was written, and tickets held by one probe each. */
module Safety {
  import opened Ring
  import opened Machine

  // ---- Rings ----

  ghost predicate Stored(d: Payload, from: Payload, n: nat) {
    && (n >= 1 ==> d.addr == from.addr) && (n >= 2 ==> d.tid == from.tid)
    && (n >= 3 ==> d.ts == from.ts) && (n >= 4 ==> d.active == from.active)
  }

  /** Slot `j` holds the last event that landed in it, unless that slot is being rewritten. */
  ghost predicate SlotOk(slot: Slot, hist: seq<Payload>, j: nat, w: Phase)
    requires j < 8
  {
    var c := Count(|hist|, j);
    if w.Storing? && j == |hist| % 8 then
      slot.seqNo == 2 * c + 1 && w.prev == 2 * c && w.n <= 4 && Stored(slot.data, w.d, w.n)
    else
      slot.seqNo == 2 * c && (c > 0 ==> slot.data == hist[EventAt(j, c)])
  }

  ghost predicate RingOk(slots: seq<Slot>, hist: seq<Payload>, w: Phase) {
    && |slots| == 8
    && (forall j :: 0 <= j < 8 ==> SlotOk(slots[j], hist, j, w))
    && (w.Loaded? ==> w.prev == 2 * Count(|hist|, |hist| % 8))
    && (w.Born? || w.Detached? || w.Naming? ==> hist == [])
  }

  /** The phase of the probe that holds ticket `i`. */
  ghost function WriterOf(s: State, i: nat): Phase {
    if i < |s.owner| && s.owner[i] < |s.probes| then s.probes[s.owner[i]].at else Born
  }

  ghost predicate StationOk(s: State, i: nat)
    requires Shaped(s) && i < s.max
  {
    && RingOk(s.stations[i].slots, s.hist[i], WriterOf(s, i))
    && (i < |s.owner| && s.owner[i] < |s.probes| ==>
          var w := s.probes[s.owner[i]];
          w.count == |s.hist[i]| && (w.at.Naming? || s.stations[i].probeId == w.id))
  }

  // ---- Tickets ----

  ghost predicate TicketsOk(s: State) {
    && |s.owner| == s.tickets
    && (forall t :: 0 <= t < |s.owner| ==> TicketHeld(s, t))
    && (forall p :: 0 <= p < |s.probes| ==> ProbeOk(s, p))
  }

  ghost predicate TicketHeld(s: State, t: nat)
    requires t < |s.owner|
  {
    s.owner[t] < |s.probes| && !s.probes[s.owner[t]].at.Born? && s.probes[s.owner[t]].ticket == t
  }

  ghost predicate ProbeOk(s: State, p: nat)
    requires p < |s.probes|
  {
    var w := s.probes[p];
    if w.at.Born? then w.count == 0
    else w.ticket < |s.owner| && s.owner[w.ticket] == p && (w.at.Detached? <==> w.ticket >= s.max)
         && (w.at.Naming? ==> w.count == 0)
  }

  // ---- Log ----

  /** The entries harvested from slot `j` of station `i`, in log order. */
  function Of(log: seq<Entry>, i: nat, j: nat): (r: seq<Entry>) {
    if log == [] then []
    else
      var e := log[|log| - 1];
      Of(log[..|log| - 1], i, j) + (if e.i == i && e.j == j then [e] else [])
  }

  lemma OfSnoc(log: seq<Entry>, e: Entry, i: nat, j: nat)
    ensures Of(log + [e], i, j) == Of(log, i, j) + (if e.i == i && e.j == j then [e] else [])
  {
    assert (log + [e])[..|log|] == log;
  }

  /** Sequence numbers even, at least 2, strictly increasing, the last one remembered. */
  ghost predicate Disciplined(es: seq<Entry>, last: nat) {
    && (forall a :: 0 <= a < |es| ==> es[a].seqNo % 2 == 0 && 2 <= es[a].seqNo)
    && (forall a, b :: 0 <= a < b < |es| ==> es[a].seqNo < es[b].seqNo)
    && last == (if es == [] then 0 else es[|es| - 1].seqNo)
  }

  /** The entry carries the complete payload of the event its slot and `seq` name. */
  ghost predicate Genuine(s: State, i: nat, j: nat, seqNo: nat, data: Payload)
    requires Shaped(s)
  {
    && i < s.max && j < 8 && 2 <= seqNo && seqNo % 2 == 0
    && seqNo <= 2 * Count(|s.hist[i]|, j)
    && data == s.hist[i][EventAt(j, seqNo / 2)]
  }

  ghost predicate EntryOk(s: State, e: Entry)
    requires Shaped(s)
  {
    && Genuine(s, e.i, e.j, e.seqNo, e.data)
    && e.i < |s.owner| && s.owner[e.i] < |s.probes|
    && e.probe == s.probes[s.owner[e.i]].id
  }

  ghost predicate SeenOk(s: State, i: nat, j: nat)
    requires Shaped(s) && i < s.max && j < 8
  {
    && s.seen[i][j] <= 2 * Count(|s.hist[i]|, j)
    && Disciplined(Of(s.log, i, j), s.seen[i][j])
  }

  ghost predicate LogOk(s: State)
    requires Shaped(s)
  {
    && s.flushed <= |s.log|
    && (forall a :: 0 <= a < |s.log| ==> EntryOk(s, s.log[a]))
    && (forall i, j :: 0 <= i < s.max && 0 <= j < 8 ==> SeenOk(s, i, j))
  }

  // ---- Reader ----

  ghost predicate Copied(d: Payload, from: Payload, n: nat) {
    && (n >= 1 ==> d.tid == from.tid) && (n >= 2 ==> d.addr == from.addr)
    && (n >= 3 ==> d.active == from.active) && (n >= 4 ==> d.ts == from.ts)
  }

  ghost predicate ReaderOk(s: State)
    requires Shaped(s)
  {
    match s.at
    case Copying(c, seq1, n, data) =>
      && seq1 % 2 == 0 && s.seen[c.i][c.j] < seq1 <= SlotAt(s, c).seqNo
      && (SlotAt(s, c).seqNo == seq1 ==> Copied(data, SlotAt(s, c).data, n))
      && n <= 4
    case Printing(c, seq1, data) =>
      s.seen[c.i][c.j] < seq1 && Genuine(s, c.i, c.j, seq1, data)
    case _ => true
  }

  ghost predicate Inv(s: State) {
    && Shaped(s)
    && TicketsOk(s)
    && (forall i :: 0 <= i < s.max ==> StationOk(s, i))
    && ReaderOk(s)
    && LogOk(s)
  }

  // ---- Initial state and steps ----

  lemma InitInv(max: nat, cap: nat)
    ensures Inv(Init(max, cap))
  {
  }

  /** What a step of probe `p` can change: its own station, history and phase. */
  lemma WriterFrame(s: State, p: nat, d: Payload)
    requires Shaped(s) && p < |s.probes|
    ensures var r := WriterStep(s, p, d); var w := s.probes[p];
      && r.max == s.max && r.cap == s.cap && |r.probes| == |s.probes|
      && r.at == s.at && r.seen == s.seen && r.log == s.log && r.flushed == s.flushed
      && (forall q :: 0 <= q < |s.probes| && q != p ==> r.probes[q] == s.probes[q])
      && r.probes[p].id == w.id
      && (forall i :: 0 <= i < s.max && !(Attached(w) && i == w.ticket) ==> r.stations[i] == s.stations[i] && r.hist[i] == s.hist[i])
      && (!w.at.Born? ==> r.owner == s.owner && r.tickets == s.tickets && r.probes[p].ticket == w.ticket)
  {
  }

  lemma WriterTickets(s: State, p: nat, d: Payload)
    requires Shaped(s) && TicketsOk(s) && p < |s.probes|
    ensures TicketsOk(WriterStep(s, p, d))
  {
    var r := WriterStep(s, p, d);
    WriterFrame(s, p, d);
    assert ProbeOk(s, p);
    forall q | 0 <= q < |r.probes| ensures ProbeOk(r, q) {
      assert ProbeOk(s, q);
    }
    forall t | 0 <= t < |r.owner| ensures TicketHeld(r, t) {
      if t < |s.owner| { assert TicketHeld(s, t); }
    }
  }

  /** The even store completes the slot being rewritten and leaves the others alone. */
  lemma EvenStoreSlot(slot: Slot, hist: seq<Payload>, j: nat, w: Phase)
    requires j < 8 && SlotOk(slot, hist, j, w) && w.Storing? && w.n >= 4
    ensures SlotOk(if j == |hist| % 8 then slot.(seqNo := w.prev + 2) else slot, hist + [w.d], j, Published)
  {
    var n := |hist|;
    CountStep(n, j);
    if j != n % 8 && Count(n, j) > 0 { CountBounds(n, j, EventAt(j, Count(n, j))); }
  }

  lemma RingStepSlot(x: Cell, d: Payload, j: nat)
    requires RingOk(x.slots, x.hist, x.w.at) && x.w.count == |x.hist| && InRing(x.w.at) && j < 8
    ensures var r := RingStep(x, d); SlotOk(r.slots[j], r.hist, j, r.w.at)
  {
    assert SlotOk(x.slots[j], x.hist, j, x.w.at);
    match x.w.at {
      case Idle =>
      case Loaded(_, _) =>
      case Storing(_, _, n) => if n >= 4 { EvenStoreSlot(x.slots[j], x.hist, j, x.w.at); }
    }
  }

  /** `write_trace` keeps the ring spelling out the history, field by field. */
  lemma RingStepOk(x: Cell, d: Payload)
    requires RingOk(x.slots, x.hist, x.w.at) && x.w.count == |x.hist| && InRing(x.w.at)
    ensures var r := RingStep(x, d);
      && RingOk(r.slots, r.hist, r.w.at) && r.w.count == |r.hist| && x.hist <= r.hist
  {
    var r := RingStep(x, d);
    forall j | 0 <= j < 8 ensures SlotOk(r.slots[j], r.hist, j, r.w.at) {
      RingStepSlot(x, d, j);
    }
    assert SlotOk(x.slots[|x.hist| % 8], x.hist, |x.hist| % 8, x.w.at);
  }

  /** Slots move forward; an even `seq` that has not moved vouches for the payload. */
  ghost predicate SlotLater(a: Slot, b: Slot) {
    a.seqNo <= b.seqNo && (a.seqNo == b.seqNo && a.seqNo % 2 == 0 ==> a == b)
  }

  ghost predicate StationLater(s: State, r: State, i: nat)
    requires Shaped(s) && Shaped(r) && i < s.max == r.max
  {
    s.hist[i] <= r.hist[i] && forall j :: 0 <= j < 8 ==> SlotLater(s.stations[i].slots[j], r.stations[i].slots[j])
  }

  /** What the tracee may do behind the engine's back. */
  ghost predicate Later(s: State, r: State) {
    && Shaped(s) && Shaped(r) && r.max == s.max
    && r.at == s.at && r.seen == s.seen && r.log == s.log && r.flushed == s.flushed
    && s.owner <= r.owner && |s.probes| <= |r.probes|
    && (forall q :: 0 <= q < |s.probes| ==> r.probes[q].id == s.probes[q].id)
    && (forall i :: 0 <= i < s.max ==> StationLater(s, r, i))
  }

  lemma RingStepLater(x: Cell, d: Payload, j: nat)
    requires RingOk(x.slots, x.hist, x.w.at) && x.w.count == |x.hist| && j < 8
    ensures SlotLater(x.slots[j], RingStep(x, d).slots[j])
  {
    assert SlotOk(x.slots[j], x.hist, j, x.w.at);
  }

  lemma WriterStations(s: State, p: nat, d: Payload)
    requires Shaped(s) && TicketsOk(s) && p < |s.probes|
    requires forall i :: 0 <= i < s.max ==> StationOk(s, i)
    ensures forall i :: 0 <= i < s.max ==> StationOk(WriterStep(s, p, d), i)
    ensures Later(s, WriterStep(s, p, d))
  {
    var r := WriterStep(s, p, d);
    var w := s.probes[p];
    WriterFrame(s, p, d);
    assert ProbeOk(s, p);
    forall i | 0 <= i < s.max ensures StationOk(r, i) && StationLater(s, r, i) {
      assert StationOk(s, i);
      if Attached(w) && i == w.ticket {
        var x := Cell(s.stations[i].slots, s.hist[i], w);
        if InRing(w.at) { RingStepOk(x, d); }
        forall j | 0 <= j < 8 ensures SlotLater(s.stations[i].slots[j], r.stations[i].slots[j]) {
          RingStepLater(x, d, j);
        }
        OwnRing(s, p, d);
      } else {
        if i < |s.owner| { assert TicketHeld(s, i); }
      }
    }
  }

  lemma OwnRing(s: State, p: nat, d: Payload)
    requires Shaped(s) && TicketsOk(s) && p < |s.probes| && Attached(s.probes[p])
    requires StationOk(s, s.probes[p].ticket)
    ensures StationOk(WriterStep(s, p, d), s.probes[p].ticket)
  {
    var w := s.probes[p];
    var i := w.ticket;
    assert ProbeOk(s, p);
    if InRing(w.at) {
      RingStepOk(Cell(s.stations[i].slots, s.hist[i], w), d);
    } else {
      forall j | 0 <= j < 8 ensures SlotOk(s.stations[i].slots[j], s.hist[i], j, WriterOf(WriterStep(s, p, d), i)) {
        assert SlotOk(s.stations[i].slots[j], s.hist[i], j, w.at);
      }
    }
  }

  lemma GenuineLater(s: State, r: State, i: nat, j: nat, seqNo: nat, data: Payload)
    requires Later(s, r) && Genuine(s, i, j, seqNo, data)
    ensures Genuine(r, i, j, seqNo, data)
  {
    assert StationLater(s, r, i);
    assert EventAt(j, seqNo / 2) < |s.hist[i]| by { CountBounds(|s.hist[i]|, j, EventAt(j, seqNo / 2)); }
  }

  /** Nothing the tracee does disturbs the engine's own books. */
  lemma LaterKeeps(s: State, r: State)
    requires Later(s, r) && LogOk(s) && ReaderOk(s)
    ensures LogOk(r) && ReaderOk(r)
  {
    forall a | 0 <= a < |r.log| ensures EntryOk(r, r.log[a]) {
      var e := s.log[a];
      assert EntryOk(s, e);
      GenuineLater(s, r, e.i, e.j, e.seqNo, e.data);
    }
    forall i, j | 0 <= i < r.max && 0 <= j < 8 ensures SeenOk(r, i, j) {
      assert SeenOk(s, i, j) && StationLater(s, r, i);
    }
    match s.at {
      case Copying(c, seq1, n, data) =>
        assert StationLater(s, r, c.i);
        assert SlotLater(SlotAt(s, c), SlotAt(r, c));
      case Printing(c, seq1, data) => GenuineLater(s, r, c.i, c.j, seq1, data);
      case _ =>
    }
  }

  /** An even slot is complete: it holds, in full, the event its `seq` names. */
  lemma EvenSlotIsGenuine(s: State, c: Scan)
    requires Shaped(s) && InScan(s, c) && StationOk(s, c.i)
    requires SlotAt(s, c).seqNo % 2 == 0 && SlotAt(s, c).seqNo > 0
    ensures Genuine(s, c.i, c.j, SlotAt(s, c).seqNo, SlotAt(s, c).data)
  {
    assert SlotOk(SlotAt(s, c), s.hist[c.i], c.j, WriterOf(s, c.i));
  }

  lemma CopyingKeepsReader(s: State, wake: Wake)
    requires Shaped(s) && ReaderOk(s) && s.at.Copying? && StationOk(s, s.at.c.i)
    ensures ReaderOk(ReaderStep(s, wake))
  {
    if s.at.n == 4 && SlotAt(s, s.at.c).seqNo == s.at.seq1 { EvenSlotIsGenuine(s, s.at.c); }
  }

  lemma ReaderKeepsReader(s: State, wake: Wake)
    requires Shaped(s) && ReaderOk(s) && (s.at.Copying? ==> StationOk(s, s.at.c.i))
    ensures ReaderOk(ReaderStep(s, wake))
  {
    match s.at {
      case Copying(_, _, _, _) => CopyingKeepsReader(s, wake);
      case LoadCount(_) =>
      case Visit(_) =>
      case Printing(_, _, _) =>
      case Blocked =>
      case _ =>
    }
  }

  lemma DisciplinedSnoc(es: seq<Entry>, last: nat, e: Entry)
    requires Disciplined(es, last) && e.seqNo % 2 == 0 && e.seqNo > last
    ensures Disciplined(es + [e], e.seqNo)
  {
  }

  lemma PrintKeepsSeen(s: State, c: Scan, seq1: nat, data: Payload, wake: Wake, i: nat, j: nat)
    requires Shaped(s) && ReaderOk(s) && s.at == Printing(c, seq1, data) && i < s.max && j < 8 && SeenOk(s, i, j)
    ensures SeenOk(ReaderStep(s, wake), i, j)
  {
    var e := Entry(c.i, c.j, seq1, data, s.stations[c.i].probeId);
    OfSnoc(s.log, e, i, j);
    if c.i == i && c.j == j { DisciplinedSnoc(Of(s.log, i, j), s.seen[i][j], e); }
  }

  lemma PrintKeepsLog(s: State, wake: Wake)
    requires Inv(s) && s.at.Printing?
    ensures LogOk(ReaderStep(s, wake))
  {
    var r := ReaderStep(s, wake);
    var c := s.at.c;
    assert StationOk(s, c.i);
    if c.i < |s.owner| { assert TicketHeld(s, c.i); }
    forall a | 0 <= a < |r.log| ensures EntryOk(r, r.log[a]) {
      if a < |s.log| { assert EntryOk(s, s.log[a]); }
    }
    forall i, j | 0 <= i < r.max && 0 <= j < 8 ensures SeenOk(r, i, j) {
      assert SeenOk(s, i, j);
      PrintKeepsSeen(s, c, s.at.seq1, s.at.data, wake, i, j);
    }
  }

  /** The engine writes no station and no probe. */
  lemma ReaderFrame(s: State, wake: Wake)
    requires Shaped(s)
    ensures var r := ReaderStep(s, wake);
      && r.max == s.max && r.cap == s.cap && r.stations == s.stations && r.probes == s.probes
      && r.hist == s.hist && r.owner == s.owner && r.tickets == s.tickets && r.wins == s.wins && r.sent == s.sent
  {
  }

  lemma OnlyPrintingLogs(s: State, wake: Wake)
    requires Shaped(s) && !s.at.Printing?
    ensures var r := ReaderStep(s, wake);
      r.log == s.log && r.seen == s.seen && (r.flushed == s.flushed || r.flushed == |s.log|)
  {
    match s.at {
      case LoadCount(_) =>
      case Visit(_) =>
      case Copying(_, _, _, _) =>
      case Blocked =>
      case _ =>
    }
  }

  lemma ReaderKeepsLog(s: State, wake: Wake)
    requires Inv(s)
    ensures LogOk(ReaderStep(s, wake))
  {
    if s.at.Printing? {
      PrintKeepsLog(s, wake);
    } else {
      var r := ReaderStep(s, wake);
      OnlyPrintingLogs(s, wake);
      ReaderFrame(s, wake);
      forall a | 0 <= a < |r.log| ensures EntryOk(r, r.log[a]) { assert EntryOk(s, s.log[a]); }
      forall i, j | 0 <= i < r.max && 0 <= j < 8 ensures SeenOk(r, i, j) { assert SeenOk(s, i, j); }
    }
  }

  lemma ReaderKeeps(s: State, wake: Wake)
    requires Inv(s)
    ensures Inv(ReaderStep(s, wake))
  {
    var r := ReaderStep(s, wake);
    ReaderFrame(s, wake);
    ReaderKeepsReader(s, wake);
    ReaderKeepsLog(s, wake);
    forall i | 0 <= i < r.max ensures StationOk(r, i) { assert StationOk(s, i); }
    forall p | 0 <= p < |r.probes| ensures ProbeOk(r, p) { assert ProbeOk(s, p); }
    forall t | 0 <= t < |r.owner| ensures TicketHeld(r, t) { assert TicketHeld(s, t); }
  }

  lemma WriterKeeps(s: State, p: nat, d: Payload)
    requires Inv(s) && p < |s.probes|
    ensures Inv(WriterStep(s, p, d)) && Later(s, WriterStep(s, p, d))
  {
    WriterTickets(s, p, d);
    WriterStations(s, p, d);
    LaterKeeps(s, WriterStep(s, p, d));
  }

  lemma ConstructKeeps(s: State, id: Word)
    requires Inv(s)
    ensures Inv(Step(s, Construct(id))) && Later(s, Step(s, Construct(id)))
  {
    var r := Step(s, Construct(id));
    forall i | 0 <= i < s.max ensures StationOk(r, i) && StationLater(s, r, i) {
      assert StationOk(s, i);
      if i < |s.owner| { assert TicketHeld(s, i); }
    }
    forall p | 0 <= p < |r.probes| ensures ProbeOk(r, p) { if p < |s.probes| { assert ProbeOk(s, p); } }
    forall t | 0 <= t < |r.owner| ensures TicketHeld(r, t) { assert TicketHeld(s, t); }
    LaterKeeps(s, r);
  }

  lemma StepKeeps(s: State, a: Action)
    requires Inv(s)
    ensures Inv(Step(s, a))
    ensures !a.Reader? ==> Later(s, Step(s, a))
  {
    match a {
      case Construct(id) => ConstructKeeps(s, id);
      case Writer(p, d) => if p < |s.probes| { WriterKeeps(s, p, d); }
      case Reader(wake) => ReaderKeeps(s, wake);
    }
  }

  lemma {:induction false} RunKeeps(s: State, acts: seq<Action>)
    requires Inv(s)
    ensures Inv(Run(s, acts))
    decreases |acts|
  {
    if acts != [] {
      StepKeeps(s, acts[0]);
      RunKeeps(Step(s, acts[0]), acts[1..]);
    }
  }

  /** Every state the system can be in satisfies the invariant. */
  lemma Always(s: State)
    requires Reachable(s)
    ensures Inv(s)
  {
    var max, cap, acts := Witness(s);
    InitInv(max, cap);
    RunKeeps(Init(max, cap), acts);
  }

  /** A first load moves the engine and nothing else. */
  lemma VisitStep(s: State, wake: Wake)
    requires Shaped(s) && s.at.Visit?
    ensures var c := s.at.c; var q := SlotAt(s, c).seqNo;
      ReaderStep(s, wake) == s.(at := if q <= s.seen[c.i][c.j] || q % 2 != 0 then NextSlot(c) else Copying(c, q, 0, NOTHING))
  {
  }

  /** Unless its station's writer is between its odd and its even store, a slot counts its events. */
  lemma IdleSlot(s: State, i: nat, j: nat)
    requires Inv(s) && i < s.max && j < 8 && !WriterOf(s, i).Storing?
    ensures s.stations[i].slots[j].seqNo == 2 * Count(|s.hist[i]|, j)
  {
    assert StationOk(s, i);
    assert SlotOk(s.stations[i].slots[j], s.hist[i], j, WriterOf(s, i));
  }

  // ---- What runs only add to ----

  ghost predicate Grows(s: State, r: State) {
    && |s.hist| == |r.hist| && (forall i :: 0 <= i < |s.hist| ==> s.hist[i] <= r.hist[i])
    && s.log <= r.log && s.owner <= r.owner && |s.probes| <= |r.probes|
    && (forall p :: 0 <= p < |s.probes| ==> r.probes[p].id == s.probes[p].id)
  }

  lemma ReaderGrows(s: State, wake: Wake)
    requires Shaped(s)
    ensures Grows(s, ReaderStep(s, wake))
  {
    ReaderFrame(s, wake);
    if !s.at.Printing? { OnlyPrintingLogs(s, wake); }
  }

  lemma StepGrows(s: State, a: Action)
    requires Inv(s)
    ensures Inv(Step(s, a)) && Grows(s, Step(s, a))
  {
    StepKeeps(s, a);
    if a.Reader? {
      ReaderGrows(s, a.wake);
    } else {
      var r := Step(s, a);
      forall i | 0 <= i < |s.hist| ensures s.hist[i] <= r.hist[i] { assert StationLater(s, r, i); }
    }
  }

  /** Histories, log, tickets and probes only ever grow. */
  lemma {:induction false} RunGrows(s: State, acts: seq<Action>)
    requires Inv(s)
    ensures Inv(Run(s, acts)) && Grows(s, Run(s, acts))
    decreases |acts|
  {
    if acts != [] {
      StepGrows(s, acts[0]);
      RunGrows(Step(s, acts[0]), acts[1..]);
    }
  }

  // ---- Which events the log holds ----

  /** The entry is the log's record of event `k` of station `i`. */
  predicate Names(e: Entry, i: nat, k: nat) {
    e.i == i && e.j == k % 8 && e.seqNo == 2 * (k / 8 + 1)
  }

  ghost predicate Logged(log: seq<Entry>, i: nat, k: nat) {
    exists e :: e in log && Names(e, i, k)
  }

  lemma {:induction false} OfIsFilter(log: seq<Entry>, i: nat, j: nat)
    ensures forall e :: e in Of(log, i, j) <==> e in log && e.i == i && e.j == j
  {
    if log != [] {
      OfIsFilter(log[..|log| - 1], i, j);
      assert log == log[..|log| - 1] + [log[|log| - 1]];
    }
  }

  /** The event a slot's `lastSeen` names is in the log. */
  lemma SeenIsLogged(s: State, i: nat, k: nat)
    requires Shaped(s) && i < s.max && SeenOk(s, i, k % 8) && s.seen[i][k % 8] == 2 * (k / 8 + 1)
    ensures Logged(s.log, i, k)
  {
    var es := Of(s.log, i, k % 8);
    OfIsFilter(s.log, i, k % 8);
    assert es[|es| - 1] in es && Names(es[|es| - 1], i, k);
  }
}
