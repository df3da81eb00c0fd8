/** The shared memory, the probes that write it and the engine that harvests it,
    as one transition system whose every step is a single load, store or
    read-modify-write of shared state. */
module Machine {
  type Word = x: nat | x < 0x1_0000_0000_0000_0000

  datatype Payload = Payload(tid: Word, addr: Word, active: bool, ts: Word)

  datatype Slot = Slot(seqNo: nat, data: Payload)

  datatype Station = Station(probeId: Word, slots: seq<Slot>)

  /** Where a probe stands in its constructor or in `write_trace`. */
  datatype Phase =
    | Born                                        // before `fetch_add`
    | Detached                                    // no station left for it
    | Naming                                      // about to store `probe_id`
    | Idle                                        // outside `write_trace`
    | Loaded(d: Payload, prev: nat)                // `old_seq` loaded
    | Storing(d: Payload, prev: nat, n: nat)       // odd `seq` stored, `n` fields stored
    | Published                                   // even `seq` stored, flag not loaded
    | Saw                                         // flag loaded as 1
    | Won                                         // flag swapped 1 -> 0, byte not sent

  datatype Probe = Probe(id: Word, ticket: nat, count: nat, at: Phase)

  /** The three uses of `doScan`: the hot loop's, the one after arming, the one before returning. */
  datatype Kind = Hot | Rescan | Last

  /** A scan in progress: stations below `limit`, `got` records so far, at slot `j` of station `i`. */
  datatype Scan = Scan(kind: Kind, limit: nat, got: nat, i: nat, j: nat)

  /** Where the engine stands in `hotHarvestLoop`, `doScan` and `Harvest`. */
  datatype Control =
    | LoadCount(kind: Kind)
    | Visit(c: Scan)                                            // about to load `seq1`
    | Copying(c: Scan, seq1: nat, n: nat, data: Payload)        // `n` fields copied
    | Printing(c: Scan, seq1: nat, data: Payload)               // `seq2 == seq1` seen
    | Scanned(kind: Kind, got: nat)                             // about to test `harvested > 0`
    | Flushing | Arming | Disarming | Blocked | Waking | LastFlush | Returned

  /** A line of the log, with the station and slot it was harvested from. */
  datatype Entry = Entry(i: nat, j: nat, seqNo: nat, data: Payload, probe: Word)

  datatype State = State(
    // shared memory and the wakeup socket
    max: nat, cap: nat, tickets: nat, sleeping: bool, bytes: nat, stations: seq<Station>,
    // tracee
    probes: seq<Probe>,
    // engine
    at: Control, seen: seq<seq<nat>>, log: seq<Entry>, flushed: nat,
    // history: completed events per station, probe of each ticket, handshake counters
    hist: seq<seq<Payload>>, owner: seq<nat>, armings: nat, wins: nat, sent: nat)

  /** How a blocked read ends. */
  datatype Wake = Timeout | Data | Hangup

  datatype Action = Construct(id: Word) | Writer(p: nat, d: Payload) | Reader(wake: Wake)

  const NOTHING := Payload(0, 0, false, 0)

  function Init(max: nat, cap: nat): (s: State)
    ensures Shaped(s)
  {
    State(max, cap, 0, false, 0, seq(max, _ => Station(0, seq(8, _ => Slot(0, NOTHING)))),
          [], LoadCount(Hot), seq(max, _ => seq(8, _ => 0)), [], 0,
          seq(max, _ => []), [], 0, 0, 0)
  }

  // ---- Shape: what every index in a step relies on ----

  predicate Attached(w: Probe) {
    !w.at.Born? && !w.at.Detached?
  }

  predicate InScan(s: State, c: Scan) {
    c.i < c.limit <= s.max && c.j < 8
  }

  ghost predicate Shaped(s: State) {
    && |s.stations| == |s.hist| == |s.seen| == s.max
    && (forall i {:trigger s.stations[i]} :: 0 <= i < s.max ==> |s.stations[i].slots| == 8)
    && (forall i {:trigger s.seen[i]} :: 0 <= i < s.max ==> |s.seen[i]| == 8)
    && (forall p {:trigger s.probes[p]} :: 0 <= p < |s.probes| && Attached(s.probes[p]) ==> s.probes[p].ticket < s.max)
    && (s.at.Visit? || s.at.Copying? || s.at.Printing? ==> InScan(s, s.at.c))
  }

  // ---- Tracee ----

  /** `write_trace` stores addr, tid, timestamp, is_active, in that order. */
  function StoreField(to: Payload, from: Payload, n: nat): (d: Payload)
    requires n < 4
  {
    match n
    case 0 => to.(addr := from.addr)
    case 1 => to.(tid := from.tid)
    case 2 => to.(ts := from.ts)
    case 3 => to.(active := from.active)
  }

  /** One station's share of `write_trace`: its slots, its history, its probe. */
  datatype Cell = Cell(slots: seq<Slot>, hist: seq<Payload>, w: Probe)

  /** Load `old_seq`, store it odd, store the four fields, store it even. */
  function RingStep(x: Cell, d: Payload): (r: Cell)
    requires |x.slots| == 8
    ensures |r.slots| == 8 && r.w.id == x.w.id && r.w.ticket == x.w.ticket
  {
    var j := x.w.count % 8;
    var slot := x.slots[j];
    match x.w.at
    case Idle => x.(w := x.w.(at := Loaded(d, slot.seqNo)))
    case Loaded(e, prev) =>
      x.(slots := x.slots[j := slot.(seqNo := prev + 1)], w := x.w.(at := Storing(e, prev, 0)))
    case Storing(e, prev, n) =>
      if n < 4 then
        x.(slots := x.slots[j := slot.(data := StoreField(slot.data, e, n))], w := x.w.(at := Storing(e, prev, n + 1)))
      else
        Cell(x.slots[j := slot.(seqNo := prev + 2)], x.hist + [e], x.w.(at := Published, count := x.w.count + 1))
    case _ => x
  }

  predicate InRing(at: Phase) {
    at.Idle? || at.Loaded? || at.Storing?
  }

  /** The next step of probe `p`; `d` is the event if the step enters `write_trace`. */
  function WriterStep(s: State, p: nat, d: Payload): (r: State)
    requires Shaped(s) && p < |s.probes|
    ensures Shaped(r) && r.max == s.max && r.cap == s.cap
  {
    var w := s.probes[p];
    match w.at
    case Born =>
      var t := s.tickets;
      s.(probes := s.probes[p := w.(ticket := t, at := if t < s.max then Naming else Detached)],
         tickets := t + 1, owner := s.owner + [p])
    case Detached => s
    case Naming =>
      s.(probes := s.probes[p := w.(at := Idle)],
         stations := s.stations[w.ticket := s.stations[w.ticket].(probeId := w.id)])
    case Published =>
      s.(probes := s.probes[p := w.(at := if s.sleeping then Saw else Idle)])
    case Saw =>
      if s.sleeping then
        s.(probes := s.probes[p := w.(at := Won)], sleeping := false, wins := s.wins + 1)
      else
        s.(probes := s.probes[p := w.(at := Idle)])
    case Won =>
      // the socket never blocks: a full buffer drops the byte
      s.(probes := s.probes[p := w.(at := Idle)],
         bytes := if s.bytes < s.cap then s.bytes + 1 else s.bytes, sent := s.sent + 1)
    case _ =>
      var i := w.ticket;
      var x := RingStep(Cell(s.stations[i].slots, s.hist[i], w), d);
      s.(probes := s.probes[p := x.w], hist := s.hist[i := x.hist],
         stations := s.stations[i := s.stations[i].(slots := x.slots)])
  }

  // ---- Engine ----

  /** `Harvest` copies tid, addr, is_active, timestamp, in that order. */
  function CopyField(to: Payload, from: Payload, n: nat): (d: Payload)
    requires n < 4
  {
    match n
    case 0 => to.(tid := from.tid)
    case 1 => to.(addr := from.addr)
    case 2 => to.(active := from.active)
    case 3 => to.(ts := from.ts)
  }

  /** Where `hotHarvestLoop` goes when a scan has harvested `got` records. */
  function AfterScan(kind: Kind, got: nat): (at: Control) {
    match kind
    case Hot => if got > 0 then LoadCount(Hot) else Flushing
    case Rescan => if got > 0 then Disarming else Blocked
    case Last => LastFlush
  }

  /** The next slot of the station, the next station, or the end of the scan. */
  function NextSlot(c: Scan): (at: Control) {
    if c.j < 7 then Visit(c.(j := c.j + 1))
    else if c.i + 1 < c.limit then Visit(c.(i := c.i + 1, j := 0))
    else Scanned(c.kind, c.got)
  }

  function SlotAt(s: State, c: Scan): (slot: Slot)
    requires Shaped(s) && InScan(s, c)
  {
    s.stations[c.i].slots[c.j]
  }

  function SetSeen(seen: seq<seq<nat>>, i: nat, j: nat, x: nat): (r: seq<seq<nat>>)
    requires i < |seen| && j < |seen[i]|
  {
    var row: seq<nat> := seen[i][j := x];
    seen[i := row]
  }

  /** The engine's next step; `wake` says how a blocked read ends. */
  function ReaderStep(s: State, wake: Wake): (r: State)
    requires Shaped(s)
    ensures Shaped(r) && r.max == s.max && r.cap == s.cap
  {
    match s.at
    case LoadCount(kind) =>
      var limit := if s.tickets > s.max then s.max else s.tickets;
      s.(at := if limit == 0 then Scanned(kind, 0) else Visit(Scan(kind, limit, 0, 0, 0)))
    case Visit(c) =>
      var seq1 := SlotAt(s, c).seqNo;
      if seq1 <= s.seen[c.i][c.j] || seq1 % 2 != 0 then s.(at := NextSlot(c))
      else s.(at := Copying(c, seq1, 0, NOTHING))
    case Copying(c, seq1, n, data) =>
      if n < 4 then s.(at := Copying(c, seq1, n + 1, CopyField(data, SlotAt(s, c).data, n)))
      else if SlotAt(s, c).seqNo != seq1 then s.(at := NextSlot(c))
      else s.(at := Printing(c, seq1, data))
    case Printing(c, seq1, data) =>
      s.(log := s.log + [Entry(c.i, c.j, seq1, data, s.stations[c.i].probeId)],
         seen := SetSeen(s.seen, c.i, c.j, seq1),
         at := NextSlot(c.(got := c.got + 1)))
    case Scanned(kind, got) => s.(at := AfterScan(kind, got))
    case Flushing => s.(flushed := |s.log|, at := Arming)
    case Arming => s.(sleeping := true, armings := s.armings + 1, at := LoadCount(Rescan))
    case Disarming => s.(sleeping := false, at := LoadCount(Hot))
    case Blocked =>
      (match wake
       case Timeout => s.(at := LoadCount(Hot))
       case Data =>
         if s.bytes == 0 then s
         else s.(bytes := if s.bytes > 1024 then s.bytes - 1024 else 0, at := Waking)
       case Hangup => s.(at := LoadCount(Last)))
    case Waking => s.(sleeping := false, at := LoadCount(Hot))
    case LastFlush => s.(flushed := |s.log|, at := Returned)
    case Returned => s
  }

  // ---- Runs ----

  /** One step; an action nobody can take leaves the state alone. */
  function Step(s: State, a: Action): (r: State)
    requires Shaped(s)
    ensures Shaped(r) && r.max == s.max && r.cap == s.cap
  {
    match a
    case Construct(id) => s.(probes := s.probes + [Probe(id, 0, 0, Born)])
    case Writer(p, d) => if p < |s.probes| then WriterStep(s, p, d) else s
    case Reader(wake) => ReaderStep(s, wake)
  }

  function Run(s: State, acts: seq<Action>): (r: State)
    requires Shaped(s)
    ensures Shaped(r) && r.max == s.max && r.cap == s.cap
    decreases |acts|
  {
    if acts == [] then s else Run(Step(s, acts[0]), acts[1..])
  }

  lemma {:induction false} RunConcat(s: State, xs: seq<Action>, ys: seq<Action>)
    requires Shaped(s)
    ensures Run(s, xs + ys) == Run(Run(s, xs), ys)
    decreases |xs|
  {
    if xs == [] {
      assert xs + ys == ys;
    } else {
      assert (xs + ys)[0] == xs[0] && (xs + ys)[1..] == xs[1..] + ys;
      RunConcat(Step(s, xs[0]), xs[1..], ys);
    }
  }

  lemma RunCons(s: State, a: Action, rest: seq<Action>)
    requires Shaped(s)
    ensures Run(s, [a] + rest) == Run(Step(s, a), rest)
  {
    assert ([a] + rest)[1..] == rest;
  }

  lemma RunSnoc(s: State, acts: seq<Action>, a: Action)
    requires Shaped(s)
    ensures Run(s, acts + [a]) == Step(Run(s, acts), a)
  {
    RunConcat(s, acts, [a]);
    RunCons(Run(s, acts), a, []);
    assert [a] + [] == [a];
  }

  /** The state before the `m`-th action of a run, and the run from there. */
  lemma RunSplit(s: State, acts: seq<Action>, m: nat)
    requires Shaped(s) && m < |acts|
    ensures Run(s, acts[..m + 1]) == Step(Run(s, acts[..m]), acts[m])
    ensures Run(s, acts) == Run(Run(s, acts[..m + 1]), acts[m + 1..])
  {
    assert acts[..m + 1] == acts[..m] + [acts[m]] && acts == acts[..m + 1] + acts[m + 1..];
    RunSnoc(s, acts[..m], acts[m]);
    RunConcat(s, acts[..m + 1], acts[m + 1..]);
  }

  /** A prefix of a run, its first step taken. */
  lemma RunPrefix(s: State, acts: seq<Action>, m: nat)
    requires Shaped(s) && m < |acts|
    ensures Run(s, acts[..m + 1]) == Run(Step(s, acts[0]), acts[1..][..m])
  {
    assert acts[..m + 1] == [acts[0]] + acts[1..][..m];
    RunCons(s, acts[0], acts[1..][..m]);
  }

  /** The run `acts` from `s` leads to `r`. (Quantified so that the run is unfolded only where a
      proof names it.) */
  ghost predicate Leads(s: State, acts: seq<Action>, r: State)
    requires Shaped(s)
  {
    forall xs {:trigger Run(s, xs)} :: xs == acts ==> r == Run(s, xs)
  }

  lemma LeadsRun(s: State, acts: seq<Action>, r: State)
    requires Shaped(s)
    ensures Leads(s, acts, r) <==> r == Run(s, acts)
  {
  }

  lemma LeadsOn(s: State, xs: seq<Action>, t: State, ys: seq<Action>, r: State)
    requires Shaped(s) && Shaped(t) && Leads(s, xs, t) && Leads(t, ys, r)
    ensures Leads(s, xs + ys, r)
  {
    LeadsRun(s, xs, t);
    LeadsRun(t, ys, r);
    RunConcat(s, xs, ys);
  }

  /** `s` is where the run `acts` from the initial state leads. */
  ghost predicate Traced(max: nat, cap: nat, acts: seq<Action>, s: State) {
    Leads(Init(max, cap), acts, s)
  }

  /** States some run leads to, with a socket that can hold at least one byte. */
  ghost predicate Reachable(s: State) {
    exists max: nat, cap: nat, acts: seq<Action> :: cap >= 1 && Traced(max, cap, acts, s)
  }

  /** The run that leads to a reachable state. */
  lemma Witness(s: State) returns (max: nat, cap: nat, acts: seq<Action>)
    requires Reachable(s)
    ensures cap >= 1 && s == Run(Init(max, cap), acts) && Shaped(s)
  {
    max, cap, acts :| cap >= 1 && Traced(max, cap, acts, s);
    assert s == Run(Init(max, cap), acts);
  }
}
