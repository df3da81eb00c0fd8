/** The Rust probe: what a polled future writes, what that makes of the log, and
    `PollTrace` and `TracedFuture::poll` as methods over memory that the engine
    and all other probes change between any two accesses. */
module Poll {
  import opened Ring
  import opened Machine
  import opened Safety
  import opened LogLaws

  // ---- What a polled future writes ----

  /** Thread and clock readings of one event. */
  datatype Stamp = Stamp(tid: Word, ts: Word)

  /** How the inner future answered one poll, with the stamps of the events it may cause. */
  datatype PollResult = Pending(addr: Word, resumed: Stamp, suspended: Stamp) | Ready(resumed: Stamp)

  function Resume(t: Stamp): (d: Payload) {
    Payload(t.tid, 0, true, t.ts)
  }

  function Suspend(addr: Word, t: Stamp): (d: Payload) {
    Payload(t.tid, addr, false, t.ts)
  }

  /** The events so far and whether the future is suspended. */
  datatype Story = Story(pending: bool, hist: seq<Payload>)

  function OnPoll(t: Story, r: PollResult): (u: Story) {
    var hist := if t.pending then t.hist + [Resume(r.resumed)] else t.hist;
    match r
    case Pending(addr, _, suspended) => Story(true, hist + [Suspend(addr, suspended)])
    case Ready(_) => Story(false, hist)
  }

  function OnPolls(rs: seq<PollResult>): (t: Story) {
    if rs == [] then Story(false, []) else OnPoll(OnPolls(rs[..|rs| - 1]), rs[|rs| - 1])
  }

  function Pendings(rs: seq<PollResult>): (n: nat) {
    if rs == [] then 0 else Pendings(rs[..|rs| - 1]) + (if rs[|rs| - 1].Pending? then 1 else 0)
  }

  /** Suspensions at even positions, resumptions, with no address, at odd ones. */
  ghost predicate Alternates(hist: seq<Payload>) {
    forall k :: 0 <= k < |hist| ==> (hist[k].active <==> k % 2 == 1) && (hist[k].active ==> hist[k].addr == 0)
  }

  /** However a future is polled, its events alternate, it is suspended exactly when their number
      is odd, and every suspension but a last one still open has its resumption. */
  lemma {:induction false} PollAlternation(rs: seq<PollResult>)
    ensures var t := OnPolls(rs);
      && Alternates(t.hist) && (t.pending <==> |t.hist| % 2 == 1)
      && |t.hist| == 2 * Pendings(rs) - (if t.pending then 1 else 0)
  {
    if rs != [] { PollAlternation(rs[..|rs| - 1]); }
  }

  /** `p` pending polls and a ready one write exactly `2 * p` events. */
  lemma PendingThenReady(rs: seq<PollResult>, last: PollResult)
    requires last.Ready? && forall a :: 0 <= a < |rs| ==> rs[a].Pending?
    ensures |OnPolls(rs + [last]).hist| == 2 * |rs| && !OnPolls(rs + [last]).pending
  {
    PollAlternation(rs + [last]);
    assert (rs + [last])[..|rs|] == rs;
    AllPending(rs);
  }

  lemma {:induction false} AllPending(rs: seq<PollResult>)
    requires forall a :: 0 <= a < |rs| ==> rs[a].Pending?
    ensures Pendings(rs) == |rs|
  {
    if rs != [] { AllPending(rs[..|rs| - 1]); }
  }

  // ---- Which poll wrote which event ----

  /** Which poll answered pending for the `m`-th time. */
  function NthPending(rs: seq<PollResult>, m: nat): (n: nat)
    requires m < Pendings(rs)
    ensures n < |rs| && rs[n].Pending? && Pendings(rs[..n]) == m
    decreases |rs|
  {
    var front := rs[..|rs| - 1];
    if m < Pendings(front) then
      assert rs[..NthPending(front, m)] == front[..NthPending(front, m)];
      NthPending(front, m)
    else |rs| - 1
  }

  /** Event `k` of a polled future: an even one is a suspension and carries the address and the
      stamps of the poll that answered pending for the `k/2`-th time, an odd one is a resumption
      and carries no address and the stamps of the poll after that one. */
  ghost predicate FromItsPoll(rs: seq<PollResult>, k: nat, d: Payload) {
    && k / 2 < Pendings(rs)
    && var n := NthPending(rs, k / 2);
    if k % 2 == 0 then
      !d.active && d.addr == rs[n].addr && d.tid == rs[n].suspended.tid && d.ts == rs[n].suspended.ts
    else
      && n + 1 < |rs| && d.active && d.addr == 0
      && d.tid == rs[n + 1].resumed.tid && d.ts == rs[n + 1].resumed.ts
  }

  lemma StillFromItsPoll(rs: seq<PollResult>, r: PollResult, k: nat, d: Payload)
    requires FromItsPoll(rs, k, d)
    ensures FromItsPoll(rs + [r], k, d)
  {
    assert (rs + [r])[..|rs|] == rs;
  }

  /** Every event of a polled future is from its own poll. */
  lemma {:induction false} StoryIsFromPolls(rs: seq<PollResult>)
    ensures forall k :: 0 <= k < |OnPolls(rs).hist| ==> FromItsPoll(rs, k, OnPolls(rs).hist[k])
    ensures OnPolls(rs).pending ==> rs != [] && rs[|rs| - 1].Pending?
    decreases |rs|
  {
    if rs != [] {
      var front, r := rs[..|rs| - 1], rs[|rs| - 1];
      assert rs == front + [r];
      StoryIsFromPolls(front);
      PollAlternation(front);
      PollAlternation(rs);
      var t, u := OnPolls(front), OnPolls(rs);
      forall k | 0 <= k < |u.hist| ensures FromItsPoll(rs, k, u.hist[k]) {
        if k < |t.hist| {
          StillFromItsPoll(front, r, k, t.hist[k]);
        } else {
          NewFromItsPoll(front, r, k);
        }
      }
    }
  }

  /** So are the events the last poll adds. */
  lemma NewFromItsPoll(front: seq<PollResult>, r: PollResult, k: nat)
    requires |OnPolls(front).hist| <= k < |OnPolls(front + [r]).hist|
    requires OnPolls(front).pending ==> front != [] && front[|front| - 1].Pending?
    ensures FromItsPoll(front + [r], k, OnPolls(front + [r]).hist[k])
  {
    var rs := front + [r];
    assert rs[..|front|] == front;
    PollAlternation(front);
    if k % 2 == 1 {
      var m := |front| - 1;
      LastPending(front);
      assert NthPending(rs, k / 2) == NthPending(front, k / 2) == m;
    }
  }

  lemma LastPending(rs: seq<PollResult>)
    requires rs != [] && rs[|rs| - 1].Pending?
    ensures Pendings(rs) > 0 && NthPending(rs, Pendings(rs) - 1) == |rs| - 1
  {
  }

  // ---- A polled probe among the others ----

  /** If the step takes probe `p` into `write_trace`, it is with the next event of its story. */
  predicate TellsNext(s: State, a: Action, p: nat, story: seq<Payload>) {
    a.Writer? && a.p == p && p < |s.probes| && s.probes[p].at.Idle? ==>
      s.probes[p].count < |story| && a.d == story[s.probes[p].count]
  }

  /** Probe `p` writes the events of `story`, in order, and otherwise the run is any run. */
  ghost predicate Tells(s: State, acts: seq<Action>, p: nat, story: seq<Payload>)
    requires Shaped(s)
    decreases |acts|
  {
    acts == [] || (TellsNext(s, acts[0], p, story) && Tells(Step(s, acts[0]), acts[1..], p, story))
  }

  /** What the probe has written, and what it is writing, is from its story. */
  ghost predicate OnTrack(s: State, p: nat, story: seq<Payload>)
    requires Shaped(s)
  {
    p < |s.probes| ==>
      var w := s.probes[p];
      && w.count <= |story|
      && (w.at.Loaded? || w.at.Storing? ==> w.count < |story| && w.at.d == story[w.count])
      && (Attached(w) ==> s.hist[w.ticket] == story[..w.count])
  }

  lemma OwnStepOnTrack(s: State, p: nat, d: Payload, story: seq<Payload>)
    requires Inv(s) && OnTrack(s, p, story) && TellsNext(s, Writer(p, d), p, story) && p < |s.probes|
    ensures OnTrack(WriterStep(s, p, d), p, story)
  {
    var w := s.probes[p];
    assert ProbeOk(s, p);
    match w.at {
      case Born => if s.tickets < s.max { assert StationOk(s, s.tickets); }
      case Storing(e, _, n) => assert n >= 4 ==> story[..w.count] + [e] == story[..w.count + 1];
      case _ =>
    }
  }

  lemma StepOnTrack(s: State, a: Action, p: nat, story: seq<Payload>)
    requires Inv(s) && OnTrack(s, p, story) && TellsNext(s, a, p, story)
    ensures OnTrack(Step(s, a), p, story)
  {
    if p < |s.probes| && a == Writer(p, if a.Writer? then a.d else NOTHING) {
      OwnStepOnTrack(s, p, a.d, story);
    } else if p < |s.probes| {
      OthersKeep(s, a, p);
    }
  }

  /** Nobody else's step moves a probe or adds to its station's history. */
  lemma OthersKeep(s: State, a: Action, p: nat)
    requires Inv(s) && p < |s.probes| && !(a.Writer? && a.p == p)
    ensures var r := Step(s, a);
      && p < |r.probes| && r.probes[p] == s.probes[p]
      && (Attached(s.probes[p]) ==> r.hist[s.probes[p].ticket] == s.hist[s.probes[p].ticket])
  {
    assert ProbeOk(s, p);
    if Attached(s.probes[p]) && Step(s, a).hist[s.probes[p].ticket] != s.hist[s.probes[p].ticket] {
      OnlyHolderWrites(s, a, s.probes[p].ticket);
    }
    match a {
      case Construct(_) =>
      case Writer(q, d) => if q < |s.probes| { WriterFrame(s, q, d); }
      case Reader(wake) => ReaderFrame(s, wake);
    }
  }

  lemma {:induction false} RunOnTrack(s: State, acts: seq<Action>, p: nat, story: seq<Payload>)
    requires Inv(s) && OnTrack(s, p, story) && Tells(s, acts, p, story)
    ensures Inv(Run(s, acts)) && OnTrack(Run(s, acts), p, story)
    decreases |acts|
  {
    if acts != [] {
      StepKeeps(s, acts[0]);
      StepOnTrack(s, acts[0], p, story);
      RunOnTrack(Step(s, acts[0]), acts[1..], p, story);
    }
  }

  /** Poll alternation meets the ring: in every run in which probe `p` writes what a polled future
      writes, whatever else runs beside it, every record harvested from its station is from its own
      poll; the records are active exactly in the odd slots, and an active one has no address. */
  lemma ActiveInOddSlots(max: nat, cap: nat, acts: seq<Action>, p: nat, rs: seq<PollResult>, a: nat)
    requires cap >= 1 && Tells(Init(max, cap), acts, p, OnPolls(rs).hist)
    requires var s := Run(Init(max, cap), acts);
      p < |s.probes| && Attached(s.probes[p]) && a < |s.log| && s.log[a].i == s.probes[p].ticket
    ensures AsPolled(rs, Run(Init(max, cap), acts).log[a])
  {
    var s := Run(Init(max, cap), acts);
    InitInv(max, cap);
    RunOnTrack(Init(max, cap), acts, p, OnPolls(rs).hist);
    TrackedAlternates(s, p, rs, a);
  }

  /** The record is from its own poll: active exactly in the odd slots, with no address if active,
      and with the stamps, and if not active the address, of that poll. */
  ghost predicate AsPolled(rs: seq<PollResult>, e: Entry) {
    && (e.data.active <==> e.j % 2 == 1) && (e.data.active ==> e.data.addr == 0)
    && e.j < 8 && e.seqNo >= 2 && FromItsPoll(rs, EventAt(e.j, e.seqNo / 2), e.data)
  }

  lemma TrackedAlternates(s: State, p: nat, rs: seq<PollResult>, a: nat)
    requires Inv(s) && OnTrack(s, p, OnPolls(rs).hist)
    requires p < |s.probes| && Attached(s.probes[p]) && a < |s.log| && s.log[a].i == s.probes[p].ticket
    ensures AsPolled(rs, s.log[a])
  {
    var e := s.log[a];
    assert EntryOk(s, e);
    var k := EventAt(e.j, e.seqNo / 2);
    CountBounds(|s.hist[e.i]|, e.j, k);
    StoryIsFromPolls(rs);
    assert s.hist[e.i][k] == OnPolls(rs).hist[k];
  }

  // ---- The probe as a program ----

  predicate NotBy(p: nat, acts: seq<Action>) {
    forall a :: 0 <= a < |acts| ==> !(acts[a].Writer? && acts[a].p == p)
  }

  lemma {:induction false} OthersRun(s: State, acts: seq<Action>, p: nat)
    requires Inv(s) && p < |s.probes| && NotBy(p, acts)
    ensures var r := Run(s, acts);
      && Inv(r) && p < |r.probes| && r.probes[p] == s.probes[p]
      && (Attached(s.probes[p]) ==> r.hist[s.probes[p].ticket] == s.hist[s.probes[p].ticket])
    decreases |acts|
  {
    if acts != [] {
      StepKeeps(s, acts[0]);
      OthersKeep(s, acts[0], p);
      OthersRun(Step(s, acts[0]), acts[1..], p);
    }
  }

  /** The state with probe `p` in the given phase. */
  function Enter(s: State, p: nat, at: Phase): (r: State)
    requires p < |s.probes|
  {
    s.(probes := s.probes[p := s.probes[p].(at := at)])
  }

  /** The state with slot `j` of station `i` replaced. */
  function SetSlot(s: State, i: nat, j: nat, slot: Slot): (r: State)
    requires i < |s.stations| && j < |s.stations[i].slots|
  {
    s.(stations := s.stations[i := s.stations[i].(slots := s.stations[i].slots[j := slot])])
  }

  class PollTrace {
    // The mapped memory and the processes that share it, this probe being number `p`.
    var shm: State
    const p: nat
    var station: nat
    var attached: bool
    var eventCount: nat
    var pending: bool
    var dead: bool
    var stationDead: bool          // the station's `is_dead`

    // What the engine and the other probes do before each access of this one.
    const env: nat -> seq<Action>
    var tick: nat

    const max: nat
    const cap: nat
    ghost var trace: seq<Action>

    /** Some run of the machine has brought this probe to phase `at`. */
    ghost predicate At(at: Phase)
      reads this
    {
      && cap >= 1 && (forall k :: NotBy(p, env(k))) && Traced(max, cap, trace, shm)
      && Shaped(shm) && shm.max == max && p < |shm.probes| && shm.probes[p].at == at
      && (attached ==> Attached(shm.probes[p]) && shm.probes[p].ticket == station < max && shm.probes[p].count == eventCount)
    }

    /** Between calls. */
    ghost predicate Valid()
      reads this
    {
      At(if attached then Idle else Detached)
    }

    /** The events of this probe's station. */
    ghost function History(): seq<Payload>
      reads this
      requires attached ==> station < |shm.hist|
    {
      if attached then shm.hist[station] else []
    }

    lemma InvAt(at: Phase)
      requires At(at)
      ensures Inv(shm)
    {
      assert Reachable(shm);
      Always(shm);
    }

    /** The records of a probe driven by `poll` alone are each from their own poll. */
    lemma RecordsAlternate(rs: seq<PollResult>, a: nat)
      requires Valid() && attached && History() == OnPolls(rs).hist && a < |shm.log| && shm.log[a].i == station
      ensures AsPolled(rs, shm.log[a])
    {
      InvAt(Idle);
      assert ProbeOk(shm, p) && StationOk(shm, station);
      TrackedAlternates(shm, p, rs, a);
    }

    /** The others run, for as long and as far as they like. */
    method Interfere(ghost at: Phase)
      requires At(at)
      modifies `shm, `tick, `trace
      ensures At(at) && Inv(shm) && History() == old(History()) && shm.probes[p] == old(shm).probes[p]
      ensures trace == old(trace) + env(old(tick)) && tick == old(tick) + 1
    {
      InvAt(at);
      var acts := env(tick);
      OthersRun(shm, acts, p);
      LeadsOn(Init(max, cap), trace, shm, acts, Run(shm, acts));
      shm := Run(shm, acts);
      tick := tick + 1;
      trace := trace + acts;
    }

    /** Books the access just made as one step of the machine. */
    ghost method Took(before: State, d: Payload)
      requires Shaped(before) && Traced(max, cap, trace, before) && p < |before.probes| && shm == WriterStep(before, p, d)
      modifies `trace
      ensures Traced(max, cap, trace, shm) && trace == old(trace) + [Writer(p, d)]
    {
      LeadsRun(Init(max, cap), trace, before);
      RunSnoc(Init(max, cap), trace, Writer(p, d));
      trace := trace + [Writer(p, d)];
    }

    /** `PollTrace::new`: one `fetch_add`; a probe within capacity puts its id on the station of that
        number, any other stays without. */
    constructor (s: State, ghost before: seq<Action>, id: Word, max: nat, cap: nat, env: nat -> seq<Action>)
      requires cap >= 1 && Traced(max, cap, before, s) && s.max == max && forall k :: NotBy(|s.probes|, env(k))
      ensures Valid() && before <= trace && p == |s.probes| && this.max == max && this.cap == cap && this.env == env
      ensures eventCount == 0 && !pending && !dead && History() == []
      ensures attached <==> shm.probes[p].ticket < max
      ensures attached ==> shm.stations[station].probeId == id && !stationDead
    {
      LeadsRun(Init(max, cap), before, s);
      RunSnoc(Init(max, cap), before, Construct(id));
      this.max, this.cap, this.env, p, tick := max, cap, env, |s.probes|, 0;
      station, attached, eventCount, pending, dead, stationDead := 0, false, 0, false, false, false;
      shm := s.(probes := s.probes + [Probe(id, 0, 0, Born)]);
      trace := before + [Construct(id)];
      new;
      TakeTicket();
      if attached { Name(id); }
    }

    /** `fetch_add` on the shared count, and the capacity check. */
    method TakeTicket()
      requires At(Born) && !attached && eventCount == 0
      modifies `shm, `tick, `trace, `station, `attached
      ensures At(if attached then Naming else Detached) && old(trace) <= trace && History() == []
      ensures shm.probes[p].id == old(shm).probes[p].id && (attached <==> shm.probes[p].ticket < max)
    {
      Interfere(Born);
      ghost var before := shm;
      assert ProbeOk(before, p);
      station := shm.tickets;
      attached := station < max;
      shm := shm.(tickets := station + 1, owner := shm.owner + [p],
                  probes := shm.probes[p := shm.probes[p].(ticket := station, at := if attached then Naming else Detached)]);
      Took(before, NOTHING);
      if attached { assert StationOk(before, station); }
    }

    /** Store `probe_id`. */
    method Name(id: Word)
      requires At(Naming) && attached && shm.probes[p].id == id
      modifies `shm, `tick, `trace
      ensures At(Idle) && old(trace) <= trace && History() == old(History())
      ensures shm.stations[station].probeId == id && shm.probes[p].ticket == station
    {
      Interfere(Naming);
      ghost var before := shm;
      shm := Enter(shm.(stations := shm.stations[station := shm.stations[station].(probeId := id)]), p, Idle);
      Took(before, NOTHING);
    }

    /** Load `old_seq`. */
    method LoadSeq(d: Payload) returns (prev: nat)
      requires At(Idle) && attached
      modifies `shm, `tick, `trace
      ensures At(Loaded(d, prev)) && History() == old(History()) && old(trace) <= trace
    {
      Interfere(Idle);
      ghost var before := shm;
      prev := shm.stations[station].slots[eventCount % 8].seqNo;
      shm := Enter(shm, p, Loaded(d, prev));
      Took(before, d);
    }

    /** Store it odd. */
    method StoreOdd(d: Payload, prev: nat)
      requires At(Loaded(d, prev)) && attached
      modifies `shm, `tick, `trace
      ensures At(Storing(d, prev, 0)) && History() == old(History()) && old(trace) <= trace
    {
      Interfere(Loaded(d, prev));
      ghost var before := shm;
      var j := eventCount % 8;
      shm := Enter(SetSlot(shm, station, j, shm.stations[station].slots[j].(seqNo := prev + 1)), p, Storing(d, prev, 0));
      Took(before, d);
    }

    /** Store one field of the event. */
    method StoreOne(d: Payload, prev: nat, n: nat)
      requires n < 4 && At(Storing(d, prev, n)) && attached
      modifies `shm, `tick, `trace
      ensures At(Storing(d, prev, n + 1)) && History() == old(History()) && old(trace) <= trace
    {
      Interfere(Storing(d, prev, n));
      ghost var before := shm;
      var j := eventCount % 8;
      var slot := shm.stations[station].slots[j];
      match n {
        case 0 => slot := slot.(data := slot.data.(addr := d.addr));
        case 1 => slot := slot.(data := slot.data.(tid := d.tid));
        case 2 => slot := slot.(data := slot.data.(ts := d.ts));
        case 3 => slot := slot.(data := slot.data.(active := d.active));
      }
      shm := Enter(SetSlot(shm, station, j, slot), p, Storing(d, prev, n + 1));
      Took(before, d);
    }

    /** Store it even: the event is complete. */
    method StoreEven(d: Payload, prev: nat)
      requires At(Storing(d, prev, 4)) && attached
      modifies `shm, `tick, `trace, `eventCount
      ensures At(Published) && History() == old(History()) + [d] && eventCount == old(eventCount) + 1 && old(trace) <= trace
    {
      Interfere(Storing(d, prev, 4));
      ghost var before := shm;
      var j := eventCount % 8;
      shm := SetSlot(shm, station, j, shm.stations[station].slots[j].(seqNo := prev + 2));
      eventCount := eventCount + 1;
      shm := shm.(hist := shm.hist[station := shm.hist[station] + [d]],
                  probes := shm.probes[p := shm.probes[p].(at := Published, count := eventCount)]);
      Took(before, d);
    }

    /** Load the flag. */
    method LoadFlag(d: Payload) returns (up: bool)
      requires At(Published) && attached
      modifies `shm, `tick, `trace
      ensures At(if up then Saw else Idle) && History() == old(History()) && old(trace) <= trace
    {
      Interfere(Published);
      ghost var before := shm;
      up := shm.sleeping;
      shm := Enter(shm, p, if up then Saw else Idle);
      Took(before, d);
    }

    /** Swap it from 1 to 0, if it still is 1. */
    method SwapFlag(d: Payload) returns (won: bool)
      requires At(Saw) && attached
      modifies `shm, `tick, `trace
      ensures At(if won then Won else Idle) && History() == old(History()) && old(trace) <= trace
    {
      Interfere(Saw);
      ghost var before := shm;
      won := shm.sleeping;
      if won { shm := shm.(sleeping := false, wins := shm.wins + 1); }
      shm := Enter(shm, p, if won then Won else Idle);
      Took(before, d);
    }

    /** Send one byte; a full socket drops it. */
    method TriggerWakeup(d: Payload)
      requires At(Won) && attached
      modifies `shm, `tick, `trace
      ensures At(Idle) && History() == old(History()) && old(trace) <= trace
    {
      Interfere(Won);
      ghost var before := shm;
      if shm.bytes < shm.cap { shm := shm.(bytes := shm.bytes + 1); }
      shm := Enter(shm.(sent := shm.sent + 1), p, Idle);
      Took(before, d);
    }

    /** The four fields, one at a time. */
    method StoreFields(d: Payload, prev: nat)
      requires At(Storing(d, prev, 0)) && attached
      modifies `shm, `tick, `trace
      ensures At(Storing(d, prev, 4)) && History() == old(History()) && old(trace) <= trace
    {
      StoreTwo(d, prev, 0);
      StoreTwo(d, prev, 2);
    }

    method StoreTwo(d: Payload, prev: nat, n: nat)
      requires n < 3 && At(Storing(d, prev, n)) && attached
      modifies `shm, `tick, `trace
      ensures At(Storing(d, prev, n + 2)) && History() == old(History()) && old(trace) <= trace
    {
      StoreOne(d, prev, n);
      StoreOne(d, prev, n + 1);
    }

    /** Odd `seq`, the four fields, even `seq`. */
    method StoreEvent(d: Payload)
      requires At(Idle) && attached
      modifies `shm, `tick, `trace, `eventCount
      ensures At(Published) && old(trace) <= trace
      ensures History() == old(History()) + [d] && eventCount == old(eventCount) + 1
    {
      var prev := LoadSeq(d);
      StoreOdd(d, prev);
      StoreFields(d, prev);
      StoreEven(d, prev);
    }

    /** Load the flag; if it is up, swap it; if the swap is won, send the byte. */
    method Notify(d: Payload)
      requires At(Published) && attached
      modifies `shm, `tick, `trace
      ensures At(Idle) && History() == old(History()) && old(trace) <= trace
    {
      var up := LoadFlag(d);
      if up {
        var won := SwapFlag(d);
        if won { TriggerWakeup(d); }
      }
    }

    /** One event, then the handshake. */
    method WriteTrace(addr: Word, active: bool, t: Stamp)
      requires Valid()
      modifies `shm, `tick, `trace, `eventCount
      ensures Valid() && old(trace) <= trace
      ensures History() == old(History()) + (if attached then [Payload(t.tid, addr, active, t.ts)] else [])
      ensures eventCount == old(eventCount) + (if attached then 1 else 0)
      ensures !attached ==> shm == old(shm)
    {
      if !attached { return; }
      var d := Payload(t.tid, addr, active, t.ts);
      StoreEvent(d);
      Notify(d);
    }

    method OnResume(t: Stamp)
      requires Valid()
      modifies `shm, `tick, `trace, `eventCount, `pending
      ensures Valid() && old(trace) <= trace && !pending && (!attached ==> shm == old(shm))
      ensures History() == old(History()) + (if old(pending) && attached then [Payload(t.tid, 0, true, t.ts)] else [])
    {
      if pending {
        WriteTrace(0, true, t);
        pending := false;
      }
    }

    method OnPendingAddr(addr: Word, t: Stamp)
      requires Valid()
      modifies `shm, `tick, `trace, `eventCount, `pending
      ensures Valid() && old(trace) <= trace && pending && (!attached ==> shm == old(shm))
      ensures History() == old(History()) + (if attached then [Payload(t.tid, addr, false, t.ts)] else [])
    {
      WriteTrace(addr, false, t);
      pending := true;
    }

    /** Sets the station's death bit, at most once. */
    method MarkDead()
      requires Valid()
      modifies `pending, `dead, `stationDead
      ensures Valid() && !pending && dead
      ensures stationDead == (old(stationDead) || (!old(dead) && attached))
    {
      if dead || !attached {
        pending, dead := false, true;
        return;
      }
      stationDead := true;
      pending, dead := false, true;
    }

    /** `TracedFuture::poll`: resume, poll the inner future, suspend or finish. On an attached
        probe the events and `pending` advance as the story of the polls says. */
    method PollOnce(r: PollResult)
      requires Valid()
      modifies `shm, `tick, `trace, `eventCount, `pending, `dead, `stationDead
      ensures Valid() && old(trace) <= trace
      ensures attached ==> Story(pending, History()) == OnPoll(Story(old(pending), old(History())), r)
      ensures !attached ==> shm == old(shm) && pending == r.Pending?
      ensures dead == (old(dead) || r.Ready?)
      ensures stationDead == (old(stationDead) || (r.Ready? && !old(dead) && attached))
    {
      OnResume(r.resumed);
      match r {
        case Pending(addr, _, suspended) => OnPendingAddr(addr, suspended);
        case Ready(_) => MarkDead();
      }
    }

    /** An executor polls the future until it has the answers of `rs`: a fresh attached probe then has
        told exactly the story of its polls, every event and every record from its own poll. */
    method PollAll(rs: seq<PollResult>)
      requires Valid() && !pending && History() == []
      modifies `shm, `tick, `trace, `eventCount, `pending, `dead, `stationDead
      ensures Valid() && old(trace) <= trace
      ensures attached ==> Story(pending, History()) == OnPolls(rs)
      ensures attached ==> forall k :: 0 <= k < |History()| ==> FromItsPoll(rs, k, History()[k])
      ensures attached ==> forall a :: 0 <= a < |shm.log| && shm.log[a].i == station ==> AsPolled(rs, shm.log[a])
      ensures dead == (old(dead) || exists n :: 0 <= n < |rs| && rs[n].Ready?)
      ensures stationDead == (old(stationDead) || (attached && !old(dead) && dead))
    {
      for n := 0 to |rs|
        invariant Valid() && old(trace) <= trace
        invariant attached ==> Story(pending, History()) == OnPolls(rs[..n])
        invariant dead == (old(dead) || exists m :: 0 <= m < n && rs[m].Ready?)
        invariant stationDead == (old(stationDead) || (attached && !old(dead) && dead))
      {
        PollOnce(rs[n]);
        assert rs[..n + 1][..n] == rs[..n];
      }
      assert rs[..|rs|] == rs;
      if attached {
        StoryIsFromPolls(rs);
        forall a | 0 <= a < |shm.log| && shm.log[a].i == station
          ensures AsPolled(rs, shm.log[a]) {
          RecordsAlternate(rs, a);
        }
      }
    }
  }
}
