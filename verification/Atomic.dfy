/** The system as its users are told to think of it: a write is one step, a read
    of a slot is one step. Every run of the machine is a run of this one, with
    the same log. */
module Atomic {
  import opened Ring
  import opened Machine
  import opened Safety

  datatype Ideal = Ideal(ids: seq<Word>, hist: seq<seq<Payload>>, seen: seq<seq<nat>>, log: seq<Entry>)

  datatype Event = Register(i: nat, id: Word) | Write(i: nat, d: Payload) | Read(i: nat, j: nat)

  ghost predicate Sized(x: Ideal) {
    |x.ids| == |x.hist| == |x.seen| && forall i {:trigger x.seen[i]} :: 0 <= i < |x.seen| ==> |x.seen[i]| == 8
  }

  /** Harvest slot `j` of station `i`: its newest event, whole, if not seen before. */
  function ReadSlot(x: Ideal, i: nat, j: nat): (r: Ideal)
    requires Sized(x) && i < |x.hist| && j < 8
    ensures Sized(r) && |r.hist| == |x.hist|
  {
    var c := Count(|x.hist[i]|, j);
    if 2 * c <= x.seen[i][j] then x
    else
      x.(log := x.log + [Entry(i, j, 2 * c, x.hist[i][EventAt(j, c)], x.ids[i])],
         seen := SetSeen(x.seen, i, j, 2 * c))
  }

  function Do(x: Ideal, e: Event): (r: Ideal)
    requires Sized(x)
    ensures Sized(r) && |r.hist| == |x.hist|
  {
    match e
    case Register(i, id) => if i < |x.ids| then x.(ids := x.ids[i := id]) else x
    case Write(i, d) => if i < |x.hist| then x.(hist := x.hist[i := x.hist[i] + [d]]) else x
    case Read(i, j) => if i < |x.hist| && j < 8 then ReadSlot(x, i, j) else x
  }

  function DoAll(x: Ideal, es: seq<Event>): (r: Ideal)
    requires Sized(x)
    ensures Sized(r) && |r.hist| == |x.hist|
    decreases |es|
  {
    if es == [] then x else DoAll(Do(x, es[0]), es[1..])
  }

  lemma {:induction false} DoAllConcat(x: Ideal, es: seq<Event>, fs: seq<Event>)
    requires Sized(x)
    ensures DoAll(x, es + fs) == DoAll(DoAll(x, es), fs)
    decreases |es|
  {
    if es == [] {
      assert es + fs == fs;
    } else {
      assert (es + fs)[0] == es[0] && (es + fs)[1..] == es[1..] + fs;
      DoAllConcat(Do(x, es[0]), es[1..], fs);
    }
  }

  lemma DoOne(x: Ideal, e: Event)
    requires Sized(x)
    ensures DoAll(x, [e]) == Do(x, e)
  {
    assert [e][1..] == [];
  }

  function Start(max: nat): (x: Ideal)
    ensures Sized(x)
  {
    Ideal(seq(max, _ => 0), seq(max, _ => []), seq(max, _ => seq(8, _ => 0)), [])
  }

  // ---- Refinement ----

  /** The atomic state a machine state stands for: a validated record counts as logged. */
  function View(s: State): (x: Ideal)
    requires Shaped(s)
    ensures Sized(x)
  {
    var ids := seq(s.max, i requires 0 <= i < s.max => s.stations[i].probeId);
    match s.at
    case Printing(c, seq1, data) =>
      Ideal(ids, s.hist, SetSeen(s.seen, c.i, c.j, seq1),
            s.log + [Entry(c.i, c.j, seq1, data, s.stations[c.i].probeId)])
    case _ => Ideal(ids, s.hist, s.seen, s.log)
  }

  /** The atomic step a machine step amounts to, if any: a write takes effect at its even
      store, a read at its second load of `seq`. */
  function Effect(s: State, a: Action): (es: seq<Event>)
    requires Shaped(s)
  {
    match a
    case Construct(_) => []
    case Writer(p, _) =>
      if p >= |s.probes| then []
      else
        (match s.probes[p].at
         case Naming => [Register(s.probes[p].ticket, s.probes[p].id)]
         case Storing(d, _, n) => if n < 4 then [] else [Write(s.probes[p].ticket, d)]
         case _ => [])
    case Reader(_) =>
      (match s.at
       case Copying(c, seq1, n, _) => if n >= 4 && SlotAt(s, c).seqNo == seq1 then [Read(c.i, c.j)] else []
       case _ => [])
  }

  function Effects(s: State, acts: seq<Action>): (es: seq<Event>)
    requires Shaped(s)
    decreases |acts|
  {
    if acts == [] then [] else Effect(s, acts[0]) + Effects(Step(s, acts[0]), acts[1..])
  }

  /** The second load, when it agrees with the first, is an atomic read of the slot. */
  lemma ValidationReads(s: State, wake: Wake)
    requires Inv(s) && s.at.Copying? && s.at.n == 4 && SlotAt(s, s.at.c).seqNo == s.at.seq1
    ensures View(ReaderStep(s, wake)) == ReadSlot(View(s), s.at.c.i, s.at.c.j)
  {
    var c := s.at.c;
    assert StationOk(s, c.i);
    assert SlotOk(SlotAt(s, c), s.hist[c.i], c.j, WriterOf(s, c.i));
  }

  /** No other engine step shows. */
  lemma ReaderStutters(s: State, wake: Wake)
    requires Shaped(s) && Effect(s, Reader(wake)) == []
    ensures View(ReaderStep(s, wake)) == View(s)
  {
    match s.at {
      case Copying(_, _, _, _) =>
      case Printing(_, _, _) =>
      case Blocked =>
      case _ =>
    }
  }

  lemma ReaderSimulates(s: State, wake: Wake)
    requires Inv(s)
    ensures View(ReaderStep(s, wake)) == DoAll(View(s), Effect(s, Reader(wake)))
  {
    if Effect(s, Reader(wake)) == [] {
      ReaderStutters(s, wake);
    } else {
      ValidationReads(s, wake);
      DoOne(View(s), Read(s.at.c.i, s.at.c.j));
    }
  }

  lemma NamingRegisters(s: State, p: nat, d: Payload)
    requires Inv(s) && p < |s.probes| && s.probes[p].at.Naming?
    ensures View(WriterStep(s, p, d)) == Do(View(s), Register(s.probes[p].ticket, s.probes[p].id))
  {
    assert ProbeOk(s, p) && StationOk(s, s.probes[p].ticket);
    assert View(WriterStep(s, p, d)).ids == Do(View(s), Register(s.probes[p].ticket, s.probes[p].id)).ids;
  }

  lemma EvenStoreWrites(s: State, p: nat, d: Payload)
    requires Inv(s) && p < |s.probes| && s.probes[p].at.Storing? && s.probes[p].at.n >= 4
    ensures View(WriterStep(s, p, d)) == Do(View(s), Write(s.probes[p].ticket, s.probes[p].at.d))
  {
    assert View(WriterStep(s, p, d)).ids == View(s).ids;
  }

  lemma WriterStutters(s: State, p: nat, d: Payload)
    requires Shaped(s) && p < |s.probes| && Effect(s, Writer(p, d)) == []
    ensures View(WriterStep(s, p, d)) == View(s)
  {
    var r := WriterStep(s, p, d);
    assert r.hist == s.hist;
    assert View(r).ids == View(s).ids;
  }

  lemma WriterSimulates(s: State, p: nat, d: Payload)
    requires Inv(s) && p < |s.probes|
    ensures View(WriterStep(s, p, d)) == DoAll(View(s), Effect(s, Writer(p, d)))
  {
    var es := Effect(s, Writer(p, d));
    if es == [] {
      WriterStutters(s, p, d);
    } else {
      DoOne(View(s), es[0]);
      if s.probes[p].at.Naming? { NamingRegisters(s, p, d); } else { EvenStoreWrites(s, p, d); }
    }
  }

  /** One step of the machine is at most one step of the atomic system. */
  lemma StepSimulates(s: State, a: Action)
    requires Inv(s)
    ensures View(Step(s, a)) == DoAll(View(s), Effect(s, a))
    ensures |Effect(s, a)| <= 1
  {
    match a {
      case Construct(id) => assert View(Step(s, a)) == View(s);
      case Writer(p, d) => if p < |s.probes| { WriterSimulates(s, p, d); }
      case Reader(wake) => ReaderSimulates(s, wake);
    }
  }

  lemma {:induction false} RunSimulates(s: State, acts: seq<Action>)
    requires Inv(s)
    ensures View(Run(s, acts)) == DoAll(View(s), Effects(s, acts))
    decreases |acts|
  {
    if acts != [] {
      StepSimulates(s, acts[0]);
      StepKeeps(s, acts[0]);
      RunSimulates(Step(s, acts[0]), acts[1..]);
      DoAllConcat(View(s), Effect(s, acts[0]), Effects(Step(s, acts[0]), acts[1..]));
    }
  }

  /** Linearizable harvest: the field-by-field, interleaved run and the run of its effects,
      each one atomic step, end in the same histories and the same log. */
  lemma Linearizable(max: nat, cap: nat, acts: seq<Action>)
    ensures var s := Run(Init(max, cap), acts); var x := DoAll(Start(max), Effects(Init(max, cap), acts));
      && x == View(s) && x.hist == s.hist
      && (!s.at.Printing? ==> x.log == s.log && x.seen == s.seen)
  {
    InitInv(max, cap);
    RunSimulates(Init(max, cap), acts);
    assert View(Init(max, cap)) == Start(max);
  }
}
