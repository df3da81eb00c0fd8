/** Station allocation: one `fetch_add` per probe and a capacity check. */
module Tickets {
  import opened Machine
  import opened Safety
  import opened Conserve

  /** No two probes ever hold the same station. */
  lemma ExclusiveStations(s: State, p: nat, q: nat)
    requires Reachable(s) && p < |s.probes| && q < |s.probes| && p != q
    requires Attached(s.probes[p]) && Attached(s.probes[q])
    ensures s.probes[p].ticket != s.probes[q].ticket
    ensures s.probes[p].ticket < s.max && s.probes[q].ticket < s.max
  {
    Always(s);
    assert ProbeOk(s, p) && ProbeOk(s, q);
  }

  /** A probe whose ticket is over capacity never changes shared memory again. */
  lemma OverCapacityIsInert(s: State, p: nat, d: Payload)
    requires Reachable(s) && p < |s.probes| && !s.probes[p].at.Born? && s.probes[p].ticket >= s.max
    ensures Shaped(s) && Step(s, Writer(p, d)) == s
  {
    Always(s);
    assert ProbeOk(s, p);
  }

  const WRAP := 0x1_0000_0000

  /** What the `n`-th `fetch_add` of the 32-bit counter returns. */
  function Ticket32(n: nat): (t: nat)
    ensures t < WRAP
  {
    n % WRAP
  }

  /** The 32-bit counter keeps stations exclusive over `n` probes exactly as long as it has not
      come round: past 2^32 constructions station 0 is handed out again. */
  lemma ExclusiveUntilWrap(n: nat, max: nat)
    ensures (forall a, b :: 0 <= a < b < n && Ticket32(a) < max && Ticket32(b) < max ==> Ticket32(a) != Ticket32(b))
            <==> n <= WRAP || max == 0
  {
    if n > WRAP && max > 0 {
      assert Ticket32(0) == 0 && Ticket32(WRAP) == 0;
    }
  }

  ghost function Values(xs: seq<nat>): (r: set<nat>) {
    set x | x in xs
  }

  lemma {:induction false} ValuesSize(xs: seq<nat>)
    requires forall a, b :: 0 <= a < b < |xs| ==> xs[a] != xs[b]
    ensures |Values(xs)| == |xs|
    decreases |xs|
  {
    if xs != [] {
      var n := |xs| - 1;
      var front := xs[..n];
      ValuesSize(front);
      assert xs == front + [xs[n]];
      assert xs[n] !in front;
      assert Values(xs) == Values(front) + {xs[n]};
    }
  }

  /** Different numbers below `n` are no more than `n`. */
  lemma Pigeonhole(xs: seq<nat>, n: nat)
    requires forall a :: 0 <= a < |xs| ==> xs[a] < n
    requires forall a, b :: 0 <= a < b < |xs| ==> xs[a] != xs[b]
    ensures |xs| <= n
  {
    ValuesSize(xs);
    SubsetSize(Values(xs), Below(n));
  }

  /** Every ticket was drawn by a probe of its own. */
  lemma TicketsBelowProbes(s: State)
    requires Reachable(s)
    ensures s.tickets <= |s.probes|
  {
    Always(s);
    forall a | 0 <= a < |s.owner| ensures s.owner[a] < |s.probes| { assert TicketHeld(s, a); }
    forall a, b | 0 <= a < b < |s.owner| ensures s.owner[a] != s.owner[b] { assert TicketHeld(s, a) && TicketHeld(s, b); }
    Pigeonhole(s.owner, |s.probes|);
  }

  /** The machine's unbounded counter hands out what the 32-bit one does, to every probe so far,
      exactly as long as no more than 2^32 tickets are drawn; and no run of up to 2^32 probes draws
      more. */
  lemma CounterAgrees(s: State)
    requires Reachable(s)
    ensures (forall t :: 0 <= t < s.tickets ==> t < |s.owner| && s.owner[t] < |s.probes| && s.probes[s.owner[t]].ticket == Ticket32(t))
            <==> s.tickets <= WRAP
    ensures |s.probes| <= WRAP ==> s.tickets <= WRAP
  {
    Always(s);
    TicketsBelowProbes(s);
    forall t | 0 <= t < s.tickets ensures s.owner[t] < |s.probes| && s.probes[s.owner[t]].ticket == t { assert TicketHeld(s, t); }
    if s.tickets > WRAP {
      assert s.probes[s.owner[WRAP]].ticket == WRAP && Ticket32(WRAP) == 0;
    }
  }
}
