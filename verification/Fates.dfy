/** Packets that beget packets. The fate of a packet is the multiset of all packets
    that will be delivered because of it, itself included. When every packet begets
    only packets of a lower rank, fates are finite, and delivering packets in any
    order never changes what has been delivered plus the fate of what is in flight. */
module Fates {
  import opened Structures

  datatype Packet = Packet(src: Addr, dst: Addr)

  /** The fate of `p`, followed to depth `d`. */
  function Fate(next: Packet -> seq<Packet>, p: Packet, d: nat): multiset<Packet>
    decreases d, 0
  {
    multiset{p} + if d == 0 then multiset{} else FateAll(next, next(p), d - 1)
  }

  function FateAll(next: Packet -> seq<Packet>, ps: seq<Packet>, d: nat): multiset<Packet>
    decreases d, |ps| + 1
  {
    if ps == [] then multiset{} else Fate(next, ps[0], d) + FateAll(next, ps[1..], d)
  }

  /** From packets that satisfy `ok` come only such packets, each of lower rank. */
  ghost predicate Descends(next: Packet -> seq<Packet>, ok: Packet -> bool, rank: Packet -> nat) {
    forall p, q :: ok(p) && q in next(p) ==> ok(q) && rank(q) < rank(p)
  }

  /** If not all hops descend, there is one that does not. */
  lemma Climb(next: Packet -> seq<Packet>, ok: Packet -> bool, rank: Packet -> nat) returns (p: Packet, q: Packet)
    ensures Descends(next, ok, rank) || (ok(p) && q in next(p) && !(ok(q) && rank(q) < rank(p)))
  {
    if !Descends(next, ok, rank) {
      p, q :| ok(p) && q in next(p) && !(ok(q) && rank(q) < rank(p));
    } else {
      p, q := Packet(Addr(0, 0), Addr(0, 0)), Packet(Addr(0, 0), Addr(0, 0));
    }
  }

  lemma {:induction false} FateDeeper(next: Packet -> seq<Packet>, ok: Packet -> bool, rank: Packet -> nat, p: Packet,
                                      d: nat)
    requires Descends(next, ok, rank) && ok(p) && rank(p) < d
    ensures Fate(next, p, d) == Fate(next, p, d + 1)
    decreases d, 0
  {
    FateAllDeeper(next, ok, rank, next(p), d - 1);
  }

  lemma {:induction false} FateAllDeeper(next: Packet -> seq<Packet>, ok: Packet -> bool, rank: Packet -> nat,
                                         ps: seq<Packet>, d: nat)
    requires Descends(next, ok, rank) && forall p :: p in ps ==> ok(p) && rank(p) < d
    ensures FateAll(next, ps, d) == FateAll(next, ps, d + 1)
    decreases d, |ps| + 1
  {
    if ps != [] {
      FateDeeper(next, ok, rank, ps[0], d);
      FateAllDeeper(next, ok, rank, ps[1..], d);
    }
  }

  /** A fate is the packet and the fates of what it begets. */
  lemma FateUnfolds(next: Packet -> seq<Packet>, ok: Packet -> bool, rank: Packet -> nat, p: Packet, d: nat)
    requires Descends(next, ok, rank) && ok(p) && rank(p) < d
    ensures Fate(next, p, d) == multiset{p} + FateAll(next, next(p), d)
  {
    FateDeeper(next, ok, rank, p, d);
  }

  lemma {:induction false} FateAllAppend(next: Packet -> seq<Packet>, a: seq<Packet>, b: seq<Packet>, d: nat)
    ensures FateAll(next, a + b, d) == FateAll(next, a, d) + FateAll(next, b, d)
  {
    if a == [] {
      assert a + b == b;
    } else {
      assert (a + b)[0] == a[0] && (a + b)[1..] == a[1..] + b;
      FateAllAppend(next, a[1..], b, d);
    }
  }

  /** Packet `i` is delivered and what it begets is put in flight. */
  function FlightAfter(next: Packet -> seq<Packet>, flight: seq<Packet>, i: nat): seq<Packet>
    requires i < |flight|
  {
    flight[..i] + flight[i + 1..] + next(flight[i])
  }

  /** One delivery moves one packet from fate to fact. */
  lemma Conservation(next: Packet -> seq<Packet>, ok: Packet -> bool, rank: Packet -> nat, flight: seq<Packet>,
                     i: nat, d: nat)
    requires Descends(next, ok, rank) && i < |flight| && forall p :: p in flight ==> ok(p) && rank(p) < d
    ensures FateAll(next, flight, d) == multiset{flight[i]} + FateAll(next, FlightAfter(next, flight, i), d)
    ensures forall p :: p in FlightAfter(next, flight, i) ==> ok(p) && rank(p) < d
  {
    var p, a, b := flight[i], flight[..i], flight[i + 1..];
    assert p in flight && forall q :: q in a + b ==> q in flight;
    FateWithout(next, flight, i, d);
    FateUnfolds(next, ok, rank, p, d);
    FateAllAppend(next, a + b, next(p), d);
    forall q | q in next(p) ensures ok(q) && rank(q) < d {
      assert rank(q) < rank(p);
    }
  }

  lemma FateWithout(next: Packet -> seq<Packet>, flight: seq<Packet>, i: nat, d: nat)
    requires i < |flight|
    ensures FateAll(next, flight, d) == Fate(next, flight[i], d) + FateAll(next, flight[..i] + flight[i + 1..], d)
  {
    var p, a, b := flight[i], flight[..i], flight[i + 1..];
    assert flight == a + ([p] + b);
    assert ([p] + b)[1..] == b;
    FateAllAppend(next, a, [p] + b, d);
    FateAllAppend(next, a, b, d);
  }

  /** Every packet of a fate satisfies the invariant `ok`. */
  lemma {:induction false} FateIsOk(next: Packet -> seq<Packet>, ok: Packet -> bool, rank: Packet -> nat,
                                    ps: seq<Packet>, d: nat)
    requires Descends(next, ok, rank) && forall p :: p in ps ==> ok(p)
    ensures forall q :: q in FateAll(next, ps, d) ==> ok(q)
    decreases d, |ps|
  {
    if ps != [] {
      assert ps[0] in ps;
      if d > 0 {
        FateIsOk(next, ok, rank, next(ps[0]), d - 1);
      }
      FateIsOk(next, ok, rank, ps[1..], d);
    }
  }

  lemma {:induction false} FateIncludes(next: Packet -> seq<Packet>, ps: seq<Packet>, p: Packet, d: nat)
    requires p in ps
    ensures Fate(next, p, d) <= FateAll(next, ps, d)
    ensures p in FateAll(next, ps, d)
  {
    if p != ps[0] {
      FateIncludes(next, ps[1..], p, d);
    }
  }

  /** What a packet in flight begets is part of the fate too. */
  lemma FateFollows(next: Packet -> seq<Packet>, ok: Packet -> bool, rank: Packet -> nat, ps: seq<Packet>, p: Packet,
                    d: nat)
    requires Descends(next, ok, rank) && p in ps && ok(p) && rank(p) < d
    ensures FateAll(next, next(p), d) <= FateAll(next, ps, d)
  {
    FateIncludes(next, ps, p, d);
    FateUnfolds(next, ok, rank, p, d);
  }
}
