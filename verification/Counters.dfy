/** User counters and the per-thread results that are added up in one shared
    record (counter.cc, thread_manager.h, benchmark_runner.cc). */
module Counters {

  /** A counter carries presentation flags besides its value. */
  datatype Counter = Counter(value: real, flags: nat, oneK: nat)

  type UserCounters = map<string, Counter>

  /** What `Increment(&l, r)` leaves in `l`: values add up, flags stay those of
      whichever side had the counter first. */
  function Incremented(l: UserCounters, r: UserCounters): UserCounters {
    map k | k in l.Keys + r.Keys ::
      if k !in l then r[k]
      else if k !in r then l[k]
      else l[k].(value := l[k].value + r[k].value)
  }

  /** `Increment`: one pass over `l`, then one pass over `r`. A counter of `l` keeps its flags, and one
      that only `r` has is taken over as it is. */
  method Increment(l: UserCounters, r: UserCounters) returns (l': UserCounters)
    ensures l' == Incremented(l, r)
    ensures forall k :: k in l' <==> k in l || k in r
    ensures forall k :: k in l ==>
      l'[k] == Counter(l[k].value + (if k in r then r[k].value else 0.0), l[k].flags, l[k].oneK)
    ensures forall k :: k in r && k !in l ==> l'[k] == r[k]
  {
    l' := l;
    var todo := l.Keys;
    while todo != {}
      invariant todo <= l.Keys == l'.Keys
      invariant forall k :: k in l ==>
        l'[k] == if k in todo || k !in r then l[k] else l[k].(value := l[k].value + r[k].value)
      decreases todo
    {
      var k :| k in todo;
      if k in r {
        l' := l'[k := l'[k].(value := l'[k].value + r[k].value)];
      }
      todo := todo - {k};
    }
    ghost var mid := l';
    todo := r.Keys;
    while todo != {}
      invariant todo <= r.Keys
      invariant l'.Keys == l.Keys + (r.Keys - todo)
      invariant forall k :: k in l ==> l'[k] == mid[k]
      invariant forall k :: k in l' && k !in l ==> k in r && l'[k] == r[k]
      decreases todo
    {
      var k :| k in todo;
      if k !in l' {
        l' := l'[k := r[k]];
      }
      todo := todo - {k};
    }
  }

  /** What one thread contributes, and what the shared record holds. */
  datatype Stats = Stats(
    iterations: int, cpuTime: real, realTime: real, manualTime: real,
    complexityN: int, counters: UserCounters)

  const EmptyStats := Stats(0, 0.0, 0.0, 0.0, 0, map[])

  /** The critical section of `RunInThread`. */
  function Merge(results: Stats, st: Stats): Stats {
    Stats(results.iterations + st.iterations,
          results.cpuTime + st.cpuTime,
          results.realTime + st.realTime,
          results.manualTime + st.manualTime,
          results.complexityN + st.complexityN,
          Incremented(results.counters, st.counters))
  }

  /** The numbers in a record, without the presentation flags. */
  datatype Tally = Tally(
    iterations: int, cpuTime: real, realTime: real, manualTime: real,
    complexityN: int, counters: map<string, real>)

  const ZeroTally := Tally(0, 0.0, 0.0, 0.0, 0, map[])

  function TallyOf(s: Stats): Tally {
    Tally(s.iterations, s.cpuTime, s.realTime, s.manualTime, s.complexityN,
          map k | k in s.counters :: s.counters[k].value)
  }

  function PlusCounters(a: map<string, real>, b: map<string, real>): map<string, real> {
    map k | k in a.Keys + b.Keys ::
      (if k in a then a[k] else 0.0) + (if k in b then b[k] else 0.0)
  }

  function Plus(a: Tally, b: Tally): Tally {
    Tally(a.iterations + b.iterations, a.cpuTime + b.cpuTime, a.realTime + b.realTime,
          a.manualTime + b.manualTime, a.complexityN + b.complexityN,
          PlusCounters(a.counters, b.counters))
  }

  /** The sum over all threads, in thread order. */
  function SumOf(ts: seq<Tally>): Tally {
    if ts == [] then ZeroTally else Plus(ts[0], SumOf(ts[1..]))
  }

  lemma MergeAddsTallies(a: Stats, b: Stats)
    ensures TallyOf(Merge(a, b)) == Plus(TallyOf(a), TallyOf(b))
  {
    assert TallyOf(Merge(a, b)).counters == PlusCounters(TallyOf(a).counters, TallyOf(b).counters);
  }

  lemma PlusZero(a: Tally)
    ensures Plus(ZeroTally, a) == a && Plus(a, ZeroTally) == a
  {
    assert Plus(ZeroTally, a).counters == a.counters;
    assert Plus(a, ZeroTally).counters == a.counters;
  }

  lemma PlusCommutes(a: Tally, b: Tally)
    ensures Plus(a, b) == Plus(b, a)
  {
    assert Plus(a, b).counters == Plus(b, a).counters;
  }

  lemma PlusAssociates(a: Tally, b: Tally, c: Tally)
    ensures Plus(a, Plus(b, c)) == Plus(Plus(a, b), c)
  {
    assert Plus(a, Plus(b, c)).counters == Plus(Plus(a, b), c).counters;
  }

  /** Replacing one empty contribution by x adds x, wherever it stands: the order in
      which threads deliver their shares does not matter. */
  lemma {:induction false} SumDeliver(ts: seq<Tally>, i: nat, x: Tally)
    requires i < |ts| && ts[i] == ZeroTally
    ensures SumOf(ts[i := x]) == Plus(SumOf(ts), x)
  {
    if i == 0 {
      assert ts[0 := x][1..] == ts[1..];
      PlusZero(SumOf(ts[1..]));
      PlusCommutes(x, SumOf(ts[1..]));
    } else {
      assert ts[i := x][1..] == ts[1..][i - 1 := x];
      SumDeliver(ts[1..], i - 1, x);
      PlusAssociates(ts[0], SumOf(ts[1..]), x);
    }
  }

  lemma {:induction false} SumOfZeros(ts: seq<Tally>)
    requires forall i :: 0 <= i < |ts| ==> ts[i] == ZeroTally
    ensures SumOf(ts) == ZeroTally
  {
    if ts != [] {
      SumOfZeros(ts[1..]);
      PlusZero(ZeroTally);
    }
  }
}
