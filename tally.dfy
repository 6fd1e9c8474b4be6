/**
 * The running statistics the profiler keeps over a stream of samples:
 * total, maximum, mean and a mode. The mode is kept with an occurrence
 * map and is replaced only when a value's count strictly exceeds the best
 * count so far, so among equally frequent values the one that reached that
 * count first is the mode.
 */
module Tally {

  function Max(a: int, b: int): (m: int)
    ensures m >= a && m >= b && (m == a || m == b)
  {
    if a >= b then a else b
  }

  /** A mean kept exactly, as the fraction `numerator / denominator`. */
  datatype Fraction = Fraction(numerator: int, denominator: nat)

  /** The mode bookkeeping: occurrences of each key (`map`), the best count (`num`) and the mode. */
  datatype ModeState = ModeState(counts: map<int, nat>, num: nat, mode: int)

  /** One more occurrence of `key`: its count goes up by one and takes over the mode only on a strictly greater count. */
  function NextMode(st: ModeState, key: int): ModeState {
    var c := if key in st.counts then st.counts[key] + 1 else 1;
    if c > st.num then ModeState(st.counts[key := c], c, key)
    else ModeState(st.counts[key := c], st.num, st.mode)
  }

  /** The mode bookkeeping after the keys `keys`, from an empty map, `num = 0` and mode 0. */
  function ModeOf(keys: seq<int>): ModeState
    decreases |keys|
  {
    if keys == [] then ModeState(map[], 0, 0)
    else NextMode(ModeOf(keys[..|keys| - 1]), keys[|keys| - 1])
  }

  /** The running statistics of one family of samples (`_time`, `_cpu` or `_memory`). */
  class Accumulator {
    var counts: map<int, nat>
    var num: nat
    var mode: int
    var max: int
    var total: int
    var mean: Fraction
    /** The samples recorded so far, and the mode keys derived from them. */
    ghost var samples: seq<int>
    ghost var keys: seq<int>

    /**
     * The statistics agree with the samples: the mode bookkeeping is the
     * one the keys produce, `total` is the sum and `max` the largest of 0
     * and the samples.
     */
    ghost predicate Valid()
      reads this
    {
      |keys| == |samples| && ModeValid() && SampleValid()
    }

    /** The mode half of `Valid`. */
    ghost predicate ModeValid()
      reads this
    {
      ModeState(counts, num, mode) == ModeOf(keys)
    }

    /** The total and maximum half of `Valid`. */
    ghost predicate SampleValid()
      reads this
    {
      total == Sum(samples) && max == Largest(samples)
    }

    constructor()
      ensures Valid() && samples == [] && keys == []
      ensures counts == map[] && num == 0 && mode == 0 && max == 0 && total == 0 && mean == Fraction(0, 1)
    {
      counts := map[];
      num := 0;
      mode := 0;
      max := 0;
      total := 0;
      mean := Fraction(0, 1);
      samples := [];
      keys := [];
    }

    /**
     * Records sample `x` whose mode key is `key`, the family now having
     * `n` samples: the key's count goes up by one and takes over the mode
     * only when it exceeds the best count; the total, the maximum and the
     * mean (`total / n`) follow.
     */
    method Record(x: int, key: int, n: nat)
      requires Valid() && n == |samples| + 1
      modifies this
      ensures Valid()
      ensures samples == old(samples) + [x] && keys == old(keys) + [key]
      ensures counts == old(counts)[key := multiset(keys)[key]]
      ensures multiset(keys)[key] > old(num) ==> num == multiset(keys)[key] && mode == key
      ensures multiset(keys)[key] <= old(num) ==> num == old(num) && mode == old(mode)
      ensures total == old(total) + x && max == Max(old(max), x)
      ensures mean == Fraction(total, n)
    {
      CountKey(key);
      AddSample(x, n);
    }

    /** The mode half of `Record`: the key's count goes up by one and takes over the mode only on a greater count. */
    method CountKey(key: int)
      requires ModeValid()
      modifies this`counts, this`num, this`mode, this`keys
      ensures ModeValid() && keys == old(keys) + [key]
      ensures counts == old(counts)[key := multiset(keys)[key]]
      ensures multiset(keys)[key] > old(num) ==> num == multiset(keys)[key] && mode == key
      ensures multiset(keys)[key] <= old(num) ==> num == old(num) && mode == old(mode)
    {
      ModeSnoc(keys, key);
      var c: nat;
      if key !in counts {
        c := 1;
      } else {
        c := counts[key] + 1;
      }
      ghost var st := ModeOf(keys + [key]);
      assert st.counts == counts[key := c] && c == multiset(keys + [key])[key];
      counts := counts[key := c];
      if c > num {
        num := c;
        mode := key;
      }
      keys := keys + [key];
    }

    /** The sample half of `Record`: the total, the maximum and the mean over `n` samples. */
    method AddSample(x: int, n: nat)
      requires SampleValid() && n > 0
      modifies this`total, this`max, this`samples, this`mean
      ensures SampleValid() && samples == old(samples) + [x]
      ensures total == old(total) + x && max == Max(old(max), x) && mean == Fraction(total, n)
    {
      SumSnoc(samples, x);
      LargestSnoc(samples, x);
      total := total + x;
      max := Max(max, x);
      samples := samples + [x];
      mean := Fraction(total, n);
    }
  }

  /** The bookkeeping counts every key seen, and only those, by its number of occurrences. */
  lemma {:induction false} ModeCounts(keys: seq<int>)
    ensures forall v :: v in ModeOf(keys).counts <==> v in keys
    ensures forall v | v in ModeOf(keys).counts :: ModeOf(keys).counts[v] == multiset(keys)[v]
    decreases |keys|
  {
    if keys != [] {
      var init, last := keys[..|keys| - 1], keys[|keys| - 1];
      ModeCounts(init);
      assert keys == init + [last];
      assert multiset(keys) == multiset(init) + multiset{last};
      assert forall v | v in init :: v in keys;
    }
  }

  /** One more key: its count is its number of occurrences so far, and `NextMode` applies. */
  lemma ModeSnoc(keys: seq<int>, key: int)
    ensures var st := ModeOf(keys);
      var c := multiset(keys + [key])[key];
      && c == (if key in st.counts then st.counts[key] + 1 else 1)
      && ModeOf(keys + [key]) == NextMode(st, key)
  {
    ModeCounts(keys);
    assert (keys + [key])[..|keys|] == keys;
    assert multiset(keys + [key]) == multiset(keys) + multiset{key};
  }

  /** `num` is the highest occurrence count, and it is the mode's count. */
  lemma {:induction false} ModeIsMostFrequent(keys: seq<int>)
    ensures forall v :: multiset(keys)[v] <= ModeOf(keys).num
    ensures keys != [] ==> ModeOf(keys).num > 0 && multiset(keys)[ModeOf(keys).mode] == ModeOf(keys).num
    ensures keys == [] ==> ModeOf(keys) == ModeState(map[], 0, 0)
    decreases |keys|
  {
    if keys != [] {
      var init, last := keys[..|keys| - 1], keys[|keys| - 1];
      ModeIsMostFrequent(init);
      ModeCounts(init);
      assert keys == init + [last];
      assert multiset(keys) == multiset(init) + multiset{last};
    }
  }

  /**
   * Ties go to the earlier key: there is a prefix of the keys in which the
   * mode already had its count while every other key was still below it.
   */
  lemma {:induction false} ModeReachedFirst(keys: seq<int>) returns (r: nat)
    ensures r <= |keys| && multiset(keys[..r])[ModeOf(keys).mode] == ModeOf(keys).num
    ensures keys != [] ==> forall v | v != ModeOf(keys).mode :: multiset(keys[..r])[v] < ModeOf(keys).num
    decreases |keys|
  {
    if keys == [] {
      r := 0;
    } else {
      var init, last := keys[..|keys| - 1], keys[|keys| - 1];
      var r0 := ModeReachedFirst(init);
      ModeCounts(init);
      ModeIsMostFrequent(init);
      assert keys == init + [last];
      assert multiset(keys) == multiset(init) + multiset{last};
      var c := if last in ModeOf(init).counts then ModeOf(init).counts[last] + 1 else 1;
      assert c == multiset(keys)[last];
      if c > ModeOf(init).num {
        r := |keys|;
        assert keys[..r] == keys;
      } else {
        r := r0;
        assert keys[..r] == init[..r0];
        if init == [] {
          assert false;
        }
      }
    }
  }

  /** The sum of the samples. */
  function Sum(xs: seq<int>): int
    decreases |xs|
  {
    if xs == [] then 0 else Sum(xs[..|xs| - 1]) + xs[|xs| - 1]
  }

  /** `Math.max` over 0 and the samples. */
  function Largest(xs: seq<int>): int
    decreases |xs|
  {
    if xs == [] then 0 else Max(Largest(xs[..|xs| - 1]), xs[|xs| - 1])
  }

  /** `Largest` is at least 0 and every sample, and is 0 or one of the samples. */
  lemma {:induction false} LargestBounds(xs: seq<int>)
    ensures Largest(xs) >= 0 && forall i | 0 <= i < |xs| :: xs[i] <= Largest(xs)
    ensures Largest(xs) == 0 || exists i :: 0 <= i < |xs| && xs[i] == Largest(xs)
    decreases |xs|
  {
    if xs != [] {
      var init := xs[..|xs| - 1];
      LargestBounds(init);
      assert forall i | 0 <= i < |init| :: xs[i] == init[i];
      if Largest(xs) != 0 && Largest(xs) != xs[|xs| - 1] {
        var i :| 0 <= i < |init| && init[i] == Largest(init);
        assert xs[i] == Largest(xs);
      }
    }
  }

  lemma SumSnoc(xs: seq<int>, x: int)
    ensures Sum(xs + [x]) == Sum(xs) + x
  {
    assert (xs + [x])[..|xs|] == xs;
  }

  lemma LargestSnoc(xs: seq<int>, x: int)
    ensures Largest(xs + [x]) == Max(Largest(xs), x)
  {
    assert (xs + [x])[..|xs|] == xs;
  }
}
