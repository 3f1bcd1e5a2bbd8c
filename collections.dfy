/**
 * Sequence combinators that mirror the Python idioms of the core: a loop or
 * comprehension that stops at the first exception (MapAll), the nested
 * comprehension `[row for sublist in xss for row in sublist]` (Flatten), and
 * the key order of a dict built from a list that may repeat keys (Dedupe).
 */
module Collections {
  import opened Wrappers

  /** The keys of a list of key-value pairs (a dict's items, an object's members), in order, repetitions included. */
  function Columns<V>(kvs: seq<(string, V)>): (ks: seq<string>)
    ensures |ks| == |kvs|
    ensures forall i :: 0 <= i < |kvs| ==> ks[i] == kvs[i].0
  {
    seq(|kvs|, i requires 0 <= i < |kvs| => kvs[i].0)
  }

  /** Applies `f` to the elements left to right; the first failure is the result. */
  function MapAll<T, U, E>(f: T -> Result<U, E>, xs: seq<T>): (r: Result<seq<U>, E>)
    ensures r.Success? ==> |r.value| == |xs|
    decreases |xs|
  {
    if |xs| == 0 then Success([])
    else
      var prev :- MapAll(f, xs[..|xs| - 1]);
      var last :- f(xs[|xs| - 1]);
      Success(prev + [last])
  }

  /** The concatenation of a sequence of sequences, in order. */
  function Flatten<T>(ss: seq<seq<T>>): seq<T>
    decreases |ss|
  {
    if |ss| == 0 then [] else Flatten(ss[..|ss| - 1]) + ss[|ss| - 1]
  }

  /** The sum of the lengths of a sequence of sequences. */
  function SumLengths<T>(ss: seq<seq<T>>): nat
    decreases |ss|
  {
    if |ss| == 0 then 0 else SumLengths(ss[..|ss| - 1]) + |ss[|ss| - 1]|
  }

  /** The sum of `f` over the elements. */
  function Sum<T>(f: T -> nat, xs: seq<T>): nat
    decreases |xs|
  {
    if |xs| == 0 then 0 else Sum(f, xs[..|xs| - 1]) + f(xs[|xs| - 1])
  }

  /** Applies a total function to every element. */
  function Map<T, U>(f: T -> U, xs: seq<T>): (r: seq<U>)
    ensures |r| == |xs|
    ensures forall i :: 0 <= i < |xs| ==> r[i] == f(xs[i])
  {
    seq(|xs|, i requires 0 <= i < |xs| => f(xs[i]))
  }

  predicate Distinct<T(==)>(xs: seq<T>) {
    forall i, j :: 0 <= i < j < |xs| ==> xs[i] != xs[j]
  }

  /** The position of the first occurrence of `x` in `xs`. */
  function FirstIndex<T(==)>(xs: seq<T>, x: T): (k: nat)
    requires x in xs
    ensures k < |xs| && xs[k] == x && x !in xs[..k]
    decreases |xs|
  {
    if xs[0] == x then 0 else 1 + FirstIndex(xs[1..], x)
  }

  /** The distinct elements of `xs`, each at the position of its first occurrence. */
  function Dedupe<T(==)>(xs: seq<T>): (r: seq<T>)
    ensures forall i :: 0 <= i < |xs| ==> xs[i] in r
    ensures forall i :: 0 <= i < |r| ==> r[i] in xs
    ensures Distinct(r)
    decreases |xs|
  {
    if |xs| == 0 then []
    else
      var prev := Dedupe(xs[..|xs| - 1]);
      if xs[|xs| - 1] in prev then prev else prev + [xs[|xs| - 1]]
  }

  // ---------------------------------------------------------------------------
  // MapAll

  /** MapAll succeeds exactly when every application succeeds, and then collects the values in order. */
  lemma {:induction false} MapAllSuccess<T, U, E>(f: T -> Result<U, E>, xs: seq<T>)
    ensures MapAll(f, xs).Success? <==> forall i :: 0 <= i < |xs| ==> f(xs[i]).Success?
    ensures MapAll(f, xs).Success? ==>
              forall i :: 0 <= i < |xs| ==> MapAll(f, xs).value[i] == f(xs[i]).value
    decreases |xs|
  {
    if |xs| > 0 {
      var init := xs[..|xs| - 1];
      MapAllSuccess(f, init);
      assert forall i :: 0 <= i < |init| ==> init[i] == xs[i];
    }
  }

  /** When every application succeeds with a known value, MapAll collects exactly those values. */
  lemma MapAllValues<T, U, E>(f: T -> Result<U, E>, xs: seq<T>, ys: seq<U>)
    requires |ys| == |xs|
    requires forall i :: 0 <= i < |xs| ==> f(xs[i]) == Success(ys[i])
    ensures MapAll(f, xs) == Success(ys)
  {
    MapAllSuccess(f, xs);
    assert MapAll(f, xs).value == ys;
  }

  /** A failing MapAll reports the error of the first element whose application fails. */
  lemma {:induction false} MapAllFailure<T, U, E>(f: T -> Result<U, E>, xs: seq<T>)
    requires MapAll(f, xs).Failure?
    ensures exists k :: 0 <= k < |xs| && f(xs[k]) == Failure(MapAll(f, xs).error) &&
                        forall i :: 0 <= i < k ==> f(xs[i]).Success?
    decreases |xs|
  {
    var init := xs[..|xs| - 1];
    assert forall i :: 0 <= i < |init| ==> init[i] == xs[i];
    if MapAll(f, init).Failure? {
      MapAllFailure(f, init);
    } else {
      MapAllSuccess(f, init);
      assert f(xs[|xs| - 1]) == Failure(MapAll(f, xs).error);
    }
  }

  /** The first failing application stops MapAll with its error, whatever follows it. */
  lemma MapAllStops<T, U, E>(f: T -> Result<U, E>, xs: seq<T>, i: nat)
    requires i < |xs|
    requires MapAll(f, xs[..i]).Success? && f(xs[i]).Failure?
    ensures MapAll(f, xs) == Failure(f(xs[i]).error)
  {
    MapAllStep(f, xs, i);
    MapAllPrefixFailure(f, xs, i + 1);
  }

  /** One more loop iteration: extending the processed prefix by one element. */
  lemma MapAllStep<T, U, E>(f: T -> Result<U, E>, xs: seq<T>, i: nat)
    requires i < |xs|
    ensures MapAll(f, xs[..i + 1]) ==
              (var prev :- MapAll(f, xs[..i]); var last :- f(xs[i]); Success(prev + [last]))
  {
    assert xs[..i + 1][..i] == xs[..i];
  }

  /** A successful iteration extends the collected values by the new one. */
  lemma MapAllExtend<T, U, E>(f: T -> Result<U, E>, xs: seq<T>, i: nat)
    requires i < |xs|
    requires MapAll(f, xs[..i]).Success? && f(xs[i]).Success?
    ensures MapAll(f, xs[..i + 1]) == Success(MapAll(f, xs[..i]).value + [f(xs[i]).value])
  {
    MapAllStep(f, xs, i);
  }

  /** Once a prefix fails, the whole sequence fails with the same error. */
  lemma {:induction false} MapAllPrefixFailure<T, U, E>(f: T -> Result<U, E>, xs: seq<T>, i: nat)
    requires i <= |xs|
    requires MapAll(f, xs[..i]).Failure?
    ensures MapAll(f, xs) == MapAll(f, xs[..i])
    decreases |xs| - i
  {
    if i == |xs| {
      assert xs[..i] == xs;
    } else {
      var init := xs[..|xs| - 1];
      assert init[..i] == xs[..i];
      MapAllPrefixFailure(f, init, i);
    }
  }

  /** Two functions that agree on every element give the same MapAll. */
  lemma {:induction false} MapAllCongruence<T, U, E>(f: T -> Result<U, E>, g: T -> Result<U, E>, xs: seq<T>)
    requires forall i :: 0 <= i < |xs| ==> f(xs[i]) == g(xs[i])
    ensures MapAll(f, xs) == MapAll(g, xs)
    decreases |xs|
  {
    if |xs| > 0 {
      var init := xs[..|xs| - 1];
      assert forall i :: 0 <= i < |init| ==> init[i] == xs[i];
      MapAllCongruence(f, g, init);
    }
  }

  // ---------------------------------------------------------------------------
  // Flatten

  lemma FlattenSnoc<T>(ss: seq<seq<T>>, s: seq<T>)
    ensures Flatten(ss + [s]) == Flatten(ss) + s
  {
    assert (ss + [s])[..|ss|] == ss;
  }

  /** Flattening distributes over concatenation. */
  lemma {:induction false} FlattenAppend<T>(a: seq<seq<T>>, b: seq<seq<T>>)
    ensures Flatten(a + b) == Flatten(a) + Flatten(b)
    decreases |b|
  {
    if |b| == 0 {
      assert a + b == a;
    } else {
      var init := b[..|b| - 1];
      assert a + b == (a + init) + [b[|b| - 1]];
      FlattenSnoc(a + init, b[|b| - 1]);
      FlattenAppend(a, init);
      FlattenSnoc(init, b[|b| - 1]);
      assert init + [b[|b| - 1]] == b;
    }
  }

  /** The flattened sequence is as long as all parts together. */
  lemma {:induction false} FlattenLength<T>(ss: seq<seq<T>>)
    ensures |Flatten(ss)| == SumLengths(ss)
    decreases |ss|
  {
    if |ss| > 0 {
      FlattenLength(ss[..|ss| - 1]);
    }
  }

  /**
   * Every part appears contiguously and unchanged in the flattened sequence,
   * after all parts before it and before all parts after it.
   */
  lemma FlattenSplit<T>(ss: seq<seq<T>>, p: nat)
    requires p < |ss|
    ensures Flatten(ss) == Flatten(ss[..p]) + ss[p] + Flatten(ss[p + 1..])
  {
    SplitAt(ss, p);
    FlattenAround(ss[..p], ss[p], ss[p + 1..]);
  }

  lemma SplitAt<T>(xs: seq<T>, p: nat)
    requires p < |xs|
    ensures xs == xs[..p] + [xs[p]] + xs[p + 1..]
  {
  }

  lemma FlattenAround<T>(before: seq<seq<T>>, s: seq<T>, after: seq<seq<T>>)
    ensures Flatten(before + [s] + after) == Flatten(before) + s + Flatten(after)
  {
    FlattenAppend(before + [s], after);
    FlattenSnoc(before, s);
  }

  /** An element of the flattened sequence belongs to one of the parts, and vice versa. */
  lemma {:induction false} FlattenMember<T>(ss: seq<seq<T>>, x: T)
    ensures x in Flatten(ss) <==> exists i :: 0 <= i < |ss| && x in ss[i]
    decreases |ss|
  {
    if |ss| > 0 {
      var init := ss[..|ss| - 1];
      FlattenMember(init, x);
      assert forall i :: 0 <= i < |init| ==> init[i] == ss[i];
    }
  }

  /** Parts whose lengths are given by `f` of the matching elements add up to the sum of `f`. */
  lemma {:induction false} SumLengthsOf<S, T>(ss: seq<seq<S>>, f: T -> nat, xs: seq<T>)
    requires |ss| == |xs|
    requires forall i :: 0 <= i < |xs| ==> |ss[i]| == f(xs[i])
    ensures SumLengths(ss) == Sum(f, xs)
    decreases |xs|
  {
    if |xs| > 0 {
      SumLengthsOf(ss[..|ss| - 1], f, xs[..|xs| - 1]);
    }
  }

  // ---------------------------------------------------------------------------
  // Map

  lemma AppendAssociative<T>(a: seq<T>, b: seq<T>, c: seq<T>)
    ensures (a + b) + c == a + (b + c)
  {
  }

  lemma AppendEmpty<T>(s: seq<T>)
    ensures [] + s == s
  {
  }

  lemma MapAppend<T, U>(f: T -> U, a: seq<T>, b: seq<T>)
    ensures Map(f, a + b) == Map(f, a) + Map(f, b)
  {
  }

  // ---------------------------------------------------------------------------
  // Dedupe

  lemma FirstIndexPrefix<T>(xs: seq<T>, n: nat, x: T)
    requires n <= |xs| && x in xs[..n]
    ensures x in xs && FirstIndex(xs, x) == FirstIndex(xs[..n], x)
  {
    var k := FirstIndex(xs[..n], x);
    assert xs[..n][..k] == xs[..k];
    FirstIndexUnique(xs, x, k);
  }

  lemma FirstIndexUnique<T>(xs: seq<T>, x: T, k: nat)
    requires k < |xs| && xs[k] == x && x !in xs[..k]
    ensures FirstIndex(xs, x) == k
  {
  }

  /** Dedupe keeps the first-occurrence order of the input. */
  lemma {:induction false} DedupeOrder<T>(xs: seq<T>)
    ensures forall i, j :: 0 <= i < j < |Dedupe(xs)| ==>
              FirstIndex(xs, Dedupe(xs)[i]) < FirstIndex(xs, Dedupe(xs)[j])
    decreases |xs|
  {
    if |xs| > 0 {
      var n := |xs| - 1;
      var init := xs[..n];
      var prev := Dedupe(init);
      DedupeOrder(init);
      forall x | x in prev
        ensures FirstIndex(xs, x) == FirstIndex(init, x) < n
      {
        FirstIndexPrefix(xs, n, x);
      }
      var d := Dedupe(xs);
      if xs[n] in prev {
        assert d == prev;
      } else {
        assert d == prev + [xs[n]];
        FirstIndexUnique(xs, xs[n], n);
        forall i, j | 0 <= i < j < |d|
          ensures FirstIndex(xs, d[i]) < FirstIndex(xs, d[j])
        {
          assert d[i] == prev[i];
          if j < |prev| {
            assert d[j] == prev[j];
          } else {
            assert d[j] == xs[n];
          }
        }
      }
    }
  }

  /** A sequence without repetitions is its own Dedupe. */
  lemma {:induction false} DedupeDistinct<T>(xs: seq<T>)
    requires Distinct(xs)
    ensures Dedupe(xs) == xs
    decreases |xs|
  {
    if |xs| > 0 {
      var init := xs[..|xs| - 1];
      assert Distinct(init);
      DedupeDistinct(init);
      assert xs[|xs| - 1] !in init;
      assert init + [xs[|xs| - 1]] == xs;
    }
  }
}
