/**
 * Random selection of Steam tags (src/tags.ts). `Math.random()` is not modelled as a
 * generator: each call's value is a parameter, a fraction `num / den` in `[0, 1)`.
 */
module Tags {

  datatype SteamTag = SteamTag(id: int, name: string)

  /** What `selectRandomTags` returns. */
  datatype TagSelection = TagSelection(count: int, tags: seq<SteamTag>, tagNames: seq<string>)

  /** One value of `Math.random()`: the fraction `num / den`. */
  datatype Draw = Draw(num: nat, den: nat)

  predicate ValidDraw(u: Draw) { u.num < u.den }

  predicate ValidDraws(draws: seq<Draw>) {
    forall j :: 0 <= j < |draws| ==> ValidDraw(draws[j])
  }

  // ---------------------------------------------------------------------------
  // randomInt
  // ---------------------------------------------------------------------------

  lemma MulLeft(a: int, b: int, c: int)
    requires a <= b
    ensures 0 <= c ==> a * c <= b * c
    ensures c <= 0 ==> b * c <= a * c
  {
  }

  /** `Math.floor(u * w)` stays in `[0, w)` for a positive width and in `[w, 0]` otherwise. */
  lemma ScaledFloor(num: nat, den: nat, w: int)
    requires num < den
    ensures 0 < w ==> 0 <= (num * w) / den < w
    ensures w <= 0 ==> w <= (num * w) / den <= 0
  {
    if 0 < w {
      ScaledFloorPositive(num, den, w);
    } else {
      ScaledFloorNonPositive(num, den, w);
    }
  }

  lemma ScaledFloorPositive(num: nat, den: nat, w: int)
    requires num < den && 0 < w
    ensures 0 <= (num * w) / den < w
  {
    var x := num * w;
    MulLeft(0, num, w);
    MulLeft(num, den - 1, w);
    assert (den - 1) * w == den * w - w;
    QuotientBelow(x, den, w, x / den, x % den);
  }

  /** A quotient of a value in `[0, den * w)` lies in `[0, w)`. */
  lemma QuotientBelow(x: int, den: int, w: int, q: int, r: int)
    requires 0 < den && 0 <= r < den && x == q * den + r
    requires 0 <= x < den * w
    ensures 0 <= q < w
  {
    if q < 0 {
      MulLeft(q, -1, den);
    }
    if q >= w {
      MulLeft(w, q, den);
    }
  }

  lemma ScaledFloorNonPositive(num: nat, den: nat, w: int)
    requires num < den && w <= 0
    ensures w <= (num * w) / den <= 0
  {
    var x := num * w;
    MulLeft(0, num, w);
    MulLeft(num, den, w);
    QuotientAbove(x, den, w, x / den, x % den);
  }

  /** A quotient of a value in `[den * w, 0]` lies in `[w, 0]`. */
  lemma QuotientAbove(x: int, den: int, w: int, q: int, r: int)
    requires 0 < den && 0 <= r < den && x == q * den + r
    requires den * w <= x <= 0
    ensures w <= q <= 0
  {
    assert (w - 1) * den == w * den - den;
    if q > 0 {
      MulLeft(1, q, den);
    }
    if q < w {
      MulLeft(q, w - 1, den);
    }
  }

  /**
   * `randomInt(min, max)`: `Math.floor(u * (max - min + 1)) + min`. Between the bounds,
   * both included, when `min <= max`; when the bounds are swapped the result lies in
   * `(max, min]`, which the source does not guard against.
   */
  function RandomInt(min: int, max: int, u: Draw): (r: int)
    requires ValidDraw(u)
    ensures min <= max ==> min <= r <= max
    ensures max < min ==> max < r <= min
  {
    ScaledFloor(u.num, u.den, max - min + 1);
    (u.num * (max - min + 1)) / u.den + min
  }

  /** Every value in the range is the result of some draw: the range is exactly `[min, max]`. */
  lemma RandomIntReaches(min: int, max: int, k: int)
    requires min <= k <= max
    ensures var u := Draw(k - min, max - min + 1); ValidDraw(u) && RandomInt(min, max, u) == k
  {
    MulDivCancel(k - min, max - min + 1);
  }

  lemma MulDivCancel(a: int, w: int)
    requires 0 < w
    ensures (a * w) / w == a
  {
    var q := (a * w) / w;
    var r := (a * w) % w;
    assert a * w == q * w + r && 0 <= r < w;
    assert (a - q) * w == r;
    if a - q >= 1 {
      MulLeft(1, a - q, w);
    }
    if a - q <= -1 {
      MulLeft(a - q, -1, w);
    }
  }

  // ---------------------------------------------------------------------------
  // sampleWithoutReplacement
  // ---------------------------------------------------------------------------

  /** The number of loop iterations: `i < n && copy.length > 0`. */
  function Steps(n: int, len: nat): (k: nat)
    ensures k <= len
    ensures 0 < n <= len ==> k == n
    ensures len < n ==> k == len
    ensures n <= 0 ==> k == 0
  {
    if n <= 0 then 0 else if n < len then n else len
  }

  /** The pool after picking index `idx`: the last element moved into the hole, then popped. */
  function SwapPop<T>(pool: seq<T>, idx: nat): (rest: seq<T>)
    requires idx < |pool|
    ensures |rest| == |pool| - 1
  {
    pool[idx := pool[|pool| - 1]][..|pool| - 1]
  }

  /** Swap-and-pop removes exactly the picked element. */
  lemma SwapPopMultiset<T>(pool: seq<T>, idx: nat)
    requires idx < |pool|
    ensures multiset(SwapPop(pool, idx)) + multiset{pool[idx]} == multiset(pool)
  {
    var last := |pool| - 1;
    if idx < last {
      var front, middle := pool[..idx], pool[idx + 1..last];
      assert pool == front + [pool[idx]] + middle + [pool[last]];
      assert SwapPop(pool, idx) == front + [pool[last]] + middle;
    } else {
      assert pool == SwapPop(pool, idx) + [pool[idx]];
    }
  }

  /** The loop's state: what has been picked (`result`) and what is left of `copy`. */
  datatype Picking<T> = Picking(picked: seq<T>, pool: seq<T>)

  /** One iteration: draw a position in the pool, move that element to the picks, swap-and-pop. */
  function Pick<T>(s: Picking<T>, u: Draw): (t: Picking<T>)
    requires ValidDraw(u) && |s.pool| > 0
    ensures |t.picked| == |s.picked| + 1 && |t.pool| == |s.pool| - 1
  {
    var idx := RandomInt(0, |s.pool| - 1, u);
    Picking(s.picked + [s.pool[idx]], SwapPop(s.pool, idx))
  }

  /** The state after the first `k` iterations on `pool`, the `j`-th using `draws[j]`. */
  function PicksN<T>(pool: seq<T>, draws: seq<Draw>, k: nat): (t: Picking<T>)
    requires ValidDraws(draws) && k <= |draws| && k <= |pool|
    ensures |t.picked| == k && |t.pool| == |pool| - k
  {
    if k == 0 then Picking([], pool) else Pick(PicksN(pool, draws, k - 1), draws[k - 1])
  }

  /** The specification of `sampleWithoutReplacement(pool, n)`: the picks once the loop stops. */
  function Sample<T>(pool: seq<T>, n: int, draws: seq<Draw>): (picked: seq<T>)
    requires ValidDraws(draws) && |draws| >= Steps(n, |pool|)
    ensures |picked| == Steps(n, |pool|)
  {
    PicksN(pool, draws, Steps(n, |pool|)).picked
  }

  /** The picks and the pool together: `result ++ copy` as a multiset. */
  ghost function Contents<T>(s: Picking<T>): multiset<T> {
    multiset(s.picked) + multiset(s.pool)
  }

  lemma PickPermutation<T>(s: Picking<T>, u: Draw)
    requires ValidDraw(u) && |s.pool| > 0
    ensures Contents(Pick(s, u)) == Contents(s)
  {
    SwapPopMultiset(s.pool, RandomInt(0, |s.pool| - 1, u));
  }

  /** `result ++ copy` is a permutation of the input at every iteration: no element is lost or copied. */
  lemma {:induction false} PicksPermutation<T>(pool: seq<T>, draws: seq<Draw>, k: nat)
    requires ValidDraws(draws) && k <= |draws| && k <= |pool|
    ensures Contents(PicksN(pool, draws, k)) == multiset(pool)
  {
    if k > 0 {
      PicksPermutation(pool, draws, k - 1);
      PickPermutation(PicksN(pool, draws, k - 1), draws[k - 1]);
    }
  }

  /** Earlier picks are never changed: each iteration only appends. */
  lemma {:induction false} PicksExtend<T>(pool: seq<T>, draws: seq<Draw>, j: nat, k: nat)
    requires ValidDraws(draws) && j <= k <= |draws| && k <= |pool|
    ensures PicksN(pool, draws, k).picked[..j] == PicksN(pool, draws, j).picked
  {
    if j < k {
      PicksExtend(pool, draws, j, k - 1);
      var before := PicksN(pool, draws, k - 1).picked;
      assert PicksN(pool, draws, k).picked[..k - 1] == before;
      assert before[..j] == PicksN(pool, draws, k).picked[..j];
    }
  }

  /** Asking for more tags with the same draws only adds tags at the end. */
  lemma SampleExtends<T>(pool: seq<T>, n: int, m: int, draws: seq<Draw>)
    requires n <= m && ValidDraws(draws) && |draws| >= Steps(m, |pool|)
    ensures Steps(n, |pool|) <= Steps(m, |pool|)
    ensures Sample(pool, m, draws)[..Steps(n, |pool|)] == Sample(pool, n, draws)
  {
    PicksExtend(pool, draws, Steps(n, |pool|), Steps(m, |pool|));
  }

  /** Every pick is taken out of the pool: the picks form a sub-multiset of it. */
  lemma SampleSubMultiset<T>(pool: seq<T>, n: int, draws: seq<Draw>)
    requires ValidDraws(draws) && |draws| >= Steps(n, |pool|)
    ensures multiset(Sample(pool, n, draws)) <= multiset(pool)
  {
    var t := PicksN(pool, draws, Steps(n, |pool|));
    PicksPermutation(pool, draws, Steps(n, |pool|));
    assert multiset(t.picked) + multiset(t.pool) == multiset(pool);
    assert multiset(t.picked) <= multiset(t.picked) + multiset(t.pool);
  }

  /** `array.map(f)` on a sequence. */
  function Map<T, U>(xs: seq<T>, f: T -> U): (ys: seq<U>)
    ensures |ys| == |xs| && forall i :: 0 <= i < |xs| ==> ys[i] == f(xs[i])
  {
    seq(|xs|, i requires 0 <= i < |xs| => f(xs[i]))
  }

  function MapPicking<T, U>(s: Picking<T>, f: T -> U): Picking<U> {
    Picking(Map(s.picked, f), Map(s.pool, f))
  }

  /**
   * The choice depends only on positions, never on the elements: running on the mapped
   * pool picks the mapped elements.
   */
  lemma {:induction false} PicksMap<T, U>(pool: seq<T>, f: T -> U, draws: seq<Draw>, k: nat)
    requires ValidDraws(draws) && k <= |draws| && k <= |pool|
    ensures PicksN(Map(pool, f), draws, k) == MapPicking(PicksN(pool, draws, k), f)
  {
    if k == 0 {
      assert Map([], f) == [];
    } else {
      PicksMap(pool, f, draws, k - 1);
      PickMap(PicksN(pool, draws, k - 1), f, draws[k - 1]);
    }
  }

  lemma PickMap<T, U>(s: Picking<T>, f: T -> U, u: Draw)
    requires ValidDraw(u) && |s.pool| > 0
    ensures Pick(MapPicking(s, f), u) == MapPicking(Pick(s, u), f)
  {
    var idx := RandomInt(0, |s.pool| - 1, u);
    assert SwapPop(Map(s.pool, f), idx) == Map(SwapPop(s.pool, idx), f);
    assert Map(s.picked, f) + [f(s.pool[idx])] == Map(s.picked + [s.pool[idx]], f);
  }

  /** Sampling the mapped pool picks the mapped elements. */
  lemma SampleMap<T, U>(pool: seq<T>, f: T -> U, n: int, draws: seq<Draw>)
    requires ValidDraws(draws) && |draws| >= Steps(n, |pool|)
    ensures Sample(Map(pool, f), n, draws) == Map(Sample(pool, n, draws), f)
  {
    PicksMap(pool, f, draws, Steps(n, |pool|));
  }

  /** The positions `0 .. len-1`. */
  function Positions(len: nat): (ps: seq<nat>)
    ensures |ps| == len && forall i :: 0 <= i < len ==> ps[i] == i
  {
    seq(len, i requires 0 <= i < len => i)
  }

  predicate NoDuplicates<T(==)>(xs: seq<T>) {
    forall i, j :: 0 <= i < j < |xs| ==> xs[i] != xs[j]
  }

  /** A sequence whose multiset lies under one without duplicates has none either. */
  lemma NoDuplicatesSubMultiset<T>(xs: seq<T>, ys: seq<T>)
    requires multiset(xs) <= multiset(ys) && NoDuplicates(ys)
    ensures NoDuplicates(xs)
  {
    forall x | x in multiset(ys) ensures multiset(ys)[x] == 1 {
      MultiplicityOne(ys, x);
    }
    forall i, j | 0 <= i < j < |xs| ensures xs[i] != xs[j] {
      if xs[i] == xs[j] {
        TwoOccurrences(xs, i, j);
      }
    }
  }

  lemma TwoOccurrences<T>(xs: seq<T>, i: nat, j: nat)
    requires i < j < |xs| && xs[i] == xs[j]
    ensures multiset(xs)[xs[i]] >= 2
  {
    assert xs == xs[..i] + [xs[i]] + xs[i + 1..j] + [xs[j]] + xs[j + 1..];
  }

  lemma {:induction false} MultiplicityOne<T>(ys: seq<T>, x: T)
    requires NoDuplicates(ys) && x in multiset(ys)
    ensures multiset(ys)[x] == 1
  {
    assert ys == [ys[0]] + ys[1..];
    assert NoDuplicates(ys[1..]);
    if ys[0] == x {
      assert x !in ys[1..];
    } else {
      MultiplicityOne(ys[1..], x);
    }
  }

  /**
   * Without replacement: the picks are the pool's elements at pairwise distinct
   * positions, even when the pool holds equal elements.
   */
  lemma DistinctPositions<T>(pool: seq<T>, n: int, draws: seq<Draw>) returns (ps: seq<nat>)
    requires ValidDraws(draws) && |draws| >= Steps(n, |pool|)
    ensures NoDuplicates(ps) && forall k :: 0 <= k < |ps| ==> ps[k] < |pool|
    ensures |ps| == |Sample(pool, n, draws)|
    ensures forall k :: 0 <= k < |ps| ==> Sample(pool, n, draws)[k] == pool[ps[k]]
  {
    var all := Positions(|pool|);
    ps := Sample(all, n, draws);
    SampleSubMultiset(all, n, draws);
    NoDuplicatesSubMultiset(ps, all);
    forall k | 0 <= k < |ps| ensures ps[k] < |pool| {
      assert ps[k] in multiset(all);
    }
    if |pool| > 0 {
      var at := (i: nat) => if i < |pool| then pool[i] else pool[0];
      assert Map(all, at) == pool;
      SampleMap(all, at, n, draws);
    }
  }

  /**
   * `sampleWithoutReplacement(array, n)`: the input is only read, so it is a sequence here;
   * the copy `[...array]` is an array the loop updates in place.
   */
  method SampleWithoutReplacement<T>(items: seq<T>, n: int, draws: seq<Draw>) returns (result: seq<T>)
    requires ValidDraws(draws) && |draws| >= Steps(n, |items|)
    ensures result == Sample(items, n, draws)
    ensures |result| == Steps(n, |items|)
    ensures multiset(result) <= multiset(items)
  {
    var copy := new T[|items|](j requires 0 <= j < |items| => items[j]);
    assert copy[..] == items;
    var len := copy.Length;
    result := [];
    var i := 0;
    while i < n && len > 0
      invariant 0 <= i <= Steps(n, |items|) && len == |items| - i
      invariant Picking(result, copy[..len]) == PicksN(items, draws, i)
      decreases len
    {
      var idx := RandomInt(0, len - 1, draws[i]);
      result := result + [copy[idx]];
      SwapPopAt(copy, len, idx);
      len := len - 1;
      i := i + 1;
    }
    SampleSubMultiset(items, n, draws);
  }

  /** `copy[idx] = copy[copy.length - 1]; copy.pop()`, on the first `len` cells of an array. */
  method SwapPopAt<T>(copy: array<T>, len: nat, idx: nat)
    requires idx < len <= copy.Length
    modifies copy
    ensures copy[..len - 1] == SwapPop(old(copy[..len]), idx)
  {
    ghost var whole := copy[..];
    copy[idx] := copy[len - 1];
    assert copy[..] == whole[idx := whole[len - 1]];
    assert copy[..len - 1] == whole[idx := whole[len - 1]][..len - 1];
  }

  // ---------------------------------------------------------------------------
  // selectRandomTags
  // ---------------------------------------------------------------------------

  /**
   * `selectRandomTags(minCount, maxCount)`: `catalog` is the tag list `loadTags` parses
   * from the data file; `countDraw` is the draw for the count, `draws` those of the sampling.
   */
  method SelectRandomTags(catalog: seq<SteamTag>, minCount: int, maxCount: int, countDraw: Draw, draws: seq<Draw>)
    returns (selection: TagSelection)
    requires ValidDraw(countDraw) && ValidDraws(draws) && |draws| >= |catalog|
    ensures selection.count == RandomInt(minCount, maxCount, countDraw)
    ensures minCount <= maxCount ==> minCount <= selection.count <= maxCount
    ensures selection.tags == Sample(catalog, selection.count, draws)
    ensures |selection.tags| == Steps(selection.count, |catalog|)
    ensures multiset(selection.tags) <= multiset(catalog)
    ensures |selection.tagNames| == |selection.tags|
    ensures forall i :: 0 <= i < |selection.tags| ==> selection.tagNames[i] == selection.tags[i].name
  {
    var count := RandomInt(minCount, maxCount, countDraw);
    var selected := SampleWithoutReplacement(catalog, count, draws);
    selection := TagSelection(count, selected, Map(selected, (t: SteamTag) => t.name));
  }

  /** With a catalog of unique tags, the selection repeats no tag. */
  lemma SelectionHasNoRepeats(catalog: seq<SteamTag>, count: int, draws: seq<Draw>)
    requires ValidDraws(draws) && |draws| >= Steps(count, |catalog|)
    requires NoDuplicates(catalog)
    ensures NoDuplicates(Sample(catalog, count, draws))
  {
    SampleSubMultiset(catalog, count, draws);
    NoDuplicatesSubMultiset(Sample(catalog, count, draws), catalog);
  }

  /**
   * A non-negative `count` agrees with the number of tags exactly when the catalog is
   * large enough; a negative one selects nothing.
   */
  lemma SelectionCount(catalog: seq<SteamTag>, count: int, draws: seq<Draw>)
    requires ValidDraws(draws) && |draws| >= Steps(count, |catalog|)
    ensures count >= 0 ==> (|Sample(catalog, count, draws)| == count <==> count <= |catalog|)
    ensures count < 0 ==> Sample(catalog, count, draws) == []
  {
  }
}
