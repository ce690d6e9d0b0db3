/** Sweep expansion: the cartesian product of the ranges of a sweep map, as the sweep and the execute stage
  enumerate it, and the counts the scheduler takes from the same map. */
module Sweep {

  /** A value in a template context: a rendered range entry, or a counter. */
  datatype Val = Text(s: string) | Num(n: int)

  type Context = map<string, Val>

  /** A sweep map in the order its keys are listed; the entries of a range are already rendered with `str`. */
  type RangeMap = seq<(string, seq<string>)>

  ghost predicate DistinctKeys(m: RangeMap) {
    forall i, j :: 0 <= i < j < |m| ==> m[i].0 != m[j].0
  }

  ghost predicate DistinctEntries(r: seq<string>) {
    forall i, j :: 0 <= i < j < |r| ==> r[i] != r[j]
  }

  function Ranges(m: RangeMap): (r: seq<seq<string>>)
    ensures |r| == |m|
    ensures forall i :: 0 <= i < |m| ==> r[i] == m[i].1
  {
    seq(|m|, i requires 0 <= i < |m| => m[i].1)
  }

  /** `[x] + z` for every tuple `z`. */
  function Prefixed(x: string, zs: seq<seq<string>>): (r: seq<seq<string>>)
    ensures |r| == |zs|
    ensures forall i :: 0 <= i < |zs| ==> r[i] == [x] + zs[i]
  {
    seq(|zs|, i requires 0 <= i < |zs| => [x] + zs[i])
  }

  /** `itertools.product(*ranges)`: the last range varies fastest. */
  function Product(ranges: seq<seq<string>>): seq<seq<string>>
    decreases |ranges|, 0
  {
    if ranges == [] then [[]] else ProductFrom(ranges[0], Product(ranges[1..]))
  }

  function ProductFrom(range: seq<string>, rest: seq<seq<string>>): seq<seq<string>>
  {
    if range == [] then [] else Prefixed(range[0], rest) + ProductFrom(range[1..], rest)
  }

  /** The number of combinations: the product of the range lengths. */
  function Size(ranges: seq<seq<string>>): nat
  {
    if ranges == [] then 1 else |ranges[0]| * Size(ranges[1..])
  }

  /** The mixed-radix digits of `n`, most significant first. */
  function Digits(ranges: seq<seq<string>>, n: nat): (d: seq<nat>)
    requires n < Size(ranges)
    ensures |d| == |ranges|
    decreases |ranges|
  {
    if ranges == [] then []
    else
      var s := Size(ranges[1..]);
      DivModBelow(n, |ranges[0]|, s);
      [n / s] + Digits(ranges[1..], n % s)
  }

  ghost predicate InRange(ranges: seq<seq<string>>, d: seq<nat>) {
    |d| == |ranges| && forall k :: 0 <= k < |d| ==> d[k] < |ranges[k]|
  }

  /** The number whose mixed-radix digits are `d`. */
  function Undigits(ranges: seq<seq<string>>, d: seq<nat>): nat
    requires |d| == |ranges|
  {
    if ranges == [] then 0 else d[0] * Size(ranges[1..]) + Undigits(ranges[1..], d[1..])
  }

  lemma DivModBelow(n: nat, a: nat, s: nat)
    requires n < a * s
    ensures s > 0 && n / s < a && n % s < s && n == (n / s) * s + n % s
  {
    assert s > 0;
  }

  lemma MulMono(a: nat, b: nat, s: nat)
    requires a <= b
    ensures a * s <= b * s
  {
  }

  lemma DivModUnique(q: nat, s: nat, r: nat)
    requires r < s
    ensures (q * s + r) / s == q && (q * s + r) % s == r
  {
    var n := q * s + r;
    SplitUnique(q, r, n / s, n % s, s);
  }

  lemma SplitUnique(q: nat, r: nat, k: nat, t: nat, s: nat)
    requires q * s + r == k * s + t && r < s && t < s
    ensures q == k && r == t
  {
    SplitGrows(q, r, k, t, s);
    SplitGrows(k, t, q, r, s);
  }

  lemma SplitGrows(q: nat, r: nat, k: nat, t: nat, s: nat)
    requires r < s
    ensures q < k ==> q * s + r < k * s + t
  {
    if q < k {
      MulMono(q + 1, k, s);
      assert (q + 1) * s == q * s + s;
    }
  }

  lemma {:induction false} ProductFromAt(range: seq<string>, rest: seq<seq<string>>, i: nat, j: nat)
    requires i < |range| && j < |rest|
    ensures |ProductFrom(range, rest)| == |range| * |rest|
    ensures 0 <= i * |rest| + j < |range| * |rest|
    ensures ProductFrom(range, rest)[i * |rest| + j] == [range[i]] + rest[j]
  {
    ProductFromSize(range, rest);
    MulMono(i + 1, |range|, |rest|);
    if i > 0 {
      ProductFromAt(range[1..], rest, i - 1, j);
      assert i * |rest| + j == |rest| + ((i - 1) * |rest| + j);
    }
  }

  lemma {:induction false} ProductFromSize(range: seq<string>, rest: seq<seq<string>>)
    ensures |ProductFrom(range, rest)| == |range| * |rest|
  {
    if range != [] {
      ProductFromSize(range[1..], rest);
      assert |range| * |rest| == |rest| + (|range| - 1) * |rest|;
    }
  }

  /** Multiplying the range lengths counts the tuples the enumeration yields. */
  lemma {:induction false} ProductSize(ranges: seq<seq<string>>)
    ensures |Product(ranges)| == Size(ranges)
  {
    if ranges != [] {
      ProductSize(ranges[1..]);
      ProductFromSize(ranges[0], Product(ranges[1..]));
    }
  }

  lemma DigitsHead(ranges: seq<seq<string>>, q: nat, r: nat)
    requires ranges != [] && q < |ranges[0]| && r < Size(ranges[1..])
    ensures q * Size(ranges[1..]) + r < Size(ranges)
    ensures Digits(ranges, q * Size(ranges[1..]) + r) == [q] + Digits(ranges[1..], r)
  {
    MulMono(q + 1, |ranges[0]|, Size(ranges[1..]));
    DivModUnique(q, Size(ranges[1..]), r);
  }

  /** Number `q * s + r` picks entry `q` of the first range and, in the later ranges, what `r` picks. */
  lemma ProductHead(ranges: seq<seq<string>>, q: nat, r: nat)
    requires ranges != [] && q < |ranges[0]| && r < Size(ranges[1..])
    ensures var rest := ranges[1..]; var n := q * Size(rest) + r;
            && |Product(ranges)| == Size(ranges) && |Product(rest)| == Size(rest) && n < Size(ranges)
            && Product(ranges)[n] == [ranges[0][q]] + Product(rest)[r]
            && Digits(ranges, n) == [q] + Digits(rest, r)
  {
    var rest := Product(ranges[1..]);
    assert Product(ranges) == ProductFrom(ranges[0], rest);
    ProductSize(ranges);
    ProductSize(ranges[1..]);
    DigitsHead(ranges, q, r);
    hide Product, ProductFrom, Size, Digits;
    ProductFromAt(ranges[0], rest, q, r);
  }

  /** Every number below `Size` is one of those. */
  lemma SplitNumber(ranges: seq<seq<string>>, n: nat) returns (q: nat, r: nat)
    requires ranges != [] && n < Size(ranges)
    ensures q < |ranges[0]| && r < Size(ranges[1..]) && n == q * Size(ranges[1..]) + r
  {
    var s := Size(ranges[1..]);
    DivModBelow(n, |ranges[0]|, s);
    q, r := n / s, n % s;
  }

  ghost predicate PicksDigits(ranges: seq<seq<string>>, t: seq<string>, d: seq<nat>) {
    InRange(ranges, d) && |t| == |ranges| && forall k :: 0 <= k < |ranges| ==> t[k] == ranges[k][d[k]]
  }

  lemma PicksFirst(ranges: seq<seq<string>>, q: nat, t: seq<string>, d: seq<nat>)
    requires ranges != [] && q < |ranges[0]| && PicksDigits(ranges[1..], t, d)
    ensures PicksDigits(ranges, [ranges[0][q]] + t, [q] + d)
  {
  }

  /** Tuple `n` of the enumeration picks, in each range, the entry at the matching mixed-radix digit of `n`. */
  lemma {:induction false} ProductAt(ranges: seq<seq<string>>, n: nat)
    requires n < Size(ranges)
    ensures |Product(ranges)| == Size(ranges)
    ensures PicksDigits(ranges, Product(ranges)[n], Digits(ranges, n))
    decreases |ranges|
  {
    if ranges == [] {
    } else {
      var q, r := SplitNumber(ranges, n);
      hide Product, Digits, Size, PicksDigits;
      ProductHead(ranges, q, r);
      ProductAt(ranges[1..], r);
      PicksFirst(ranges, q, Product(ranges[1..])[r], Digits(ranges[1..], r));
    }
  }

  /** The digits in closed form: digit `k` is `n` divided by the number of combinations of the later ranges,
    modulo the length of range `k`. */
  lemma {:induction false} DigitClosedForm(ranges: seq<seq<string>>, n: nat, k: nat)
    requires n < Size(ranges) && k < |ranges|
    ensures Size(ranges[k + 1..]) > 0 && |ranges[k]| > 0
    ensures Digits(ranges, n)[k] == (n / Size(ranges[k + 1..])) % |ranges[k]|
  {
    var s := Size(ranges[1..]);
    DivModBelow(n, |ranges[0]|, s);
    if k > 0 {
      assert ranges[1..][k..] == ranges[k + 1..];
      DigitClosedForm(ranges[1..], n % s, k - 1);
      var m := SizeFactor(ranges[1..], k - 1);
      DigitShift(n, s, m, |ranges[k]|, Size(ranges[k + 1..]));
    } else {
      DivModUnique(0, |ranges[0]|, n / s);
    }
  }

  /** The combinations of all ranges are those before position `k` times those of range `k` and later. */
  lemma {:induction false} SizeFactor(ranges: seq<seq<string>>, k: nat) returns (m: nat)
    requires k < |ranges|
    ensures Size(ranges) == m * (|ranges[k]| * Size(ranges[k + 1..]))
  {
    if k == 0 {
      m := 1;
    } else {
      assert ranges[1..][k..] == ranges[k + 1..];
      var m' := SizeFactor(ranges[1..], k - 1);
      m := |ranges[0]| * m';
      var rest := |ranges[k]| * Size(ranges[k + 1..]);
      assert |ranges[0]| * (m' * rest) == (|ranges[0]| * m') * rest;
    }
  }

  lemma DivShift(a: nat, s: nat, r: nat)
    requires s > 0
    ensures (a * s + r) / s == a + r / s && (a * s + r) % s == r % s
  {
    assert r == (r / s) * s + r % s;
    assert a * s + r == (a + r / s) * s + r % s;
    DivModUnique(a + r / s, s, r % s);
  }

  lemma MulAssoc(a: nat, b: nat, c: nat)
    ensures a * (b * c) == (a * b) * c
  {
  }

  /** Dropping a multiple of `len * low` leaves the digit above `low` alone. */
  lemma DigitShift(n: nat, s: nat, m: nat, len: nat, low: nat)
    requires low > 0 && len > 0 && s > 0 && s == m * (len * low)
    ensures (n / low) % len == ((n % s) / low) % len
  {
    var q, r := n / s, n % s;
    assert n == q * s + r;
    MulAssoc(m, len, low);
    MulAssoc(q, m * len, low);
    MulAssoc(q, m, len);
    DivShift((q * m) * len, low, r);
    DivShift(q * m, len, r / low);
  }

  /** Counting through the digits is one-to-one: every digit tuple belongs to exactly one number below `Size`. */
  lemma {:induction false} UndigitsDigits(ranges: seq<seq<string>>, n: nat)
    requires n < Size(ranges)
    ensures Undigits(ranges, Digits(ranges, n)) == n
  {
    if ranges != [] {
      var s := Size(ranges[1..]);
      DivModBelow(n, |ranges[0]|, s);
      UndigitsDigits(ranges[1..], n % s);
    }
  }

  /** A number written as a digit and a rest has that digit first, then the digits of the rest. */
  lemma DigitsPush(ranges: seq<seq<string>>, q: nat, u: nat)
    requires ranges != [] && q < |ranges[0]| && u < Size(ranges[1..])
    ensures q * Size(ranges[1..]) + u < Size(ranges)
    ensures Digits(ranges, q * Size(ranges[1..]) + u) == [q] + Digits(ranges[1..], u)
  {
    hide *;
    var s := Size(ranges[1..]);
    SizeUnfolds(ranges);
    DigitBelow(q, |ranges[0]|, s, u);
    DivModUnique(q, s, u);
    DigitsUnfolds(ranges, q * s + u, q, u);
  }

  lemma SizeUnfolds(ranges: seq<seq<string>>)
    requires ranges != []
    ensures Size(ranges) == |ranges[0]| * Size(ranges[1..])
  {
  }

  lemma DigitsUnfolds(ranges: seq<seq<string>>, n: nat, q: nat, u: nat)
    requires ranges != [] && n < Size(ranges) && u < Size(ranges[1..])
    requires n / Size(ranges[1..]) == q && n % Size(ranges[1..]) == u
    ensures Digits(ranges, n) == [q] + Digits(ranges[1..], u)
  {
    hide Size;
  }

  lemma DigitBelow(q: nat, a: nat, s: nat, u: nat)
    requires q < a && u < s
    ensures q * s + u < a * s
  {
    MulMono(q + 1, a, s);
    assert (q + 1) * s == q * s + s;
  }

  lemma {:induction false} DigitsUndigits(ranges: seq<seq<string>>, d: seq<nat>)
    requires InRange(ranges, d)
    ensures Undigits(ranges, d) < Size(ranges)
    ensures Digits(ranges, Undigits(ranges, d)) == d
  {
    if ranges != [] {
      DigitsUndigits(ranges[1..], d[1..]);
      DigitsPush(ranges, d[0], Undigits(ranges[1..], d[1..]));
      assert d == [d[0]] + d[1..];
      hide Size, Digits;
    }
  }

  // ---------------------------------------------------------------------------------------------------------
  // Contexts

  const RUN_COUNTER := "run_counter"
  const GENERATOR_COUNTER := "generator_counter"

  /** The template values overlaid with the first `i` keys of the sweep map, bound to the tuple `z`. */
  function Bound(values: Context, m: RangeMap, z: seq<string>, i: nat): Context
    requires i <= |m| && i <= |z|
  {
    if i == 0 then values else Bound(values, m, z, i - 1)[m[i - 1].0 := Text(z[i - 1])]
  }

  lemma {:induction false} BoundAt(values: Context, m: RangeMap, z: seq<string>, i: nat, k: nat)
    requires DistinctKeys(m) && k < i <= |m| && i <= |z|
    ensures m[k].0 in Bound(values, m, z, i) && Bound(values, m, z, i)[m[k].0] == Text(z[k])
  {
    if k < i - 1 {
      BoundAt(values, m, z, i - 1, k);
    }
  }

  lemma {:induction false} BoundElsewhere(values: Context, m: RangeMap, z: seq<string>, i: nat, key: string)
    requires i <= |m| && i <= |z|
    requires forall k :: 0 <= k < |m| ==> m[k].0 != key
    ensures key in Bound(values, m, z, i) <==> key in values
    ensures key in values ==> Bound(values, m, z, i)[key] == values[key]
  {
    if i > 0 {
      BoundElsewhere(values, m, z, i - 1, key);
    }
  }

  /** What an enumeration over one map promises: context `n` carries counter `first + n`, every sweep key bound
    to the entry at its mixed-radix digit, and the template's own values everywhere else. */
  ghost predicate Enumerates(res: seq<Context>, m: RangeMap, values: Context, first: int)
  {
    |res| == Size(Ranges(m)) && StartsEnumeration(res, m, values, first)
  }

  ghost predicate StartsEnumeration(res: seq<Context>, m: RangeMap, values: Context, first: int)
  {
    && |res| <= Size(Ranges(m))
    && forall n :: 0 <= n < |res| ==> ContextAt(res[n], m, values, first, n)
  }

  ghost predicate ContextAt(c: Context, m: RangeMap, values: Context, first: int, n: nat)
    requires n < Size(Ranges(m))
  {
    && RUN_COUNTER in c && c[RUN_COUNTER] == Num(first + n)
    && (forall k :: 0 <= k < |m| && m[k].0 != RUN_COUNTER && m[k].0 != GENERATOR_COUNTER ==>
          m[k].0 in c && InRange(Ranges(m), Digits(Ranges(m), n))
          && c[m[k].0] == Text(m[k].1[Digits(Ranges(m), n)[k]]))
    && (forall key :: key != RUN_COUNTER && key != GENERATOR_COUNTER && (forall k :: 0 <= k < |m| ==> m[k].0 != key) ==>
          (key in c <==> key in values) && (key in values ==> c[key] == values[key]))
  }

  /** The template overlaid with the whole tuple: sweep keys are bound, all other keys are as in the template. */
  ghost predicate Overlaid(b: Context, m: RangeMap, values: Context, z: seq<string>)
    requires |z| == |m|
  {
    && (forall k :: 0 <= k < |m| ==> m[k].0 in b && b[m[k].0] == Text(z[k]))
    && (forall key :: (forall k :: 0 <= k < |m| ==> m[k].0 != key) ==>
          (key in b <==> key in values) && (key in values ==> b[key] == values[key]))
  }

  lemma BoundOverlays(values: Context, m: RangeMap, z: seq<string>)
    requires DistinctKeys(m) && |z| == |m|
    ensures Overlaid(Bound(values, m, z, |m|), m, values, z)
  {
    hide Bound;
    forall k | 0 <= k < |m|
      ensures m[k].0 in Bound(values, m, z, |m|) && Bound(values, m, z, |m|)[m[k].0] == Text(z[k])
    {
      BoundAt(values, m, z, |m|, k);
    }
    forall key | forall k :: 0 <= k < |m| ==> m[k].0 != key
      ensures key in Bound(values, m, z, |m|) <==> key in values
      ensures key in values ==> Bound(values, m, z, |m|)[key] == values[key]
    {
      BoundElsewhere(values, m, z, |m|, key);
    }
  }

  lemma MakesContext(c: Context, m: RangeMap, values: Context, first: int, n: nat, g: Val)
    requires DistinctKeys(m) && n < Size(Ranges(m)) && |Product(Ranges(m))| == Size(Ranges(m))
    requires var z := Product(Ranges(m))[n];
             |z| == |m| && (c == Bound(values, m, z, |m|)[RUN_COUNTER := Num(first + n)]
                            || c == Bound(values, m, z, |m|)[RUN_COUNTER := Num(first + n)][GENERATOR_COUNTER := g])
    ensures ContextAt(c, m, values, first, n)
  {
    hide Product, Size, Bound, Digits;
    var z := Product(Ranges(m))[n];
    ProductAt(Ranges(m), n);
    BoundOverlays(values, m, z);
    OverlaidContext(Bound(values, m, z, |m|), c, m, values, z, first, n, g);
  }

  lemma OverlaidContext(b: Context, c: Context, m: RangeMap, values: Context, z: seq<string>, first: int, n: nat,
                        g: Val)
    requires n < Size(Ranges(m)) && |z| == |m| && Overlaid(b, m, values, z)
    requires PicksDigits(Ranges(m), z, Digits(Ranges(m), n))
    requires c == b[RUN_COUNTER := Num(first + n)] || c == b[RUN_COUNTER := Num(first + n)][GENERATOR_COUNTER := g]
    ensures ContextAt(c, m, values, first, n)
  {
    hide Size, Digits;
    assert RUN_COUNTER != GENERATOR_COUNTER;
    hide RUN_COUNTER, GENERATOR_COUNTER;
  }

  lemma TupleLength(ranges: seq<seq<string>>, n: nat)
    requires n < |Product(ranges)|
    ensures |Product(ranges)[n]| == |ranges|
  {
    ProductSize(ranges);
    ProductAt(ranges, n);
  }

  /** One more context in the block that starts after `before`. */
  lemma ExtendsBlock(before: seq<Context>, res: seq<Context>, c: Context, m: RangeMap, values: Context, first: int,
                     g: Val)
    requires DistinctKeys(m) && before <= res && |res| - |before| < |Product(Ranges(m))|
    requires StartsEnumeration(res[|before|..], m, values, first)
    requires var n := |res| - |before|; var z := Product(Ranges(m))[n];
             |z| == |m| && (c == Bound(values, m, z, |m|)[RUN_COUNTER := Num(first + n)]
                            || c == Bound(values, m, z, |m|)[RUN_COUNTER := Num(first + n)][GENERATOR_COUNTER := g])
    ensures StartsEnumeration((res + [c])[|before|..], m, values, first)
  {
    hide ContextAt, Bound, Digits;
    ProductSize(Ranges(m));
    MakesContext(c, m, values, first, |res| - |before|, g);
    assert (res + [c])[|before|..] == res[|before|..] + [c];
  }

  /** Inner loop shared by the two enumerations: bind every key of the map to its entry of `z`. */
  method BindKeys(values: Context, m: RangeMap, z: seq<string>) returns (context: Context)
    requires |z| == |m|
    ensures context == Bound(values, m, z, |m|)
  {
    context := values;
    for i := 0 to |m|
      invariant context == Bound(values, m, z, i)
    {
      context := context[m[i].0 := Text(z[i])];
    }
  }

  /** Where the contexts of map `i` start when several maps are expanded one after the other. */
  function Offset(maps: seq<RangeMap>, i: nat): nat
    requires i <= |maps|
  {
    if i == 0 then 0 else Offset(maps, i - 1) + Size(Ranges(maps[i - 1]))
  }

  /** The contexts of every map, one block a map, counted on from `first` without a gap. */
  ghost predicate EnumeratesAll(res: seq<Context>, maps: seq<RangeMap>, values: Context, first: int)
  {
    && |res| == Offset(maps, |maps|)
    && Blocks(res, maps, values, first, |maps|)
  }

  ghost predicate Blocks(res: seq<Context>, maps: seq<RangeMap>, values: Context, first: int, iter: nat)
    requires iter <= |maps|
  {
    forall i :: 0 <= i < iter ==> Block(res, maps, values, first, i)
  }

  ghost predicate Block(res: seq<Context>, maps: seq<RangeMap>, values: Context, first: int, i: nat)
    requires i < |maps|
  {
    && Offset(maps, i + 1) <= |res|
    && Enumerates(res[Offset(maps, i)..Offset(maps, i + 1)], maps[i], values, first + Offset(maps, i))
  }

  /** The sweep's expansion: counters from 0 over all the maps. */
  method ExpandVariations(maps: seq<RangeMap>, values: Context) returns (res: seq<Context>)
    requires forall i :: 0 <= i < |maps| ==> DistinctKeys(maps[i])
    ensures EnumeratesAll(res, maps, values, 0)
  {
    hide ContextAt, Bound, Digits, Block, Product;
    res := [];
    var numbfile := 0;
    for iter := 0 to |maps|
      invariant numbfile == |res| == Offset(maps, iter)
      invariant Blocks(res, maps, values, 0, iter)
    {
      var m := maps[iter];
      var ranges := Ranges(m);
      var tuples := Product(ranges);
      ghost var before := res;
      ProductSize(ranges);
      for n := 0 to |tuples|
        invariant numbfile == |res| == |before| + n && before <= res
        invariant StartsEnumeration(res[|before|..], m, values, |before|)
      {
        TupleLength(ranges, n);
        var context := BindKeys(values, m, tuples[n]);
        context := context[RUN_COUNTER := Num(numbfile)];
        ExtendsBlock(before, res, context, m, values, |before|, Num(0));
        numbfile := numbfile + 1;
        res := res + [context];
      }
      ClosesBlock(before, res, maps, values, 0, iter);
    }
  }

  lemma ClosesBlock(before: seq<Context>, res: seq<Context>, maps: seq<RangeMap>, values: Context, first: int,
                    iter: nat)
    requires iter < |maps| && before <= res
    requires |before| == Offset(maps, iter) && Blocks(before, maps, values, first, iter)
    requires Enumerates(res[|before|..], maps[iter], values, first + |before|)
    ensures |res| == Offset(maps, iter + 1) && Blocks(res, maps, values, first, iter + 1)
  {
    forall i | 0 <= i < iter ensures Block(res, maps, values, first, i) {
      assert Block(before, maps, values, first, i);
      assert res[Offset(maps, i)..Offset(maps, i + 1)] == before[Offset(maps, i)..Offset(maps, i + 1)];
    }
    assert res[Offset(maps, iter)..Offset(maps, iter + 1)] == res[|before|..];
    assert Block(res, maps, values, first, iter);
  }

  ghost predicate HaveGenerator(contexts: seq<Context>, g: Val) {
    forall n :: 0 <= n < |contexts| ==> "generator_counter" in contexts[n] && contexts[n]["generator_counter"] == g
  }

  lemma AppendsGenerator(contexts: seq<Context>, c: Context, g: Val)
    requires HaveGenerator(contexts, g) && GENERATOR_COUNTER in c && c[GENERATOR_COUNTER] == g
    ensures HaveGenerator(contexts + [c], g)
  {
  }

  /** Execute's expansion of the same maps: counters run on from `initial_numbfile`, and the generator counter
    is the template's run counter, or 0 when it has none. */
  method GetVariationContexts(runMaps: seq<RangeMap>, values: Context, initialNumbfile: int)
      returns (contexts: seq<Context>)
    requires forall i :: 0 <= i < |runMaps| ==> DistinctKeys(runMaps[i])
    ensures EnumeratesAll(contexts, runMaps, values, initialNumbfile)
    ensures HaveGenerator(contexts, if RUN_COUNTER in values then values[RUN_COUNTER] else Num(0))
  {
    hide ContextAt, Bound, Digits, Block, Product;
    contexts := [];
    var generatorCounter := Num(0);
    var numFile := initialNumbfile;
    if RUN_COUNTER in values {
      generatorCounter := values[RUN_COUNTER];
    }
    for iter := 0 to |runMaps|
      invariant numFile == initialNumbfile + |contexts| && |contexts| == Offset(runMaps, iter)
      invariant Blocks(contexts, runMaps, values, initialNumbfile, iter)
      invariant HaveGenerator(contexts, generatorCounter)
    {
      var m := runMaps[iter];
      var ranges := Ranges(m);
      var tuples := Product(ranges);
      ghost var before := contexts;
      ghost var first := initialNumbfile + |before|;
      ProductSize(ranges);
      for n := 0 to |tuples|
        invariant numFile == initialNumbfile + |contexts| && |contexts| == |before| + n && before <= contexts
        invariant StartsEnumeration(contexts[|before|..], m, values, first)
        invariant HaveGenerator(contexts, generatorCounter)
      {
        TupleLength(ranges, n);
        var context := BindKeys(values, m, tuples[n]);
        context := context[RUN_COUNTER := Num(numFile)];
        context := context[GENERATOR_COUNTER := generatorCounter];
        ExtendsBlock(before, contexts, context, m, values, first, generatorCounter);
        AppendsGenerator(contexts, context, generatorCounter);
        contexts := contexts + [context];
        numFile := numFile + 1;
      }
      ClosesBlock(before, contexts, runMaps, values, initialNumbfile, iter);
    }
  }

  // ---------------------------------------------------------------------------------------------------------
  // One map: the enumeration is a bijection

  /** Two different counters never stand for the same choice of entries. */
  lemma EnumerationInjective(res: seq<Context>, m: RangeMap, values: Context, first: int, n: nat, n': nat)
    requires Enumerates(res, m, values, first) && n < |res| && n' < |res| && n != n'
    requires forall k :: 0 <= k < |m| ==> DistinctEntries(m[k].1)
    requires forall k :: 0 <= k < |m| ==> m[k].0 != RUN_COUNTER && m[k].0 != GENERATOR_COUNTER
    ensures exists k :: 0 <= k < |m| && m[k].0 in res[n] && m[k].0 in res[n'] && res[n][m[k].0] != res[n'][m[k].0]
  {
    var ranges := Ranges(m);
    UndigitsDigits(ranges, n);
    UndigitsDigits(ranges, n');
    var d, d' := Digits(ranges, n), Digits(ranges, n');
    assert d != d';
    var k :| 0 <= k < |m| && d[k] != d'[k];
    assert ContextAt(res[n], m, values, first, n) && ContextAt(res[n'], m, values, first, n');
    assert DistinctEntries(m[k].1);
    assert m[k].0 in res[n] && m[k].0 in res[n'] && res[n][m[k].0] != res[n'][m[k].0];
  }

  /** Every choice of one entry a range is enumerated, at the number those positions are the digits of. */
  lemma EnumerationSurjective(res: seq<Context>, m: RangeMap, values: Context, first: int, d: seq<nat>)
    requires Enumerates(res, m, values, first) && InRange(Ranges(m), d)
    requires forall k :: 0 <= k < |m| ==> m[k].0 != RUN_COUNTER && m[k].0 != GENERATOR_COUNTER
    ensures var n := Undigits(Ranges(m), d);
            n < |res| && forall k :: 0 <= k < |m| ==> m[k].0 in res[n] && res[n][m[k].0] == Text(m[k].1[d[k]])
  {
    DigitsUndigits(Ranges(m), d);
    var n := Undigits(Ranges(m), d);
    assert ContextAt(res[n], m, values, first, n);
  }

  // ---------------------------------------------------------------------------------------------------------
  // Counting agrees with enumerating

  /** The scheduler's count for a job without input directories: it enumerates and counts. */
  method ProcsFromMapVariations(maps: seq<RangeMap>) returns (numVariations: nat)
    ensures numVariations == Offset(maps, |maps|)
  {
    numVariations := 0;
    for iter := 0 to |maps|
      invariant numVariations == Offset(maps, iter)
    {
      var tuples := Product(Ranges(maps[iter]));
      ProductSize(Ranges(maps[iter]));
      for n := 0 to |tuples|
        invariant numVariations == Offset(maps, iter) + n
      {
        numVariations := numVariations + 1;
      }
    }
  }

  lemma {:induction false} SizeSnoc(ranges: seq<seq<string>>, i: nat)
    requires i < |ranges|
    ensures Size(ranges[..i + 1]) == Size(ranges[..i]) * |ranges[i]|
  {
    if i == 0 {
      assert ranges[..1] == [ranges[0]];
      assert Size([ranges[0]]) == |ranges[0]| * Size([]);
    } else {
      assert ranges[..i + 1][1..] == ranges[1..][..i] && ranges[..i][1..] == ranges[1..][..i - 1];
      SizeSnoc(ranges[1..], i - 1);
      var a, b, c := |ranges[0]|, Size(ranges[1..][..i - 1]), |ranges[i]|;
      assert a * (b * c) == (a * b) * c;
    }
  }

  /** The scheduler's count for a job with input directories: it multiplies, and keeps the last map's total. */
  method ProcsFromInputDirs(maps: seq<RangeMap>, inputDirs: nat) returns (totalProcs: nat)
    requires maps != []
    ensures totalProcs == Size(Ranges(maps[|maps| - 1])) * inputDirs
  {
    totalProcs := 0;
    for iter := 0 to |maps|
      invariant iter > 0 ==> totalProcs == Size(Ranges(maps[iter - 1])) * inputDirs
    {
      var mapRanges := Ranges(maps[iter]);
      var product := 1;
      for i := 0 to |mapRanges|
        invariant product == Size(mapRanges[..i])
      {
        SizeSnoc(mapRanges, i);
        product := product * |mapRanges[i]|;
      }
      assert mapRanges[..|mapRanges|] == mapRanges;
      totalProcs := product * inputDirs;
    }
  }

  /** For one map, the multiplied count, the loop count and the lengths of both enumerations are one number. */
  lemma CountsAgree(m: RangeMap, values: Context, first: int, expanded: seq<Context>, contexts: seq<Context>)
    requires EnumeratesAll(expanded, [m], values, 0) && EnumeratesAll(contexts, [m], values, first)
    ensures |expanded| == |contexts| == |Product(Ranges(m))| == Size(Ranges(m)) == Offset([m], 1)
    ensures Enumerates(expanded, m, values, 0) && Enumerates(contexts, m, values, first)
  {
    ProductSize(Ranges(m));
    assert Offset([m], 1) == Offset([m], 0) + Size(Ranges(m));
    assert Block(expanded, [m], values, 0, 0) && Block(contexts, [m], values, first, 0);
    assert expanded[0..|expanded|] == expanded && contexts[0..|contexts|] == contexts;
  }

  /** The contexts of a single map. */
  lemma EnumeratesOne(m: RangeMap, values: Context, first: int, contexts: seq<Context>)
    requires EnumeratesAll(contexts, [m], values, first)
    ensures |contexts| == Size(Ranges(m))
    ensures forall n :: 0 <= n < |contexts| ==> ContextAt(contexts[n], m, values, first, n)
  {
    assert Offset([m], 1) == Offset([m], 0) + Size(Ranges(m));
    assert Block(contexts, [m], values, first, 0);
    assert contexts[0..|contexts|] == contexts;
  }

  lemma HasCounter(c: Context, m: RangeMap, values: Context, first: int, n: nat)
    requires n < Size(Ranges(m)) && ContextAt(c, m, values, first, n)
    ensures "run_counter" in c && c["run_counter"] == Num(first + n)
  {
  }
}
