/** Small shared vocabulary: an Option type, JavaScript's String.prototype.includes
    and the decimal rendering of a natural number used in template literals. */
module Prelude {

  datatype Option<+T> = None | Some(value: T)

  /** True when `prefix` is a prefix of `s`. */
  predicate IsPrefix(prefix: string, s: string) {
    |prefix| <= |s| && s[..|prefix|] == prefix
  }

  /** `hay.includes(needle)`: some window of `hay` equals `needle`. */
  predicate Includes(hay: string, needle: string)
    ensures Includes(hay, needle) ==> |needle| <= |hay|
    decreases |hay|
  {
    IsPrefix(needle, hay) || (|hay| > 0 && Includes(hay[1..], needle))
  }

  /** The empty string is included in every string, and every string includes itself. */
  lemma IncludesEmptyAndSelf(s: string)
    ensures Includes(s, "") && Includes(s, s)
  {
    assert IsPrefix("", s);
    assert s[..|s|] == s;
  }

  /** `needle` occurs in `hay` starting at index `i`. */
  predicate OccursAt(hay: string, needle: string, i: int) {
    0 <= i && i + |needle| <= |hay| && hay[i..i + |needle|] == needle
  }

  /** `Includes` holds exactly when `needle` occurs in `hay` at some index. */
  lemma {:induction false} IncludesWindow(hay: string, needle: string)
    ensures Includes(hay, needle) <==> exists i :: OccursAt(hay, needle, i)
    decreases |hay|
  {
    if IsPrefix(needle, hay) {
      assert OccursAt(hay, needle, 0);
    } else if |hay| > 0 {
      IncludesWindow(hay[1..], needle);
      if Includes(hay[1..], needle) {
        var i :| OccursAt(hay[1..], needle, i);
        assert hay[i + 1..i + 1 + |needle|] == hay[1..][i..i + |needle|];
        assert OccursAt(hay, needle, i + 1);
      }
      if exists i :: OccursAt(hay, needle, i) {
        var i :| OccursAt(hay, needle, i);
        assert i != 0;
        assert hay[1..][i - 1..i - 1 + |needle|] == hay[i..i + |needle|];
        assert OccursAt(hay[1..], needle, i - 1);
      }
    }
  }

  function DigitChar(d: nat): (c: char)
    requires d < 10
    ensures '0' <= c <= '9'
  {
    ['0', '1', '2', '3', '4', '5', '6', '7', '8', '9'][d]
  }

  /** `${n}` for a natural number: its shortest decimal rendering. */
  function Decimal(n: nat): (s: string)
    ensures |s| >= 1
    ensures forall i :: 0 <= i < |s| ==> '0' <= s[i] <= '9'
    ensures n < 10 <==> |s| == 1
    decreases n
  {
    if n < 10 then [DigitChar(n)] else Decimal(n / 10) + [DigitChar(n % 10)]
  }

  /** The decimal rendering is injective: distinct numbers print differently. */
  lemma {:induction false} DecimalInjective(m: nat, n: nat)
    requires Decimal(m) == Decimal(n)
    ensures m == n
    decreases m
  {
    if m < 10 {
      assert n < 10;
      assert DigitChar(m) == DigitChar(n);
    } else {
      assert n >= 10;
      var sm, sn := Decimal(m), Decimal(n);
      assert sm[|sm| - 1] == DigitChar(m % 10) && sn[|sn| - 1] == DigitChar(n % 10);
      assert sm[..|sm| - 1] == Decimal(m / 10) && sn[..|sn| - 1] == Decimal(n / 10);
      DecimalInjective(m / 10, n / 10);
    }
  }

  /** `s.filter(p)`: the elements satisfying `p`, in their original order. */
  function Filter<T(!new)>(s: seq<T>, p: T -> bool): (r: seq<T>)
    ensures |r| <= |s|
    ensures forall x :: x in r <==> x in s && p(x)
  {
    if s == [] then []
    else if p(s[0]) then [s[0]] + Filter(s[1..], p)
    else Filter(s[1..], p)
  }

  /** Filtering distributes over concatenation, so it keeps the relative order. */
  lemma {:induction false} FilterAppend<T(!new)>(a: seq<T>, b: seq<T>, p: T -> bool)
    ensures Filter(a + b, p) == Filter(a, p) + Filter(b, p)
  {
    if a != [] {
      assert (a + b)[1..] == a[1..] + b;
      FilterAppend(a[1..], b, p);
    } else {
      assert a + b == b;
    }
  }

  /** Filtering twice by the same test filters once. */
  lemma {:induction false} FilterIdempotent<T(!new)>(s: seq<T>, p: T -> bool)
    ensures Filter(Filter(s, p), p) == Filter(s, p)
  {
    if s != [] {
      FilterIdempotent(s[1..], p);
      if p(s[0]) {
        assert ([s[0]] + Filter(s[1..], p))[1..] == Filter(s[1..], p);
      }
    }
  }

  /** A sequence whose every element passes the test is its own filtering. */
  lemma {:induction false} FilterKeepsAll<T(!new)>(s: seq<T>, p: T -> bool)
    requires forall i :: 0 <= i < |s| ==> p(s[i])
    ensures Filter(s, p) == s
  {
    if s != [] {
      FilterKeepsAll(s[1..], p);
      assert [s[0]] + s[1..] == s;
    }
  }

  /** `s.reduce((acc, x) => acc + f(x), 0)`. */
  function SumOf<T>(s: seq<T>, f: T -> int): int {
    if s == [] then 0 else f(s[0]) + SumOf(s[1..], f)
  }

  lemma {:induction false} SumOfAppend<T>(a: seq<T>, b: seq<T>, f: T -> int)
    ensures SumOf(a + b, f) == SumOf(a, f) + SumOf(b, f)
  {
    if a != [] {
      assert (a + b)[1..] == a[1..] + b;
      SumOfAppend(a[1..], b, f);
    } else {
      assert a + b == b;
    }
  }

  /** The positions of `s` whose element satisfies `p`. */
  function IndicesWhere<T>(s: seq<T>, p: T -> bool): set<int> {
    set i | 0 <= i < |s| && p(s[i])
  }

  lemma FilterSnoc<T(!new)>(init: seq<T>, x: T, p: T -> bool)
    ensures |Filter(init + [x], p)| == |Filter(init, p)| + (if p(x) then 1 else 0)
  {
    FilterAppend(init, [x], p);
    assert Filter([x], p) == if p(x) then [x] else [];
  }

  lemma IndicesWhereSnoc<T>(init: seq<T>, x: T, p: T -> bool)
    ensures |IndicesWhere(init + [x], p)| == |IndicesWhere(init, p)| + (if p(x) then 1 else 0)
  {
    var s := init + [x];
    var a := IndicesWhere(init, p);
    assert |init| !in a;
    if p(x) {
      assert IndicesWhere(s, p) == a + {|init|};
    } else {
      assert IndicesWhere(s, p) == a;
    }
  }

  /** Replacing an element by one that fails `p` drops its position, if it had one. */
  lemma IndicesWhereFalsify<T>(s: seq<T>, i: nat, x: T, p: T -> bool)
    requires i < |s| && !p(x)
    ensures |IndicesWhere(s[i := x], p)| == |IndicesWhere(s, p)| - (if p(s[i]) then 1 else 0)
  {
    var a := IndicesWhere(s, p);
    if p(s[i]) {
      assert IndicesWhere(s[i := x], p) == a - {i};
    } else {
      assert IndicesWhere(s[i := x], p) == a;
    }
  }

  /** `s.filter(p).length` is the number of positions of `s` that satisfy `p`. */
  lemma {:induction false} FilterCount<T(!new)>(s: seq<T>, p: T -> bool)
    ensures |Filter(s, p)| == |IndicesWhere(s, p)|
  {
    if s == [] {
      assert IndicesWhere(s, p) == {};
    } else {
      var n := |s| - 1;
      assert s == s[..n] + [s[n]];
      FilterCount(s[..n], p);
      FilterSnoc(s[..n], s[n], p);
      IndicesWhereSnoc(s[..n], s[n], p);
    }
  }
}
