/** The optional value used wherever the source has `undefined`/`null` or a skipped element. */
module Options {
  datatype Option<+T> = None | Some(value: T)
}

/**
 * Order-preserving traversals over sequences. Every loop in the modelled
 * component walks a sequence from first to last and either keeps, drops or
 * transforms each element, or adds up a count; the generic shapes live here
 * once, together with the facts the rest of the model relies on.
 */
module Seqs {
  import opened Options

  /** `xs` can be obtained from `ys` by deleting elements, keeping the order. */
  predicate IsSubsequence<T(==)>(xs: seq<T>, ys: seq<T>)
    decreases |ys|
  {
    if xs == [] then true
    else if ys == [] then false
    else if xs[0] == ys[0] then IsSubsequence(xs[1..], ys[1..])
    else IsSubsequence(xs, ys[1..])
  }

  /** `xs.map(f)` */
  function Map<A, B>(f: A -> B, xs: seq<A>): (ys: seq<B>)
    ensures |ys| == |xs|
    ensures forall k :: 0 <= k < |xs| ==> ys[k] == f(xs[k])
  {
    seq(|xs|, k requires 0 <= k < |xs| => f(xs[k]))
  }

  /** `xs.filter(p)` */
  function Filter<T>(p: T -> bool, xs: seq<T>): (kept: seq<T>)
    ensures |kept| <= |xs|
    ensures forall k :: 0 <= k < |kept| ==> p(kept[k])
  {
    if xs == [] then [] else (if p(xs[0]) then [xs[0]] else []) + Filter(p, xs[1..])
  }

  /** A loop that pushes `f(x).value` for every `x` where `f(x)` is present. */
  function FilterMap<A, B>(f: A -> Option<B>, xs: seq<A>): (ys: seq<B>)
    ensures |ys| <= |xs|
  {
    if xs == [] then []
    else (match f(xs[0]) case Some(y) => [y] case None => []) + FilterMap(f, xs[1..])
  }

  /** The sum of `f(x)` over `xs`. */
  function Sum<T>(f: T -> nat, xs: seq<T>): nat
  {
    if xs == [] then 0 else f(xs[0]) + Sum(f, xs[1..])
  }

  lemma {:induction false} FilterMapAppend<A, B>(f: A -> Option<B>, xs: seq<A>, ys: seq<A>)
    ensures FilterMap(f, xs + ys) == FilterMap(f, xs) + FilterMap(f, ys)
  {
    if xs != [] {
      assert (xs + ys)[1..] == xs[1..] + ys;
      FilterMapAppend(f, xs[1..], ys);
    } else {
      assert xs + ys == ys;
    }
  }

  lemma FilterMapSingle<A, B>(f: A -> Option<B>, x: A)
    ensures FilterMap(f, [x]) == match f(x) case Some(y) => [y] case None => []
  {
    assert [x][1..] == [];
  }

  lemma {:induction false} SumAppend<T>(f: T -> nat, xs: seq<T>, ys: seq<T>)
    ensures Sum(f, xs + ys) == Sum(f, xs) + Sum(f, ys)
  {
    if xs != [] {
      assert (xs + ys)[1..] == xs[1..] + ys;
      SumAppend(f, xs[1..], ys);
    } else {
      assert xs + ys == ys;
    }
  }

  lemma {:induction false} FilterAppend<T>(p: T -> bool, xs: seq<T>, ys: seq<T>)
    ensures Filter(p, xs + ys) == Filter(p, xs) + Filter(p, ys)
  {
    if xs != [] {
      assert (xs + ys)[1..] == xs[1..] + ys;
      FilterAppend(p, xs[1..], ys);
    } else {
      assert xs + ys == ys;
    }
  }

  /** When every term lies in [lo, hi], the sum lies in [lo * |xs|, hi * |xs|]. */
  lemma {:induction false} SumBounds<T>(f: T -> nat, xs: seq<T>, lo: nat, hi: nat)
    requires forall x :: lo <= f(x) <= hi
    ensures lo * |xs| <= Sum(f, xs) <= hi * |xs|
  {
    if xs != [] {
      SumBounds(f, xs[1..], lo, hi);
      assert lo * |xs| == lo + lo * |xs[1..]|;
      assert hi * |xs| == hi + hi * |xs[1..]|;
    }
  }

  /** No term exceeds the sum. */
  lemma {:induction false} SumElementBound<T>(f: T -> nat, xs: seq<T>)
    ensures forall k :: 0 <= k < |xs| ==> f(xs[k]) <= Sum(f, xs)
  {
    if xs != [] {
      SumElementBound(f, xs[1..]);
      forall k | 0 < k < |xs| ensures f(xs[k]) <= Sum(f, xs) {
        assert xs[k] == xs[1..][k - 1];
      }
    }
  }

  /** A property every present output of `f` has, every element of `FilterMap(f, xs)` has. */
  lemma {:induction false} FilterMapAll<A, B>(f: A -> Option<B>, xs: seq<A>, P: B -> bool)
    requires forall x :: f(x).Some? ==> P(f(x).value)
    ensures forall k :: 0 <= k < |FilterMap(f, xs)| ==> P(FilterMap(f, xs)[k])
  {
    if xs != [] {
      FilterMapAll(f, xs[1..], P);
      var ys := FilterMap(f, xs);
      forall k | 0 <= k < |ys| ensures P(ys[k]) {
        if f(xs[0]).Some? && k > 0 {
          assert ys[k] == FilterMap(f, xs[1..])[k - 1];
        }
      }
    }
  }

  /** Nothing is padded: exactly one output per input iff every element is kept. */
  lemma {:induction false} FilterMapLength<A, B>(f: A -> Option<B>, xs: seq<A>)
    ensures |FilterMap(f, xs)| == |xs| <==> forall k :: 0 <= k < |xs| ==> f(xs[k]).Some?
  {
    if xs != [] {
      FilterMapLength(f, xs[1..]);
      if f(xs[0]).Some? && forall k :: 0 <= k < |xs[1..]| ==> f(xs[1..][k]).Some? {
        forall k | 0 <= k < |xs| ensures f(xs[k]).Some? {
          if k > 0 { assert xs[k] == xs[1..][k - 1]; }
        }
      }
    }
  }

  /** Every output comes from some input. */
  lemma {:induction false} FilterMapSource<A, B>(f: A -> Option<B>, xs: seq<A>, y: B)
    requires y in FilterMap(f, xs)
    ensures exists k :: 0 <= k < |xs| && f(xs[k]) == Some(y)
  {
    if f(xs[0]) == Some(y) {
      assert f(xs[0]) == Some(y);
    } else {
      FilterMapSource(f, xs[1..], y);
      var k :| 0 <= k < |xs[1..]| && f(xs[1..][k]) == Some(y);
      assert xs[k + 1] == xs[1..][k];
    }
  }

  /** Every present output appears. */
  lemma {:induction false} FilterMapComplete<A, B>(f: A -> Option<B>, xs: seq<A>, k: nat)
    requires k < |xs| && f(xs[k]).Some?
    ensures f(xs[k]).value in FilterMap(f, xs)
  {
    if k > 0 {
      assert xs[k] == xs[1..][k - 1];
      FilterMapComplete(f, xs[1..], k - 1);
    }
  }

  /**
   * When each output remembers its input (`proj(f(x).value) == key(x)`), the
   * remembered inputs keep the order of `xs`.
   */
  lemma {:induction false} FilterMapOrder<A, B, K>(f: A -> Option<B>, xs: seq<A>, proj: B -> K, key: A -> K)
    requires forall x :: f(x).Some? ==> proj(f(x).value) == key(x)
    ensures IsSubsequence(Map(proj, FilterMap(f, xs)), Map(key, xs))
  {
    if xs != [] {
      FilterMapOrder(f, xs[1..], proj, key);
      var rest := Map(proj, FilterMap(f, xs[1..]));
      assert Map(key, xs)[1..] == Map(key, xs[1..]);
      match f(xs[0])
      case None =>
        assert FilterMap(f, xs) == FilterMap(f, xs[1..]);
        SubsequenceOfTail(rest, Map(key, xs));
      case Some(y) =>
        assert FilterMap(f, xs) == [y] + FilterMap(f, xs[1..]);
        var all := Map(proj, FilterMap(f, xs));
        assert all[0] == Map(key, xs)[0];
        assert all[1..] == rest;
    }
  }

  lemma {:induction false} SubsequenceOfTail<T>(xs: seq<T>, ys: seq<T>)
    requires ys != [] && IsSubsequence(xs, ys[1..])
    ensures IsSubsequence(xs, ys)
    decreases |ys|, 0
  {
    if xs != [] && xs[0] == ys[0] {
      SubsequenceDropHead(xs, ys[1..]);
    }
  }

  lemma {:induction false} SubsequenceDropHead<T>(xs: seq<T>, ys: seq<T>)
    requires xs != [] && IsSubsequence(xs, ys)
    ensures IsSubsequence(xs[1..], ys)
    decreases |ys|, 1
  {
    if xs[0] != ys[0] {
      SubsequenceDropHead(xs, ys[1..]);
    }
    if xs[1..] != [] {
      SubsequenceOfTail(xs[1..], ys);
    }
  }

  /** A filter keeps its input's order. */
  lemma {:induction false} FilterOrder<T>(p: T -> bool, xs: seq<T>)
    ensures IsSubsequence(Filter(p, xs), xs)
  {
    if xs != [] {
      FilterOrder(p, xs[1..]);
      if p(xs[0]) {
        assert Filter(p, xs)[1..] == Filter(p, xs[1..]);
      } else {
        assert Filter(p, xs) == Filter(p, xs[1..]);
        SubsequenceOfTail(Filter(p, xs), xs);
      }
    }
  }

  /** Every kept element is taken from the input. */
  lemma {:induction false} FilterElement<T>(p: T -> bool, xs: seq<T>, j: nat)
    requires j < |Filter(p, xs)|
    ensures exists m :: 0 <= m < |xs| && xs[m] == Filter(p, xs)[j]
  {
    var kept := Filter(p, xs);
    if p(xs[0]) && j == 0 {
      assert xs[0] == kept[0];
    } else {
      var j' := if p(xs[0]) then j - 1 else j;
      assert kept[j] == Filter(p, xs[1..])[j'];
      FilterElement(p, xs[1..], j');
      var m :| 0 <= m < |xs[1..]| && xs[1..][m] == Filter(p, xs[1..])[j'];
      assert xs[m + 1] == kept[j];
    }
  }

  /** A filter keeps exactly the elements satisfying `p`, each as often as it occurs. */
  lemma {:induction false} FilterCount<T>(p: T -> bool, xs: seq<T>)
    ensures forall x :: multiset(Filter(p, xs))[x] == if p(x) then multiset(xs)[x] else 0
  {
    if xs != [] {
      FilterCount(p, xs[1..]);
      assert xs == [xs[0]] + xs[1..];
      assert multiset(xs) == multiset([xs[0]]) + multiset(xs[1..]);
    }
  }

  lemma FilterMembership<T>(p: T -> bool, xs: seq<T>)
    ensures forall x :: x in Filter(p, xs) <==> x in xs && p(x)
  {
    FilterCount(p, xs);
    forall x ensures x in Filter(p, xs) <==> x in xs && p(x) {
      assert x in Filter(p, xs) <==> multiset(Filter(p, xs))[x] > 0;
      assert x in xs <==> multiset(xs)[x] > 0;
    }
  }
}

/** The string operations the source uses: `startsWith`, `includes` and `trim`. */
module Strings {

  /** `s.startsWith(prefix)` */
  predicate StartsWith(s: string, prefix: string)
  {
    |prefix| <= |s| && s[..|prefix|] == prefix
  }

  /** `s.includes(sub)` */
  predicate Contains(s: string, sub: string)
  {
    exists i :: 0 <= i <= |s| && StartsWith(s[i..], sub)
  }

  /**
   * The characters `String.prototype.trim` removes: the ECMAScript WhiteSpace
   * (tab, vertical tab, form feed, space, no-break space, byte order mark and
   * the Unicode Zs category) and LineTerminator (LF, CR, U+2028, U+2029) sets.
   */
  predicate IsJsWhitespace(c: char)
  {
    c == '\t' || c == '\n' || c == '\U{000B}' || c == '\U{000C}' || c == '\r' || c == ' '
    || c == '\U{00A0}' || c == '\U{1680}' || ('\U{2000}' <= c <= '\U{200A}')
    || c == '\U{2028}' || c == '\U{2029}' || c == '\U{202F}' || c == '\U{205F}'
    || c == '\U{3000}' || c == '\U{FEFF}'
  }

  /** `s.trim() === ""`, the falsy case of `!s.trim()` */
  predicate IsBlank(s: string)
  {
    forall k :: 0 <= k < |s| ==> IsJsWhitespace(s[k])
  }
}
