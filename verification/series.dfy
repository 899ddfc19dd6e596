/** Sums and bounds over sequences of reals, shared by the indicator and risk engines. */
module Series {
  import opened Values

  /** `arr.reduce((a, b) => a + b, 0)`: a left fold from the first element. */
  function Sum(s: seq<real>): real
    decreases |s|
  {
    if |s| == 0 then 0.0 else Sum(s[..|s| - 1]) + s[|s| - 1]
  }

  /** The last `n` elements, `arr.slice(-n)` for 1 <= n <= |arr|. */
  function LastN(s: seq<real>, n: nat): (w: seq<real>)
    requires n <= |s|
    ensures |w| == n
    ensures forall i :: 0 <= i < n ==> w[i] == s[|s| - n + i]
  {
    s[|s| - n..]
  }

  /** Every element lies in [lo, hi]. */
  predicate Within(s: seq<real>, lo: real, hi: real) {
    forall i :: 0 <= i < |s| ==> lo <= s[i] <= hi
  }

  /** A sequence of one repeated value. */
  predicate Constant(s: seq<real>, c: real) {
    forall i :: 0 <= i < |s| ==> s[i] == c
  }

  lemma {:induction false} SumBounds(s: seq<real>, lo: real, hi: real)
    requires Within(s, lo, hi)
    ensures |s| as real * lo <= Sum(s) <= |s| as real * hi
    decreases |s|
  {
    if |s| > 0 {
      var init := s[..|s| - 1];
      assert Within(init, lo, hi) by {
        forall i | 0 <= i < |init| ensures lo <= init[i] <= hi {
          assert init[i] == s[i];
        }
      }
      SumBounds(init, lo, hi);
      assert lo <= s[|s| - 1] <= hi;
      assert |s| as real * lo == |init| as real * lo + lo;
      assert |s| as real * hi == |init| as real * hi + hi;
    }
  }

  lemma {:induction false} SumNonNegative(s: seq<real>)
    requires forall i :: 0 <= i < |s| ==> s[i] >= 0.0
    ensures Sum(s) >= 0.0
    decreases |s|
  {
    if |s| > 0 {
      var init := s[..|s| - 1];
      assert forall i :: 0 <= i < |init| ==> init[i] == s[i];
      SumNonNegative(init);
    }
  }

  /** A sum of non-negative terms is zero exactly when every term is zero. */
  lemma {:induction false} SumZeroIffAllZero(s: seq<real>)
    requires forall i :: 0 <= i < |s| ==> s[i] >= 0.0
    ensures Sum(s) == 0.0 <==> forall i :: 0 <= i < |s| ==> s[i] == 0.0
    decreases |s|
  {
    if |s| > 0 {
      var init := s[..|s| - 1];
      assert forall i :: 0 <= i < |init| ==> init[i] == s[i];
      SumZeroIffAllZero(init);
      SumNonNegative(init);
    }
  }

  lemma {:induction false} SumConstant(s: seq<real>, c: real)
    requires Constant(s, c)
    ensures Sum(s) == |s| as real * c
    decreases |s|
  {
    if |s| > 0 {
      var init := s[..|s| - 1];
      assert Constant(init, c) by {
        forall i | 0 <= i < |init| ensures init[i] == c {
          assert init[i] == s[i];
        }
      }
      SumConstant(init, c);
    }
  }

  /** The numeric closes of a chart, `quotes.map(q => q.close).filter(v => typeof v === "number")`:
      missing closes are dropped and the order is kept. */
  function PresentCloses(quotes: seq<Option<real>>): (closes: seq<real>)
    ensures |closes| <= |quotes|
    ensures forall x :: x in closes ==> Some(x) in quotes
    ensures (forall i :: 0 <= i < |quotes| ==> quotes[i].Some?) ==> |closes| == |quotes|
    decreases |quotes|
  {
    if |quotes| == 0 then []
    else
      var rest := PresentCloses(quotes[1..]);
      assert forall x :: Some(x) in quotes[1..] ==> Some(x) in quotes;
      if quotes[0].Some? then [quotes[0].value] + rest else rest
  }

  /** A missing close is dropped and a present one kept: the filter on one quote. */
  lemma PresentClosesOfOne(x: Option<real>)
    ensures x.None? ==> PresentCloses([x]) == []
    ensures x.Some? ==> PresentCloses([x]) == [x.value]
  {
    assert [x][1..] == [];
  }

  /** The filter works quote by quote: the closes of a concatenation are the closes of its
      parts, in chart order. With `PresentClosesOfOne` this fixes the result for every chart. */
  lemma {:induction false} PresentClosesAppend(q: seq<Option<real>>, r: seq<Option<real>>)
    ensures PresentCloses(q + r) == PresentCloses(q) + PresentCloses(r)
    decreases |q|
  {
    if |q| > 0 {
      assert (q + r)[1..] == q[1..] + r;
      PresentClosesAppend(q[1..], r);
    } else {
      assert q + r == r;
    }
  }
}
