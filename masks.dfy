/** Boolean masks over the flat parameter vector: numpy's `v[mask]` (Select)
    and `v[mask] = x` (Replace), and the one-entry masks `s.explode(block)`
    returns. */
module Masks {
  import opened Numeric

  /** Number of free entries, `mask.sum()`. */
  function Count(m: seq<bool>): (n: nat)
    ensures n <= |m|
  {
    if |m| == 0 then 0 else Count(m[..|m| - 1]) + (if m[|m| - 1] then 1 else 0)
  }

  /** `v[m]`: the entries of v where m is true, in index order. */
  function Select(v: seq<real>, m: seq<bool>): (r: seq<real>)
    requires |v| == |m|
    ensures |r| == Count(m)
  {
    if |v| == 0 then []
    else Select(v[..|v| - 1], m[..|m| - 1]) + (if m[|m| - 1] then [v[|v| - 1]] else [])
  }

  /** A copy of v with `copy[m] = x`: the k-th free entry receives x[k]. */
  function Replace(v: seq<real>, m: seq<bool>, x: seq<real>): (r: seq<real>)
    requires |v| == |m| && |x| == Count(m)
    ensures |r| == |v|
    ensures forall i :: 0 <= i < |v| && !m[i] ==> r[i] == v[i]
  {
    if |v| == 0 then []
    else if m[|m| - 1] then
      Replace(v[..|v| - 1], m[..|m| - 1], x[..|x| - 1]) + [x[|x| - 1]]
    else
      Replace(v[..|v| - 1], m[..|m| - 1], x) + [v[|v| - 1]]
  }

  /** Two vectors agree everywhere outside the mask. */
  ghost predicate AgreeOutside(v: seq<real>, w: seq<real>, m: seq<bool>)
    requires |v| == |m| && |w| == |m|
  {
    forall i :: 0 <= i < |m| && !m[i] ==> v[i] == w[i]
  }

  /** `(a & b).sum() > 0`. */
  predicate Intersects(a: seq<bool>, b: seq<bool>)
    requires |a| == |b|
  {
    exists i :: 0 <= i < |a| && a[i] && b[i]
  }

  /** Every entry free in a is free in b. */
  predicate SubMask(a: seq<bool>, b: seq<bool>)
    requires |a| == |b|
  {
    forall i :: 0 <= i < |a| && a[i] ==> b[i]
  }

  /** The mask that frees only entry i. */
  function OneHot(n: nat, i: nat): (m: seq<bool>)
    ensures |m| == n
    ensures forall j :: 0 <= j < n ==> (m[j] <==> j == i)
  {
    seq(n, j requires 0 <= j < n => j == i)
  }

  /** `s.explode(block)`: one single-entry mask per free entry of block, in
      index order. */
  function Explode(block: seq<bool>): (bs: seq<seq<bool>>)
    ensures |bs| == Count(block)
    ensures forall k :: 0 <= k < |bs| ==> |bs[k]| == |block| && SubMask(bs[k], block)
  {
    if |block| == 0 then []
    else
      var n := |block|;
      var prefix := Explode(block[..n - 1]);
      var widened := seq(|prefix|, k requires 0 <= k < |prefix| => prefix[k] + [false]);
      widened + (if block[n - 1] then [OneHot(n, n - 1)] else [])
  }

  lemma {:induction false} ReplacePointwise(v: seq<real>, m: seq<bool>, x: seq<real>, i: nat)
    requires |v| == |m| && |x| == Count(m) && i < |v| && m[i]
    ensures Count(m[..i]) < |x|
    ensures Replace(v, m, x)[i] == x[Count(m[..i])]
  {
    var n := |v|;
    assert m[..n - 1][..] == m[..n - 1];
    if i == n - 1 {
      assert m[..i] == m[..n - 1];
    } else {
      assert m[..n - 1][..i] == m[..i];
      ReplacePointwise(v[..n - 1], m[..n - 1], if m[n - 1] then x[..|x| - 1] else x, i);
    }
  }

  lemma {:induction false} SelectPointwise(v: seq<real>, m: seq<bool>, i: nat)
    requires |v| == |m| && i < |v| && m[i]
    ensures Count(m[..i]) < Count(m)
    ensures Select(v, m)[Count(m[..i])] == v[i]
  {
    var n := |v|;
    if i == n - 1 {
      assert m[..i] == m[..n - 1];
    } else {
      assert m[..n - 1][..i] == m[..i];
      SelectPointwise(v[..n - 1], m[..n - 1], i);
    }
  }

  /** Writing back what was read changes nothing: `v[m] = v[m]`. */
  lemma {:induction false} ReplaceSelect(v: seq<real>, m: seq<bool>)
    requires |v| == |m|
    ensures Replace(v, m, Select(v, m)) == v
  {
    if |v| > 0 {
      var n := |v|;
      var s := Select(v, m);
      var s' := Select(v[..n - 1], m[..n - 1]);
      ReplaceSelect(v[..n - 1], m[..n - 1]);
      if m[n - 1] {
        assert s == s' + [v[n - 1]];
        assert s[..|s| - 1] == s';
        calc {
          Replace(v, m, s);
          Replace(v[..n - 1], m[..n - 1], s') + [s[|s| - 1]];
          v[..n - 1] + [v[n - 1]];
        }
      } else {
        assert s == s';
      }
      assert v == v[..n - 1] + [v[n - 1]];
    }
  }

  /** Reading back what was written returns it. */
  lemma {:induction false} SelectReplace(v: seq<real>, m: seq<bool>, x: seq<real>)
    requires |v| == |m| && |x| == Count(m)
    ensures Select(Replace(v, m, x), m) == x
  {
    if |v| > 0 {
      var n := |v|;
      var r := Replace(v, m, x);
      assert Select(r, m) == Select(r[..n - 1], m[..n - 1]) + (if m[n - 1] then [r[n - 1]] else []);
      if m[n - 1] {
        var front := x[..|x| - 1];
        SelectReplace(v[..n - 1], m[..n - 1], front);
        assert r == Replace(v[..n - 1], m[..n - 1], front) + [x[|x| - 1]];
        assert r[..n - 1] == Replace(v[..n - 1], m[..n - 1], front);
        assert x == front + [x[|x| - 1]];
      } else {
        SelectReplace(v[..n - 1], m[..n - 1], x);
        assert r[..n - 1] == Replace(v[..n - 1], m[..n - 1], x);
      }
    }
  }

  /** The result of a replacement depends on v only outside the mask: a
      later write over the whole mask erases every earlier change inside it. */
  lemma {:induction false} ReplaceIgnoresInside(v: seq<real>, w: seq<real>, m: seq<bool>, x: seq<real>)
    requires |v| == |m| && |w| == |m| && |x| == Count(m)
    requires AgreeOutside(v, w, m)
    ensures Replace(v, m, x) == Replace(w, m, x)
  {
    if |v| > 0 {
      var n := |v|;
      ReplaceIgnoresInside(v[..n - 1], w[..n - 1], m[..n - 1],
        if m[n - 1] then x[..|x| - 1] else x);
    }
  }

  /** A replacement agrees with the original outside the mask. */
  lemma ReplaceAgreesOutside(v: seq<real>, m: seq<bool>, x: seq<real>)
    requires |v| == |m| && |x| == Count(m)
    ensures AgreeOutside(Replace(v, m, x), v, m)
  {
  }

  /** `v[b] = v[b] + c` moves exactly the entries of b by c. */
  lemma ShiftInside(v: seq<real>, m: seq<bool>, c: real, i: nat)
    requires |v| == |m| && i < |v|
    ensures Replace(v, m, Shift(Select(v, m), c))[i] == (if m[i] then v[i] + c else v[i])
  {
    if m[i] {
      ReplacePointwise(v, m, Shift(Select(v, m), c), i);
      SelectPointwise(v, m, i);
    }
  }

  /** `v[m] = w[m]` copies w into v exactly on the mask. */
  lemma ReplaceWithSelect(v: seq<real>, m: seq<bool>, w: seq<real>, i: nat)
    requires |v| == |m| && |w| == |m| && i < |v|
    ensures Replace(v, m, Select(w, m))[i] == (if m[i] then w[i] else v[i])
  {
    if m[i] {
      ReplacePointwise(v, m, Select(w, m), i);
      SelectPointwise(w, m, i);
    }
  }

  /** Restoring the values read before a write undoes the write. */
  lemma RestoreAfterWrite(v: seq<real>, w: seq<real>, m: seq<bool>, x: seq<real>)
    requires |v| == |m| && |w| == |m| && |x| == Count(m)
    requires AgreeOutside(w, v, m)
    ensures Replace(Replace(w, m, x), m, Select(v, m)) == v
  {
    ReplaceAgreesOutside(w, m, x);
    ReplaceIgnoresInside(Replace(w, m, x), v, m, Select(v, m));
    ReplaceSelect(v, m);
  }
}
