/** The handful of JavaScript array and string operations the components rely on,
    stated as functions on sequences, with the facts the rest of the model uses. */
module ArrayOps {

  datatype Option<+T> = None | Some(value: T)

  function Min(a: int, b: int): int { if a <= b then a else b }

  function Max(a: int, b: int): int { if a >= b then a else b }

  /** `xs.filter((_, i) => i !== index)`: walks the positions in order and keeps
      every element whose position differs from `index`. */
  function WithoutIndex<T>(xs: seq<T>, index: int): seq<T>
  {
    if |xs| == 0 then []
    else WithoutIndex(xs[..|xs| - 1], index) + (if |xs| - 1 == index then [] else [xs[|xs| - 1]])
  }

  /** Filtering out one position deletes exactly that position, keeping order;
      a position outside the array deletes nothing. */
  lemma {:induction false} WithoutIndexIsSplice<T>(xs: seq<T>, index: int)
    ensures 0 <= index < |xs| ==> WithoutIndex(xs, index) == xs[..index] + xs[index + 1..]
    ensures !(0 <= index < |xs|) ==> WithoutIndex(xs, index) == xs
  {
    if |xs| > 0 {
      var n := |xs| - 1;
      var init := xs[..n];
      WithoutIndexIsSplice(init, index);
      if index == n {
        assert xs[..index] + xs[index + 1..] == init;
      } else if 0 <= index < n {
        calc {
          WithoutIndex(xs, index);
          init[..index] + init[index + 1..] + [xs[n]];
          { assert init[..index] == xs[..index]; assert init[index + 1..] + [xs[n]] == xs[index + 1..]; }
          xs[..index] + xs[index + 1..];
        }
      } else {
        assert init + [xs[n]] == xs;
      }
    }
  }

  /** `xs.slice(0, n)` for a non-negative end `n`: the longest prefix of at most `n` elements. */
  function Take<T>(xs: seq<T>, n: nat): (r: seq<T>)
    ensures r <= xs
    ensures |r| == Min(|xs|, n)
  {
    if |xs| <= n then xs else xs[..n]
  }

  /** Number of occurrences of `x` in `xs`. */
  function Count<T(==)>(xs: seq<T>, x: T): nat
  {
    if |xs| == 0 then 0
    else Count(xs[..|xs| - 1], x) + (if xs[|xs| - 1] == x then 1 else 0)
  }

  /** `s.includes(t)`: scans `s` left to right for a position where `t` starts. */
  function Includes(s: string, t: string): bool
  {
    if t <= s then true
    else if |s| == 0 then false
    else Includes(s[1..], t)
  }

  /** The scan agrees with the plain definition of a substring occurrence. */
  lemma {:induction false} IncludesIffOccurs(s: string, t: string)
    ensures Includes(s, t) <==> exists i :: 0 <= i <= |s| && t <= s[i..]
  {
    if t <= s {
      assert s[0..] == s;
    } else if |s| == 0 {
      forall i | 0 <= i <= |s| ensures !(t <= s[i..]) {
        assert s[i..] == s;
      }
    } else {
      var tail := s[1..];
      IncludesIffOccurs(tail, t);
      if Includes(tail, t) {
        var j :| 0 <= j <= |tail| && t <= tail[j..];
        assert tail[j..] == s[j + 1..];
      } else {
        forall i | 0 <= i <= |s| ensures !(t <= s[i..]) {
          if i == 0 {
            assert s[i..] == s;
          } else {
            assert s[i..] == tail[i - 1..];
          }
        }
      }
    }
  }
}
