/**
 * The few functions of Go's `strings` package the handlers rely on, on
 * strings taken as sequences of runes (Dafny `char`s are Unicode scalar
 * values, so a Go rune count is a sequence length here).
 */
module Strings {

  /** Go's `strings.HasPrefix`. */
  predicate HasPrefix(s: string, prefix: string)
  {
    |prefix| <= |s| && s[..|prefix|] == prefix
  }

  /** Go's `strings.Count` with a one-rune separator: how often `c` occurs in `s`. */
  function Count(s: string, c: char): (n: nat)
    ensures n <= |s|
    ensures n == 0 <==> forall i :: 0 <= i < |s| ==> s[i] != c
  {
    if s == [] then 0
    else (if s[0] == c then 1 else 0) + Count(s[1..], c)
  }

  /** `c` occurs in `s` at index `i` and nowhere else. */
  predicate OccursOnlyAt(s: string, c: char, i: int)
  {
    0 <= i < |s| && s[i] == c && forall j :: 0 <= j < |s| && j != i ==> s[j] != c
  }

  /** Exactly one occurrence is what `Count(s, c) == 1` means. */
  lemma {:induction false} CountIsOneIff(s: string, c: char)
    ensures Count(s, c) == 1 <==> exists i :: OccursOnlyAt(s, c, i)
  {
    if s == [] {
    } else {
      CountIsOneIff(s[1..], c);
      if Count(s, c) == 1 {
        if s[0] == c {
          assert OccursOnlyAt(s, c, 0) by {
            forall j | 0 < j < |s| ensures s[j] != c {
              assert s[1..][j - 1] == s[j];
            }
          }
        } else {
          var i :| OccursOnlyAt(s[1..], c, i);
          assert OccursOnlyAt(s, c, i + 1) by {
            forall j | 0 <= j < |s| && j != i + 1 ensures s[j] != c {
              if j > 0 { assert s[1..][j - 1] == s[j]; }
            }
          }
        }
      } else {
        if i :| OccursOnlyAt(s, c, i) {
          if i != 0 {
            assert OccursOnlyAt(s[1..], c, i - 1) by {
              forall j | 0 <= j < |s[1..]| && j != i - 1 ensures s[1..][j] != c {
                assert s[1..][j] == s[j + 1];
              }
            }
          }
        }
      }
    }
  }

  /** Every rune of `s` satisfies `isSpace`. */
  predicate AllSpace(s: string, isSpace: char -> bool)
  {
    forall k :: 0 <= k < |s| ==> isSpace(s[k])
  }

  /** `s` without its leading white space. */
  function TrimLeft(s: string, isSpace: char -> bool): string
  {
    if s != [] && isSpace(s[0]) then TrimLeft(s[1..], isSpace) else s
  }

  /** `s` without its trailing white space. */
  function TrimRight(s: string, isSpace: char -> bool): string
  {
    if s != [] && isSpace(s[|s| - 1]) then TrimRight(s[..|s| - 1], isSpace) else s
  }

  /** Go's `strings.TrimSpace`, with the white-space class as a parameter. */
  function TrimSpace(s: string, isSpace: char -> bool): string
  {
    TrimRight(TrimLeft(s, isSpace), isSpace)
  }

  /** `TrimLeft` drops exactly the longest all-space prefix. */
  lemma {:induction false} TrimLeftSpec(s: string, isSpace: char -> bool)
    ensures var r := TrimLeft(s, isSpace);
      && |r| <= |s| && r == s[|s| - |r|..] && AllSpace(s[..|s| - |r|], isSpace)
      && (r != [] ==> !isSpace(r[0]))
  {
    if s != [] && isSpace(s[0]) {
      TrimLeftSpec(s[1..], isSpace);
      var r := TrimLeft(s, isSpace);
      assert s[1..][|s| - 1 - |r|..] == s[|s| - |r|..];
      assert forall k :: 1 <= k < |s| - |r| ==> s[k] == s[1..][..|s| - 1 - |r|][k - 1];
    } else {
      assert s[..0] == [];
    }
  }

  /** `TrimRight` drops exactly the longest all-space suffix. */
  lemma {:induction false} TrimRightSpec(s: string, isSpace: char -> bool)
    ensures var r := TrimRight(s, isSpace);
      && |r| <= |s| && r == s[..|r|] && AllSpace(s[|r|..], isSpace)
      && (r != [] ==> !isSpace(r[|r| - 1]))
  {
    if s != [] && isSpace(s[|s| - 1]) {
      var t := s[..|s| - 1];
      TrimRightSpec(t, isSpace);
      var r := TrimRight(s, isSpace);
      assert t[..|r|] == s[..|r|];
      assert forall k :: |r| <= k < |s| - 1 ==> s[k] == t[|r|..][k - |r|];
    } else {
      assert s[|s|..] == [];
    }
  }

  /**
   * What trimming gives: the infix `s[i..i + |r|]` left after dropping only
   * white space at both ends; it neither starts nor ends with white space,
   * and it is empty exactly when `s` is all white space.
   */
  lemma TrimSpaceSpec(s: string, isSpace: char -> bool)
    ensures var r := TrimSpace(s, isSpace);
      && (r != [] ==> !isSpace(r[0]) && !isSpace(r[|r| - 1]))
      && (r == [] <==> AllSpace(s, isSpace))
      && exists i :: 0 <= i <= |s| - |r| && s[i..i + |r|] == r
                     && AllSpace(s[..i], isSpace) && AllSpace(s[i + |r|..], isSpace)
  {
    var l := TrimLeft(s, isSpace);
    var r := TrimSpace(s, isSpace);
    TrimLeftSpec(s, isSpace);
    TrimRightSpec(l, isSpace);
    var i := |s| - |l|;
    assert s[i..i + |r|] == r;
    assert s[i + |r|..] == l[|r|..];
    if r == [] {
      assert l == [];
      assert s[..i] == s;
    } else {
      assert r[0] == l[0];
      assert !AllSpace(s, isSpace) by { assert s[i] == r[0]; }
    }
  }

  /** Trimming twice is trimming once (so `Validate` may be repeated). */
  lemma TrimSpaceIdempotent(s: string, isSpace: char -> bool)
    ensures TrimSpace(TrimSpace(s, isSpace), isSpace) == TrimSpace(s, isSpace)
  {
    var r := TrimSpace(s, isSpace);
    TrimSpaceSpec(s, isSpace);
    assert TrimLeft(r, isSpace) == r;
    assert TrimRight(r, isSpace) == r;
  }
}
