/**
 * String facts shared by the log-line parser: substring tests (Rust's
 * `str::contains`) and the pieces the regular expressions are built from
 * (`\w+`, `.+`).
 */
module Text {

  /** `t` occurs in `s` starting at index `i`. */
  predicate At(s: string, i: int, t: string) {
    0 <= i && i + |t| <= |s| && s[i..i + |t|] == t
  }

  /** Rust's `s.contains(t)`. */
  predicate Contains(s: string, t: string) {
    exists i | 0 <= i <= |s| :: At(s, i, t)
  }

  /**
   * The characters matched by `\w`. Rust's `\w` is Unicode-aware; the model
   * takes the ASCII letters, the digits and the underscore.
   */
  predicate IsWordChar(c: char) {
    ('a' <= c <= 'z') || ('A' <= c <= 'Z') || ('0' <= c <= '9') || c == '_'
  }

  /** A string matched by `\w+`. */
  predicate IsWord(s: string) {
    |s| > 0 && forall k | 0 <= k < |s| :: IsWordChar(s[k])
  }

  /** A string matched by `.+`: non-empty and free of line feeds. */
  predicate IsLineText(s: string) {
    |s| > 0 && forall k | 0 <= k < |s| :: s[k] != '\n'
  }

  /** The length of the longest run of word characters in `s` starting at `i`. */
  function WordRun(s: string, i: nat): (n: nat)
    requires i <= |s|
    ensures i + n <= |s|
    ensures forall k | i <= k < i + n :: IsWordChar(s[k])
    ensures i + n == |s| || !IsWordChar(s[i + n])
    decreases |s| - i
  {
    if i < |s| && IsWordChar(s[i]) then 1 + WordRun(s, i + 1) else 0
  }

  /** The index of the first line feed at or after `i`, or `|s|` if there is none. */
  function LineEnd(s: string, i: nat): (e: nat)
    requires i <= |s|
    ensures i <= e <= |s|
    ensures forall k | i <= k < e :: s[k] != '\n'
    ensures e == |s| || s[e] == '\n'
    decreases |s| - i
  {
    if i < |s| && s[i] != '\n' then LineEnd(s, i + 1) else i
  }

  /** A non-empty word run is a word. */
  lemma WordRunIsWord(s: string, i: nat)
    requires i <= |s| && WordRun(s, i) > 0
    ensures IsWord(s[i..i + WordRun(s, i)])
  {
    var w := s[i..i + WordRun(s, i)];
    forall k | 0 <= k < |w|
      ensures IsWordChar(w[k])
    {
      assert w[k] == s[i + k];
    }
  }

  /** The text from `i` up to the next line feed is matched by `.+` when it is not empty. */
  lemma LineEndIsLineText(s: string, i: nat)
    requires i < |s| && s[i] != '\n'
    ensures IsLineText(s[i..LineEnd(s, i)])
  {
    var m := s[i..LineEnd(s, i)];
    forall k | 0 <= k < |m|
      ensures m[k] != '\n'
    {
      assert m[k] == s[i + k];
    }
  }

  /** An occurrence of `a + b` is an occurrence of `a` followed by one of `b`. */
  lemma AtConcat(s: string, i: int, a: string, b: string)
    ensures At(s, i, a + b) <==> At(s, i, a) && At(s, i + |a|, b)
  {
    if 0 <= i && i + |a| + |b| <= |s| {
      var whole := s[i..i + |a| + |b|];
      assert whole[..|a|] == s[i..i + |a|];
      assert whole[|a|..] == s[i + |a|..i + |a| + |b|];
      if At(s, i, a) && At(s, i + |a|, b) {
        assert whole == whole[..|a|] + whole[|a|..];
      }
      if At(s, i, a + b) {
        assert (a + b)[..|a|] == a && (a + b)[|a|..] == b;
      }
    }
  }

  /** `b` occurs in `a + b` right after `a`. */
  lemma AtSuffix(a: string, b: string)
    ensures At(a + b, |a|, b)
  {
    assert (a + b)[|a|..|a| + |b|] == b;
  }

  /** An occurrence in `a` is still one in `a + b`. */
  lemma AtExtend(a: string, b: string, i: int, x: string)
    requires At(a, i, x)
    ensures At(a + b, i, x)
  {
    assert (a + b)[i..i + |x|] == a[i..i + |x|];
  }

  /** The characters of an occurrence. */
  lemma AtChar(s: string, i: int, t: string, j: int)
    requires At(s, i, t) && 0 <= j < |t|
    ensures s[i + j] == t[j]
  {
    assert s[i..i + |t|][j] == s[i + j];
  }

  /** A mismatching character rules an occurrence out. */
  lemma NotAtWhenDiffers(s: string, i: int, t: string, j: int)
    requires 0 <= j < |t| && 0 <= i + j < |s| && s[i + j] != t[j]
    ensures !At(s, i, t)
  {
    if 0 <= i && i + |t| <= |s| {
      assert s[i..i + |t|][j] == s[i + j];
    }
  }

  /** A string that does not contain the character `c`. */
  predicate Lacks(s: string, c: char) {
    forall k | 0 <= k < |s| :: s[k] != c
  }

  /** Where the pieces of `p + a + b + c` lie. */
  lemma AtPieces3(p: string, a: string, b: string, c: string)
    ensures At(p + a + b + c, |p|, a)
    ensures At(p + a + b + c, |p| + |a|, b)
    ensures At(p + a + b + c, |p| + |a| + |b|, c)
  {
    AtSuffix(p, a);
    AtExtend(p + a, b, |p|, a);
    AtExtend(p + a + b, c, |p|, a);
    AtSuffix(p + a, b);
    AtExtend(p + a + b, c, |p| + |a|, b);
    AtSuffix(p + a + b, c);
  }

  /** Where the pieces of `p + a + b + c + d` lie. */
  lemma AtPieces4(p: string, a: string, b: string, c: string, d: string)
    ensures At(p + a + b + c + d, |p|, a)
    ensures At(p + a + b + c + d, |p| + |a|, b)
    ensures At(p + a + b + c + d, |p| + |a| + |b|, c)
    ensures At(p + a + b + c + d, |p| + |a| + |b| + |c|, d)
  {
    AtPieces3(p, a, b, c);
    AtExtend(p + a + b + c, d, |p|, a);
    AtExtend(p + a + b + c, d, |p| + |a|, b);
    AtExtend(p + a + b + c, d, |p| + |a| + |b|, c);
    AtSuffix(p + a + b + c, d);
  }

  /**
   * A string whose only `[` is at `q`, followed by a character other than
   * the second one of `marker`, does not contain `marker`.
   */
  lemma NoOtherMarker(s: string, q: int, marker: string)
    requires forall k | 0 <= k < |s| && k != q :: s[k] != '['
    requires 0 <= q && q + 1 < |s| && |marker| >= 2 && marker[0] == '[' && s[q + 1] != marker[1]
    ensures !Contains(s, marker)
  {
    forall i | 0 <= i <= |s|
      ensures !At(s, i, marker)
    {
      if i == q {
        NotAtWhenDiffers(s, i, marker, 1);
      } else if i < |s| {
        NotAtWhenDiffers(s, i, marker, 0);
      }
    }
  }

  /** A word run is maximal: a word at `i` followed by a non-word character is exactly the run. */
  lemma {:induction false} WordRunOfWord(s: string, i: nat, w: string)
    requires At(s, i, w) && IsWord(w)
    requires i + |w| == |s| || !IsWordChar(s[i + |w|])
    ensures WordRun(s, i) == |w|
    decreases |w|
  {
    assert s[i] == s[i..i + |w|][0];
    if |w| > 1 {
      assert s[i + 1..i + 1 + |w[1..]|] == w[1..] by {
        assert s[i + 1..i + |w|] == s[i..i + |w|][1..];
      }
      WordRunOfWord(s, i + 1, w[1..]);
    }
  }

  /** `.+` is greedy: text free of line feeds that ends at a line feed or the end is exactly up to LineEnd. */
  lemma {:induction false} LineEndOfText(s: string, i: nat, m: string)
    requires At(s, i, m) && forall k | 0 <= k < |m| :: m[k] != '\n'
    requires i + |m| == |s| || s[i + |m|] == '\n'
    ensures LineEnd(s, i) == i + |m|
    decreases |m|
  {
    if |m| > 0 {
      assert s[i] == s[i..i + |m|][0];
      assert s[i + 1..i + 1 + |m[1..]|] == m[1..] by {
        assert s[i + 1..i + |m|] == s[i..i + |m|][1..];
      }
      LineEndOfText(s, i + 1, m[1..]);
    }
  }
}
