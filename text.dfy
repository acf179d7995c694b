/**
 * The JavaScript string operations the pages rely on: `indexOf`/`includes`,
 * the first two parts of `split`, `trim` and `toLowerCase`.
 */
module Text {

  import opened Wrappers

  /** `sub` occurs in `s` starting at position `i`. */
  predicate OccursAt(s: string, sub: string, i: int)
  {
    0 <= i && i + |sub| <= |s| && s[i..i + |sub|] == sub
  }

  /** `s.indexOf(sub, from)`: the first occurrence at or after `from`, or -1. */
  function IndexFrom(s: string, sub: string, from: nat): (r: int)
    decreases |s| + 1 - from
    ensures r == -1 || (from <= r && OccursAt(s, sub, r))
    ensures forall j :: from <= j && (r == -1 || j < r) ==> !OccursAt(s, sub, j)
  {
    if from + |sub| > |s| then -1
    else if s[from..from + |sub|] == sub then from
    else IndexFrom(s, sub, from + 1)
  }

  /** `s.indexOf(sub)`. */
  function IndexOf(s: string, sub: string): (r: int)
    ensures r == -1 || OccursAt(s, sub, r)
    ensures forall j :: 0 <= j && (r == -1 || j < r) ==> !OccursAt(s, sub, j)
  {
    IndexFrom(s, sub, 0)
  }

  /** `s.includes(sub)`. */
  predicate Includes(s: string, sub: string)
  {
    IndexOf(s, sub) >= 0
  }

  /** `includes` holds exactly when the pattern occurs somewhere. */
  lemma IncludesIff(s: string, sub: string, i: int)
    ensures OccursAt(s, sub, i) ==> Includes(s, sub)
    ensures Includes(s, sub) ==> OccursAt(s, sub, IndexOf(s, sub))
  {
  }

  /** The empty pattern is included in every string. */
  lemma IncludesEmpty(s: string)
    ensures Includes(s, "")
  {
    assert OccursAt(s, "", 0);
  }

  /** A string includes itself inside any surrounding text. */
  lemma IncludesInfix(pre: string, sub: string, post: string)
    ensures Includes(pre + sub + post, sub)
  {
    var s := pre + sub + post;
    assert s[|pre|..|pre| + |sub|] == sub;
    assert OccursAt(s, sub, |pre|);
  }

  /** `s.split(sep)[0]`: the text before the first separator, or all of `s`. */
  function SplitHead(s: string, sep: string): (r: string)
    requires |sep| > 0
    ensures !Includes(r, sep)
    ensures r <= s
    ensures Includes(s, sep) ==> OccursAt(s, sep, |r|)
    ensures !Includes(s, sep) ==> r == s
  {
    var i := IndexOf(s, sep);
    if i < 0 then s
    else
      assert forall j :: OccursAt(s[..i], sep, j) ==> OccursAt(s, sep, j) by {
        forall j | OccursAt(s[..i], sep, j) ensures OccursAt(s, sep, j) {
          assert s[..i][j..j + |sep|] == s[j..j + |sep|];
        }
      }
      s[..i]
  }

  /** `s.split(sep)[1]` when it exists: the text between the first separator and the next one. */
  function SplitSecond(s: string, sep: string): (r: Option<string>)
    requires |sep| > 0
    ensures r.Some? <==> Includes(s, sep)
    ensures r.Some? ==> !Includes(r.value, sep)
  {
    var i := IndexOf(s, sep);
    if i < 0 then None else Some(SplitHead(s[i + |sep|..], sep))
  }

  /** The last character of `sep` occurs nowhere else in it, so no two occurrences of `sep` can overlap. */
  predicate LastCharUnique(sep: string)
  {
    |sep| > 0 && forall k :: 0 <= k < |sep| - 1 ==> sep[k] != sep[|sep| - 1]
  }

  /** Inside an occurrence, each character of the text is the matching character of the pattern. */
  lemma OccursAtCovers(s: string, sub: string, i: int, p: int)
    requires OccursAt(s, sub, i) && i <= p < i + |sub|
    ensures s[p] == sub[p - i]
  {
    assert s[i..i + |sub|][p - i] == s[p];
  }

  /** When `pre` holds no separator, the first separator of `pre + sep + tail` is the one after `pre`. */
  lemma FirstOccurrence(pre: string, sep: string, tail: string)
    requires LastCharUnique(sep) && !Includes(pre, sep)
    ensures IndexOf(pre + sep + tail, sep) == |pre|
    ensures SplitHead(pre + sep + tail, sep) == pre
    ensures SplitSecond(pre + sep + tail, sep) == Some(SplitHead(tail, sep))
  {
    var s := pre + sep + tail;
    assert s[|pre|..|pre| + |sep|] == sep;
    assert OccursAt(s, sep, |pre|);
    var r := IndexOf(s, sep);
    if r < |pre| {
      if r + |sep| <= |pre| {
        assert pre[r..r + |sep|] == s[r..r + |sep|];
        IncludesIff(pre, sep, r);
      } else {
        OccursAtCovers(s, sep, r, r + |sep| - 1);
      }
    }
    assert s[..|pre|] == pre;
    assert s[|pre| + |sep|..] == tail;
  }

  /** Gluing two texts free of `sep` with a character `sep` does not contain gives a text free of `sep`. */
  lemma NoOccurrenceAcross(x: string, c: char, y: string, sep: string)
    requires |sep| > 0 && c !in sep && !Includes(x, sep) && !Includes(y, sep)
    ensures !Includes(x + [c] + y, sep)
  {
    var s := x + [c] + y;
    if Includes(s, sep) {
      var j := IndexOf(s, sep);
      if j + |sep| <= |x| {
        assert x[j..j + |sep|] == s[j..j + |sep|];
        IncludesIff(x, sep, j);
      } else if j > |x| {
        var k := j - |x| - 1;
        assert s[|x| + 1..] == y;
        assert y[k..k + |sep|] == s[j..j + |sep|];
        IncludesIff(y, sep, k);
      } else {
        OccursAtCovers(s, sep, j, |x|);
      }
    }
  }

  /**
   * The code points JavaScript's `trim` removes: the WhiteSpace and
   * LineTerminator productions of ECMAScript (tab, vertical tab, form feed,
   * space, no-break space, the byte-order mark, the Zs space separators,
   * line feed, carriage return, line and paragraph separators).
   */
  predicate IsSpace(c: char)
  {
    c == '\t' || c == '\n' || c == '\U{000B}' || c == '\U{000C}' || c == '\r' || c == ' '
    || c == '\U{00A0}' || c == '\U{1680}' || ('\U{2000}' <= c <= '\U{200A}')
    || c == '\U{2028}' || c == '\U{2029}' || c == '\U{202F}' || c == '\U{205F}'
    || c == '\U{3000}' || c == '\U{FEFF}'
  }

  predicate AllSpace(s: string)
  {
    forall i :: 0 <= i < |s| ==> IsSpace(s[i])
  }

  /** Neither end of `s` is whitespace. */
  predicate Trimmed(s: string)
  {
    s == [] || (!IsSpace(s[0]) && !IsSpace(s[|s| - 1]))
  }

  /** `s.trimStart()`: what remains once the leading whitespace is cut off. */
  function TrimStart(s: string): (r: string)
    ensures r == [] || !IsSpace(r[0])
    ensures |r| <= |s| && r == s[|s| - |r|..] && AllSpace(s[..|s| - |r|])
  {
    if s != [] && IsSpace(s[0]) then
      var r := TrimStart(s[1..]);
      assert s[..|s| - |r|] == [s[0]] + s[1..][..|s[1..]| - |r|];
      r
    else
      s
  }

  /** `s.trimEnd()`: what remains once the trailing whitespace is cut off. */
  function TrimEnd(s: string): (r: string)
    ensures r == [] || !IsSpace(r[|r| - 1])
    ensures |r| <= |s| && r == s[..|r|] && AllSpace(s[|r|..])
  {
    if s != [] && IsSpace(s[|s| - 1]) then
      var r := TrimEnd(s[..|s| - 1]);
      assert s[|r|..] == s[..|s| - 1][|r|..] + [s[|s| - 1]];
      r
    else
      s
  }

  /** `s.trim()`. */
  function Trim(s: string): (r: string)
  {
    TrimEnd(TrimStart(s))
  }

  /**
   * Trimming leaves a text whose ends are not whitespace and which is a slice
   * of the input with only whitespace cut off on either side.
   */
  lemma TrimShape(s: string)
    ensures Trimmed(Trim(s))
    ensures exists a, b :: 0 <= a <= b <= |s| && AllSpace(s[..a]) && AllSpace(s[b..]) && Trim(s) == s[a..b]
  {
    var t := TrimStart(s);
    var r := Trim(s);
    var a := |s| - |t|;
    assert t == s[a..];
    assert r == s[a..a + |r|];
    assert s[a + |r|..] == t[|r|..];
    if r != [] {
      assert r[0] == t[0];
    }
  }

  /** Trimming removes leading whitespace only up to the first non-space. */
  lemma {:induction false} TrimStartPadded(a: string, t: string)
    requires AllSpace(a)
    requires t == [] || !IsSpace(t[0])
    ensures TrimStart(a + t) == t
    decreases |a|
  {
    if a == [] {
      assert a + t == t;
    } else {
      assert (a + t)[1..] == a[1..] + t;
      TrimStartPadded(a[1..], t);
    }
  }

  /** Trimming removes trailing whitespace only back to the last non-space. */
  lemma {:induction false} TrimEndPadded(t: string, b: string)
    requires AllSpace(b)
    requires t == [] || !IsSpace(t[|t| - 1])
    ensures TrimEnd(t + b) == t
    decreases |b|
  {
    if b == [] {
      assert t + b == t;
    } else {
      assert (t + b)[..|t + b| - 1] == t + b[..|b| - 1];
      TrimEndPadded(t, b[..|b| - 1]);
    }
  }

  /** Trimming a trimmed text padded with whitespace on both sides gives the text back. */
  lemma TrimPadded(a: string, t: string, b: string)
    requires AllSpace(a) && AllSpace(b) && Trimmed(t)
    ensures Trim(a + t + b) == t
  {
    if t == [] {
      assert a + t + b == a + b;
      AllSpaceTrimStart(a + b);
    } else {
      assert a + t + b == a + (t + b);
      TrimStartPadded(a, t + b);
      TrimEndPadded(t, b);
    }
  }

  /** A text made only of whitespace trims to nothing. */
  lemma {:induction false} AllSpaceTrimStart(s: string)
    requires AllSpace(s)
    ensures TrimStart(s) == []
    decreases |s|
  {
    if s != [] {
      AllSpaceTrimStart(s[1..]);
    }
  }

  /**
   * `toLowerCase` on the letters the marketplace's texts use: the Latin
   * capitals A-Z and the Cyrillic capitals А-Я and Ё. Every other code
   * point is left as it is.
   */
  function LowerChar(c: char): (d: char)
  {
    if 'A' <= c <= 'Z' then (c as int + 32) as char
    else if '\U{0410}' <= c <= '\U{042F}' then (c as int + 32) as char
    else if c == '\U{0401}' then '\U{0451}'
    else c
  }

  /** `s.toLowerCase()`, one code point at a time. */
  function ToLower(s: string): (r: string)
    ensures |r| == |s|
    ensures forall i :: 0 <= i < |s| ==> r[i] == LowerChar(s[i])
  {
    if s == [] then [] else [LowerChar(s[0])] + ToLower(s[1..])
  }

  /** Lowering twice is lowering once. */
  lemma ToLowerIdempotent(s: string)
    ensures ToLower(ToLower(s)) == ToLower(s)
  {
  }
}
