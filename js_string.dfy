/**
 * The String.prototype operations the storefront calls: `trim`, `split` on a
 * one-character separator, `includes` and `slice(-n)`. Strings are sequences of
 * characters; surrogate pairs and other UTF-16 details are outside the model.
 */
module JsString {

  /** WhiteSpace and LineTerminator code points of ECMAScript (what `trim` removes). */
  const WhiteSpaceChars: set<char> := {
    '\t', '\U{B}', '\U{C}', ' ', '\U{A0}', '\U{1680}',
    '\U{2000}', '\U{2001}', '\U{2002}', '\U{2003}', '\U{2004}', '\U{2005}',
    '\U{2006}', '\U{2007}', '\U{2008}', '\U{2009}', '\U{200A}',
    '\U{202F}', '\U{205F}', '\U{3000}', '\U{FEFF}',
    '\n', '\r', '\U{2028}', '\U{2029}' }

  predicate IsWhiteSpace(c: char)
  {
    c in WhiteSpaceChars
  }

  predicate AllWhiteSpace(s: string)
  {
    forall i :: 0 <= i < |s| ==> IsWhiteSpace(s[i])
  }

  /** How many characters at the start of `s` are white space. */
  function LeadingWhiteSpace(s: string): (k: nat)
    ensures k <= |s|
    ensures forall i :: 0 <= i < k ==> IsWhiteSpace(s[i])
    ensures k < |s| ==> !IsWhiteSpace(s[k])
  {
    if s != "" && IsWhiteSpace(s[0]) then 1 + LeadingWhiteSpace(s[1..]) else 0
  }

  /** How many characters at the end of `s` are white space. */
  function TrailingWhiteSpace(s: string): (k: nat)
    ensures k <= |s|
    ensures forall i :: |s| - k <= i < |s| ==> IsWhiteSpace(s[i])
    ensures k < |s| ==> !IsWhiteSpace(s[|s| - 1 - k])
  {
    if s != "" && IsWhiteSpace(s[|s| - 1]) then 1 + TrailingWhiteSpace(s[..|s| - 1]) else 0
  }

  /** Drops leading white space: what remains is a suffix that does not start with white space. */
  function TrimStart(s: string): (r: string)
    ensures |r| <= |s| && r == s[|s| - |r|..]
    ensures forall i :: 0 <= i < |s| - |r| ==> IsWhiteSpace(s[i])
    ensures r != "" ==> !IsWhiteSpace(r[0])
  {
    s[LeadingWhiteSpace(s)..]
  }

  /** Drops trailing white space: what remains is a prefix that does not end with white space. */
  function TrimEnd(s: string): (r: string)
    ensures |r| <= |s| && r == s[..|r|]
    ensures forall i :: |r| <= i < |s| ==> IsWhiteSpace(s[i])
    ensures r != "" ==> !IsWhiteSpace(r[|r| - 1])
  {
    s[..|s| - TrailingWhiteSpace(s)]
  }

  /** `s.trim()`. */
  function Trim(s: string): string
  {
    TrimEnd(TrimStart(s))
  }

  /** Nothing is left after dropping leading white space exactly when the string is all white space. */
  lemma TrimStartEmptyIff(s: string)
    ensures TrimStart(s) == "" <==> AllWhiteSpace(s)
  {
    var t := TrimStart(s);
    if t != "" {
      assert t[0] == s[|s| - |t|];
    }
  }

  /** Nothing is left after dropping trailing white space exactly when the string is all white space. */
  lemma TrimEndEmptyIff(s: string)
    ensures TrimEnd(s) == "" <==> AllWhiteSpace(s)
  {
    var t := TrimEnd(s);
    if t != "" {
      assert t[|t| - 1] == s[|t| - 1];
    }
  }

  /** `!s.trim()` holds exactly when every character of `s` is white space (the empty string included). */
  lemma TrimEmptyIff(s: string)
    ensures Trim(s) == "" <==> AllWhiteSpace(s)
  {
    var t := TrimStart(s);
    TrimStartEmptyIff(s);
    TrimEndEmptyIff(t);
    if t != "" {
      assert !IsWhiteSpace(t[0]);
    }
  }

  /** `s.split(sep)` for a one-character separator: the pieces between separators, at least one. */
  function Split(s: string, sep: char): (r: seq<string>)
    ensures |r| >= 1
    ensures forall i :: 0 <= i < |r| ==> sep !in r[i]
    ensures r[0] <= s
    ensures |r[0]| < |s| ==> s[|r[0]|] == sep
    ensures |r| > 1 <==> sep in s
  {
    if s == "" then [""]
    else if s[0] == sep then [""] + Split(s[1..], sep)
    else
      var t := Split(s[1..], sep);
      assert s[1..][0..|t[0]|] == t[0];
      [[s[0]] + t[0]] + t[1..]
  }

  /** `pieces.join(sep)`. */
  function Join(pieces: seq<string>, sep: char): string
  {
    if |pieces| == 0 then ""
    else if |pieces| == 1 then pieces[0]
    else pieces[0] + [sep] + Join(pieces[1..], sep)
  }

  lemma {:induction false} JoinCons(c: char, t: seq<string>, sep: char)
    requires |t| >= 1
    ensures Join([[c] + t[0]] + t[1..], sep) == [c] + Join(t, sep)
  {
    var p := [[c] + t[0]] + t[1..];
    if |t| == 1 {
      assert p == [[c] + t[0]];
    } else {
      assert p[1..] == t[1..];
    }
  }

  /** Splitting loses nothing: joining the pieces with the same separator gives back the string. */
  lemma {:induction false} SplitJoin(s: string, sep: char)
    ensures Join(Split(s, sep), sep) == s
  {
    if s == "" {
    } else if s[0] == sep {
      SplitJoin(s[1..], sep);
      var t := Split(s[1..], sep);
      assert ([""] + t)[1..] == t;
      assert [s[0]] + s[1..] == s;
    } else {
      SplitJoin(s[1..], sep);
      JoinCons(s[0], Split(s[1..], sep), sep);
      assert [s[0]] + s[1..] == s;
    }
  }

  /** A string without the separator is one piece. */
  lemma {:induction false} SplitWithoutSeparator(s: string, sep: char)
    requires sep !in s
    ensures Split(s, sep) == [s]
  {
    if s != "" {
      SplitWithoutSeparator(s[1..], sep);
      assert [s[0]] + s[1..] == s;
    }
  }

  /** A separator-free first piece is split off whole. */
  lemma {:induction false} SplitFirstPiece(a: string, sep: char, rest: string)
    requires sep !in a
    ensures Split(a + [sep] + rest, sep) == [a] + Split(rest, sep)
  {
    var s := a + [sep] + rest;
    if a == "" {
      assert s == [sep] + rest && s[1..] == rest;
    } else {
      assert s[1..] == a[1..] + [sep] + rest;
      SplitFirstPiece(a[1..], sep, rest);
      assert [a[0]] + a[1..] == a;
    }
  }

  /** With the separator present, the pieces after the first are the split of what follows its first occurrence. */
  lemma SplitAfterFirst(s: string, sep: char)
    requires sep in s
    ensures |Split(s, sep)[0]| < |s|
    ensures Split(s, sep)[1..] == Split(s[|Split(s, sep)[0]| + 1..], sep)
  {
    var a := Split(s, sep)[0];
    var rest := s[|a| + 1..];
    assert s == a + [sep] + rest;
    SplitFirstPiece(a, sep, rest);
  }

  /** `q` occurs in `s` starting at index `i`. */
  predicate OccursAt(s: string, q: string, i: int)
  {
    0 <= i && i + |q| <= |s| && s[i..i + |q|] == q
  }

  /** `s.includes(q)`. */
  function Includes(s: string, q: string): bool
  {
    q <= s || (s != "" && Includes(s[1..], q))
  }

  /** `includes` finds exactly the substrings: `q` occurs in `s` at some position. */
  lemma {:induction false} IncludesIff(s: string, q: string)
    ensures Includes(s, q) <==> exists i :: OccursAt(s, q, i)
  {
    if q <= s {
      assert OccursAt(s, q, 0);
    } else if s == "" {
    } else {
      IncludesIff(s[1..], q);
      if Includes(s[1..], q) {
        var i :| OccursAt(s[1..], q, i);
        assert s[i + 1..i + 1 + |q|] == s[1..][i..i + |q|];
        assert OccursAt(s, q, i + 1);
      }
      if exists i :: OccursAt(s, q, i) {
        var i :| OccursAt(s, q, i);
        assert i != 0;
        assert s[1..][i - 1..i - 1 + |q|] == s[i..i + |q|];
        assert OccursAt(s[1..], q, i - 1);
      }
    }
  }

  /** `s.slice(-n)` for `n >= 1`: the last `n` characters, or all of `s` when it is shorter. */
  function SliceLast(s: string, n: nat): (r: string)
    requires n >= 1
    ensures |r| == if |s| < n then |s| else n
    ensures s == s[..|s| - |r|] + r
  {
    if |s| < n then s else s[|s| - n..]
  }
}
