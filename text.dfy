/** The JavaScript string operations the application relies on: `trim`,
    `split` on a one-character separator, `startsWith` and the global
    `replace` of a fixed pattern by the empty string. Strings are
    sequences of Unicode scalar values. */
module Text {

  /** The code points ECMAScript's `String.prototype.trim` strips: the
      WhiteSpace and LineTerminator productions of the language standard. */
  predicate IsWhitespace(c: char) {
    || c == '\t' || c == '\n' || c == '\U{B}' || c == '\U{C}' || c == '\r' || c == ' '
    || c == '\U{A0}' || c == '\U{1680}' || ('\U{2000}' <= c <= '\U{200A}')
    || c == '\U{2028}' || c == '\U{2029}' || c == '\U{202F}' || c == '\U{205F}'
    || c == '\U{3000}' || c == '\U{FEFF}'
  }

  /** Drops leading whitespace: what is left is a suffix of `s` that does not
      start with whitespace, and everything dropped was whitespace. */
  function TrimStart(s: string): (r: string)
    ensures |r| <= |s| && r == s[|s| - |r|..]
    ensures r == [] || !IsWhitespace(r[0])
    ensures forall k :: 0 <= k < |s| - |r| ==> IsWhitespace(s[k])
  {
    if |s| > 0 && IsWhitespace(s[0]) then TrimStart(s[1..]) else s
  }

  /** Drops trailing whitespace: what is left is a prefix of `s` that does not
      end with whitespace, and everything dropped was whitespace. */
  function TrimEnd(s: string): (r: string)
    ensures |r| <= |s| && r == s[..|r|]
    ensures r == [] || !IsWhitespace(r[|r| - 1])
    ensures forall k :: |r| <= k < |s| ==> IsWhitespace(s[k])
  {
    if |s| > 0 && IsWhitespace(s[|s| - 1]) then TrimEnd(s[..|s| - 1]) else s
  }

  /** `s.trim()`: neither end of the result is whitespace. */
  function Trim(s: string): (r: string)
    ensures r == [] || (!IsWhitespace(r[0]) && !IsWhitespace(r[|r| - 1]))
  {
    TrimEnd(TrimStart(s))
  }

  /** `!s.trim()`: the trimmed string is the falsy empty string. */
  predicate Blank(s: string) {
    Trim(s) == []
  }

  /** `Trim` keeps exactly the stretch of `s` between its leading and its
      trailing whitespace. */
  lemma TrimBounds(s: string) returns (i: nat, j: nat)
    ensures i <= j <= |s| && Trim(s) == s[i..j]
    ensures forall k :: 0 <= k < i ==> IsWhitespace(s[k])
    ensures forall k :: j <= k < |s| ==> IsWhitespace(s[k])
    ensures i < j ==> !IsWhitespace(s[i]) && !IsWhitespace(s[j - 1])
  {
    var t := TrimStart(s);
    var u := TrimEnd(t);
    assert Trim(s) == u;
    i := |s| - |t|;
    j := i + |u|;
    InnerSlice(s, t, u, i);
    if i < j {
      assert s[i] == u[0] && s[j - 1] == u[|u| - 1];
    }
  }

  /** A prefix `u` of the suffix `t == s[i..]`, with only whitespace after
      it in `t`, is the slice `s[i..i + |u|]`, and only whitespace follows
      it in `s`. */
  lemma InnerSlice(s: string, t: string, u: string, i: nat)
    requires i <= |s| && t == s[i..] && |u| <= |t| && u == t[..|u|]
    requires forall k :: |u| <= k < |t| ==> IsWhitespace(t[k])
    ensures s[i..i + |u|] == u
    ensures forall k :: i + |u| <= k < |s| ==> IsWhitespace(s[k])
  {
    forall k | i + |u| <= k < |s| ensures IsWhitespace(s[k]) {
      assert s[k] == t[k - i];
    }
  }

  /** A string is blank exactly when every character in it is whitespace. */
  lemma BlankIffAllWhitespace(s: string)
    ensures Blank(s) <==> forall k :: 0 <= k < |s| ==> IsWhitespace(s[k])
  {
    var i, j := TrimBounds(s);
  }

  /** Trimming only removes characters: one absent from `s` is absent from
      `Trim(s)`. */
  lemma TrimKeepsOut(s: string, c: char)
    requires c !in s
    ensures c !in Trim(s)
  {
    var i, j := TrimBounds(s);
    assert Trim(s) == s[i..j];
  }

  /** Trimming twice is trimming once. */
  lemma TrimIdempotent(s: string)
    ensures Trim(Trim(s)) == Trim(s)
  {
    var t := Trim(s);
    assert TrimStart(t) == t;
    assert TrimEnd(t) == t;
  }

  /** `TrimStart` removes a whitespace prefix and stops at the first character
      that is not whitespace. */
  lemma {:induction false} TrimStartPadded(a: string, s: string)
    requires forall k :: 0 <= k < |a| ==> IsWhitespace(a[k])
    requires s == [] || !IsWhitespace(s[0])
    ensures TrimStart(a + s) == s
  {
    if |a| > 0 {
      assert (a + s)[1..] == a[1..] + s;
      TrimStartPadded(a[1..], s);
    } else {
      assert a + s == s;
    }
  }

  /** `TrimEnd` removes a whitespace suffix and stops at the last character
      that is not whitespace. */
  lemma {:induction false} TrimEndPadded(s: string, b: string)
    requires forall k :: 0 <= k < |b| ==> IsWhitespace(b[k])
    requires s == [] || !IsWhitespace(s[|s| - 1])
    ensures TrimEnd(s + b) == s
  {
    if |b| > 0 {
      var b' := b[..|b| - 1];
      assert (s + b)[..|s + b| - 1] == s + b';
      TrimEndPadded(s, b');
    } else {
      assert s + b == s;
    }
  }

  /** Trimming a string with no whitespace at either end, padded with
      whitespace on both sides, gives back that string. */
  lemma TrimPadded(a: string, s: string, b: string)
    requires forall k :: 0 <= k < |a| ==> IsWhitespace(a[k])
    requires forall k :: 0 <= k < |b| ==> IsWhitespace(b[k])
    requires s == [] || (!IsWhitespace(s[0]) && !IsWhitespace(s[|s| - 1]))
    ensures Trim(a + s + b) == s
  {
    if s == [] {
      assert a + s + b == a + b;
      TrimStartPadded(a + b, []);
      assert a + b + [] == a + b;
    } else {
      assert a + s + b == a + (s + b);
      TrimStartPadded(a, s + b);
    }
    TrimEndPadded(s, b);
  }

  /** `s.startsWith(p)` */
  predicate StartsWith(s: string, p: string) {
    |p| <= |s| && s[..|p|] == p
  }

  /** Number of occurrences of `c` in `s`. */
  function Count(s: string, c: char): (n: nat)
    ensures n <= |s|
    ensures n == 0 <==> c !in s
  {
    if |s| == 0 then 0 else (if s[0] == c then 1 else 0) + Count(s[1..], c)
  }

  lemma {:induction false} CountAppend(a: string, b: string, c: char)
    ensures Count(a + b, c) == Count(a, c) + Count(b, c)
  {
    if |a| > 0 {
      assert (a + b)[1..] == a[1..] + b;
      CountAppend(a[1..], b, c);
    } else {
      assert a + b == b;
    }
  }

  /** `s.split(sep)` for a one-character separator: one more piece than there
      are separators, and no piece contains the separator. */
  function Split(s: string, sep: char): (r: seq<string>)
    ensures |r| == Count(s, sep) + 1
    ensures forall k :: 0 <= k < |r| ==> sep !in r[k]
  {
    if |s| == 0 then [""]
    else
      var rest := Split(s[1..], sep);
      if s[0] == sep then [""] + rest
      else [[s[0]] + rest[0]] + rest[1..]
  }

  /** A string without the separator is a single piece. */
  lemma {:induction false} SplitNoSeparator(a: string, sep: char)
    requires sep !in a
    ensures Split(a, sep) == [a]
  {
    if |a| > 0 {
      SplitNoSeparator(a[1..], sep);
      assert a == [a[0]] + a[1..];
    }
  }

  /** A first line ended by the separator is the first piece; the pieces of
      the remainder follow. */
  lemma {:induction false} SplitFirstLine(a: string, b: string, sep: char)
    requires sep !in a
    ensures Split(a + [sep] + b, sep) == [a] + Split(b, sep)
  {
    var s := a + [sep] + b;
    if |a| == 0 {
      assert s[0] == sep && s[1..] == b;
    } else {
      assert s[0] == a[0] && s[1..] == a[1..] + [sep] + b;
      SplitFirstLine(a[1..], b, sep);
      var rest := Split(s[1..], sep);
      assert rest[0] == a[1..] && rest[1..] == Split(b, sep);
      assert [a[0]] + a[1..] == a;
    }
  }

  /** `parts.join(sep)` */
  function Join(parts: seq<string>, sep: char): string {
    if |parts| == 0 then ""
    else if |parts| == 1 then parts[0]
    else parts[0] + [sep] + Join(parts[1..], sep)
  }

  /** Joining the pieces of a split with the same separator gives back the
      original string. */
  lemma {:induction false} JoinSplit(s: string, sep: char)
    ensures Join(Split(s, sep), sep) == s
  {
    if |s| > 0 {
      var rest := Split(s[1..], sep);
      JoinSplit(s[1..], sep);
      if s[0] == sep {
        assert Split(s, sep) == [""] + rest;
        assert ([""] + rest)[1..] == rest;
        assert Join([""] + rest, sep) == [sep] + Join(rest, sep);
        assert s == [sep] + s[1..];
      } else {
        assert Split(s, sep) == [[s[0]] + rest[0]] + rest[1..];
        JoinExtendsHead(s[0], rest, sep);
        assert s == [s[0]] + s[1..];
      }
    }
  }

  /** Putting a character in front of the first piece puts it in front of
      the join. */
  lemma JoinExtendsHead(x: char, parts: seq<string>, sep: char)
    requires |parts| > 0
    ensures Join([[x] + parts[0]] + parts[1..], sep) == [x] + Join(parts, sep)
  {
    var r := [[x] + parts[0]] + parts[1..];
    if |parts| > 1 {
      assert r[1..] == parts[1..];
      assert Join(r, sep) == [x] + parts[0] + [sep] + Join(parts[1..], sep);
    }
  }

  /** `s.replace(/<c>/g, '')`: every `c` removed, every other character kept
      as often as it occurs. */
  function RemoveChar(s: string, c: char): (r: string)
    ensures c !in r
    ensures |r| == |s| - Count(s, c)
    ensures forall d :: d != c ==> Count(r, d) == Count(s, d)
  {
    if |s| == 0 then ""
    else if s[0] == c then RemoveChar(s[1..], c)
    else [s[0]] + RemoveChar(s[1..], c)
  }

  /** Removal works piece by piece: the kept characters stay in their
      order. */
  lemma {:induction false} RemoveCharAppend(a: string, b: string, c: char)
    ensures RemoveChar(a + b, c) == RemoveChar(a, c) + RemoveChar(b, c)
  {
    if |a| > 0 {
      var t := (a + b)[1..];
      assert t == a[1..] + b;
      RemoveCharAppend(a[1..], b, c);
      if a[0] == c {
        assert RemoveChar(a + b, c) == RemoveChar(t, c);
        assert RemoveChar(a, c) == RemoveChar(a[1..], c);
      } else {
        assert RemoveChar(a + b, c) == [a[0]] + RemoveChar(t, c);
        assert RemoveChar(a, c) == [a[0]] + RemoveChar(a[1..], c);
      }
    } else {
      assert a + b == b;
    }
  }

  /** A string without `c` is left as it is. */
  lemma {:induction false} RemoveCharAbsent(s: string, c: char)
    requires c !in s
    ensures RemoveChar(s, c) == s
  {
    if |s| > 0 {
      RemoveCharAbsent(s[1..], c);
      assert s == [s[0]] + s[1..];
    }
  }

  /** A string without `a` is left as it is by the removal of `ab`. */
  lemma {:induction false} RemovePairAbsent(s: string, a: char, b: char)
    requires a !in s
    ensures RemovePair(s, a, b) == s
  {
    if |s| >= 2 {
      RemovePairAbsent(s[1..], a, b);
      assert s == [s[0]] + s[1..];
    }
  }

  /** Trimming keeps every non-whitespace character as often as it occurs. */
  lemma TrimKeepsCount(s: string, c: char)
    requires !IsWhitespace(c)
    ensures Count(Trim(s), c) == Count(s, c)
  {
    var i, j := TrimBounds(s);
    WhitespaceLacks(s[..i], c);
    WhitespaceLacks(s[j..], c);
    CountSlice(s, i, j, c);
  }

  /** A stretch of whitespace holds no non-whitespace character. */
  lemma WhitespaceLacks(t: string, c: char)
    requires forall k :: 0 <= k < |t| ==> IsWhitespace(t[k])
    requires !IsWhitespace(c)
    ensures c !in t
  {
  }

  /** A slice holds every occurrence of `c` when none lies outside it. */
  lemma CountSlice(s: string, i: nat, j: nat, c: char)
    requires i <= j <= |s| && c !in s[..i] && c !in s[j..]
    ensures Count(s[i..j], c) == Count(s, c)
  {
    var a, m, b := s[..i], s[i..j], s[j..];
    assert s == a + m + b;
    CountAppend(a + m, b, c);
    CountAppend(a, m, c);
  }

  /** `s.replace(/ab/g, '')` for a two-character pattern, scanning left to
      right without overlaps as a global regular-expression replace does.
      No character other than `a` and `b` is added or removed. */
  function RemovePair(s: string, a: char, b: char): (r: string)
    ensures |r| <= |s|
    ensures forall c :: c != a && c != b ==> Count(r, c) == Count(s, c)
  {
    if |s| < 2 then s
    else if s[0] == a && s[1] == b then RemovePair(s[2..], a, b)
    else
      [s[0]] + RemovePair(s[1..], a, b)
  }
}
