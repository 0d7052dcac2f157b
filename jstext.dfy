/**
  The JavaScript string operations the handshake codes rely on: the `\s` character class,
  `s.replace(/\s/g, '')`, `s.trim()` and `s.split(sep)` for a one-character separator.
*/
module JsText {

  /**
    The characters JavaScript's `\s` matches (the WhiteSpace and LineTerminator productions
    of ECMAScript): TAB, LF, VT, FF, CR, SPACE, NO-BREAK SPACE, OGHAM SPACE MARK,
    U+2000 to U+200A, LINE and PARAGRAPH SEPARATOR, NARROW NO-BREAK SPACE,
    MEDIUM MATHEMATICAL SPACE, IDEOGRAPHIC SPACE and ZERO WIDTH NO-BREAK SPACE.
    `trim()` removes the same characters.
  */
  predicate IsWhitespace(c: char)
  {
    var n := c as int;
    (0x09 <= n <= 0x0D) || n == 0x20 || n == 0xA0 || n == 0x1680 || (0x2000 <= n <= 0x200A)
    || n == 0x2028 || n == 0x2029 || n == 0x202F || n == 0x205F || n == 0x3000 || n == 0xFEFF
  }

  predicate NoWhitespace(s: string)
  {
    forall i :: 0 <= i < |s| ==> !IsWhitespace(s[i])
  }

  predicate AllWhitespace(s: string)
  {
    forall i :: 0 <= i < |s| ==> IsWhitespace(s[i])
  }

  /** `s.replace(/\s/g, '')`: the characters of `s` that are not whitespace, in order. */
  function RemoveWhitespace(s: string): (t: string)
    ensures NoWhitespace(t)
    ensures |t| <= |s|
  {
    if |s| == 0 then []
    else if IsWhitespace(s[0]) then RemoveWhitespace(s[1..])
    else [s[0]] + RemoveWhitespace(s[1..])
  }

  function TrimStart(s: string): (t: string)
    ensures |t| > 0 ==> !IsWhitespace(t[0])
    decreases |s|
  {
    if |s| > 0 && IsWhitespace(s[0]) then TrimStart(s[1..]) else s
  }

  function TrimEnd(s: string): (t: string)
    ensures |t| > 0 ==> !IsWhitespace(t[|t| - 1])
    ensures |t| <= |s| && t == s[..|t|]
    decreases |s|
  {
    if |s| > 0 && IsWhitespace(s[|s| - 1]) then TrimEnd(s[..|s| - 1]) else s
  }

  /** `s.trim()`. */
  function Trim(s: string): (t: string)
    ensures |t| > 0 ==> !IsWhitespace(t[0]) && !IsWhitespace(t[|t| - 1])
  {
    TrimEnd(TrimStart(s))
  }

  /** `s.split(d)` for a one-character separator `d`: never empty, one more part than separators. */
  function Split(s: string, d: char): (parts: seq<string>)
    ensures |parts| >= 1
    decreases |s|
  {
    if |s| == 0 then [[]]
    else if s[0] == d then [[]] + Split(s[1..], d)
    else
      var rest := Split(s[1..], d);
      [[s[0]] + rest[0]] + rest[1..]
  }

  /** `parts.join(d)`. */
  function Join(parts: seq<string>, d: char): string
    requires |parts| >= 1
    decreases |parts|
  {
    if |parts| == 1 then parts[0] else parts[0] + [d] + Join(parts[1..], d)
  }

  // ---------------------------------------------------------------------------
  // Properties

  /** Removing whitespace distributes over concatenation. */
  lemma {:induction false} RemoveWhitespaceConcat(a: string, b: string)
    ensures RemoveWhitespace(a + b) == RemoveWhitespace(a) + RemoveWhitespace(b)
    decreases |a|
  {
    if |a| > 0 {
      assert (a + b)[1..] == a[1..] + b;
      RemoveWhitespaceConcat(a[1..], b);
    } else {
      assert a + b == b;
    }
  }

  lemma {:induction false} RemoveWhitespaceOfBlank(w: string)
    requires AllWhitespace(w)
    ensures RemoveWhitespace(w) == []
    decreases |w|
  {
    if |w| > 0 {
      RemoveWhitespaceOfBlank(w[1..]);
    }
  }

  lemma {:induction false} RemoveWhitespaceNoop(s: string)
    requires NoWhitespace(s)
    ensures RemoveWhitespace(s) == s
    decreases |s|
  {
    if |s| > 0 {
      RemoveWhitespaceNoop(s[1..]);
      assert s == [s[0]] + s[1..];
    }
  }

  /** Whitespace inserted anywhere into a text is removed again: the result is the same as without it. */
  lemma RemoveWhitespaceInsert(a: string, w: string, b: string)
    requires AllWhitespace(w)
    ensures RemoveWhitespace(a + w + b) == RemoveWhitespace(a + b)
  {
    RemoveWhitespaceConcat(a + w, b);
    RemoveWhitespaceConcat(a, w);
    RemoveWhitespaceOfBlank(w);
    RemoveWhitespaceConcat(a, b);
  }

  lemma {:induction false} RemoveWhitespaceTrimStart(s: string)
    ensures RemoveWhitespace(TrimStart(s)) == RemoveWhitespace(s)
    decreases |s|
  {
    if |s| > 0 && IsWhitespace(s[0]) {
      RemoveWhitespaceTrimStart(s[1..]);
    }
  }

  lemma {:induction false} RemoveWhitespaceTrimEnd(s: string)
    ensures RemoveWhitespace(TrimEnd(s)) == RemoveWhitespace(s)
    decreases |s|
  {
    if |s| > 0 && IsWhitespace(s[|s| - 1]) {
      var init := s[..|s| - 1];
      RemoveWhitespaceTrimEnd(init);
      assert s == init + [s[|s| - 1]];
      RemoveWhitespaceConcat(init, [s[|s| - 1]]);
      RemoveWhitespaceOfBlank([s[|s| - 1]]);
    }
  }

  /** Trimming first changes nothing once all whitespace is removed. */
  lemma RemoveWhitespaceTrim(s: string)
    ensures RemoveWhitespace(Trim(s)) == RemoveWhitespace(s)
  {
    RemoveWhitespaceTrimEnd(TrimStart(s));
    RemoveWhitespaceTrimStart(s);
  }

  /** Splitting and joining again gives back the text, and no part contains the separator. */
  lemma {:induction false} JoinSplit(s: string, d: char)
    ensures Join(Split(s, d), d) == s
    ensures forall k :: 0 <= k < |Split(s, d)| ==> d !in Split(s, d)[k]
    decreases |s|
  {
    if |s| > 0 {
      JoinSplit(s[1..], d);
      var rest := Split(s[1..], d);
      if s[0] == d {
        assert Split(s, d)[1..] == rest;
        assert s == [] + [d] + s[1..];
      } else {
        var parts := Split(s, d);
        assert parts[1..] == rest[1..];
        if |rest| == 1 {
          assert s == [s[0]] + rest[0];
        } else {
          assert Join(rest, d) == rest[0] + [d] + Join(rest[1..], d);
          assert s == ([s[0]] + rest[0]) + [d] + Join(rest[1..], d);
        }
      }
    }
  }

  /** The joined text begins with the first part. */
  lemma JoinHead(parts: seq<string>, d: char)
    requires |parts| >= 1
    ensures parts[0] <= Join(parts, d)
  {
  }

  /** A text split into two parts or more begins with the first part, the separator and the second part. */
  lemma SplitPrefix(s: string, d: char)
    ensures |Split(s, d)| >= 2 ==> Split(s, d)[0] + [d] + Split(s, d)[1] <= s
  {
    var parts := Split(s, d);
    JoinSplit(s, d);
    if |parts| >= 2 {
      assert Join(parts, d) == parts[0] + [d] + Join(parts[1..], d);
      JoinHead(parts[1..], d);
      assert parts[1..][0] == parts[1];
    }
  }

  /** A text without the separator splits into itself alone. */
  lemma {:induction false} SplitWithout(s: string, d: char)
    requires d !in s
    ensures Split(s, d) == [s]
    decreases |s|
  {
    if |s| > 0 {
      assert d !in s[1..];
      SplitWithout(s[1..], d);
      assert s == [s[0]] + s[1..];
    }
  }

  /** The first part of a split ends at the first separator. */
  lemma {:induction false} SplitAt(a: string, d: char, b: string)
    requires d !in a
    ensures Split(a + [d] + b, d) == [a] + Split(b, d)
    decreases |a|
  {
    if |a| == 0 {
      assert a + [d] + b == [d] + b;
      assert ([d] + b)[1..] == b;
    } else {
      var s := a + [d] + b;
      assert s[0] == a[0];
      assert s[1..] == a[1..] + [d] + b;
      assert d !in a[1..];
      SplitAt(a[1..], d, b);
      assert a == [a[0]] + a[1..];
    }
  }
}
