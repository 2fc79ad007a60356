/**
 * The pieces of JavaScript string semantics that the two contact relays rely on:
 * truthiness of an optional string, the `||` operator, `String.prototype.trim`,
 * `String.prototype.includes` and `message.replace(/\n/g, "<br />")`.
 */
module JsText {
  import opened Wrappers

  /** JavaScript truthiness of a value that is either `undefined` (None) or a string:
      only a non-empty string is truthy. */
  predicate Truthy(v: Option<string>)
  {
    v.Some? && v.value != ""
  }

  /** The expression `a || b` on such values: `a` when it is truthy, otherwise `b`
      (whatever `b` is, even `undefined` or the empty string). */
  function Or(a: Option<string>, b: Option<string>): (r: Option<string>)
    ensures Truthy(r) <==> Truthy(a) || Truthy(b)
    ensures Truthy(a) ==> r == a
    ensures !Truthy(a) ==> r == b
  {
    if Truthy(a) then a else b
  }

  // ---------------------------------------------------------------------------
  // trim()

  /** The characters `String.prototype.trim` removes: the WhiteSpace and
      LineTerminator code points of ECMAScript (TAB, VT, FF, SP, NBSP, ZWNBSP,
      the Zs category, LF, CR, LS, PS). */
  predicate IsWhitespace(c: char)
  {
    c == '\t' || c == '\n' || c == '\U{000B}' || c == '\U{000C}' || c == '\r' || c == ' '
    || c == '\U{00A0}' || c == '\U{1680}' || ('\U{2000}' <= c <= '\U{200A}')
    || c == '\U{2028}' || c == '\U{2029}' || c == '\U{202F}' || c == '\U{205F}'
    || c == '\U{3000}' || c == '\U{FEFF}'
  }

  predicate AllWhitespace(s: string)
  {
    forall i :: 0 <= i < |s| ==> IsWhitespace(s[i])
  }

  /** Removes trailing whitespace: the result is the longest prefix of `s`
      that does not end in whitespace, and everything dropped is whitespace. */
  function TrimEnd(s: string): (r: string)
    ensures |r| <= |s| && r == s[..|r|]
    ensures r == [] || !IsWhitespace(r[|r| - 1])
    ensures AllWhitespace(s[|r|..])
    decreases |s|
  {
    if s != [] && IsWhitespace(s[|s| - 1]) then
      var init := s[..|s| - 1];
      var r := TrimEnd(init);
      assert init[..|r|] == s[..|r|];
      assert s[|r|..] == init[|r|..] + [s[|s| - 1]];
      r
    else s
  }

  /** Removes leading whitespace: the result is the longest suffix of `s`
      that does not start with whitespace, and everything dropped is whitespace. */
  function TrimStart(s: string): (r: string)
    ensures |r| <= |s| && r == s[|s| - |r|..]
    ensures r == [] || !IsWhitespace(r[0])
    ensures AllWhitespace(s[..|s| - |r|])
  {
    if s != [] && IsWhitespace(s[0]) then TrimStart(s[1..]) else s
  }

  /** `s.trim()` */
  function Trim(s: string): string
  {
    TrimStart(TrimEnd(s))
  }

  /** Appending whitespace does not change what TrimEnd keeps. */
  lemma {:induction false} TrimEndAppendWhitespace(a: string, w: string)
    requires AllWhitespace(w)
    ensures TrimEnd(a + w) == TrimEnd(a)
    decreases |w|
  {
    if w != [] {
      var w' := w[..|w| - 1];
      assert (a + w)[..|a + w| - 1] == a + w';
      TrimEndAppendWhitespace(a, w');
    } else {
      assert a + w == a;
    }
  }

  /** When `b` has a character that is not whitespace, trimming `a + b` at the
      end only ever cuts into `b`. */
  lemma {:induction false} TrimEndKeepsPrefix(a: string, b: string)
    requires !AllWhitespace(b)
    ensures TrimEnd(a + b) == a + TrimEnd(b)
    decreases |b|
  {
    if IsWhitespace(b[|b| - 1]) {
      var b' := b[..|b| - 1];
      assert !AllWhitespace(b') by {
        var i :| 0 <= i < |b| && !IsWhitespace(b[i]);
        assert i < |b'| && b'[i] == b[i];
      }
      assert (a + b)[..|a + b| - 1] == a + b';
      TrimEndKeepsPrefix(a, b');
    }
  }

  /** Trimming a piece framed by a leading line feed and trailing whitespace,
      when the piece itself starts with a non-whitespace character, only trims
      the end of the piece. */
  lemma TrimFramed(body: string, close: string)
    requires body != [] && !IsWhitespace(body[0])
    requires AllWhitespace(close)
    ensures Trim("\n" + body + close) == TrimEnd(body)
  {
    var framed := "\n" + body;
    assert framed + close == "\n" + body + close;
    TrimEndAppendWhitespace(framed, close);
    assert !AllWhitespace(body) by { assert !IsWhitespace(body[0]); }
    TrimEndKeepsPrefix("\n", body);
    var t := TrimEnd(body);
    TrimEndKeepsHead(body);
    assert TrimEnd(framed) == "\n" + t;
    TrimStartOfLeadingLine(t, body[0]);
  }

  /** A leading line feed before a piece that starts with a non-whitespace
      character is all TrimStart removes. */
  lemma TrimStartOfLeadingLine(t: string, c: char)
    requires t != [] && t[0] == c && !IsWhitespace(c)
    ensures TrimStart("\n" + t) == t
  {
    assert ("\n" + t)[1..] == t;
  }

  /** TrimEnd keeps a first character that is not whitespace. */
  lemma TrimEndKeepsHead(s: string)
    requires s != [] && !IsWhitespace(s[0])
    ensures TrimEnd(s) != [] && TrimEnd(s)[0] == s[0]
  {
  }

  // ---------------------------------------------------------------------------
  // replace(/\n/g, "<br />")

  const LineBreakTag: string := "<br />"

  /** Number of occurrences of `c` in `s`. */
  function Count(s: string, c: char): (n: nat)
    ensures n <= |s|
    ensures n == 0 <==> c !in s
  {
    if s == [] then 0 else (if s[0] == c then 1 else 0) + Count(s[1..], c)
  }

  /** `s.replace(/\n/g, "<br />")`: every line feed becomes a `<br />` tag. */
  function ReplaceNewlines(s: string): (r: string)
    ensures '\n' !in r
    ensures '\n' !in s ==> r == s
    ensures |r| == |s| + 5 * Count(s, '\n')
  {
    if s == [] then []
    else (if s[0] == '\n' then LineBreakTag else [s[0]]) + ReplaceNewlines(s[1..])
  }

  /** Replacement works piecewise: a message replaced as a whole equals its two
      halves replaced separately. */
  lemma {:induction false} ReplaceNewlinesAppend(a: string, b: string)
    ensures ReplaceNewlines(a + b) == ReplaceNewlines(a) + ReplaceNewlines(b)
    decreases |a|
  {
    if a != [] {
      assert (a + b)[0] == a[0];
      assert (a + b)[1..] == a[1..] + b;
      ReplaceNewlinesAppend(a[1..], b);
    } else {
      assert a + b == b;
    }
  }

  // A reference definition of the replacement: split on the line feed, join with the tag.

  /** `s.split(c)`: the pieces between occurrences of `c` (always at least one). */
  function Split(s: string, c: char): (parts: seq<string>)
    ensures |parts| == Count(s, c) + 1
    ensures forall i :: 0 <= i < |parts| ==> c !in parts[i]
  {
    if s == [] then [[]]
    else
      var rest := Split(s[1..], c);
      if s[0] == c then [[]] + rest else [[s[0]] + rest[0]] + rest[1..]
  }

  /** Splitting a string that starts with the separator. */
  lemma SplitSeparatorFirst(s: string, c: char)
    ensures Split([c] + s, c) == [[]] + Split(s, c)
  {
    assert ([c] + s)[1..] == s;
  }

  /** Splitting a string that starts with another character. */
  lemma SplitOtherFirst(h: char, s: string, c: char)
    requires h != c
    ensures Split([h] + s, c) == [[h] + Split(s, c)[0]] + Split(s, c)[1..]
  {
    assert ([h] + s)[1..] == s;
  }

  /** `parts.join(sep)` */
  function Join(parts: seq<string>, sep: string): string
  {
    if parts == [] then []
    else if |parts| == 1 then parts[0]
    else parts[0] + sep + Join(parts[1..], sep)
  }

  /** Joining after a separator-led first piece puts the separator in front. */
  lemma JoinEmptyHead(rest: seq<string>, sep: string)
    requires rest != []
    ensures Join([[]] + rest, sep) == sep + Join(rest, sep)
  {
    assert ([[]] + rest)[1..] == rest;
  }

  /** Joining after extending the first piece by one character in front. */
  lemma JoinConsHead(h: char, parts: seq<string>, sep: string)
    requires parts != []
    ensures Join([[h] + parts[0]] + parts[1..], sep) == [h] + Join(parts, sep)
  {
    var ps := [[h] + parts[0]] + parts[1..];
    assert ps[1..] == parts[1..];
    if |parts| > 1 {
      assert Join(ps, sep) == ([h] + parts[0]) + sep + Join(parts[1..], sep);
    }
  }

  /** Splitting on `c` and joining with `c` gives the string back. */
  lemma {:induction false} SplitJoinRoundTrip(s: string, c: char)
    ensures Join(Split(s, c), [c]) == s
  {
    if s != [] {
      var rest := Split(s[1..], c);
      SplitJoinRoundTrip(s[1..], c);
      if s[0] == c {
        JoinEmptyHead(rest, [c]);
      } else {
        JoinConsHead(s[0], rest, [c]);
      }
      assert s == [s[0]] + s[1..];
    }
  }

  /** The replacement is exactly "split the message into lines and join them
      with `<br />`". */
  lemma {:induction false} ReplaceNewlinesIsSplitJoin(s: string)
    ensures ReplaceNewlines(s) == Join(Split(s, '\n'), LineBreakTag)
  {
    if s != [] {
      var rest := Split(s[1..], '\n');
      ReplaceNewlinesIsSplitJoin(s[1..]);
      if s[0] == '\n' {
        JoinEmptyHead(rest, LineBreakTag);
      } else {
        JoinConsHead(s[0], rest, LineBreakTag);
      }
    }
  }

  // ---------------------------------------------------------------------------
  // includes()

  /** `s.includes(t)`: `t` occurs in `s` as a contiguous piece. */
  predicate Contains(s: string, t: string)
  {
    exists i :: 0 <= i <= |s| && t <= s[i..]
  }

  /** Every string includes itself. */
  lemma ContainsSelf(s: string)
    ensures Contains(s, s)
  {
    assert s <= s[0..];
  }

  /** For a one-character needle, `includes` is membership. */
  lemma ContainsChar(s: string, c: char)
    ensures Contains(s, [c]) <==> c in s
  {
    if c in s {
      var i :| 0 <= i < |s| && s[i] == c;
      assert [c] <= s[i..];
    }
    if Contains(s, [c]) {
      var i :| 0 <= i <= |s| && [c] <= s[i..];
      assert s[i] == c;
    }
  }

  /** `s.startsWith(p)` */
  predicate StartsWith(s: string, p: string)
  {
    p <= s
  }
}
