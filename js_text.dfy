/**
 * The JavaScript string operations the raffle form relies on, written out:
 * `String.prototype.trim`, the one-shot anchored replacements `replace(/^@/, '')`
 * and `replace(/\/$/, '')`, and `split('/').pop()`.
 */
module JsText {

  /** The characters `trim` removes: ECMAScript's WhiteSpace and LineTerminator
      code points, with the Unicode "Zs" category written out. */
  predicate IsWhitespace(c: char) {
    || c == '\t' || c == '\n' || c == '\U{B}' || c == '\U{C}' || c == '\r' || c == ' '
    || c == '\U{A0}' || c == '\U{1680}' || ('\U{2000}' <= c <= '\U{200A}')
    || c == '\U{2028}' || c == '\U{2029}' || c == '\U{202F}' || c == '\U{205F}'
    || c == '\U{3000}' || c == '\U{FEFF}'
  }

  predicate AllWhitespace(s: string) {
    forall k :: 0 <= k < |s| ==> IsWhitespace(s[k])
  }

  /** Neither end of `s` is whitespace. */
  predicate Trimmed(s: string) {
    s == [] || (!IsWhitespace(s[0]) && !IsWhitespace(s[|s| - 1]))
  }

  /** `trimStart`: drops the leading whitespace. */
  function TrimStart(s: string): string {
    if |s| > 0 && IsWhitespace(s[0]) then TrimStart(s[1..]) else s
  }

  /** `TrimStart` keeps the longest suffix of `s` that does not start with
      whitespace: what it cuts is all whitespace, and what it keeps does not
      start with any. */
  lemma {:induction false} TrimStartSpec(s: string)
    ensures var r := TrimStart(s);
      && |r| <= |s| && r == s[|s| - |r|..]
      && AllWhitespace(s[..|s| - |r|])
      && (r == [] || !IsWhitespace(r[0]))
  {
    if |s| > 0 && IsWhitespace(s[0]) {
      TrimStartSpec(s[1..]);
      var r := TrimStart(s[1..]);
      assert s[..|s| - |r|] == [s[0]] + s[1..][..|s| - 1 - |r|];
    }
  }

  /** `trimEnd`: drops the trailing whitespace. */
  function TrimEnd(s: string): string {
    if |s| > 0 && IsWhitespace(s[|s| - 1]) then TrimEnd(s[..|s| - 1]) else s
  }

  /** `TrimEnd` keeps the longest prefix of `s` that does not end with
      whitespace. */
  lemma {:induction false} TrimEndSpec(s: string)
    ensures var r := TrimEnd(s);
      && |r| <= |s| && r == s[..|r|]
      && AllWhitespace(s[|r|..])
      && (r == [] || !IsWhitespace(r[|r| - 1]))
  {
    if |s| > 0 && IsWhitespace(s[|s| - 1]) {
      TrimEndSpec(s[..|s| - 1]);
      var r := TrimEnd(s[..|s| - 1]);
      assert s[|r|..] == s[..|s| - 1][|r|..] + [s[|s| - 1]];
    }
  }

  /** `s.trim()`: whitespace cut from both ends. */
  function Trim(s: string): string {
    TrimEnd(TrimStart(s))
  }

  /** The trimmed string has no whitespace at either end, and it is empty
      exactly when the input is blank. */
  lemma TrimSpec(s: string)
    ensures Trimmed(Trim(s))
    ensures Trim(s) == [] <==> AllWhitespace(s)
  {
    var t := TrimStart(s);
    var r := TrimEnd(t);
    TrimStartSpec(s);
    TrimEndSpec(t);
    if r == [] {
      assert t == [] by {
        assert AllWhitespace(t);
      }
      forall k | 0 <= k < |s| ensures IsWhitespace(s[k]) {
        assert s[k] == s[..|s| - |t|][k];
      }
    }
    if |r| > 0 {
      assert r[0] == t[0];
    }
  }

  /** What `trim` keeps is one contiguous slice of the input, with nothing but
      whitespace cut away on either side. */
  lemma TrimIsSlice(s: string)
    ensures var r := Trim(s);
      exists i :: 0 <= i <= |s| - |r| && r == s[i..i + |r|] && AllWhitespace(s[..i]) && AllWhitespace(s[i + |r|..])
  {
    var t := TrimStart(s);
    var r := TrimEnd(t);
    TrimStartSpec(s);
    TrimEndSpec(t);
    var i := |s| - |t|;
    assert s[i..i + |r|] == r;
    assert s[i + |r|..] == t[|r|..];
  }

  /** Leading blanks in front of text that starts with a non-blank are all that
      `TrimStart` removes. */
  lemma {:induction false} TrimStartSkipsBlanks(pre: string, u: string)
    requires AllWhitespace(pre) && (u == [] || !IsWhitespace(u[0]))
    ensures TrimStart(pre + u) == u
  {
    if pre == [] {
      assert pre + u == u;
    } else {
      assert (pre + u)[1..] == pre[1..] + u;
      TrimStartSkipsBlanks(pre[1..], u);
    }
  }

  /** Trailing blanks after text that ends with a non-blank are all that
      `TrimEnd` removes. */
  lemma {:induction false} TrimEndSkipsBlanks(u: string, post: string)
    requires AllWhitespace(post) && (u == [] || !IsWhitespace(u[|u| - 1]))
    ensures TrimEnd(u + post) == u
  {
    if post == [] {
      assert u + post == u;
    } else {
      var s := u + post;
      assert s[..|s| - 1] == u + post[..|post| - 1];
      TrimEndSkipsBlanks(u, post[..|post| - 1]);
    }
  }

  /** Trimming finds exactly the part between blank padding, whatever the padding is:
      together with `Trim`'s contract this determines `Trim` completely. */
  lemma TrimOfPadded(pre: string, t: string, post: string)
    requires AllWhitespace(pre) && AllWhitespace(post) && Trimmed(t)
    ensures Trim(pre + t + post) == t
  {
    var s := pre + t + post;
    if t == [] {
      TrimSpec(s);
      assert AllWhitespace(s) by {
        forall k | 0 <= k < |s| ensures IsWhitespace(s[k]) {
          if k < |pre| { assert s[k] == pre[k]; } else { assert s[k] == post[k - |pre|]; }
        }
      }
    } else {
      assert s == pre + (t + post);
      TrimStartSkipsBlanks(pre, t + post);
      TrimEndSkipsBlanks(t, post);
    }
  }

  /** A string with no blank at either end is left as it is. */
  lemma TrimKeepsTrimmed(t: string)
    requires Trimmed(t)
    ensures Trim(t) == t
  {
    TrimStartSkipsBlanks([], t);
    assert [] + t == t;
    TrimEndSkipsBlanks(t, []);
    assert t + [] == t;
  }

  /** Trimming twice is trimming once. */
  lemma TrimIdempotent(s: string)
    ensures Trim(Trim(s)) == Trim(s)
  {
    TrimSpec(s);
    TrimKeepsTrimmed(Trim(s));
  }

  /** `s.replace(/^@/, '')`: removes one leading `@`, if there is one. */
  function StripLeadingAt(s: string): string {
    if |s| > 0 && s[0] == '@' then s[1..] else s
  }

  /** A leading `@` is removed, and only that one character; a string that
      does not start with `@` is left as it is. */
  lemma StripLeadingAtSpec(s: string)
    ensures var r := StripLeadingAt(s);
      && (|s| > 0 && s[0] == '@' ==> s == ['@'] + r)
      && (s == [] || s[0] != '@' ==> r == s)
  {}

  /** Putting an `@` in front and stripping it again gives back the original,
      even when the original already starts with `@`. */
  lemma StripLeadingAtUndoesPrefix(x: string)
    ensures StripLeadingAt("@" + x) == x
  {}

  /** `s.replace(/\/$/, '')`: removes one trailing `/`, if there is one. */
  function DropTrailingSlash(s: string): string {
    if |s| > 0 && s[|s| - 1] == '/' then s[..|s| - 1] else s
  }

  /** Joins parts with `sep` in between: the inverse of `Split`. */
  function Join(parts: seq<string>, sep: char): string
    requires |parts| >= 1
  {
    if |parts| == 1 then parts[0] else parts[0] + [sep] + Join(parts[1..], sep)
  }

  /** `s.split(sep)` for a one-character separator: never empty, no part contains
      the separator, and joining the parts restores `s`. */
  function Split(s: string, sep: char): (parts: seq<string>)
    ensures |parts| >= 1
    ensures forall k :: 0 <= k < |parts| ==> sep !in parts[k]
    ensures Join(parts, sep) == s
  {
    if |s| == 0 then [""]
    else
      var rest := Split(s[1..], sep);
      if s[0] == sep then
        assert ([""] + rest)[1..] == rest;
        [""] + rest
      else
        var parts := [[s[0]] + rest[0]] + rest[1..];
        assert parts[1..] == rest[1..];
        assert Join(parts, sep) == s by {
          if |rest| > 1 {
            assert Join(rest, sep) == rest[0] + [sep] + Join(rest[1..], sep);
          }
        }
        parts
  }

  /** The last part of a join is a suffix of the joined text, preceded by the
      separator unless it is the only part. */
  lemma {:induction false} JoinEndsWithLast(parts: seq<string>, sep: char)
    requires |parts| >= 1
    ensures var s, last := Join(parts, sep), parts[|parts| - 1];
      && |last| <= |s| && s[|s| - |last|..] == last
      && (|parts| > 1 ==> |last| < |s| && s[|s| - |last| - 1] == sep)
  {
    if |parts| > 1 {
      JoinEndsWithLast(parts[1..], sep);
      var tail := Join(parts[1..], sep);
      var s := parts[0] + [sep] + tail;
      var last := parts[|parts| - 1];
      assert last == parts[1..][|parts[1..]| - 1];
      assert s[|s| - |tail|..] == tail;
      assert s[|s| - |last|..] == tail[|tail| - |last|..];
      if |parts[1..]| == 1 {
        assert last == tail;
        assert s[|s| - |last| - 1] == sep;
      } else {
        assert s[|s| - |last| - 1] == tail[|tail| - |last| - 1];
      }
    }
  }

  /** `s.split('/').pop()`: the text after the last `/` (all of `s` when it has none). */
  function LastSegment(s: string): (r: string)
    ensures '/' !in r
    ensures |r| <= |s| && s[|s| - |r|..] == r
    ensures |r| < |s| ==> s[|s| - |r| - 1] == '/'
  {
    var parts := Split(s, '/');
    JoinEndsWithLast(parts, '/');
    parts[|parts| - 1]
  }

  /** Text without the separator splits into itself alone. */
  lemma {:induction false} SplitWithoutSeparator(s: string, sep: char)
    requires sep !in s
    ensures Split(s, sep) == [s]
  {
    if |s| > 0 {
      SplitWithoutSeparator(s[1..], sep);
      assert [s[0]] + s[1..] == s;
    }
  }

  /** Splitting at a separator that is followed only by separator-free text
      appends that text as the last part. */
  lemma {:induction false} SplitBeforeLastSegment(prefix: string, sep: char, segment: string)
    requires sep !in segment
    ensures Split(prefix + [sep] + segment, sep) == Split(prefix, sep) + [segment]
  {
    var s := prefix + [sep] + segment;
    if prefix == [] {
      assert s[1..] == segment;
      SplitWithoutSeparator(segment, sep);
    } else {
      assert s[1..] == prefix[1..] + [sep] + segment;
      SplitBeforeLastSegment(prefix[1..], sep, segment);
    }
  }

  /** Whatever comes before the last `/`, the segment after it is what `pop` returns. */
  lemma LastSegmentAfterSlash(prefix: string, segment: string)
    requires '/' !in segment
    ensures LastSegment(prefix + "/" + segment) == segment
  {
    SplitBeforeLastSegment(prefix, '/', segment);
  }
}
