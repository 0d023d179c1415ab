/**
 * User text as the bot echoes it back: escaping for Telegram's legacy
 * Markdown and the length caps applied to notes and chat messages.
 */
module Text {
  import opened Util

  /** The characters legacy Markdown gives a meaning to, in the order they are escaped. */
  const Specials: seq<char> := ['*', '_', '`', '[']

  predicate IsSpecial(c: char)
  {
    c in Specials
  }

  /** `s.replace(c, "\\" + c)`: a backslash is put before every occurrence of `c`. */
  function ReplaceChar(s: string, c: char): string
  {
    if s == [] then []
    else (if s[0] == c then ['\\', c] else [s[0]]) + ReplaceChar(s[1..], c)
  }

  /** Every character of `s` that occurs in `cs` gets a backslash before it. */
  function EscapeOnly(s: string, cs: seq<char>): string
  {
    if s == [] then []
    else (if s[0] in cs then ['\\', s[0]] else [s[0]]) + EscapeOnly(s[1..], cs)
  }

  /** The text with all four Markdown specials escaped. */
  function Escaped(s: string): string
  {
    EscapeOnly(s, Specials)
  }

  /** The number of Markdown specials in `s`. */
  function CountSpecials(s: string): nat
  {
    if s == [] then 0 else (if IsSpecial(s[0]) then 1 else 0) + CountSpecials(s[1..])
  }

  /** Reading escaped text back: a backslash followed by a special stands for that special. */
  function Unescape(s: string): string
    decreases |s|
  {
    if |s| >= 2 && s[0] == '\\' && IsSpecial(s[1]) then [s[1]] + Unescape(s[2..])
    else if s == [] then []
    else [s[0]] + Unescape(s[1..])
  }

  /**
   * `_escape_markdown`: one `replace` pass per special, in the order of
   * `Specials`; the passes together escape every special exactly once.
   */
  method EscapeMarkdown(text: string) returns (r: string)
    ensures r == Escaped(text)
  {
    r := text;
    EscapeNone(text);
    for i := 0 to |Specials|
      invariant r == EscapeOnly(text, Specials[..i])
    {
      EscapeOneMore(text, Specials[..i], Specials[i]);
      r := ReplaceChar(r, Specials[i]);
      assert Specials[..i + 1] == Specials[..i] + [Specials[i]];
    }
    assert Specials[..|Specials|] == Specials;
  }

  lemma {:induction false} EscapeNone(s: string)
    ensures EscapeOnly(s, []) == s
  {
    if s != [] {
      EscapeNone(s[1..]);
      assert s == [s[0]] + s[1..];
    }
  }

  lemma {:induction false} ReplaceCharAppend(a: string, b: string, c: char)
    ensures ReplaceChar(a + b, c) == ReplaceChar(a, c) + ReplaceChar(b, c)
  {
    if a != [] {
      assert (a + b)[1..] == a[1..] + b;
      ReplaceCharAppend(a[1..], b, c);
    } else {
      assert a + b == b;
    }
  }

  /** A further `replace` pass for a new special `c` escapes `c` as well, and nothing twice. */
  lemma {:induction false} EscapeOneMore(s: string, cs: seq<char>, c: char)
    requires c != '\\' && c !in cs
    ensures ReplaceChar(EscapeOnly(s, cs), c) == EscapeOnly(s, cs + [c])
  {
    if s != [] {
      var head := if s[0] in cs then ['\\', s[0]] else [s[0]];
      EscapeOneMore(s[1..], cs, c);
      ReplaceCharAppend(head, EscapeOnly(s[1..], cs), c);
      if s[0] in cs {
        assert ReplaceChar(head, c) == ['\\', s[0]] by {
          assert ReplaceChar(head[1..], c) == [s[0]] + ReplaceChar([], c);
        }
      } else {
        assert ReplaceChar(head, c) == (if s[0] == c then ['\\', c] else [s[0]]) + ReplaceChar([], c);
      }
    }
  }

  /** Escaping adds exactly one backslash per special character. */
  lemma {:induction false} EscapedLength(s: string)
    ensures |Escaped(s)| == |s| + CountSpecials(s)
  {
    if s != [] {
      EscapedLength(s[1..]);
    }
  }

  /** Text without specials is shown as it is. */
  lemma {:induction false} EscapedPlainText(s: string)
    requires forall i :: 0 <= i < |s| ==> !IsSpecial(s[i])
    ensures Escaped(s) == s
  {
    if s != [] {
      EscapedPlainText(s[1..]);
      assert s == [s[0]] + s[1..];
    }
  }

  /** No special character is left bare: each one in the output follows a backslash. */
  lemma {:induction false} EscapedLeavesNoBareSpecial(s: string)
    ensures var r := Escaped(s);
      forall i :: 0 <= i < |r| && IsSpecial(r[i]) ==> 0 < i && r[i - 1] == '\\'
  {
    if s != [] {
      EscapedLeavesNoBareSpecial(s[1..]);
      var rest := Escaped(s[1..]);
      var head := if IsSpecial(s[0]) then ['\\', s[0]] else [s[0]];
      assert Escaped(s) == head + rest;
      forall i | 0 <= i < |head + rest| && IsSpecial((head + rest)[i])
        ensures 0 < i && (head + rest)[i - 1] == '\\'
      {
        if i >= |head| {
          assert (head + rest)[i] == rest[i - |head|];
          if i - |head| > 0 {
            assert (head + rest)[i - 1] == rest[i - |head| - 1];
          } else {
            assert false;
          }
        }
      }
    }
  }

  /** The first character of escaped text is never a bare special. */
  lemma EscapedStart(s: string)
    requires s != []
    ensures Escaped(s)[0] == '\\' || (Escaped(s)[0] == s[0] && !IsSpecial(s[0]))
  {
  }

  /** Escaping loses nothing: reading the escaped text back gives the original. */
  lemma {:induction false} UnescapeEscaped(s: string)
    ensures Unescape(Escaped(s)) == s
    decreases |s|
  {
    if s != [] {
      var rest := Escaped(s[1..]);
      UnescapeEscaped(s[1..]);
      if IsSpecial(s[0]) {
        assert Escaped(s) == ['\\', s[0]] + rest;
        assert (['\\', s[0]] + rest)[2..] == rest;
      } else {
        assert Escaped(s) == [s[0]] + rest;
        assert ([s[0]] + rest)[1..] == rest;
        if rest != [] {
          EscapedStart(s[1..]);
        }
      }
      assert s == [s[0]] + s[1..];
    }
  }

  /** `s[:n]`: the first `n` characters, or all of `s` when it is shorter. */
  function Truncate(s: string, n: nat): (r: string)
    ensures |r| == Min(|s|, n)
    ensures r <= s
    ensures |s| <= n ==> r == s
  {
    if |s| <= n then s else s[..n]
  }
}
