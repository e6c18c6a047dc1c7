/**
 * The parts of Go's string handling and of SQL's LIKE that the core relies
 * on. Dafny strings are sequences of Unicode scalar values; Go's `len` counts
 * the bytes of the UTF-8 encoding.
 */
module GoStrings {

  /** The number of bytes UTF-8 uses for one character. */
  function CharUtf8Len(c: char): (n: nat)
    ensures 1 <= n <= 4
    ensures n == 1 <==> (c as int) < 0x80
  {
    if (c as int) < 0x80 then 1
    else if (c as int) < 0x800 then 2
    else if (c as int) < 0x10000 then 3
    else 4
  }

  /** Go's `len(s)` on a string: the length of its UTF-8 encoding. */
  function Utf8Len(s: string): nat
  {
    if s == [] then 0 else CharUtf8Len(s[0]) + Utf8Len(s[1..])
  }

  /** Go's `len` is never smaller than the number of characters... */
  lemma {:induction false} Utf8LenAtLeast(s: string)
    ensures |s| <= Utf8Len(s) <= 4 * |s|
  {
    if s != [] { Utf8LenAtLeast(s[1..]); }
  }

  /** ...and equals it exactly when every character is ASCII. */
  lemma {:induction false} Utf8LenAscii(s: string)
    ensures Utf8Len(s) == |s| <==> forall i :: 0 <= i < |s| ==> (s[i] as int) < 0x80
  {
    if s != [] {
      Utf8LenAscii(s[1..]);
      Utf8LenAtLeast(s[1..]);
      assert forall i :: 1 <= i < |s| ==> s[i] == s[1..][i - 1];
    }
  }

  /** A string of characters from U+0800 to U+FFFF, which covers kana and
      the common kanji, takes three bytes per character. */
  lemma {:induction false} Utf8LenThreeByte(s: string)
    requires forall i :: 0 <= i < |s| ==> 0x800 <= (s[i] as int) < 0x10000
    ensures Utf8Len(s) == 3 * |s|
  {
    if s != [] {
      assert forall i :: 0 <= i < |s| - 1 ==> s[1..][i] == s[i + 1];
      Utf8LenThreeByte(s[1..]);
    }
  }

  /** `strings.Join(xs, sep)`. */
  function Join(xs: seq<string>, sep: string): string
  {
    if |xs| == 0 then ""
    else if |xs| == 1 then xs[0]
    else xs[0] + sep + Join(xs[1..], sep)
  }

  /** `strings.Split(s, string(sep))` for a one-character separator. */
  function Split(s: string, sep: char): (parts: seq<string>)
    ensures |parts| >= 1
  {
    if s == [] then [""]
    else
      var rest := Split(s[1..], sep);
      if s[0] == sep then [""] + rest else [[s[0]] + rest[0]] + rest[1..]
  }

  lemma {:induction false} SplitNoSep(x: string, sep: char, tail: string)
    requires sep !in x
    ensures Split(x + [sep] + tail, sep) == [x] + Split(tail, sep)
    ensures Split(x, sep) == [x]
  {
    if x == [] {
      assert x + [sep] + tail == [sep] + tail;
      assert ([sep] + tail)[1..] == tail;
    } else {
      SplitNoSep(x[1..], sep, tail);
      assert (x + [sep] + tail)[1..] == x[1..] + [sep] + tail;
      assert [x[0]] + x[1..] == x;
    }
  }

  /** Joining lines that contain no newline and splitting the result at the
      newlines gives the lines back. */
  lemma {:induction false} SplitJoin(xs: seq<string>)
    requires |xs| >= 1
    requires forall i :: 0 <= i < |xs| ==> '\n' !in xs[i]
    ensures Split(Join(xs, "\n"), '\n') == xs
  {
    if |xs| == 1 {
      SplitNoSep(xs[0], '\n', "");
    } else {
      SplitJoin(xs[1..]);
      SplitNoSep(xs[0], '\n', Join(xs[1..], "\n"));
      assert xs == [xs[0]] + xs[1..];
    }
  }

  predicate IsPrefix(p: string, s: string)
  {
    |p| <= |s| && s[..|p|] == p
  }

  predicate IsSuffix(t: string, s: string)
  {
    |t| <= |s| && s[|s| - |t|..] == t
  }

  /** A concatenation starts with its first part and ends with its last. */
  lemma AppendEnds(s: string, t: string)
    ensures IsPrefix(s, s + t) && IsSuffix(t, s + t)
  {
    assert (s + t)[..|s|] == s;
    assert (s + t)[|s|..] == t;
  }

  lemma SuffixOfSuffix(u: string, t: string, s: string)
    requires IsSuffix(u, t)
    ensures IsSuffix(u, s + t)
  {
    assert (s + t)[|s + t| - |u|..] == t[|t| - |u|..];
  }

  /** `strings.Contains(s, k)`. */
  predicate Contains(s: string, k: string)
    decreases |s|
  {
    IsPrefix(k, s) || (s != [] && Contains(s[1..], k))
  }

  /** A string contains each of its prefixes. */
  lemma ContainsOwnPrefix(p: string, t: string)
    ensures Contains(p + t, p)
  {
    assert (p + t)[..|p|] == p;
  }

  lemma {:induction false} ContainsAt(s: string, k: string, i: nat)
    requires i + |k| <= |s| && s[i..i + |k|] == k
    ensures Contains(s, k)
  {
    if i > 0 {
      assert s[1..][i - 1..i - 1 + |k|] == s[i..i + |k|];
      ContainsAt(s[1..], k, i - 1);
    }
  }

  /** MySQL's `s LIKE pat`, where `%` matches any run of characters, `_`
      any one character, and the default escape `\` makes the character
      after it literal; a trailing `\` stands for itself. Comparison is
      exact: no collation. */
  predicate Like(s: string, pat: string)
    decreases |s| + |pat|
  {
    if pat == [] then s == []
    else if pat[0] == '\\' && |pat| >= 2 then s != [] && s[0] == pat[1] && Like(s[1..], pat[2..])
    else if pat[0] == '%' then Like(s, pat[1..]) || (s != [] && Like(s[1..], pat))
    else if pat[0] == '_' then s != [] && Like(s[1..], pat[1..])
    else s != [] && s[0] == pat[0] && Like(s[1..], pat[1..])
  }

  /** A keyword none of whose characters `LIKE` treats specially. */
  predicate NoWildcards(k: string)
  {
    forall i :: 0 <= i < |k| ==> k[i] != '%' && k[i] != '_' && k[i] != '\\'
  }

  /** A trailing `%` matches whatever follows. */
  lemma {:induction false} LikePercent(s: string)
    ensures Like(s, "%")
  {
    assert "%"[1..] == [];
    if s != [] { LikePercent(s[1..]); }
  }

  lemma {:induction false} LikePrefix(s: string, k: string)
    requires NoWildcards(k)
    ensures Like(s, k + "%") <==> IsPrefix(k, s)
  {
    if k == [] {
      assert k + "%" == "%";
      LikePercent(s);
    } else {
      assert (k + "%")[0] == k[0];
      assert (k + "%")[1..] == k[1..] + "%";
      if s != [] {
        LikePrefix(s[1..], k[1..]);
        assert IsPrefix(k, s) <==> s[0] == k[0] && IsPrefix(k[1..], s[1..]) by {
          if IsPrefix(k, s) { assert s[1..][..|k| - 1] == s[..|k|][1..]; }
          if s[0] == k[0] && IsPrefix(k[1..], s[1..]) {
            assert s[..|k|] == [s[0]] + s[1..][..|k| - 1];
          }
        }
      }
    }
  }

  /** The pattern `"%" + k + "%"` that dao/find_dao.go builds matches exactly
      the strings that contain `k`, when `k` has no wildcard of its own. */
  lemma {:induction false} LikeInfix(s: string, k: string)
    requires NoWildcards(k)
    ensures Like(s, "%" + k + "%") <==> Contains(s, k)
    decreases |s|
  {
    var pat := "%" + k + "%";
    assert pat[0] == '%' && pat[1..] == k + "%";
    LikePrefix(s, k);
    if s != [] { LikeInfix(s[1..], k); }
  }

  /** The keyword "\\" yields the pattern `%\%`, whose escaped `%` is
      literal: it matches the strings that end in `%`, not those that
      contain a backslash. */
  lemma EscapedKeyword()
    ensures Like("a%", "%" + "\\" + "%")
    ensures !Like("a\\", "%" + "\\" + "%")
  {
    var pat := "%" + "\\" + "%";
    assert pat == "%\\%" && pat[1..] == "\\%" && "\\%"[2..] == [];
    // "a%": the leading `%` skips "a", then `\%` matches the literal '%'.
    assert "a%"[1..] == "%" && "%"[1..] == [];
    assert Like("%", "\\%");
    // "a\\": `\%` needs a '%' at every position the leading `%` can leave.
    assert "a\\"[1..] == "\\" && "\\"[1..] == [];
    assert !Like("", pat) by { assert !Like("", "\\%"); }
    assert !Like("\\", pat) by { assert !Like("\\", "\\%"); }
    assert !Like("a\\", "\\%");
  }

  /** An empty keyword yields the pattern `%%`, which matches every string. */
  lemma LikeEmptyKeyword(s: string)
    ensures Like(s, "%" + "" + "%")
  {
    assert "%" + "" + "%" == "%%";
    assert "%%"[1..] == "%";
    LikePercent(s);
  }
}
