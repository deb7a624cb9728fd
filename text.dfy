/**
 * Text helpers shared by the Python and the JavaScript parts of the model:
 * substring search, the two languages' notions of white space, trimming,
 * ASCII lower-casing and Python's `str.split("\n")`.
 */
module Text {
  import opened Seqs

  /** `sub` occurs in `s` starting at index `i`. */
  predicate OccursAt(s: string, sub: string, i: int) {
    0 <= i && i + |sub| <= |s| && s[i..i + |sub|] == sub
  }

  /** Python's `sub in s` and JavaScript's `s.includes(sub)`. */
  predicate Contains(s: string, sub: string) {
    exists i | 0 <= i <= |s| - |sub| :: OccursAt(s, sub, i)
  }

  /** An occurrence inside a part is an occurrence in the whole. */
  lemma ContainsInAppend(a: string, b: string, sub: string)
    requires Contains(a, sub) || Contains(b, sub)
    ensures Contains(a + b, sub)
  {
    if Contains(a, sub) {
      var i :| 0 <= i <= |a| - |sub| && OccursAt(a, sub, i);
      assert (a + b)[i..i + |sub|] == a[i..i + |sub|];
      assert OccursAt(a + b, sub, i);
    } else {
      var i :| 0 <= i <= |b| - |sub| && OccursAt(b, sub, i);
      var j := |a| + i;
      assert (a + b)[j..j + |sub|] == b[i..i + |sub|];
      assert OccursAt(a + b, sub, j);
    }
  }

  /** Which language's definition of white space applies. */
  datatype Language = Python | JavaScript

  /**
   * Python's `str.isspace` for one character, and the characters matched by
   * JavaScript's `\s` (which `String.prototype.trim` also removes).
   */
  predicate IsSpace(c: char, lang: Language) {
    || c == '\t' || c == '\n' || c == '\U{000B}' || c == '\U{000C}' || c == '\r'
    || c == ' ' || c == '\U{00A0}' || c == '\U{1680}'
    || ('\U{2000}' <= c <= '\U{200A}')
    || c == '\U{2028}' || c == '\U{2029}' || c == '\U{202F}' || c == '\U{205F}' || c == '\U{3000}'
    || (lang == Python && (('\U{001C}' <= c <= '\U{001F}') || c == '\U{0085}'))
    || (lang == JavaScript && c == '\U{FEFF}')
  }

  /** Every character of `s` is white space (vacuously so for ""). */
  predicate AllSpace(s: string, lang: Language) {
    forall i :: 0 <= i < |s| ==> IsSpace(s[i], lang)
  }

  /** No character of `s` is white space. */
  predicate NoSpace(s: string, lang: Language) {
    forall i :: 0 <= i < |s| ==> !IsSpace(s[i], lang)
  }

  /** Leading white space removed. */
  function TrimStart(s: string, lang: Language): (r: string)
    ensures |r| <= |s|
  {
    if s != [] && IsSpace(s[0], lang) then TrimStart(s[1..], lang) else s
  }

  /** Trailing white space removed. */
  function TrimEnd(s: string, lang: Language): (r: string)
    ensures |r| <= |s|
  {
    if s != [] && IsSpace(s[|s| - 1], lang) then TrimEnd(s[..|s| - 1], lang) else s
  }

  /** Python's `s.strip()` and JavaScript's `s.trim()`. */
  function Trim(s: string, lang: Language): (r: string)
    ensures |r| <= |s|
  {
    TrimEnd(TrimStart(s, lang), lang)
  }

  lemma {:induction false} TrimStartEmptyIff(s: string, lang: Language)
    ensures TrimStart(s, lang) == "" <==> AllSpace(s, lang)
  {
    if s != [] && IsSpace(s[0], lang) {
      TrimStartEmptyIff(s[1..], lang);
      assert AllSpace(s, lang) <==> AllSpace(s[1..], lang) by {
        if AllSpace(s[1..], lang) {
          forall i | 0 <= i < |s| ensures IsSpace(s[i], lang) {
            if i > 0 { assert s[i] == s[1..][i - 1]; }
          }
        }
      }
    }
  }

  lemma {:induction false} TrimEndEmptyIff(s: string, lang: Language)
    ensures TrimEnd(s, lang) == "" <==> AllSpace(s, lang)
  {
    if s != [] && IsSpace(s[|s| - 1], lang) {
      var init := s[..|s| - 1];
      TrimEndEmptyIff(init, lang);
      assert AllSpace(s, lang) <==> AllSpace(init, lang) by {
        if AllSpace(init, lang) {
          forall i | 0 <= i < |s| ensures IsSpace(s[i], lang) {
            if i < |s| - 1 { assert s[i] == init[i]; }
          }
        }
      }
    }
  }

  /** The first character left by `TrimStart` is not white space. */
  lemma {:induction false} TrimStartHead(s: string, lang: Language)
    ensures var r := TrimStart(s, lang); r == [] || !IsSpace(r[0], lang)
  {
    if s != [] && IsSpace(s[0], lang) {
      TrimStartHead(s[1..], lang);
    }
  }

  /** Trimming leaves nothing exactly when the string is all white space. */
  lemma TrimEmptyIff(s: string, lang: Language)
    ensures Trim(s, lang) == "" <==> AllSpace(s, lang)
  {
    var t := TrimStart(s, lang);
    TrimStartEmptyIff(s, lang);
    TrimEndEmptyIff(t, lang);
    TrimStartHead(s, lang);
    assert t != [] ==> !AllSpace(t, lang);
  }

  /** ASCII lower-casing of one character. */
  function LowerChar(c: char): (r: char)
    ensures 'A' <= c <= 'Z' ==> 'a' <= r <= 'z'
    ensures !('A' <= c <= 'Z') ==> r == c
  {
    if 'A' <= c <= 'Z' then (c as int - 'A' as int + 'a' as int) as char else c
  }

  /** `s.lower()`, restricted to ASCII letters. */
  function Lower(s: string): (r: string)
    ensures |r| == |s|
    ensures forall i :: 0 <= i < |s| ==> r[i] == LowerChar(s[i])
  {
    seq(|s|, i requires 0 <= i < |s| => LowerChar(s[i]))
  }

  /** Lower-casing twice is lower-casing once. */
  lemma LowerIdempotent(s: string)
    ensures Lower(Lower(s)) == Lower(s)
  {
    var l := Lower(s);
    assert forall i | 0 <= i < |s| :: Lower(l)[i] == LowerChar(l[i]) == LowerChar(LowerChar(s[i])) == l[i];
  }

  /** Lower-casing works character by character, so it distributes over concatenation. */
  lemma LowerAppend(a: string, b: string)
    ensures Lower(a + b) == Lower(a) + Lower(b)
  {
    var l := Lower(a + b);
    forall i | 0 <= i < |a + b|
      ensures l[i] == (Lower(a) + Lower(b))[i]
    {
      if i < |a| {
        assert (a + b)[i] == a[i];
      } else {
        assert (a + b)[i] == b[i - |a|];
      }
    }
  }

  /** A string with no ASCII capital is its own lower-case form. */
  lemma LowerNoCapitals(s: string)
    requires forall i :: 0 <= i < |s| ==> !('A' <= s[i] <= 'Z')
    ensures Lower(s) == s
  {
    var l := Lower(s);
    assert forall i | 0 <= i < |s| :: l[i] == s[i];
  }

  /**
   * JavaScript's `s.length`: the number of UTF-16 code units, one for each
   * character of the Basic Multilingual Plane and two (a surrogate pair) for
   * each character beyond U+FFFF.
   */
  function Utf16Length(s: string): (n: nat)
    ensures |s| <= n <= 2 * |s|
    decreases |s|
  {
    if s == [] then 0
    else Utf16Length(s[..|s| - 1]) + (if s[|s| - 1] >= '\U{10000}' then 2 else 1)
  }

  /** Code units add up over a concatenation. */
  lemma {:induction false} Utf16LengthAppend(a: string, b: string)
    ensures Utf16Length(a + b) == Utf16Length(a) + Utf16Length(b)
    decreases |b|
  {
    if b == [] {
      assert a + b == a;
    } else {
      var b' := b[..|b| - 1];
      assert (a + b)[..|a + b| - 1] == a + b';
      assert (a + b)[|a + b| - 1] == b[|b| - 1];
      Utf16LengthAppend(a, b');
    }
  }

  /** Without characters beyond U+FFFF, the UTF-16 length is the number of characters. */
  lemma {:induction false} Utf16LengthBmp(s: string)
    requires forall i :: 0 <= i < |s| ==> s[i] < '\U{10000}'
    ensures Utf16Length(s) == |s|
    decreases |s|
  {
    if s != [] {
      Utf16LengthBmp(s[..|s| - 1]);
    }
  }

  /** A character beyond U+FFFF takes two code units. */
  lemma Utf16LengthAstral(c: char)
    requires c >= '\U{10000}'
    ensures Utf16Length([c]) == 2
  {
    assert [c][..0] == [];
  }

  /** Index of the first occurrence of `c` in `s`. */
  function IndexOf(s: string, c: char): (k: nat)
    requires c in s
    ensures k < |s| && s[k] == c && c !in s[..k]
  {
    if s[0] == c then 0 else 1 + IndexOf(s[1..], c)
  }

  /** Number of occurrences of `c` in `s`. */
  function Count(s: string, c: char): (n: nat)
    ensures n <= |s|
    ensures n == 0 <==> c !in s
  {
    if s == [] then 0 else (if s[0] == c then 1 else 0) + Count(s[1..], c)
  }

  lemma {:induction false} CountAppend(a: string, b: string, c: char)
    ensures Count(a + b, c) == Count(a, c) + Count(b, c)
  {
    if a == [] {
      assert a + b == b;
    } else {
      assert (a + b)[0] == a[0];
      assert (a + b)[1..] == a[1..] + b;
      CountAppend(a[1..], b, c);
    }
  }

  /** Each line followed by "\n", concatenated. */
  function Unlines(lines: seq<string>): string {
    if lines == [] then "" else lines[0] + "\n" + Unlines(lines[1..])
  }

  lemma {:induction false} UnlinesAppend(a: seq<string>, b: seq<string>)
    ensures Unlines(a + b) == Unlines(a) + Unlines(b)
  {
    if a == [] {
      assert a + b == b;
    } else {
      assert (a + b)[0] == a[0];
      assert (a + b)[1..] == a[1..] + b;
      UnlinesAppend(a[1..], b);
    }
  }

  /** No line contains a newline. */
  predicate NoNewlines(lines: seq<string>) {
    forall i :: 0 <= i < |lines| ==> '\n' !in lines[i]
  }

  /**
   * Python's `s.split("\n")`: the pieces between newlines, always at least
   * one, none holding a newline.
   */
  function SplitLines(s: string): (r: seq<string>)
    ensures |r| >= 1 && NoNewlines(r)
    decreases |s|
  {
    if '\n' !in s then [s]
    else
      var k := IndexOf(s, '\n');
      [s[..k]] + SplitLines(s[k + 1..])
  }

  /** Joining the pieces of a split with newlines gives back the text. */
  lemma {:induction false} SplitLinesJoin(s: string)
    ensures var r := SplitLines(s); Unlines(r[..|r| - 1]) + r[|r| - 1] == s
    decreases |s|
  {
    if '\n' in s {
      var k := IndexOf(s, '\n');
      var head, tail := s[..k], s[k + 1..];
      var rest := SplitLines(tail);
      assert SplitLines(s) == [head] + rest;
      SplitLinesJoin(tail);
      JoinCons(head, rest, tail);
      SplitAround(s, k);
    }
  }

  /**
   * The last piece of a split holds no newline, the pieces before it joined
   * with newlines give back the rest, and without a newline there is only
   * the one piece.
   */
  lemma SplitLinesLast(s: string)
    ensures var r := SplitLines(s);
            && '\n' !in r[|r| - 1]
            && Unlines(r[..|r| - 1]) + r[|r| - 1] == s
            && ('\n' !in s ==> r[..|r| - 1] == [] && r[|r| - 1] == s)
  {
    SplitLinesJoin(s);
  }

  /** Putting one more piece in front of a split's pieces. */
  lemma JoinCons(head: string, rest: seq<string>, tail: string)
    requires rest != [] && Unlines(rest[..|rest| - 1]) + rest[|rest| - 1] == tail
    ensures var r := [head] + rest; Unlines(r[..|r| - 1]) + r[|r| - 1] == head + "\n" + tail
  {
    var r := [head] + rest;
    var init, last := rest[..|rest| - 1], rest[|rest| - 1];
    assert r[..|r| - 1] == [head] + init && r[|r| - 1] == last;
    assert ([head] + init)[1..] == init;
    assert (head + "\n" + Unlines(init)) + last == head + "\n" + (Unlines(init) + last);
  }

  /** A first line without a newline splits off as the first piece. */
  lemma SplitFirstLine(l: string, more: string)
    requires '\n' !in l
    ensures SplitLines(l + "\n" + more) == [l] + SplitLines(more)
  {
    var s := l + "\n" + more;
    assert s[|l|] == '\n' && s[..|l|] == l;
    IndexOfIs(s, '\n', |l|);
    assert s[|l| + 1..] == more;
  }

  /** A string is the text before a newline, the newline, and the text after it. */
  lemma SplitAround(s: string, k: nat)
    requires k < |s| && s[k] == '\n'
    ensures s[..k] + "\n" + s[k + 1..] == s
  {
    assert s == s[..k] + [s[k]] + s[k + 1..];
  }

  /** `IndexOf` finds the first occurrence and no other. */
  lemma {:induction false} IndexOfIs(s: string, c: char, k: nat)
    requires k < |s| && s[k] == c && c !in s[..k]
    ensures IndexOf(s, c) == k
  {
    if k > 0 {
      assert s[0] == s[..k][0];
      assert s[1..][..k - 1] == s[1..k];
      IndexOfIs(s[1..], c, k - 1);
    }
  }

  /**
   * Round trip: splitting newline-terminated lines followed by a tail gives
   * back exactly those lines and that tail.
   */
  lemma {:induction false} SplitLinesOfUnlines(lines: seq<string>, tail: string)
    requires NoNewlines(lines) && '\n' !in tail
    ensures SplitLines(Unlines(lines) + tail) == lines + [tail]
  {
    if lines == [] {
      assert Unlines(lines) + tail == tail;
    } else {
      NoNewlinesParts(lines);
      SplitLinesOfUnlines(lines[1..], tail);
      SplitLinesConsLine(lines, tail);
    }
  }

  /** One step of the round trip: a first line in front of lines that already round-trip. */
  lemma SplitLinesConsLine(lines: seq<string>, tail: string)
    requires lines != [] && '\n' !in lines[0]
    requires SplitLines(Unlines(lines[1..]) + tail) == lines[1..] + [tail]
    ensures SplitLines(Unlines(lines) + tail) == lines + [tail]
  {
    var l, rest := lines[0], lines[1..];
    var more := Unlines(rest) + tail;
    var s := Unlines(lines) + tail;
    UnlinesCons(lines, tail);
    assert s == l + "\n" + more;
    SplitFirstLine(l, more);
    assert SplitLines(s) == [l] + SplitLines(more);
    ConsSnoc(lines, tail);
  }

  /** The first line and the remaining lines of a newline-free list are newline-free. */
  lemma NoNewlinesParts(lines: seq<string>)
    requires lines != [] && NoNewlines(lines)
    ensures '\n' !in lines[0] && NoNewlines(lines[1..])
  {
    forall i | 0 <= i < |lines| - 1
      ensures '\n' !in lines[1..][i]
    {
      assert lines[1..][i] == lines[i + 1];
    }
  }

  /** Joining a non-empty list puts the first line, a newline, then the rest. */
  lemma UnlinesCons(lines: seq<string>, tail: string)
    requires lines != []
    ensures Unlines(lines) + tail == lines[0] + "\n" + (Unlines(lines[1..]) + tail)
  {
  }
}
