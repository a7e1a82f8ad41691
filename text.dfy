/**
 * The JavaScript string operations the application relies on, over
 * `seq<char>`: case folding, `includes`, `startsWith`, `trim`, `split`
 * and `join`.
 */
module Text {

  // ---------------------------------------------------------------------
  // Case folding (ASCII and Latin-1 letters)
  // ---------------------------------------------------------------------

  /**
   * `toLowerCase` on one character: A-Z and the Latin-1 capitals
   * (U+00C0 to U+00DE, except the multiplication sign) move up by 32;
   * everything else is left alone.
   */
  function Lower(c: char): char
  {
    if 'A' <= c <= 'Z' || ('\U{00C0}' <= c <= '\U{00DE}' && c != '\U{00D7}') then (c as int + 32) as char else c
  }

  /**
   * `toUpperCase` on one character: a-z and the Latin-1 small letters
   * (U+00E0 to U+00FE, except the division sign) move down by 32;
   * everything else is left alone.
   */
  function Upper(c: char): char
  {
    if 'a' <= c <= 'z' || ('\U{00E0}' <= c <= '\U{00FE}' && c != '\U{00F7}') then (c as int - 32) as char else c
  }

  function LowerStr(s: string): (r: string)
    ensures |r| == |s|
    ensures forall i :: 0 <= i < |s| ==> r[i] == Lower(s[i])
    decreases |s|
  {
    if |s| == 0 then "" else [Lower(s[0])] + LowerStr(s[1..])
  }

  function UpperStr(s: string): (r: string)
    ensures |r| == |s|
    ensures forall i :: 0 <= i < |s| ==> r[i] == Upper(s[i])
    decreases |s|
  {
    if |s| == 0 then "" else [Upper(s[0])] + UpperStr(s[1..])
  }

  // ---------------------------------------------------------------------
  // Substring search
  // ---------------------------------------------------------------------

  /** `s.startsWith(p)`. */
  predicate StartsWith(s: string, p: string)
  {
    p <= s
  }

  /** `s.includes(t)`: `t` occurs somewhere in `s`. */
  predicate Contains(s: string, t: string)
    decreases |s|
  {
    t <= s || (|s| > 0 && Contains(s[1..], t))
  }

  /** `s.toLowerCase().includes(t.toLowerCase())`. */
  predicate IncludesFolded(s: string, t: string)
  {
    Contains(LowerStr(s), LowerStr(t))
  }

  /** Every string includes the empty search term. */
  lemma IncludesEmpty(s: string)
    ensures IncludesFolded(s, "")
  {
    assert LowerStr("") == "";
    assert "" <= LowerStr(s);
  }

  /** A search term that matches still matches with its last characters deleted. */
  lemma IncludesFoldedPrefix(s: string, t: string, u: string)
    requires t <= u && IncludesFolded(s, u)
    ensures IncludesFolded(s, t)
  {
    var lt, lu := LowerStr(t), LowerStr(u);
    assert lu[..|lt|] == lt;
    ContainsAt(lu, lt, 0);
    ContainsTransitive(LowerStr(s), lu, lt);
  }

  /** An occurrence at a known position is an occurrence. */
  lemma {:induction false} ContainsAt(s: string, t: string, i: nat)
    requires i + |t| <= |s| && s[i..i + |t|] == t
    ensures Contains(s, t)
    decreases i
  {
    if i == 0 {
      assert t == s[..|t|];
    } else {
      assert s[1..][i - 1..i - 1 + |t|] == s[i..i + |t|];
      ContainsAt(s[1..], t, i - 1);
    }
  }

  /** Every occurrence has a position. */
  lemma {:induction false} ContainsIndex(s: string, t: string) returns (i: nat)
    requires Contains(s, t)
    ensures i + |t| <= |s| && s[i..i + |t|] == t
    decreases |s|
  {
    if t <= s {
      i := 0;
    } else {
      var j := ContainsIndex(s[1..], t);
      i := j + 1;
      assert s[i..i + |t|] == s[1..][j..j + |t|];
    }
  }

  /** A string cannot occur where one of its characters is missing. */
  lemma {:induction false} NotContainsChar(s: string, t: string, j: nat)
    requires j < |t| && t[j] !in s
    ensures !Contains(s, t)
    decreases |s|
  {
    if |s| > 0 {
      assert s == [s[0]] + s[1..];
      NotContainsChar(s[1..], t, j);
    }
  }

  /** Occurrence is transitive: a string inside a string inside `s` is inside `s`. */
  lemma ContainsTransitive(s: string, t: string, u: string)
    requires Contains(s, t) && Contains(t, u)
    ensures Contains(s, u)
  {
    var i := ContainsIndex(s, t);
    var k := ContainsIndex(t, u);
    assert forall m :: 0 <= m < |u| ==> u[m] == t[k + m] == s[i + k + m];
    assert s[i + k..i + k + |u|] == u;
    ContainsAt(s, u, i + k);
  }

  /** Whatever occurs in `s` occurs in `s` with more text around it. */
  lemma ContainsExtended(a: string, s: string, b: string, t: string)
    requires Contains(s, t)
    ensures Contains(a + s + b, t)
  {
    var i := ContainsIndex(s, t);
    assert (a + s + b)[|a| + i..|a| + i + |t|] == s[i..i + |t|];
    ContainsAt(a + s + b, t, |a| + i);
  }
  /** An occurrence survives text added in front. */
  lemma ContainsAfter(a: string, s: string, t: string)
    requires Contains(s, t)
    ensures Contains(a + s, t)
  {
    ContainsExtended(a, s, "", t);
    assert a + s + "" == a + s;
  }

  /** An occurrence survives text added behind. */
  lemma ContainsBefore(s: string, b: string, t: string)
    requires Contains(s, t)
    ensures Contains(s + b, t)
  {
    ContainsExtended("", s, b, t);
    assert "" + s + b == s + b;
  }


  /**
   * When `c` occurs in `x + [c] + y` only between `x` and `y`, an
   * occurrence of `t` must line its own `c` up with that position, so
   * `x` would have to end with the part of `t` before it.
   */
  lemma {:induction false} NotContainsAroundChar(x: string, c: char, y: string, t: string, j: nat)
    requires c !in x && c !in y
    requires j < |t| && t[j] == c
    requires j > |x| || x[|x| - j..] != t[..j]
    ensures !Contains(x + [c] + y, t)
  {
    var s := x + [c] + y;
    if Contains(s, t) {
      var p := ContainsIndex(s, t);
      OccurrenceAlignsChar(x, c, y, t, j, p);
    }
  }

  /** An occurrence of `t` in `x + [c] + y` puts the `c` of `t` on the only `c` there. */
  lemma OccurrenceAlignsChar(x: string, c: char, y: string, t: string, j: nat, p: nat)
    requires c !in x && c !in y
    requires j < |t| && t[j] == c
    requires p + |t| <= |x| + 1 + |y| && (x + [c] + y)[p..p + |t|] == t
    ensures p + j == |x| && j <= |x| && x[|x| - j..] == t[..j]
  {
    var s := x + [c] + y;
    assert s[p + j] == t[j];
    assert forall k :: 0 <= k < |x| ==> s[k] == x[k];
    assert forall k :: |x| < k < |s| ==> s[k] == y[k - |x| - 1];
    assert x[|x| - j..] == s[p..p + j];
  }


  // ---------------------------------------------------------------------
  // Numbers
  // ---------------------------------------------------------------------

  function DigitChar(d: nat): char
    requires d < 10
  {
    "0123456789"[d]
  }

  /** `String(n)` for a natural number. */
  function NatToString(n: nat): (r: string)
    ensures |r| >= 1
    decreases n
  {
    if n < 10 then [DigitChar(n)] else NatToString(n / 10) + [DigitChar(n % 10)]
  }

  /** `String(n)` for any integer: a minus sign before the magnitude. */
  function IntToString(n: int): string
  {
    if n >= 0 then NatToString(n) else "-" + NatToString(-n)
  }

  // ---------------------------------------------------------------------
  // Trimming
  // ---------------------------------------------------------------------

  /**
   * The white space and line terminators `trim` removes: tab, line feed,
   * vertical tab, form feed, carriage return, space, no-break space, the
   * Unicode space separators, the line and paragraph separators and the
   * byte order mark.
   */
  predicate IsSpace(c: char)
  {
    || c == ' ' || c == '\t' || c == '\n' || c == '\U{000B}' || c == '\U{000C}' || c == '\r'
    || c == '\U{00A0}' || c == '\U{1680}' || ('\U{2000}' <= c <= '\U{200A}')
    || c == '\U{2028}' || c == '\U{2029}' || c == '\U{202F}' || c == '\U{205F}'
    || c == '\U{3000}' || c == '\U{FEFF}'
  }

  function TrimStart(s: string): string
    decreases |s|
  {
    if |s| > 0 && IsSpace(s[0]) then TrimStart(s[1..]) else s
  }

  function TrimEnd(s: string): string
    decreases |s|
  {
    if |s| > 0 && IsSpace(s[|s| - 1]) then TrimEnd(s[..|s| - 1]) else s
  }

  /** `s.trim()`. */
  function Trim(s: string): string
  {
    TrimEnd(TrimStart(s))
  }

  /** `s.trim() === ''`: written `!s.trim()` throughout the application. */
  predicate Blank(s: string)
  {
    Trim(s) == ""
  }

  lemma {:induction false} TrimStartBlank(s: string)
    ensures TrimStart(s) == "" <==> forall i :: 0 <= i < |s| ==> IsSpace(s[i])
    decreases |s|
  {
    if |s| > 0 {
      TrimStartBlank(s[1..]);
      assert forall i :: 1 <= i < |s| ==> s[i] == s[1..][i - 1];
    }
  }

  lemma {:induction false} TrimEndNonEmpty(s: string)
    requires s != "" && !IsSpace(s[0])
    ensures TrimEnd(s) != ""
    decreases |s|
  {
    if IsSpace(s[|s| - 1]) {
      TrimEndNonEmpty(s[..|s| - 1]);
    }
  }

  /** A string trims to nothing exactly when every character is white space. */
  lemma BlankIffAllSpace(s: string)
    ensures Blank(s) <==> forall i :: 0 <= i < |s| ==> IsSpace(s[i])
  {
    TrimStartBlank(s);
    var t := TrimStart(s);
    if t != "" {
      assert !IsSpace(t[0]) by { TrimStartHead(s); }
      TrimEndNonEmpty(t);
    }
  }

  lemma {:induction false} TrimStartHead(s: string)
    requires TrimStart(s) != ""
    ensures !IsSpace(TrimStart(s)[0])
    decreases |s|
  {
    if |s| > 0 && IsSpace(s[0]) {
      TrimStartHead(s[1..]);
    }
  }

  /** A string that starts with a visible character is not blank. */
  lemma NotBlankWhenFirstNonSpace(s: string)
    requires s != "" && !IsSpace(s[0])
    ensures !Blank(s)
  {
    assert TrimStart(s) == s;
    TrimEndNonEmpty(s);
  }

  lemma {:induction false} TrimEndShape(s: string)
    ensures TrimEnd(s) <= s
    ensures TrimEnd(s) != "" ==> !IsSpace(TrimEnd(s)[|TrimEnd(s)| - 1])
    decreases |s|
  {
    if |s| > 0 && IsSpace(s[|s| - 1]) {
      TrimEndShape(s[..|s| - 1]);
    }
  }

  /** Trimming twice is trimming once. */
  lemma TrimIdempotent(s: string)
    ensures Trim(Trim(s)) == Trim(s)
  {
    var u := TrimStart(s);
    var v := TrimEnd(u);
    TrimEndShape(u);
    if v != "" {
      TrimStartHead(s);
      assert v[0] == u[0];
      assert TrimStart(v) == v;
    }
  }

  /** Leading white space does not change the trimmed text. */
  lemma TrimLeadingSpace(c: char, s: string)
    requires IsSpace(c)
    ensures Trim([c] + s) == Trim(s)
  {
    assert ([c] + s)[1..] == s;
  }

  // ---------------------------------------------------------------------
  // split and join
  // ---------------------------------------------------------------------

  /** `s.split(sep)` for a one-character separator: never empty. */
  function Split(s: string, sep: char): (r: seq<string>)
    ensures |r| >= 1
    ensures forall i :: 0 <= i < |r| ==> sep !in r[i]
    ensures sep !in s ==> r == [s]
    ensures |r| >= 2 ==> sep in s
    decreases |s|
  {
    if |s| == 0 then [""]
    else if s[0] == sep then [""] + Split(s[1..], sep)
    else
      var rest := Split(s[1..], sep);
      assert sep !in s ==> [s[0]] + s[1..] == s;
      [[s[0]] + rest[0]] + rest[1..]
  }

  /** `xs.join(sep)`. */
  function Join(xs: seq<string>, sep: string): string
    decreases |xs|
  {
    if |xs| == 0 then ""
    else if |xs| == 1 then xs[0]
    else xs[0] + sep + Join(xs[1..], sep)
  }

  /** A joined list begins with its first item. */
  lemma JoinStartsWithFirst(xs: seq<string>, sep: string)
    requires |xs| > 0
    ensures xs[0] <= Join(xs, sep)
  {
    if |xs| > 1 {
      assert Join(xs, sep) == xs[0] + (sep + Join(xs[1..], sep));
    }
  }

  /** Every item of a list occurs in the joined text. */
  lemma {:induction false} JoinContainsEach(xs: seq<string>, sep: string, i: nat)
    requires i < |xs|
    ensures Contains(Join(xs, sep), xs[i])
    decreases |xs|
  {
    if |xs| == 1 {
      ContainsAt(xs[0], xs[0], 0);
    } else if i == 0 {
      ContainsAt(Join(xs, sep), xs[0], 0);
    } else {
      JoinContainsEach(xs[1..], sep, i - 1);
      ContainsExtended(xs[0] + sep, Join(xs[1..], sep), "", xs[i]);
      assert xs[0] + sep + Join(xs[1..], sep) + "" == Join(xs, sep);
    }
  }

  /** Text free of the separator sticks to the front of the first piece. */
  lemma {:induction false} SplitAppend(a: string, b: string, sep: char)
    requires sep !in a
    ensures Split(a + b, sep) == [a + Split(b, sep)[0]] + Split(b, sep)[1..]
    decreases |a|
  {
    if |a| > 0 {
      assert (a + b)[1..] == a[1..] + b;
      assert sep !in a[1..] by { assert a == [a[0]] + a[1..]; }
      SplitAppend(a[1..], b, sep);
      assert [a[0]] + (a[1..] + Split(b, sep)[0]) == a + Split(b, sep)[0];
    } else {
      assert a + b == b;
      assert a + Split(b, sep)[0] == Split(b, sep)[0];
      assert Split(b, sep) == [Split(b, sep)[0]] + Split(b, sep)[1..];
    }
  }

  /** A separator after separator-free text closes exactly one piece. */
  lemma SplitAtSeparator(a: string, b: string, sep: char)
    requires sep !in a
    ensures Split(a + [sep] + b, sep) == [a] + Split(b, sep)
  {
    assert a + [sep] + b == a + ([sep] + b);
    SplitAppend(a, [sep] + b, sep);
    assert ([sep] + b)[1..] == b;
    assert Split([sep] + b, sep) == [""] + Split(b, sep);
    assert a + "" == a;
    assert ([""] + Split(b, sep))[1..] == Split(b, sep);
  }

  /** `map(s => s.trim())`. */
  function TrimAll(xs: seq<string>): (r: seq<string>)
    ensures |r| == |xs|
    ensures forall i :: 0 <= i < |xs| ==> r[i] == Trim(xs[i])
    decreases |xs|
  {
    if |xs| == 0 then [] else [Trim(xs[0])] + TrimAll(xs[1..])
  }

  // ---------------------------------------------------------------------
  // Initials
  // ---------------------------------------------------------------------

  /**
   * `words.map(n => n[0]).join('')`: `n[0]` of an empty word is
   * `undefined`, which `join` renders as nothing.
   */
  function FirstLetters(words: seq<string>): (r: string)
    ensures |r| <= |words|
    ensures (forall i :: 0 <= i < |words| ==> words[i] != "") ==>
      |r| == |words| && forall i :: 0 <= i < |words| ==> r[i] == words[i][0]
    decreases |words|
  {
    if |words| == 0 then ""
    else (if words[0] == "" then "" else [words[0][0]]) + FirstLetters(words[1..])
  }

  /** `name.split(' ').map(n => n[0]).join('').toUpperCase()`. */
  function Initials(name: string): (r: string)
    ensures |r| <= |Split(name, ' ')|
    ensures var ws := Split(name, ' ');
      (forall i :: 0 <= i < |ws| ==> ws[i] != "") ==>
        |r| == |ws| && forall i :: 0 <= i < |ws| ==> r[i] == Upper(ws[i][0])
  {
    UpperStr(FirstLetters(Split(name, ' ')))
  }

  /** Upper-casing works character by character, so it distributes over `+`. */
  lemma UpperStrAppend(a: string, b: string)
    ensures UpperStr(a + b) == UpperStr(a) + UpperStr(b)
  {
    assert forall i :: 0 <= i < |a + b| ==> UpperStr(a + b)[i] == (UpperStr(a) + UpperStr(b))[i];
  }

  /** A leading word contributes its first letter, upper-cased, before the rest's initials. */
  lemma InitialsOfLeadingWord(w: string, rest: string)
    requires w != "" && ' ' !in w
    ensures Initials(w + " " + rest) == [Upper(w[0])] + Initials(rest)
  {
    SplitAtSeparator(w, rest, ' ');
    assert w + " " + rest == w + [' '] + rest;
    assert FirstLetters([w] + Split(rest, ' ')) == [w[0]] + FirstLetters(Split(rest, ' ')) by {
      assert ([w] + Split(rest, ' '))[1..] == Split(rest, ' ');
    }
    UpperStrAppend([w[0]], FirstLetters(Split(rest, ' ')));
  }

  /** Two words give both first letters, upper-cased. */
  lemma InitialsOfTwoWords(first: string, last: string)
    requires first != "" && ' ' !in first && last != "" && ' ' !in last
    ensures Initials(first + " " + last) == [Upper(first[0]), Upper(last[0])]
  {
    InitialsOfLeadingWord(first, last);
    InitialsOfWord(last);
  }

  /** A single word's initials are its first letter, upper-cased. */
  lemma InitialsOfWord(w: string)
    requires w != "" && ' ' !in w
    ensures Initials(w) == [Upper(w[0])]
  {
    SplitAppend(w, "", ' ');
    assert w + "" == w;
    assert Split(w, ' ') == [w];
    assert FirstLetters([w]) == [w[0]] + FirstLetters([]) by {
      assert [w][1..] == [];
    }
  }
}
