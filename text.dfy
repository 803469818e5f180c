/** The few Python `str` operations the knowledge base relies on, on `string`
    (a sequence of Unicode scalar values, as Python's `str` is a sequence of
    code points).  Case mapping and white space cover ASCII and Latin-1. */
module Text {

  /** Characters Python's `str.strip()` and `str.split()` treat as white space
      (the ASCII and Latin-1 ones). */
  const Whitespace: set<char> :=
    {' ', '\t', '\n', '\r', '\U{000B}', '\U{000C}', '\U{001C}', '\U{001D}',
     '\U{001E}', '\U{001F}', '\U{0085}', '\U{00A0}'}

  predicate IsSpace(c: char) { c in Whitespace }

  /** `s.lstrip(cs)`: drops the longest prefix made of characters in `cs`. */
  function StripLeft(s: string, cs: set<char>): (r: string)
    ensures |r| <= |s| && r == s[|s| - |r|..]
    ensures forall k :: 0 <= k < |s| - |r| ==> s[k] in cs
    ensures r != [] ==> r[0] !in cs
    decreases |s|
  {
    if |s| > 0 && s[0] in cs then
      var r := StripLeft(s[1..], cs);
      SuffixOfTail(s, r);
      r
    else s
  }

  /** A suffix of the tail is a suffix of the whole. */
  lemma SuffixOfTail<T>(s: seq<T>, r: seq<T>)
    requires |s| > 0 && |r| < |s| && r == s[1..][|s| - 1 - |r|..]
    ensures r == s[|s| - |r|..]
    ensures forall k :: 0 < k < |s| ==> s[k] == s[1..][k - 1]
  {
  }

  /** `s.rstrip(cs)`: drops the longest suffix made of characters in `cs`. */
  function StripRight(s: string, cs: set<char>): (r: string)
    ensures |r| <= |s| && r == s[..|r|]
    ensures forall k :: |r| <= k < |s| ==> s[k] in cs
    ensures r != [] ==> r[|r| - 1] !in cs
    decreases |s|
  {
    if |s| > 0 && s[|s| - 1] in cs then StripRight(s[..|s| - 1], cs) else s
  }

  /** `s.strip(cs)`. */
  function StripChars(s: string, cs: set<char>): (r: string)
    ensures |r| <= |s|
    ensures r != [] ==> r[0] !in cs && r[|r| - 1] !in cs
  {
    StripRight(StripLeft(s, cs), cs)
  }

  /** `s.strip()`. */
  function Strip(s: string): (r: string)
    ensures |r| <= |s|
    ensures r != [] ==> !IsSpace(r[0]) && !IsSpace(r[|r| - 1])
  {
    StripChars(s, Whitespace)
  }

  lemma StripLeftNoop(s: string, cs: set<char>)
    requires s == [] || s[0] !in cs
    ensures StripLeft(s, cs) == s
  {
  }

  lemma StripRightNoop(s: string, cs: set<char>)
    requires s == [] || s[|s| - 1] !in cs
    ensures StripRight(s, cs) == s
  {
  }

  /** Stripping twice strips nothing more. */
  lemma StripCharsIdempotent(s: string, cs: set<char>)
    ensures StripChars(StripChars(s, cs), cs) == StripChars(s, cs)
  {
    var r := StripChars(s, cs);
    StripLeftNoop(r, cs);
    StripRightNoop(r, cs);
  }

  /** `s.strip()` twice strips nothing more. */
  lemma StripIdempotent(s: string)
    ensures Strip(Strip(s)) == Strip(s)
  {
    StripCharsIdempotent(s, Whitespace);
  }

  /** `s.strip(cs)` is a contiguous piece of `s`, starting at `a`. */
  lemma StripCharsInside(s: string, cs: set<char>) returns (a: nat)
    ensures a + |StripChars(s, cs)| <= |s| && StripChars(s, cs) == s[a..a + |StripChars(s, cs)|]
  {
    var l := StripLeft(s, cs);
    var r := StripRight(l, cs);
    a := |s| - |l|;
    assert r == l[..|r|];
    assert l == s[a..];
    assert r == s[a..a + |r|];
  }

  /** A string that is blank (empty or white space only) strips to "". */
  predicate IsBlank(s: string) { Strip(s) == [] }

  function LowerChar(c: char): (d: char)
  {
    if 'A' <= c <= 'Z' || ('\U{00C0}' <= c <= '\U{00DE}' && c != '\U{00D7}')
    then (c as int + 32) as char
    else c
  }

  function UpperChar(c: char): (d: char)
  {
    if 'a' <= c <= 'z' || ('\U{00E0}' <= c <= '\U{00FE}' && c != '\U{00F7}')
    then (c as int - 32) as char
    else c
  }

  lemma LowerCharIdempotent(c: char)
    ensures LowerChar(LowerChar(c)) == LowerChar(c)
  {
  }

  /** `s.lower()`. */
  function Lower(s: string): (r: string)
    ensures |r| == |s|
    ensures forall i :: 0 <= i < |s| ==> r[i] == LowerChar(s[i])
  {
    seq(|s|, i requires 0 <= i < |s| => LowerChar(s[i]))
  }

  lemma LowerIdempotent(s: string)
    ensures Lower(Lower(s)) == Lower(s)
  {
    forall i | 0 <= i < |s| ensures Lower(Lower(s))[i] == Lower(s)[i] {
      LowerCharIdempotent(s[i]);
    }
  }

  lemma LowerConcat(a: string, b: string)
    ensures Lower(a + b) == Lower(a) + Lower(b)
  {
  }

  /** Lower-casing never turns a non-space character into white space or back. */
  lemma LowerKeepsSpaces(s: string)
    ensures forall i :: 0 <= i < |s| ==> (IsSpace(Lower(s)[i]) <==> IsSpace(s[i]))
  {
  }

  /** A stripped, lower-cased string has nothing more to strip. */
  lemma StripLowerStripped(s: string)
    ensures Strip(Lower(Strip(s))) == Lower(Strip(s))
  {
    var t := Strip(s);
    var l := Lower(t);
    if t != [] {
      assert !IsSpace(t[0]) && !IsSpace(t[|t| - 1]);
      LowerKeepsSpaces(t);
      assert !IsSpace(l[0]) && !IsSpace(l[|l| - 1]);
    }
    StripLeftNoop(l, Whitespace);
    StripRightNoop(l, Whitespace);
  }

  /** What `str.capitalize` makes of a first character: its title case.  Three
      Latin-1 letters leave the one-to-one mapping: `ß` becomes "Ss", `µ`
      becomes the Greek capital mu and `ÿ` the capital Y with diaeresis. */
  function TitleCase(c: char): (r: string)
    ensures |r| == if c == '\U{00DF}' then 2 else 1
  {
    if c == '\U{00DF}' then "Ss"
    else if c == '\U{00B5}' then ['\U{039C}']
    else if c == '\U{00FF}' then ['\U{0178}']
    else [UpperChar(c)]
  }

  /** `s.capitalize()`: first character in title case, the rest lower case. */
  function Capitalize(s: string): (r: string)
    ensures |r| == |s| + (if s != [] && s[0] == '\U{00DF}' then 1 else 0)
    ensures s != [] ==> StartsWith(r, TitleCase(s[0])) && r[|TitleCase(s[0])|..] == Lower(s[1..])
  {
    if s == [] then [] else TitleCase(s[0]) + Lower(s[1..])
  }

  /** `s[:n]` for a non-negative `n`. */
  function Take<T>(s: seq<T>, n: nat): (r: seq<T>)
    ensures |r| == if n < |s| then n else |s|
    ensures r == s[..|r|]
  {
    if n < |s| then s[..n] else s
  }

  predicate OccursAt(sub: string, s: string, p: int)
  {
    0 <= p && p + |sub| <= |s| && s[p..p + |sub|] == sub
  }

  /** Python's `sub in s` on strings. */
  predicate Contains(s: string, sub: string)
  {
    exists p :: 0 <= p <= |s| - |sub| && OccursAt(sub, s, p)
  }

  lemma ContainsAt(s: string, sub: string, p: int)
    requires OccursAt(sub, s, p)
    ensures Contains(s, sub)
  {
  }

  /** A string contains whatever one of its parts contains. */
  lemma ContainsInConcat(a: string, b: string, c: string, sub: string)
    requires Contains(b, sub)
    ensures Contains(a + b + c, sub)
  {
    var p :| 0 <= p <= |b| - |sub| && OccursAt(sub, b, p);
    assert (a + b + c)[|a| + p..|a| + p + |sub|] == b[p..p + |sub|];
    ContainsAt(a + b + c, sub, |a| + p);
  }

  /** `s.startswith(p)`. */
  predicate StartsWith(s: string, p: string)
  {
    |p| <= |s| && s[..|p|] == p
  }

  /** A string contains the beginning of whatever it contains. */
  lemma ContainsStart(s: string, b: string, h: string)
    requires Contains(s, b) && StartsWith(b, h)
    ensures Contains(s, h)
  {
    var p :| 0 <= p <= |s| - |b| && OccursAt(b, s, p);
    assert s[p..p + |h|] == s[p..p + |b|][..|h|];
    ContainsAt(s, h, p);
  }

  /** `sep.join(parts)`. */
  function Join(sep: string, parts: seq<string>): (r: string)
    ensures parts == [] ==> r == []
    ensures |parts| == 1 ==> r == parts[0]
  {
    if parts == [] then []
    else if |parts| == 1 then parts[0]
    else parts[0] + sep + Join(sep, parts[1..])
  }

  /** A joined string contains each of its parts. */
  lemma {:induction false} JoinContains(sep: string, parts: seq<string>, i: int)
    requires 0 <= i < |parts|
    ensures Contains(Join(sep, parts), parts[i])
    decreases |parts|
  {
    if |parts| == 1 {
      ContainsAt(parts[0], parts[0], 0);
    } else if i == 0 {
      ContainsAt(parts[0], parts[0], 0);
      ContainsInConcat([], parts[0], sep + Join(sep, parts[1..]), parts[0]);
      assert [] + parts[0] + (sep + Join(sep, parts[1..])) == Join(sep, parts);
    } else {
      JoinContains(sep, parts[1..], i - 1);
      assert parts[1..][i - 1] == parts[i];
      ContainsInConcat(parts[0] + sep, Join(sep, parts[1..]), [], parts[i]);
      assert parts[0] + sep + Join(sep, parts[1..]) + [] == Join(sep, parts);
    }
  }

  /** `s.split(c)` for a one-character separator: always at least one field. */
  function Split(s: string, c: char): (r: seq<string>)
    ensures |r| >= 1
    ensures forall i :: 0 <= i < |r| ==> c !in r[i]
  {
    if s == [] then [[]]
    else if s[0] == c then [[]] + Split(s[1..], c)
    else
      var rest := Split(s[1..], c);
      [[s[0]] + rest[0]] + rest[1..]
  }

  /** Splitting on `c` inverts joining with `c`, when no part contains `c`. */
  lemma {:induction false} SplitJoin(parts: seq<string>, c: char)
    requires |parts| >= 1
    requires forall i :: 0 <= i < |parts| ==> c !in parts[i]
    ensures Split(Join([c], parts), c) == parts
    decreases |parts|, |parts[0]|
  {
    if |parts| == 1 {
      SplitNoSeparator(parts[0], c);
    } else if parts[0] == [] {
      var tail := parts[1..];
      assert Join([c], parts) == [c] + Join([c], tail);
      SplitJoin(tail, c);
      assert Split(Join([c], parts), c) == [[]] + tail;
      assert [[]] + tail == parts;
    } else {
      var x := parts[0][0];
      var first' := parts[0][1..];
      var parts' := [first'] + parts[1..];
      assert c !in first' by { assert forall k :: 0 <= k < |first'| ==> first'[k] == parts[0][k + 1]; }
      forall i | 0 <= i < |parts'| ensures c !in parts'[i] {
        if i > 0 { assert parts'[i] == parts[i]; }
      }
      SplitJoin(parts', c);
      assert parts'[1..] == parts[1..];
      assert Join([c], parts) == [x] + Join([c], parts');
      assert x != c by { assert x == parts[0][0]; }
      var rest := Split(Join([c], parts'), c);
      assert rest == parts';
      assert Split(Join([c], parts), c) == [[x] + rest[0]] + rest[1..];
      assert [x] + first' == parts[0];
      assert [[x] + rest[0]] + rest[1..] == parts;
    }
  }

  lemma {:induction false} SplitNoSeparator(s: string, c: char)
    requires c !in s
    ensures Split(s, c) == [s]
  {
    if s != [] {
      assert s[0] != c;
      assert c !in s[1..] by { assert forall k :: 0 <= k < |s| - 1 ==> s[1..][k] == s[k + 1]; }
      SplitNoSeparator(s[1..], c);
      assert [s[0]] + s[1..] == s;
    }
  }

  /** Splitting a string by its first character. */
  lemma SplitCons(x: char, t: string, c: char)
    ensures var rest := Split(t, c);
      Split([x] + t, c) == if x == c then [[]] + rest else [[x] + rest[0]] + rest[1..]
  {
    assert ([x] + t)[1..] == t;
  }

  /** A prefix one longer is the prefix and the next element. */
  lemma PrefixStep<T>(s: seq<T>, j: nat)
    requires j < |s|
    ensures s[..j + 1] == s[..j] + [s[j]]
  {
  }

  lemma ReplaceHeadAppend<T>(h: T, l: seq<T>, r: seq<T>)
    requires l != []
    ensures (l + r)[0] == l[0]
    ensures [h] + (l + r)[1..] == ([h] + l[1..]) + r
  {
    assert (l + r)[1..] == l[1..] + r;
  }

  lemma ConsAppend<T>(h: T, l: seq<T>, r: seq<T>)
    ensures [h] + (l + r) == ([h] + l) + r
  {
  }

  /** Putting a character in front of two strings whose splits differ by a
      tail of fields keeps that tail. */
  lemma SplitConsTail(x: char, u: string, a: string, c: char, right: seq<string>)
    requires Split(u, c) == Split(a, c) + right
    ensures Split([x] + u, c) == Split([x] + a, c) + right
  {
    var left := Split(a, c);
    SplitCons(x, u, c);
    SplitCons(x, a, c);
    if x != c {
      ReplaceHeadAppend([x] + left[0], left, right);
    } else {
      ConsAppend([], left, right);
    }
  }

  /** Splitting at one separator splits each side on its own. */
  lemma {:induction false} SplitAtSeparator(a: string, c: char, b: string)
    ensures Split(a + [c] + b, c) == Split(a, c) + Split(b, c)
  {
    if a == [] {
      assert a + [c] + b == [c] + b;
      SplitCons(c, b, c);
    } else {
      SplitAtSeparator(a[1..], c, b);
      SplitConsTail(a[0], a[1..] + [c] + b, a[1..], c, Split(b, c));
      assert [a[0]] + (a[1..] + [c] + b) == a + [c] + b;
      assert [a[0]] + a[1..] == a;
    }
  }

  /** `s.replace(c, rep)` for a one-character pattern. */
  function ReplaceChar(s: string, c: char, rep: string): (r: string)
    ensures c !in rep ==> c !in r
  {
    if s == [] then []
    else (if s[0] == c then rep else [s[0]]) + ReplaceChar(s[1..], c, rep)
  }

  /** The first white-space separated token of a string with no leading white
      space, that is `s.split()[0]` when `s` is stripped and not empty. */
  function FirstToken(s: string): (r: string)
    ensures |r| <= |s| && r == s[..|r|]
    ensures forall k :: 0 <= k < |r| ==> !IsSpace(r[k])
    ensures |r| < |s| ==> IsSpace(s[|r|])
  {
    if s == [] || IsSpace(s[0]) then [] else [s[0]] + FirstToken(s[1..])
  }

  /** The first token ends at the first white space. */
  lemma {:induction false} FirstTokenAt(s: string, k: nat)
    requires k < |s| && IsSpace(s[k])
    requires forall j :: 0 <= j < k ==> !IsSpace(s[j])
    ensures FirstToken(s) == s[..k]
  {
    if k > 0 {
      forall j | 0 <= j < k - 1 ensures !IsSpace(s[1..][j]) {
        assert s[1..][j] == s[j + 1];
      }
      FirstTokenAt(s[1..], k - 1);
      assert [s[0]] + s[1..][..k - 1] == s[..k];
    }
  }

  function DigitChar(d: nat): char
    requires d < 10
  {
    ('0' as int + d) as char
  }

  /** `str(n)` for a natural number. */
  function NatToString(n: nat): (r: string)
    ensures |r| >= 1
    ensures forall k :: 0 <= k < |r| ==> '0' <= r[k] <= '9'
  {
    if n < 10 then [DigitChar(n)] else NatToString(n / 10) + [DigitChar(n % 10)]
  }

  /** Python's `<` on strings: lexicographic by code point. */
  predicate StrLt(a: string, b: string)
  {
    if a == [] then b != []
    else if b == [] then false
    else if a[0] == b[0] then StrLt(a[1..], b[1..])
    else a[0] < b[0]
  }

  lemma {:induction false} StrLtIrreflexive(a: string)
    ensures !StrLt(a, a)
  {
    if a != [] { StrLtIrreflexive(a[1..]); }
  }

  lemma {:induction false} StrLtTransitive(a: string, b: string, c: string)
    requires StrLt(a, b) && StrLt(b, c)
    ensures StrLt(a, c)
  {
    if a != [] && b != [] && c != [] && a[0] == b[0] && b[0] == c[0] {
      StrLtTransitive(a[1..], b[1..], c[1..]);
    }
  }

  lemma {:induction false} StrLtConnected(a: string, b: string)
    requires a != b
    ensures StrLt(a, b) || StrLt(b, a)
  {
    if a != [] && b != [] && a[0] == b[0] {
      assert a == [a[0]] + a[1..] && b == [b[0]] + b[1..];
      StrLtConnected(a[1..], b[1..]);
    }
  }
}
