/**
 * String operations the Python and TypeScript sources use: strip/trim,
 * lower/upper/title casing, split on one character and join with one
 * character. Whitespace is the six characters both languages strip; casing is ASCII only.
 */
module Text {

  import Seqs

  /**
   * The six characters that both Python's str.strip() and JavaScript's
   * trim() remove: space, tab, line feed, vertical tab, form feed and
   * carriage return. Python also removes U+001C to U+001F; both remove
   * further non-ASCII spaces.
   */
  predicate IsSpace(c: char) {
    c == ' ' || c == '\t' || c == '\n' || c == '\r' || c == '\U{B}' || c == '\U{C}'
  }

  /** How many whitespace characters s starts with. */
  function LeadingSpaces(s: string): (n: nat)
    ensures n <= |s|
    ensures forall i :: 0 <= i < n ==> IsSpace(s[i])
    ensures n == |s| || !IsSpace(s[n])
  {
    if s != [] && IsSpace(s[0]) then 1 + LeadingSpaces(s[1..]) else 0
  }

  /** Where the whitespace s ends with begins. */
  function TrailingStart(s: string): (n: nat)
    ensures n <= |s|
    ensures forall i :: n <= i < |s| ==> IsSpace(s[i])
    ensures n == 0 || !IsSpace(s[n - 1])
  {
    if s != [] && IsSpace(s[|s| - 1]) then TrailingStart(s[..|s| - 1]) else |s|
  }

  function TrimLeft(s: string): string {
    s[LeadingSpaces(s)..]
  }

  function TrimRight(s: string): string {
    s[..TrailingStart(s)]
  }

  /** Python's str.strip() / JavaScript's String.prototype.trim(). */
  function Trim(s: string): string {
    TrimRight(TrimLeft(s))
  }

  /** `!s.trim()` in the TypeScript sources, `not s.strip()` in Python. */
  predicate IsBlank(s: string) {
    Trim(s) == []
  }

  lemma BlankIffAllSpace(s: string)
    ensures IsBlank(s) <==> forall i :: 0 <= i < |s| ==> IsSpace(s[i])
  {
    var n := LeadingSpaces(s);
    var l := TrimLeft(s);
    if IsBlank(s) {
      assert TrailingStart(l) == 0;
      assert n == |s|;
    } else {
      assert n < |s|;
    }
  }

  function LowerChar(c: char): char {
    if 'A' <= c <= 'Z' then (c as int + 32) as char else c
  }

  function UpperChar(c: char): char {
    if 'a' <= c <= 'z' then (c as int - 32) as char else c
  }

  predicate IsLetter(c: char) {
    ('a' <= c <= 'z') || ('A' <= c <= 'Z')
  }

  /** Python's str.lower() on ASCII. */
  function Lower(s: string): (r: string)
    ensures |r| == |s| && forall i :: 0 <= i < |s| ==> r[i] == LowerChar(s[i])
  {
    seq(|s|, i requires 0 <= i < |s| => LowerChar(s[i]))
  }

  /** Lower-casing neither adds nor removes a character that is not a letter. */
  lemma LowerKeepsNonLetter(s: string, c: char)
    requires !IsLetter(c)
    ensures c in Lower(s) <==> c in s
  {
    if c in Lower(s) {
      var i :| 0 <= i < |s| && Lower(s)[i] == c;
      assert s[i] == c;
    }
    if c in s {
      var i :| 0 <= i < |s| && s[i] == c;
      assert Lower(s)[i] == c;
    }
  }

  /**
   * Python's str.title() on ASCII: a letter is upper-cased when the character
   * before it is not a letter, and lower-cased otherwise.
   */
  function Title(s: string): (r: string)
    ensures |r| == |s|
  {
    TitleAfter(s, false)
  }

  function TitleAfter(s: string, afterLetter: bool): (r: string)
    ensures |r| == |s|
  {
    if s == [] then []
    else
      var c := if afterLetter then LowerChar(s[0]) else UpperChar(s[0]);
      [c] + TitleAfter(s[1..], IsLetter(s[0]))
  }

  /** `t.charAt(0).toUpperCase() + t.slice(1)` on ASCII. */
  function Capitalize(s: string): (r: string)
    ensures |r| == |s|
    ensures r != [] ==> r[0] == UpperChar(s[0]) && r[1..] == s[1..]
  {
    if s == [] then [] else [UpperChar(s[0])] + s[1..]
  }

  predicate StartsWith(s: string, prefix: string) {
    |prefix| <= |s| && s[..|prefix|] == prefix
  }

  /** `sep.join(parts)`: the parts with one separator between neighbours. */
  function Join(parts: seq<string>, sep: char): string {
    if |parts| == 0 then []
    else if |parts| == 1 then parts[0]
    else parts[0] + [sep] + Join(parts[1..], sep)
  }

  lemma JoinCons(x: char, parts: seq<string>, sep: char)
    requires |parts| >= 1
    ensures Join([[x] + parts[0]] + parts[1..], sep) == [x] + Join(parts, sep)
  {
    var q := [[x] + parts[0]] + parts[1..];
    assert q[1..] == parts[1..];
  }

  /**
   * `s.split(sep)` with a one-character separator, as in Python and
   * JavaScript: there is always at least one piece, no piece holds the
   * separator, and joining the pieces gives s back.
   */
  function Split(s: string, sep: char): (r: seq<string>)
    ensures |r| >= 1
    ensures forall k :: 0 <= k < |r| ==> sep !in r[k]
    ensures Join(r, sep) == s
    ensures sep in s <==> |r| > 1
  {
    if s == [] then [[]]
    else
      var rest := Split(s[1..], sep);
      if s[0] == sep then
        assert s == [sep] + s[1..];
        [[]] + rest
      else
        JoinCons(s[0], rest, sep);
        assert s == [s[0]] + s[1..];
        [[s[0]] + rest[0]] + rest[1..]
  }

  /** Splitting `a + sep + b` where a has no separator yields a and then the pieces of b. */
  lemma {:induction false} SplitAfterPiece(a: string, b: string, sep: char)
    requires sep !in a
    ensures Split(a + [sep] + b, sep) == [a] + Split(b, sep)
  {
    if a == [] {
      assert [] + [sep] + b == [sep] + b;
      assert ([sep] + b)[1..] == b;
    } else {
      assert (a + [sep] + b)[1..] == a[1..] + [sep] + b;
      SplitAfterPiece(a[1..], b, sep);
      assert [a[0]] + a[1..] == a;
    }
  }

  /** A string without the separator is one piece. */
  lemma {:induction false} SplitNoSep(a: string, sep: char)
    requires sep !in a
    ensures Split(a, sep) == [a]
  {
    if a != [] {
      SplitNoSep(a[1..], sep);
      assert [a[0]] + a[1..] == a;
    }
  }

  /** Round trip: splitting the join of separator-free pieces gives the pieces back. */
  lemma {:induction false} SplitJoin(parts: seq<string>, sep: char)
    requires |parts| >= 1
    requires forall k :: 0 <= k < |parts| ==> sep !in parts[k]
    ensures Split(Join(parts, sep), sep) == parts
  {
    if |parts| == 1 {
      SplitNoSep(parts[0], sep);
    } else {
      SplitJoin(parts[1..], sep);
      SplitAfterPiece(parts[0], Join(parts[1..], sep), sep);
      assert [parts[0]] + parts[1..] == parts;
    }
  }

  /** The first piece of a split is the text before the first separator. */
  lemma {:induction false} SplitFirstPiece(s: string, sep: char)
    ensures exists k :: 0 <= k <= |s| && (k == |s| || s[k] == sep) && sep !in s[..k] && Split(s, sep)[0] == s[..k]
  {
    if s == [] {
      assert sep !in s[..0];
    } else if s[0] == sep {
      assert sep !in s[..0] && Split(s, sep)[0] == s[..0];
    } else {
      var t := s[1..];
      SplitFirstPiece(t, sep);
      var k :| 0 <= k <= |t| && (k == |t| || t[k] == sep) && sep !in t[..k] && Split(t, sep)[0] == t[..k];
      var piece := s[..k + 1];
      assert piece == [s[0]] + t[..k];
      assert Split(s, sep)[0] == [s[0]] + Split(t, sep)[0];
      assert k + 1 == |s| || s[k + 1] == sep;
      assert 0 <= k + 1 <= |s| && (k + 1 == |s| || s[k + 1] == sep) && sep !in piece && Split(s, sep)[0] == piece;
    }
  }

  /** The last piece of a split is the text after the last separator (all of s if there is none). */
  lemma {:induction false} SplitLastPiece(s: string, sep: char)
    ensures exists k :: 0 <= k <= |s| && (k == 0 || s[k - 1] == sep) && Split(s, sep)[|Split(s, sep)| - 1] == s[k..]
  {
    var r := Split(s, sep);
    if s == [] {
      assert r[|r| - 1] == s[0..];
    } else {
      SplitLastPiece(s[1..], sep);
      var rest := Split(s[1..], sep);
      var k :| 0 <= k <= |s[1..]| && (k == 0 || s[1..][k - 1] == sep) && rest[|rest| - 1] == s[1..][k..];
      if s[0] == sep || |rest| > 1 {
        assert r[|r| - 1] == rest[|rest| - 1];
        assert s[1..][k..] == s[k + 1..];
        assert k + 1 == 0 || s[k] == sep;
        assert r[|r| - 1] == s[k + 1..];
      } else {
        assert r == [[s[0]] + rest[0]];
        assert rest[0] == s[1..];
        assert r[|r| - 1] == s[0..];
      }
    }
  }

  /** Joining two non-empty lists of pieces is joining each and putting one separator between. */
  lemma {:induction false} JoinAppend(a: seq<string>, b: seq<string>, sep: char)
    requires |a| >= 1 && |b| >= 1
    ensures Join(a + b, sep) == Join(a, sep) + [sep] + Join(b, sep)
  {
    if |a| > 1 {
      JoinAppend(a[1..], b, sep);
      assert (a + b)[1..] == a[1..] + b;
    } else {
      assert (a + b)[1..] == b;
    }
  }

  /** Stripping keeps a contiguous part of the string, so it adds no characters. */
  lemma TrimInside(s: string)
    ensures forall c :: c in Trim(s) ==> c in s
  {
    var l := TrimLeft(s);
    assert forall i :: 0 <= i < |l| ==> l[i] == s[|s| - |l| + i];
    assert forall c :: c in TrimRight(l) ==> c in l;
  }

  /** `s.split(sep, 1)[1]`: everything after the first separator. */
  function AfterFirst(s: string, sep: char): (r: string)
    requires sep in s
    ensures exists k :: 0 <= k < |s| && s[k] == sep && sep !in s[..k] && r == s[k + 1..]
  {
    if s[0] == sep then
      assert sep !in s[..0];
      s[1..]
    else
      var r := AfterFirst(s[1..], sep);
      var k :| 0 <= k < |s[1..]| && s[1..][k] == sep && sep !in s[1..][..k] && r == s[1..][k + 1..];
      assert s[..k + 1] == [s[0]] + s[1..][..k];
      assert s[k + 1 + 1..] == s[1..][k + 1..];
      r
  }

  /** `(a + sep + b).split(sep, 1)[1]` is b when a has no separator. */
  lemma {:induction false} AfterFirstAfterPiece(a: string, b: string, sep: char)
    requires sep !in a
    ensures sep in a + [sep] + b
    ensures AfterFirst(a + [sep] + b, sep) == b
  {
    var s := a + [sep] + b;
    assert s[|a|] == sep;
    if a != [] {
      assert s[1..] == a[1..] + [sep] + b;
      AfterFirstAfterPiece(a[1..], b, sep);
    }
  }

  predicate NotBlank(s: string) {
    !IsBlank(s)
  }

  /** The strings of `ss` that are not blank, in their original order: `ss.filter(t => t.trim() !== '')`. */
  function NonBlank(ss: seq<string>): (r: seq<string>)
    ensures |r| <= |ss|
    ensures forall k :: 0 <= k < |r| ==> !IsBlank(r[k])
    ensures forall k :: 0 <= k < |r| ==> r[k] in ss
    ensures forall k :: 0 <= k < |ss| && !IsBlank(ss[k]) ==> ss[k] in r
  {
    Seqs.Filter(ss, NotBlank)
  }

  /** The lines that are kept stay in their order and keep every copy; nothing is added. */
  lemma NonBlankKeepsLines(ss: seq<string>)
    ensures Seqs.IsSubsequence(NonBlank(ss), ss)
    ensures multiset(NonBlank(ss)) <= multiset(ss)
    ensures forall k :: 0 <= k < |ss| && !IsBlank(ss[k]) ==> multiset(NonBlank(ss))[ss[k]] == multiset(ss)[ss[k]]
  {
    Seqs.FilterIsSubsequence(ss, NotBlank);
    Seqs.FilterMultiset(ss, NotBlank);
  }

  /** Some string survives the blank filter exactly when one of them has a non-space character. */
  lemma NonBlankEmptyIff(ss: seq<string>)
    ensures NonBlank(ss) != [] <==> exists k :: 0 <= k < |ss| && !IsBlank(ss[k])
  {
    Seqs.FilterNoneIff(ss, NotBlank);
  }

  function DigitChar(d: nat): char
    requires d < 10
  {
    ('0' as int + d) as char
  }

  /** Decimal text of a natural number, as Python's f-strings and JavaScript's template strings print it. */
  function Decimal(n: nat): (s: string)
    ensures s != []
    ensures forall k :: 0 <= k < |s| ==> '0' <= s[k] <= '9'
    decreases n
  {
    if n < 10 then [DigitChar(n)] else Decimal(n / 10) + [DigitChar(n % 10)]
  }

  /** The number a string of decimal digits denotes. */
  function DecimalValue(s: string): nat
    requires forall k :: 0 <= k < |s| ==> '0' <= s[k] <= '9'
  {
    if s == [] then 0
    else DecimalValue(s[..|s| - 1]) * 10 + (s[|s| - 1] as int - '0' as int)
  }

  lemma {:induction false} DecimalRoundTrip(n: nat)
    ensures DecimalValue(Decimal(n)) == n
    decreases n
  {
    if n >= 10 {
      DecimalRoundTrip(n / 10);
      var s := Decimal(n);
      assert s[..|s| - 1] == Decimal(n / 10);
    }
  }
}
