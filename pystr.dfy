/**
 * Python `str` operations the pipeline relies on, over Dafny strings.
 * Case mapping is ASCII only; whitespace is the set Python's `str.isspace()`
 * accepts, which is also what `split()`, `strip()` and the regex class `\s` use.
 */
module PyStr {

  /** Python `str.isspace()` for one character. */
  predicate IsSpace(c: char) {
    ('\U{9}' <= c <= '\U{D}') || ('\U{1C}' <= c <= '\U{20}') || c == '\U{85}' || c == '\U{A0}'
    || c == '\U{1680}' || ('\U{2000}' <= c <= '\U{200A}') || c == '\U{2028}' || c == '\U{2029}'
    || c == '\U{202F}' || c == '\U{205F}' || c == '\U{3000}'
  }

  predicate IsDigit(c: char) {
    '0' <= c <= '9'
  }

  /** Python `str.isdigit()`: non-empty and every character a digit. */
  predicate IsDigits(s: string) {
    |s| > 0 && forall i :: 0 <= i < |s| ==> IsDigit(s[i])
  }

  function DigitValue(c: char): (v: nat)
    requires IsDigit(c)
    ensures v <= 9
  {
    c as int - '0' as int
  }

  /** `int(s)` for a string of ASCII digits. */
  function DigitsValue(s: string): nat
    requires forall i :: 0 <= i < |s| ==> IsDigit(s[i])
  {
    if |s| == 0 then 0 else DigitsValue(s[..|s| - 1]) * 10 + DigitValue(s[|s| - 1])
  }

  function DigitChar(n: nat): (c: char)
    requires n < 10
    ensures IsDigit(c) && DigitValue(c) == n
  {
    ('0' as int + n) as char
  }

  /** `str(n)` for a non-negative integer. */
  function NatStr(n: nat): (s: string)
    ensures |s| > 0 && IsDigits(s)
    ensures DigitsValue(s) == n
    ensures n < 10 ==> |s| == 1
    ensures 10 <= n < 100 ==> |s| == 2
    ensures 1000 <= n < 10000 ==> |s| == 4
    ensures n < 100 ==> |s| <= 2
    ensures n < 1000 ==> |s| <= 3
    ensures n < 10000 ==> |s| <= 4
  {
    if n < 10 then [DigitChar(n)]
    else
      var s := NatStr(n / 10) + [DigitChar(n % 10)];
      assert s[..|s| - 1] == NatStr(n / 10);
      s
  }

  /** The four digits of a four-digit number, most significant first. */
  lemma NatStrFourDigits(n: nat)
    requires 1000 <= n < 10000
    ensures NatStr(n) == [DigitChar(n / 1000), DigitChar(n / 100 % 10), DigitChar(n / 10 % 10), DigitChar(n % 10)]
  {
    assert NatStr(n / 1000) == [DigitChar(n / 1000)];
    assert NatStr(n / 100) == NatStr(n / 1000) + [DigitChar(n / 100 % 10)];
    assert NatStr(n / 10) == NatStr(n / 100) + [DigitChar(n / 10 % 10)];
  }

  function Zeros(k: nat): (z: string)
    ensures |z| == k && forall i :: 0 <= i < k ==> z[i] == '0'
  {
    seq(k, i => '0')
  }

  /** Leading zeros do not change the value of a digit string. */
  lemma {:induction false} LeadingZerosValue(k: nat, s: string)
    requires forall i :: 0 <= i < |s| ==> IsDigit(s[i])
    ensures DigitsValue(Zeros(k) + s) == DigitsValue(s)
    decreases |s|, k
  {
    var t := Zeros(k) + s;
    if |s| > 0 {
      assert t[..|t| - 1] == Zeros(k) + s[..|s| - 1];
      LeadingZerosValue(k, s[..|s| - 1]);
    } else if k > 0 {
      assert t[..|t| - 1] == Zeros(k - 1) + s;
      LeadingZerosValue(k - 1, s);
    }
  }

  /** `str(n).zfill(width)` for a non-negative integer. */
  function ZeroPad(n: nat, width: nat): (s: string)
    ensures IsDigits(s) && DigitsValue(s) == n
    ensures |s| >= width
    ensures width == 2 && n < 100 ==> |s| == 2
    ensures width == 4 && n < 10000 ==> |s| == 4
  {
    var d := NatStr(n);
    if |d| >= width then d
    else
      LeadingZerosValue(width - |d|, d);
      Zeros(width - |d|) + d
  }

  /** `str(i)` for any integer. */
  function IntStr(i: int): string {
    if i < 0 then "-" + NatStr(-i) else NatStr(i)
  }

  function LowerChar(c: char): char {
    if 'A' <= c <= 'Z' then (c as int + 32) as char else c
  }

  function UpperChar(c: char): char {
    if 'a' <= c <= 'z' then (c as int - 32) as char else c
  }

  /** `str.lower()` */
  function Lower(s: string): (r: string)
    ensures |r| == |s|
    ensures forall i {:trigger r[i]} :: 0 <= i < |s| ==> r[i] == LowerChar(s[i])
  {
    seq(|s|, i requires 0 <= i < |s| => LowerChar(s[i]))
  }

  lemma LowerCharIdempotent(c: char)
    ensures LowerChar(LowerChar(c)) == LowerChar(c)
    ensures IsSpace(LowerChar(c)) <==> IsSpace(c)
    ensures LowerChar(c) == c || ('A' <= c <= 'Z')
  {
  }

  /** Lower-casing twice is lower-casing once. */
  lemma LowerIdempotent(s: string)
    ensures Lower(Lower(s)) == Lower(s)
  {
    forall i | 0 <= i < |s| ensures Lower(Lower(s))[i] == Lower(s)[i] {
      LowerCharIdempotent(s[i]);
    }
  }

  /** `str.upper()` */
  function Upper(s: string): (r: string)
    ensures |r| == |s|
    ensures forall i {:trigger r[i]} :: 0 <= i < |s| ==> r[i] == UpperChar(s[i])
  {
    seq(|s|, i requires 0 <= i < |s| => UpperChar(s[i]))
  }

  /** `str.capitalize()`: first character upper case, the rest lower case. */
  function Capitalize(s: string): string {
    if |s| == 0 then "" else [UpperChar(s[0])] + Lower(s[1..])
  }

  predicate StartsWith(s: string, p: string) {
    |p| <= |s| && s[..|p|] == p
  }

  predicate EndsWith(s: string, p: string) {
    |p| <= |s| && s[|s| - |p|..] == p
  }

  /** `p` occurs in `s` at index `i`. */
  predicate OccursAt(s: string, p: string, i: int) {
    0 <= i && i + |p| <= |s| && s[i..i + |p|] == p
  }

  /** `p in s` for strings. */
  predicate Contains(s: string, p: string) {
    exists i | 0 <= i <= |s| - |p| :: OccursAt(s, p, i)
  }

  function FindFrom(s: string, p: string, i: nat): (r: int)
    ensures r == -1 ==> forall j :: i <= j ==> !OccursAt(s, p, j)
    ensures r != -1 ==> i <= r && OccursAt(s, p, r)
    ensures r != -1 ==> forall j :: i <= j < r ==> !OccursAt(s, p, j)
    decreases |s| - i
  {
    if i + |p| > |s| then -1
    else if s[i..i + |p|] == p then i
    else FindFrom(s, p, i + 1)
  }

  /** `s.find(p)`: the first index where `p` occurs, or -1. */
  function Find(s: string, p: string): (r: int)
    ensures r == -1 <==> !Contains(s, p)
    ensures r != -1 ==> OccursAt(s, p, r) && r + |p| <= |s|
    ensures r != -1 ==> forall j :: 0 <= j < r ==> !OccursAt(s, p, j)
  {
    FindFrom(s, p, 0)
  }

  function LStrip(s: string): (r: string)
    ensures |r| <= |s| && r == s[|s| - |r|..]
    ensures |r| > 0 ==> !IsSpace(r[0])
    ensures forall i :: 0 <= i < |s| - |r| ==> IsSpace(s[i])
  {
    if |s| > 0 && IsSpace(s[0]) then LStrip(s[1..]) else s
  }

  function RStrip(s: string): (r: string)
    ensures |r| <= |s| && r == s[..|r|]
    ensures |r| > 0 ==> !IsSpace(r[|r| - 1])
    ensures forall i :: |r| <= i < |s| ==> IsSpace(s[i])
  {
    if |s| > 0 && IsSpace(s[|s| - 1]) then RStrip(s[..|s| - 1]) else s
  }

  /** `str.strip()` */
  function Strip(s: string): (r: string)
    ensures |r| > 0 ==> !IsSpace(r[0]) && !IsSpace(r[|r| - 1])
    ensures |r| <= |s|
  {
    RStrip(LStrip(s))
  }

  predicate AllSpace(s: string) {
    forall i :: 0 <= i < |s| ==> IsSpace(s[i])
  }

  lemma StripEmptyIffAllSpace(s: string)
    ensures Strip(s) == "" <==> AllSpace(s)
  {
    var l := LStrip(s);
    if l != "" {
      assert RStrip(l) != "" by {
        assert !IsSpace(l[0]);
      }
    }
  }

  lemma {:induction false} LStripLower(s: string)
    ensures LStrip(Lower(s)) == Lower(LStrip(s))
    decreases |s|
  {
    if |s| > 0 && IsSpace(s[0]) {
      assert Lower(s)[1..] == Lower(s[1..]);
      LStripLower(s[1..]);
    }
  }

  lemma {:induction false} RStripLower(s: string)
    ensures RStrip(Lower(s)) == Lower(RStrip(s))
    decreases |s|
  {
    if |s| > 0 && IsSpace(s[|s| - 1]) {
      assert Lower(s)[..|s| - 1] == Lower(s[..|s| - 1]);
      RStripLower(s[..|s| - 1]);
    }
  }

  /** Stripping and lower-casing commute: no space character has a case. */
  lemma StripLower(s: string)
    ensures Strip(Lower(s)) == Lower(Strip(s))
  {
    LStripLower(s);
    RStripLower(LStrip(s));
  }

  /** A string with non-space ends is its own strip. */
  lemma StripNoop(s: string)
    requires |s| > 0 ==> !IsSpace(s[0]) && !IsSpace(s[|s| - 1])
    ensures Strip(s) == s
  {
  }

  /** `s.split(c)[-1]`: what follows the last `c`, or all of `s`. */
  function LastPart(s: string, c: char): (r: string)
    ensures |r| <= |s| && r == s[|s| - |r|..]
    ensures forall i :: 0 <= i < |r| ==> r[i] != c
    ensures |r| < |s| ==> s[|s| - |r| - 1] == c
  {
    if |s| == 0 || s[|s| - 1] == c then ""
    else LastPart(s[..|s| - 1], c) + [s[|s| - 1]]
  }

  /** The last part is whatever follows the last `c`. */
  lemma {:induction false} LastPartAfter(p: string, c: char, b: string)
    requires forall i :: 0 <= i < |b| ==> b[i] != c
    ensures LastPart(p + [c] + b, c) == b
    decreases |b|
  {
    var s := p + [c] + b;
    if |b| > 0 {
      assert s[..|s| - 1] == p + [c] + b[..|b| - 1];
      LastPartAfter(p, c, b[..|b| - 1]);
    }
  }

  /** `s.split(c, 1)[-1]`: what follows the first `c`, or all of `s`. */
  function AfterFirst(s: string, c: char): (r: string)
    ensures |r| <= |s| && r == s[|s| - |r|..]
    ensures |r| < |s| ==> s[|s| - |r| - 1] == c
    ensures |r| < |s| ==> forall i :: 0 <= i < |s| - |r| - 1 ==> s[i] != c
    ensures |r| == |s| ==> forall i :: 0 <= i < |s| ==> s[i] != c
  {
    if |s| == 0 then ""
    else if s[0] == c then s[1..]
    else
      var t := AfterFirst(s[1..], c);
      if |t| == |s| - 1 then s else t
  }

  /** `s.lstrip(chars)` with an explicit character set. */
  function LStripChars(s: string, chars: set<char>): (r: string)
    ensures |r| <= |s| && r == s[|s| - |r|..]
    ensures |r| > 0 ==> r[0] !in chars
  {
    if |s| > 0 && s[0] in chars then LStripChars(s[1..], chars) else s
  }

  /** `s.replace(c, "")` for one character. */
  function RemoveChar(s: string, c: char): (r: string)
    ensures |r| <= |s|
    ensures forall i :: 0 <= i < |r| ==> r[i] != c
  {
    if |s| == 0 then "" else (if s[0] == c then "" else [s[0]]) + RemoveChar(s[1..], c)
  }

  /** `s.replace(a, b)` for single characters. */
  function ReplaceChar(s: string, a: char, b: char): (r: string)
    ensures |r| == |s|
    ensures forall i {:trigger r[i]} :: 0 <= i < |s| ==> r[i] == (if s[i] == a then b else s[i])
  {
    seq(|s|, i requires 0 <= i < |s| => if s[i] == a then b else s[i])
  }

  /** `s.split(sep)` with a non-empty separator. */
  function Split(s: string, sep: string): (r: seq<string>)
    requires |sep| > 0
    ensures |r| >= 1
    decreases |s|
  {
    var k := Find(s, sep);
    if k == -1 then [s] else [s[..k]] + Split(s[k + |sep|..], sep)
  }

  /** `sep.join(parts)` */
  function Join(sep: string, parts: seq<string>): string {
    if |parts| == 0 then ""
    else if |parts| == 1 then parts[0]
    else parts[0] + sep + Join(sep, parts[1..])
  }

  /** A string cut around an occurrence of `p` at `k`. */
  lemma CutAt(s: string, p: string, k: nat)
    requires k + |p| <= |s| && OccursAt(s, p, k)
    ensures s == s[..k] + p + s[k + |p|..]
  {
    assert s[k..k + |p|] == p;
    assert s == s[..k] + s[k..k + |p|] + s[k + |p|..];
  }

  /** Joining a piece in front of at least one more. */
  lemma JoinCons(sep: string, head: string, tail: seq<string>)
    requires |tail| >= 1
    ensures Join(sep, [head] + tail) == head + sep + Join(sep, tail)
  {
    assert ([head] + tail)[1..] == tail;
  }

  /** Joining the pieces of `s.split(sep)` with `sep` gives back `s`. */
  lemma {:induction false} JoinSplit(s: string, sep: string)
    requires |sep| > 0
    ensures Join(sep, Split(s, sep)) == s
    decreases |s|
  {
    var k := Find(s, sep);
    if k != -1 {
      var rest := s[k + |sep|..];
      JoinSplit(rest, sep);
      JoinCons(sep, s[..k], Split(rest, sep));
      CutAt(s, sep, k);
    }
  }

  /** Length of the leading run of non-space characters. */
  function WordLen(t: string): (n: nat)
    ensures n <= |t|
    ensures NoSpace(t[..n])
    ensures n < |t| ==> IsSpace(t[n])
  {
    if |t| == 0 || IsSpace(t[0]) then 0
    else
      var m := WordLen(t[1..]);
      assert t[..m + 1] == [t[0]] + t[1..][..m];
      m + 1
  }

  predicate NoSpace(w: string) {
    forall i :: 0 <= i < |w| ==> !IsSpace(w[i])
  }

  predicate IsWord(w: string) {
    |w| > 0 && NoSpace(w)
  }

  /** `s.split()`: the maximal runs of non-space characters. */
  function SplitWs(s: string): (r: seq<string>)
    ensures forall i :: 0 <= i < |r| ==> IsWord(r[i])
    decreases |s|
  {
    var t := LStrip(s);
    if t == "" then []
    else
      var n := WordLen(t);
      assert n > 0 by {
        assert !IsSpace(t[0]);
      }
      var rest := SplitWs(t[n..]);
      WordsCons(t[..n], rest);
      [t[..n]] + rest
  }

  lemma WordsCons(w: string, rest: seq<string>)
    requires IsWord(w)
    requires forall i :: 0 <= i < |rest| ==> IsWord(rest[i])
    ensures forall i :: 0 <= i < |[w] + rest| ==> IsWord(([w] + rest)[i])
  {
    var r := [w] + rest;
    forall i | 0 <= i < |r| ensures IsWord(r[i]) {
      if i > 0 {
        assert r[i] == rest[i - 1];
      }
    }
  }

  /** `" ".join(s.split())`: whitespace runs collapsed, ends trimmed. */
  function CollapseWs(s: string): string {
    Join(" ", SplitWs(s))
  }

  lemma SplitWsEmptyIffAllSpace(s: string)
    ensures SplitWs(s) == [] <==> AllSpace(s)
  {
    var t := LStrip(s);
    if t != "" {
      assert !IsSpace(t[0]);
      assert s[|s| - |t|] == t[0];
    }
  }

  lemma {:induction false} WordLenOfWordThenSpace(w: string, rest: string)
    requires NoSpace(w)
    requires |rest| == 0 || IsSpace(rest[0])
    ensures WordLen(w + rest) == |w|
    decreases |w|
  {
    if |w| == 0 {
      assert w + rest == rest;
    } else {
      assert (w + rest)[0] == w[0];
      assert (w + rest)[1..] == w[1..] + rest;
      WordLenOfWordThenSpace(w[1..], rest);
    }
  }

  lemma {:induction false} SplitWsOfWordThenSpace(w: string, rest: string)
    requires IsWord(w)
    requires |rest| == 0 || IsSpace(rest[0])
    ensures SplitWs(w + rest) == [w] + SplitWs(rest)
  {
    var s := w + rest;
    assert s[0] == w[0];
    assert LStrip(s) == s;
    WordLenOfWordThenSpace(w, rest);
    assert s[..|w|] == w;
    assert s[|w|..] == rest;
  }

  lemma {:induction false} SplitWsAfterSpace(rest: string)
    requires |rest| > 0 && IsSpace(rest[0])
    ensures SplitWs(rest) == SplitWs(rest[1..])
  {
    assert LStrip(rest) == LStrip(rest[1..]);
  }

  /** A word, a space and more text split into the word and the split of the text. */
  lemma SplitWsWordSpace(w: string, tail: string)
    requires IsWord(w)
    ensures SplitWs(w + " " + tail) == [w] + SplitWs(tail)
  {
    var rest := " " + tail;
    assert w + " " + tail == w + rest;
    SplitWsOfWordThenSpace(w, rest);
    SplitWsAfterSpace(rest);
    assert rest[1..] == tail;
  }

  /** A single word splits into itself. */
  lemma SplitWsWord(w: string)
    requires IsWord(w)
    ensures SplitWs(w) == [w]
  {
    assert w + "" == w;
    SplitWsOfWordThenSpace(w, "");
    assert LStrip("") == "";
  }

  /** Splitting words joined by single spaces gives the words back. */
  lemma {:induction false} SplitWsJoin(ws: seq<string>)
    requires forall i :: 0 <= i < |ws| ==> IsWord(ws[i])
    ensures SplitWs(Join(" ", ws)) == ws
  {
    if |ws| == 0 {
      assert LStrip("") == "";
    } else if |ws| == 1 {
      SplitWsWord(ws[0]);
    } else {
      var tail := Join(" ", ws[1..]);
      assert Join(" ", ws) == ws[0] + " " + tail;
      SplitWsWordSpace(ws[0], tail);
      WordsTail(ws);
      SplitWsJoin(ws[1..]);
    }
  }

  /** The words after the first are words, and put back behind it they give the list again. */
  lemma WordsTail(ws: seq<string>)
    requires |ws| > 0
    requires forall i :: 0 <= i < |ws| ==> IsWord(ws[i])
    ensures forall i :: 0 <= i < |ws[1..]| ==> IsWord(ws[1..][i])
    ensures [ws[0]] + ws[1..] == ws
  {
    forall i | 0 <= i < |ws[1..]| ensures IsWord(ws[1..][i]) {
      assert ws[1..][i] == ws[i + 1];
    }
  }

  /** Collapsing whitespace twice is the same as once. */
  lemma CollapseWsIdempotent(s: string)
    ensures CollapseWs(CollapseWs(s)) == CollapseWs(s)
  {
    SplitWsJoin(SplitWs(s));
  }

  /** A string joined from words by single spaces starts and ends with a non-space and has no two spaces in a row. */
  predicate SingleSpaced(r: string) {
    (|r| > 0 ==> !IsSpace(r[0]) && !IsSpace(r[|r| - 1]))
    && (forall i :: 0 <= i < |r| - 1 && IsSpace(r[i]) ==> !IsSpace(r[i + 1]))
  }

  lemma {:induction false} JoinWordsShape(ws: seq<string>)
    requires forall i :: 0 <= i < |ws| ==> IsWord(ws[i])
    ensures SingleSpaced(Join(" ", ws))
  {
    if |ws| == 1 {
      assert Join(" ", ws) == ws[0];
    } else if |ws| > 1 {
      JoinWordsShape(ws[1..]);
      var t := Join(" ", ws[1..]);
      var w := ws[0];
      var r := w + " " + t;
      assert Join(" ", ws) == r;
      JoinStartsWithFirst(" ", ws[1..]);
      assert t[0] == ws[1][0];
      forall i | 0 <= i < |r| - 1 && IsSpace(r[i])
        ensures !IsSpace(r[i + 1])
      {
        if i == |w| {
          assert r[i + 1] == t[0];
        } else if i > |w| {
          assert r[i] == t[i - |w| - 1];
          assert r[i + 1] == t[i - |w|];
        }
      }
      assert r[|r| - 1] == t[|t| - 1];
      assert r[0] == w[0];
    }
  }

  lemma {:induction false} JoinStartsWithFirst(sep: string, ws: seq<string>)
    requires |ws| > 0
    ensures |Join(sep, ws)| >= |ws[0]| && Join(sep, ws)[..|ws[0]|] == ws[0]
  {
    if |ws| > 1 {
      assert Join(sep, ws) == ws[0] + sep + Join(sep, ws[1..]);
    }
  }
}
