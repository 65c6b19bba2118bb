/** String helpers shared by the generator, the visual key and the hint
    resolver: JavaScript's `String(n)` for integers, `trim()`, splitting on
    whitespace runs and `join`. */
module Text {

  /** Decimal digit `d` as a character. */
  function DigitChar(d: nat): (c: char)
    requires d < 10
    ensures '0' <= c <= '9'
    ensures c as int - '0' as int == d
  {
    ('0' as int + d) as char
  }

  predicate IsDigit(c: char) {
    '0' <= c <= '9'
  }

  /** Decimal rendering of a natural number, most significant digit first. */
  function NatToString(n: nat): (s: string)
    ensures |s| >= 1
    ensures forall k :: 0 <= k < |s| ==> IsDigit(s[k])
    decreases n
  {
    if n < 10 then [DigitChar(n)] else NatToString(n / 10) + [DigitChar(n % 10)]
  }

  /** Reads a string of decimal digits back as a number. */
  function ParseDigits(s: string): nat
    decreases |s|
  {
    if |s| == 0 then 0
    else
      var d := s[|s| - 1] as int - '0' as int;
      ParseDigits(s[..|s| - 1]) * 10 + (if 0 <= d then d else 0)
  }

  lemma {:induction false} ParseNatToString(n: nat)
    ensures ParseDigits(NatToString(n)) == n
    decreases n
  {
    if n >= 10 {
      ParseNatToString(n / 10);
      var s := NatToString(n);
      assert s[..|s| - 1] == NatToString(n / 10);
    }
  }

  lemma NatToStringInjective(a: nat, b: nat)
    requires NatToString(a) == NatToString(b)
    ensures a == b
  {
    ParseNatToString(a);
    ParseNatToString(b);
  }

  /** `String(n)` for an integer-valued JavaScript number. */
  function IntToString(n: int): (s: string)
    ensures |s| >= 1
    ensures s[0] == '-' <==> n < 0
  {
    if n < 0 then "-" + NatToString(-n) else NatToString(n)
  }

  /** Distinct integers render differently, so a rendered number identifies it. */
  lemma IntToStringInjective(a: int, b: int)
    requires IntToString(a) == IntToString(b)
    ensures a == b
  {
    if a < 0 {
      assert IntToString(a)[1..] == NatToString(-a);
      assert IntToString(b)[1..] == NatToString(-b);
      NatToStringInjective(-a, -b);
    } else {
      NatToStringInjective(a, b);
    }
  }

  /** The characters JavaScript's `\s` and `String.prototype.trim` treat as white space. */
  predicate IsSpace(c: char) {
    || c == ' ' || c == '\t' || c == '\n' || c == '\r'
    || c == '\U{000B}' || c == '\U{000C}' || c == '\U{00A0}' || c == '\U{1680}'
    || ('\U{2000}' <= c <= '\U{200A}')
    || c == '\U{2028}' || c == '\U{2029}' || c == '\U{202F}' || c == '\U{205F}'
    || c == '\U{3000}' || c == '\U{FEFF}'
  }

  /** Removes every leading occurrence of a character satisfying `drop`. */
  function DropLeading(s: string, drop: char -> bool): (r: string)
    ensures |r| <= |s| && r == s[|s| - |r|..]
    ensures forall k :: 0 <= k < |s| - |r| ==> drop(s[k])
    ensures |r| == 0 || !drop(r[0])
    decreases |s|
  {
    if |s| > 0 && drop(s[0]) then DropLeading(s[1..], drop) else s
  }

  /** Removes every trailing occurrence of a character satisfying `drop`. */
  function DropTrailing(s: string, drop: char -> bool): (r: string)
    ensures |r| <= |s| && r == s[..|r|]
    ensures forall k :: |r| <= k < |s| ==> drop(s[k])
    ensures |r| == 0 || !drop(r[|r| - 1])
    decreases |s|
  {
    if |s| > 0 && drop(s[|s| - 1]) then DropTrailing(s[..|s| - 1], drop) else s
  }

  /** `r` is a slice of `s` whose cut-off ends, at the front and at the back,
      consist of `drop` characters only. */
  predicate StrippedBy(s: string, r: string, drop: char -> bool) {
    exists i, j :: 0 <= i <= j <= |s| && r == s[i..j]
      && (forall k :: 0 <= k < i ==> drop(s[k]))
      && (forall k :: j <= k < |s| ==> drop(s[k]))
  }

  lemma StrippedByAt(s: string, r: string, drop: char -> bool, i: nat, j: nat)
    requires i <= j <= |s| && r == s[i..j]
    requires forall k :: 0 <= k < i ==> drop(s[k])
    requires forall k :: j <= k < |s| ==> drop(s[k])
    ensures StrippedBy(s, r, drop)
  {
  }

  /** Dropping the leading and then the trailing run of `drop` characters
      cuts only such characters, and leaves none at either end. */
  lemma StripEnds(s: string, drop: char -> bool)
    ensures var r := DropTrailing(DropLeading(s, drop), drop);
      StrippedBy(s, r, drop) && (|r| == 0 || (!drop(r[0]) && !drop(r[|r| - 1])))
  {
    var t := DropLeading(s, drop);
    var r := DropTrailing(t, drop);
    hide *;
    var i := |s| - |t|;
    var j := i + |r|;
    assert t == s[i..];
    assert r == t[..|r|];
    assert r == s[i..j];
    assert forall k :: j <= k < |s| ==> drop(s[k]) by {
      forall k | j <= k < |s|
        ensures drop(s[k])
      {
        assert s[k] == t[k - i];
      }
    }
    assert forall k :: 0 <= k < i ==> drop(s[k]);
    StrippedByAt(s, r, drop, i, j);
  }

  /** The leading and the trailing run of `drop` characters removed, and
      nothing else. */
  function Strip(s: string, drop: char -> bool): (r: string)
    ensures StrippedBy(s, r, drop)
    ensures |r| <= |s|
    ensures |r| == 0 || (!drop(r[0]) && !drop(r[|r| - 1]))
    ensures (|s| == 0 || (!drop(s[0]) && !drop(s[|s| - 1]))) ==> r == s
  {
    StripEnds(s, drop);
    DropTrailing(DropLeading(s, drop), drop)
  }

  /** `String.prototype.trim`: the leading and trailing white space removed,
      and nothing else. */
  function Trim(s: string): (r: string)
    ensures StrippedBy(s, r, IsSpace)
    ensures |r| == 0 || (!IsSpace(r[0]) && !IsSpace(r[|r| - 1]))
  {
    Strip(s, IsSpace)
  }

  /** The longest prefix of `s` holding no white space. */
  function TakeWord(s: string): (w: string)
    ensures |w| <= |s| && w == s[..|w|]
    ensures forall k :: 0 <= k < |w| ==> !IsSpace(w[k])
    ensures |w| == |s| || IsSpace(s[|w|])
    decreases |s|
  {
    if |s| == 0 || IsSpace(s[0]) then "" else [s[0]] + TakeWord(s[1..])
  }

  /** A word as `split(/\s+/).filter(Boolean)` yields it: non-empty, no white space. */
  predicate IsWord(w: string) {
    |w| > 0 && forall k :: 0 <= k < |w| ==> !IsSpace(w[k])
  }

  /** `s.split(/\s+/).filter(Boolean)`: the maximal runs of non-space characters. */
  function Words(s: string): (ws: seq<string>)
    ensures forall k :: 0 <= k < |ws| ==> IsWord(ws[k])
    decreases |s|
  {
    var t := DropLeading(s, IsSpace);
    if |t| == 0 then []
    else
      var w := TakeWord(t);
      TakeWordIsWord(t);
      ConsWords(w, Words(t[|w|..]));
      [w] + Words(t[|w|..])
  }

  lemma TakeWordIsWord(t: string)
    requires |t| > 0 && !IsSpace(t[0])
    ensures IsWord(TakeWord(t))
  {
  }

  lemma ConsWords(w: string, ws: seq<string>)
    requires IsWord(w)
    requires forall k :: 0 <= k < |ws| ==> IsWord(ws[k])
    ensures forall k :: 0 <= k < |[w] + ws| ==> IsWord(([w] + ws)[k])
  {
    hide IsWord;
    forall k | 0 <= k < |[w] + ws|
      ensures IsWord(([w] + ws)[k])
    {
      if k > 0 {
        assert ([w] + ws)[k] == ws[k - 1];
      }
    }
  }

  /** `ws.join(sep)`. */
  function Join(ws: seq<string>, sep: string): string
    decreases |ws|
  {
    if |ws| == 0 then ""
    else if |ws| == 1 then ws[0]
    else ws[0] + sep + Join(ws[1..], sep)
  }

  lemma JoinCons(ws: seq<string>, sep: string)
    requires |ws| >= 2
    ensures Join(ws, sep) == ws[0] + sep + Join(ws[1..], sep)
  {
  }

  lemma WordsSkipsSpace(c: char, s: string)
    requires IsSpace(c)
    ensures Words([c] + s) == Words(s)
  {
    assert ([c] + s)[1..] == s;
    assert DropLeading([c] + s, IsSpace) == DropLeading(s, IsSpace);
  }

  /** A word followed by white space or nothing is read off whole. */
  lemma {:induction false} TakeWordOfWord(w: string, rest: string)
    requires IsWord(w)
    requires |rest| == 0 || IsSpace(rest[0])
    ensures TakeWord(w + rest) == w
    decreases |w|
  {
    if |w| > 1 {
      assert (w + rest)[1..] == w[1..] + rest;
      TakeWordOfWord(w[1..], rest);
    } else {
      assert (w + rest)[1..] == rest;
    }
  }

  lemma WordsOfWordThen(w: string, rest: string)
    requires IsWord(w)
    requires |rest| == 0 || IsSpace(rest[0])
    ensures Words(w + rest) == [w] + Words(rest)
  {
    assert DropLeading(w + rest, IsSpace) == w + rest;
    TakeWordOfWord(w, rest);
    assert (w + rest)[|w|..] == rest;
  }

  lemma WordsOfSingleWord(w: string)
    requires IsWord(w)
    ensures Words(w) == [w]
  {
    WordsOfWordThen(w, "");
    assert w + "" == w;
  }

  lemma WordsOfWordSpaceThen(w: string, tail: string)
    requires IsWord(w)
    ensures Words(w + " " + tail) == [w] + Words(tail)
  {
    assert w + " " + tail == w + (" " + tail);
    WordsOfWordThen(w, " " + tail);
    assert [' '] + tail == " " + tail;
    WordsSkipsSpace(' ', tail);
  }

  /** Splitting a space-joined list of words gives the list back. */
  lemma {:induction false} WordsOfJoin(ws: seq<string>)
    requires forall k :: 0 <= k < |ws| ==> IsWord(ws[k])
    ensures Words(Join(ws, " ")) == ws
    decreases |ws|
  {
    if |ws| == 1 {
      WordsOfSingleWord(ws[0]);
    } else if |ws| > 1 {
      var tail := Join(ws[1..], " ");
      calc {
        Words(Join(ws, " "));
        { JoinCons(ws, " "); }
        Words(ws[0] + " " + tail);
        { WordsOfWordSpaceThen(ws[0], tail); }
        [ws[0]] + Words(tail);
        { WordsOfJoin(ws[1..]); }
        [ws[0]] + ws[1..];
        ws;
      }
    }
  }

  /** Appending text to a joined list extends its last word. */
  lemma {:induction false} JoinExtendLast(ws: seq<string>, sep: string, x: string)
    requires |ws| >= 1
    ensures Join(ws, sep) + x == Join(ws[..|ws| - 1] + [ws[|ws| - 1] + x], sep)
    decreases |ws|
  {
    var ws' := ws[..|ws| - 1] + [ws[|ws| - 1] + x];
    if |ws| > 1 {
      JoinExtendLast(ws[1..], sep, x);
      assert ws'[1..] == ws[1..][..|ws[1..]| - 1] + [ws[1..][|ws[1..]| - 1] + x];
    }
  }

  /** ASCII part of `String.prototype.toLowerCase`. */
  function LowerAscii(s: string): (r: string)
    ensures |r| == |s|
    ensures forall k :: 0 <= k < |s| ==> r[k] == (if 'A' <= s[k] <= 'Z' then (s[k] as int + 32) as char else s[k])
  {
    seq(|s|, k requires 0 <= k < |s| => if 'A' <= s[k] <= 'Z' then (s[k] as int + 32) as char else s[k])
  }
}
