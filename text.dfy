/** The string operations the analyser applies to matched fragments, with the
    semantics of the JavaScript built-ins it calls (trim, a case-insensitive
    anchored replace, charAt/toUpperCase/slice, join, number-to-string). */
module Text {

  /** The characters JavaScript counts as white space (WhiteSpace and
      LineTerminator): the set String.prototype.trim removes and the
      regular-expression class \s matches. */
  predicate IsSpace(c: char)
  {
    c == '\t' || c == '\n' || c == '\U{000B}' || c == '\U{000C}' || c == '\r' || c == ' '
    || c == '\U{00A0}' || c == '\U{1680}' || ('\U{2000}' <= c <= '\U{200A}')
    || c == '\U{2028}' || c == '\U{2029}' || c == '\U{202F}' || c == '\U{205F}'
    || c == '\U{3000}' || c == '\U{FEFF}'
  }

  /** The first index at or after `from` whose character is not white
      space, or |s| if there is none. */
  function SkipSpaces(s: string, from: nat): (i: nat)
    requires from <= |s|
    ensures from <= i <= |s|
    decreases |s| - from
  {
    if from < |s| && IsSpace(s[from]) then SkipSpaces(s, from + 1) else from
  }

  /** SkipSpaces passes over white space only, and stops at the first
      character that is not white space. */
  lemma {:induction false} SkipSpacesStops(s: string, from: nat)
    requires from <= |s|
    ensures forall k :: from <= k < SkipSpaces(s, from) ==> IsSpace(s[k])
    ensures SkipSpaces(s, from) == |s| || !IsSpace(s[SkipSpaces(s, from)])
    decreases |s| - from
  {
    if from < |s| && IsSpace(s[from]) {
      SkipSpacesStops(s, from + 1);
    }
  }

  /** The index just past the last character before `to` that is not white
      space, looking no further back than `lo`. */
  function SkipSpacesBack(s: string, lo: nat, to: nat): (j: nat)
    requires lo <= to <= |s|
    ensures lo <= j <= to
  {
    if to > lo && IsSpace(s[to - 1]) then SkipSpacesBack(s, lo, to - 1) else to
  }

  /** SkipSpacesBack passes back over white space only, and stops after the
      last character that is not white space. */
  lemma {:induction false} SkipSpacesBackStops(s: string, lo: nat, to: nat)
    requires lo <= to <= |s|
    ensures forall k :: SkipSpacesBack(s, lo, to) <= k < to ==> IsSpace(s[k])
    ensures SkipSpacesBack(s, lo, to) == lo || !IsSpace(s[SkipSpacesBack(s, lo, to) - 1])
  {
    if to > lo && IsSpace(s[to - 1]) {
      SkipSpacesBackStops(s, lo, to - 1);
    }
  }

  /** String.prototype.trim: the slice of `s` left once the leading and the
      trailing white space are gone. */
  function Trim(s: string): string
  {
    s[SkipSpaces(s, 0)..SkipSpacesBack(s, SkipSpaces(s, 0), |s|)]
  }

  /** The trimmed string is a slice of `s` that neither starts nor ends with
      white space, everything of `s` outside it is white space, and a string
      that already has no white space at either end is left as it is. */
  lemma TrimSlice(s: string)
    ensures var i := SkipSpaces(s, 0); var j := SkipSpacesBack(s, i, |s|);
      && Trim(s) == s[i..j]
      && (forall k :: 0 <= k < i ==> IsSpace(s[k]))
      && (forall k :: j <= k < |s| ==> IsSpace(s[k]))
    ensures Trim(s) == [] || (!IsSpace(Trim(s)[0]) && !IsSpace(Trim(s)[|Trim(s)| - 1]))
    ensures s == [] || (!IsSpace(s[0]) && !IsSpace(s[|s| - 1])) ==> Trim(s) == s
  {
    var i := SkipSpaces(s, 0);
    SkipSpacesStops(s, 0);
    SkipSpacesBackStops(s, i, |s|);
  }

  /** Maps A-Z to a-z and leaves every other character alone. */
  function LowerAscii(c: char): (r: char)
  {
    if 'A' <= c <= 'Z' then (c as int + 32) as char else c
  }

  /** Maps a-z to A-Z and leaves every other character alone. */
  function UpperAscii(c: char): (r: char)
  {
    if 'a' <= c <= 'z' then (c as int - 32) as char else c
  }

  /** Equality up to ASCII case, the comparison a JavaScript regular expression
      with the `i` flag (and without `u`) applies to an ASCII pattern. */
  predicate EqualsIgnoreCase(a: string, b: string)
  {
    |a| == |b| && forall i :: 0 <= i < |a| ==> LowerAscii(a[i]) == LowerAscii(b[i])
  }

  /** `s` matches /^kw\s+/i: it starts with `kw` in any ASCII case, followed by
      at least one white-space character. */
  predicate HasKeywordPrefix(s: string, kw: string)
  {
    |kw| < |s| && EqualsIgnoreCase(s[..|kw|], kw) && IsSpace(s[|kw|])
  }

  predicate NoKeywordPrefix(s: string, keywords: seq<string>)
  {
    forall k :: 0 <= k < |keywords| ==> !HasKeywordPrefix(s, keywords[k])
  }

  /** s.replace(/^(kw1|kw2|...)\s+/i, ''): removes the first alternative that
      matches at the start, together with all the white space after it. */
  function StripKeyword(s: string, keywords: seq<string>): string
  {
    if |keywords| == 0 then s
    else if HasKeywordPrefix(s, keywords[0]) then s[SkipSpaces(s, |keywords[0]|)..]
    else StripKeyword(s, keywords[1..])
  }

  /** A string that starts with none of the keywords is left as it is. */
  lemma {:induction false} StripKeywordNone(s: string, keywords: seq<string>)
    requires NoKeywordPrefix(s, keywords)
    ensures StripKeyword(s, keywords) == s
  {
    if |keywords| > 0 {
      assert forall k :: 0 <= k < |keywords| - 1 ==> keywords[1..][k] == keywords[k + 1];
      StripKeywordNone(s, keywords[1..]);
    }
  }

  /** The strip removes exactly the keyword that matches first (in the order of
      the alternation) and the white-space run that follows it. */
  lemma {:induction false} StripKeywordAt(s: string, keywords: seq<string>, k: nat)
    requires k < |keywords| && HasKeywordPrefix(s, keywords[k])
    requires forall j :: 0 <= j < k ==> !HasKeywordPrefix(s, keywords[j])
    ensures StripKeyword(s, keywords) == s[SkipSpaces(s, |keywords[k]|)..]
    ensures |StripKeyword(s, keywords)| < |s|
  {
    if k > 0 {
      assert !HasKeywordPrefix(s, keywords[0]);
      var tail := keywords[1..];
      assert tail[k - 1] == keywords[k];
      forall j | 0 <= j < k - 1
        ensures !HasKeywordPrefix(s, tail[j])
      {
        assert tail[j] == keywords[j + 1];
      }
      StripKeywordAt(s, tail, k - 1);
    }
  }

  /** A word of lower-case ASCII letters, as every keyword listed is. */
  predicate LowerWord(w: string)
  {
    forall i :: 0 <= i < |w| ==> 'a' <= w[i] <= 'z'
  }

  /** Two different lower-case words cannot both open the same text as a
      keyword: the shorter is followed by white space where the longer has
      a letter, and equal lengths would make them the same word. */
  lemma WordsExclusive(s: string, a: string, b: string)
    requires LowerWord(a) && LowerWord(b) && a != b
    ensures !(HasKeywordPrefix(s, a) && HasKeywordPrefix(s, b))
  {
  }

  /** Distinct lower-case words. */
  predicate KeywordList(keywords: seq<string>)
  {
    && (forall k :: 0 <= k < |keywords| ==> LowerWord(keywords[k]))
    && (forall j, k :: 0 <= j < k < |keywords| ==> keywords[j] != keywords[k])
  }

  /** cleanText.charAt(0).toUpperCase() + cleanText.slice(1), with ASCII
      upper-casing. */
  function Capitalize(s: string): (r: string)
  {
    if |s| == 0 then s else [UpperAscii(s[0])] + s[1..]
  }

  /** Capitalizing keeps the length, changes at most the first character, and
      doing it twice is the same as doing it once. */
  lemma CapitalizeProperties(s: string)
    ensures |Capitalize(s)| == |s|
    ensures forall k :: 1 <= k < |s| ==> Capitalize(s)[k] == s[k]
    ensures |s| > 0 ==> Capitalize(s)[0] == UpperAscii(s[0])
    ensures |s| > 0 && !('a' <= s[0] <= 'z') ==> Capitalize(s) == s
    ensures Capitalize(Capitalize(s)) == Capitalize(s)
  {
  }

  /** A matched fragment cleaned for display: trimmed, its leading keyword and
      the white space after it removed, its first character upper-cased. */
  function Clean(fragment: string, keywords: seq<string>): string
  {
    Capitalize(StripKeyword(Trim(fragment), keywords))
  }

  /** Every fragment cleaned, in order. */
  function CleanAll(fragments: seq<string>, keywords: seq<string>): seq<string>
  {
    seq(|fragments|, i requires 0 <= i < |fragments| => Clean(fragments[i], keywords))
  }

  /** When the trimmed fragment starts with keyword k (and with no keyword
      listed before it), the cleaned text is the rest after that keyword and
      its white space, with the first character upper-cased. */
  lemma CleanRemovesKeyword(fragment: string, keywords: seq<string>, k: nat)
    requires k < |keywords|
    requires HasKeywordPrefix(Trim(fragment), keywords[k])
    requires forall j :: 0 <= j < k ==> !HasKeywordPrefix(Trim(fragment), keywords[j])
    ensures var t := Trim(fragment);
      var rest := t[SkipSpaces(t, |keywords[k]|)..];
      Clean(fragment, keywords) == Capitalize(rest) && |rest| < |t|
  {
    StripKeywordAt(Trim(fragment), keywords, k);
  }

  /** For a list of distinct lower-case keywords, the cleaned text of a
      fragment opening with any one of them is the rest after that keyword
      and its white space, first character upper-cased; a fragment opening
      with none is only trimmed and capitalised. */
  lemma CleanListed(fragment: string, keywords: seq<string>)
    requires KeywordList(keywords)
    ensures var t := Trim(fragment);
      forall k :: 0 <= k < |keywords| && HasKeywordPrefix(t, keywords[k]) ==>
        Clean(fragment, keywords) == Capitalize(t[SkipSpaces(t, |keywords[k]|)..])
    ensures NoKeywordPrefix(Trim(fragment), keywords) ==> Clean(fragment, keywords) == Capitalize(Trim(fragment))
  {
    var t := Trim(fragment);
    forall k | 0 <= k < |keywords| && HasKeywordPrefix(t, keywords[k])
      ensures Clean(fragment, keywords) == Capitalize(t[SkipSpaces(t, |keywords[k]|)..])
    {
      forall j | 0 <= j < k
        ensures !HasKeywordPrefix(t, keywords[j])
      {
        WordsExclusive(t, keywords[j], keywords[k]);
      }
      CleanRemovesKeyword(fragment, keywords, k);
    }
    if NoKeywordPrefix(t, keywords) {
      StripKeywordNone(t, keywords);
    }
  }

  /** Array.prototype.join: the items with `sep` between consecutive ones. */
  function Join(items: seq<string>, sep: string): string
  {
    if |items| == 0 then ""
    else if |items| == 1 then items[0]
    else items[0] + sep + Join(items[1..], sep)
  }

  /** The concatenation of a sequence of strings, front to back. */
  function Concat(ss: seq<string>): (r: string)
  {
    if |ss| == 0 then "" else ss[0] + Concat(ss[1..])
  }

  /** A concatenation starts with its first part. */
  lemma ConcatPrefix(ss: seq<string>)
    requires |ss| > 0
    ensures |ss[0]| <= |Concat(ss)| && Concat(ss)[..|ss[0]|] == ss[0]
  {
    assert Concat(ss) == ss[0] + Concat(ss[1..]);
  }

  /** Concatenating two sequences of strings and then their parts is the same
      as concatenating the parts of each and then the two results; this is
      what building a text by `+=` relies on. */
  lemma {:induction false} ConcatAppend(a: seq<string>, b: seq<string>)
    ensures Concat(a + b) == Concat(a) + Concat(b)
  {
    if |a| == 0 {
      assert a + b == b;
    } else {
      assert (a + b)[1..] == a[1..] + b;
      ConcatAppend(a[1..], b);
    }
  }

  lemma ConcatSingle(x: string)
    ensures Concat([x]) == x
  {
    assert [x][1..] == [];
  }

  predicate IsDigit(c: char)
  {
    '0' <= c <= '9'
  }

  function DigitChar(d: nat): (c: char)
    requires d < 10
    ensures IsDigit(c) && c as int - '0' as int == d
  {
    ('0' as int + d) as char
  }

  /** The decimal rendering of a natural number, as a JavaScript template
      literal produces it for a non-negative integer. */
  function NatToString(n: nat): (r: string)
    ensures |r| > 0
  {
    if n < 10 then [DigitChar(n)]
    else NatToString(n / 10) + [DigitChar(n % 10)]
  }

  /** The rendering consists of digits, and has no leading zero unless the
      number is zero. */
  lemma {:induction false} NatToStringDigits(n: nat)
    ensures forall k :: 0 <= k < |NatToString(n)| ==> IsDigit(NatToString(n)[k])
    ensures NatToString(n)[0] == '0' <==> n == 0
  {
    if n >= 10 {
      NatToStringDigits(n / 10);
    }
  }

  /** The number a string of decimal digits denotes. */
  function DigitsValue(s: string): (v: nat)
    requires forall k :: 0 <= k < |s| ==> IsDigit(s[k])
  {
    if |s| == 0 then 0
    else
      assert IsDigit(s[|s| - 1]);
      DigitsValue(s[..|s| - 1]) * 10 + (s[|s| - 1] as int - '0' as int)
  }

  /** Reading back the decimal rendering gives the number. */
  lemma {:induction false} NatToStringRoundTrip(n: nat)
    ensures forall k :: 0 <= k < |NatToString(n)| ==> IsDigit(NatToString(n)[k])
    ensures DigitsValue(NatToString(n)) == n
  {
    NatToStringDigits(n);
    if n >= 10 {
      var r := NatToString(n);
      assert r[..|r| - 1] == NatToString(n / 10);
      NatToStringRoundTrip(n / 10);
    }
  }

  /** Distinct numbers render differently. */
  lemma NatToStringInjective(m: nat, n: nat)
    requires m != n
    ensures NatToString(m) != NatToString(n)
  {
    NatToStringRoundTrip(m);
    NatToStringRoundTrip(n);
  }
}
