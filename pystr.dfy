/**
  The few Python `str` operations the bot relies on, as functions on
  `seq<char>`: `strip()`, `split()`, `join`, `replace(c, "")`, `startswith`,
  `lower()`, `capitalize()` and the decimal `int()` conversion. `strip()` and
  `split()` use the whitespace set that `str.isspace` defines; `int()` skips
  a smaller one.
  `SplitOn` (splitting at one character) is not called by the bot; it is the
  inverse through which the `show all` listing is read back line by line.
 */
module PyStr {
  import opened Wrappers

  // ---------------------------------------------------------------------
  // Whitespace
  // ---------------------------------------------------------------------

  /** `c.isspace()`: the characters Python treats as whitespace. */
  predicate IsSpace(c: char) {
    var n := c as int;
    (9 <= n <= 13) || (28 <= n <= 32) || n == 0x85 || n == 0xA0 || n == 0x1680
    || (0x2000 <= n <= 0x200A) || n == 0x2028 || n == 0x2029 || n == 0x202F
    || n == 0x205F || n == 0x3000
  }

  predicate NoSpace(s: string) {
    forall k :: 0 <= k < |s| ==> !IsSpace(s[k])
  }

  /** A list of strings none of which holds whitespace, as `split()` produces. */
  predicate Words(ss: seq<string>) {
    forall k :: 0 <= k < |ss| ==> NoSpace(ss[k])
  }

  /** How many characters `lstrip()` removes. */
  function LeadingSpaces(s: string): (n: nat)
    ensures n <= |s|
    ensures forall k :: 0 <= k < n ==> IsSpace(s[k])
    ensures n < |s| ==> !IsSpace(s[n])
  {
    if s == [] || !IsSpace(s[0]) then 0 else 1 + LeadingSpaces(s[1..])
  }

  /** How many characters `rstrip()` removes. */
  function TrailingSpaces(s: string): (n: nat)
    ensures n <= |s|
    ensures forall k :: |s| - n <= k < |s| ==> IsSpace(s[k])
    ensures n < |s| ==> !IsSpace(s[|s| - 1 - n])
  {
    if s == [] || !IsSpace(s[|s| - 1]) then 0 else 1 + TrailingSpaces(s[..|s| - 1])
  }

  /** `s.strip()`: the slice of `s` left after removing whitespace at both ends. */
  function Strip(s: string): (r: string)
    ensures LeadingSpaces(s) + |r| <= |s| && s[LeadingSpaces(s)..LeadingSpaces(s) + |r|] == r
    ensures forall k :: 0 <= k < |s| && !(LeadingSpaces(s) <= k < LeadingSpaces(s) + |r|) ==> IsSpace(s[k])
    ensures r == [] || (!IsSpace(r[0]) && !IsSpace(r[|r| - 1]))
  {
    var i := LeadingSpaces(s);
    var t := s[i..];
    assert t == [] || !IsSpace(t[0]);
    t[..|t| - TrailingSpaces(t)]
  }

  lemma StripNoSpace(s: string)
    requires NoSpace(s)
    ensures Strip(s) == s
  {
    assert LeadingSpaces(s) == 0;
    assert TrailingSpaces(s) == 0;
  }

  lemma StripIdempotent(s: string)
    ensures Strip(Strip(s)) == Strip(s)
  {
    var r := Strip(s);
    assert LeadingSpaces(r) == 0;
    assert TrailingSpaces(r) == 0;
  }

  // ---------------------------------------------------------------------
  // Splitting and joining
  // ---------------------------------------------------------------------

  /** Length of the longest whitespace-free prefix of `s`. */
  function WordLength(s: string): (n: nat)
    ensures n <= |s|
    ensures forall k :: 0 <= k < n ==> !IsSpace(s[k])
    ensures n < |s| ==> IsSpace(s[n])
  {
    if s == [] || IsSpace(s[0]) then 0 else 1 + WordLength(s[1..])
  }

  /** `s.split()` with no separator: the maximal runs of non-whitespace. */
  function Split(s: string): (r: seq<string>)
    ensures forall i :: 0 <= i < |r| ==> r[i] != [] && NoSpace(r[i])
    decreases |s|
  {
    var t := s[LeadingSpaces(s)..];
    if t == [] then []
    else
      var n := WordLength(t);
      [t[..n]] + Split(t[n..])
  }

  /** `sep.join(parts)`: the first part comes first, and a separator follows it when more parts do. */
  function Join(sep: string, parts: seq<string>): (r: string)
    ensures |parts| > 0 ==> parts[0] <= r
    ensures |parts| > 1 ==> |parts[0]| + |sep| <= |r| && r[|parts[0]|..|parts[0]| + |sep|] == sep
  {
    if |parts| == 0 then ""
    else if |parts| == 1 then parts[0]
    else parts[0] + sep + Join(sep, parts[1..])
  }

  /** `s.split(sep)` for a one-character separator: never empty. */
  function SplitOn(s: string, sep: char): (r: seq<string>)
    ensures |r| >= 1
    ensures forall i :: 0 <= i < |r| ==> sep !in r[i]
  {
    if s == [] then [""]
    else
      var rest := SplitOn(s[1..], sep);
      if s[0] == sep then [""] + rest
      else [[s[0]] + rest[0]] + rest[1..]
  }

  lemma {:induction false} SplitOnNoSep(s: string, sep: char)
    requires sep !in s
    ensures SplitOn(s, sep) == [s]
  {
    if s != [] {
      SplitOnNoSep(s[1..], sep);
      assert [s[0]] + s[1..] == s;
    }
  }

  lemma {:induction false} SplitOnAfterPart(a: string, b: string, sep: char)
    requires sep !in a
    ensures SplitOn(a + [sep] + b, sep) == [a] + SplitOn(b, sep)
  {
    if a == [] {
      assert ([sep] + b)[1..] == b;
    } else {
      assert (a + [sep] + b)[1..] == a[1..] + [sep] + b;
      SplitOnAfterPart(a[1..], b, sep);
      assert [a[0]] + a[1..] == a;
    }
  }

  /** Joining with a one-character separator and splitting on it gives the parts back. */
  lemma {:induction false} SplitOnJoin(parts: seq<string>, sep: char)
    requires |parts| >= 1
    requires forall i :: 0 <= i < |parts| ==> sep !in parts[i]
    ensures SplitOn(Join([sep], parts), sep) == parts
  {
    if |parts| == 1 {
      SplitOnNoSep(parts[0], sep);
    } else {
      SplitOnJoin(parts[1..], sep);
      SplitOnAfterPart(parts[0], Join([sep], parts[1..]), sep);
      assert [parts[0]] + parts[1..] == parts;
    }
  }

  /** A run of whitespace characters only. */
  predicate AllSpace(ws: string) {
    forall k :: 0 <= k < |ws| ==> IsSpace(ws[k])
  }

  lemma {:induction false} LeadingSpacesAfterRun(ws: string, s: string)
    requires AllSpace(ws)
    ensures LeadingSpaces(ws + s) == |ws| + LeadingSpaces(s)
  {
    if ws == [] {
      assert ws + s == s;
    } else {
      assert (ws + s)[1..] == ws[1..] + s;
      LeadingSpacesAfterRun(ws[1..], s);
    }
  }

  lemma {:induction false} WordLengthOfWord(w: string, rest: string)
    requires NoSpace(w)
    requires rest == [] || IsSpace(rest[0])
    ensures WordLength(w + rest) == |w|
  {
    if w != [] {
      assert (w + rest)[1..] == w[1..] + rest;
      WordLengthOfWord(w[1..], rest);
    }
  }

  /** Whitespace in front of a string does not change its split. */
  lemma SplitAfterSpaces(ws: string, t: string)
    requires AllSpace(ws)
    ensures Split(ws + t) == Split(t)
  {
    LeadingSpacesAfterRun(ws, t);
    assert (ws + t)[|ws| + LeadingSpaces(t)..] == t[LeadingSpaces(t)..];
  }

  /** A word followed by any non-empty run of whitespace splits off as the first token. */
  lemma SplitAfterWord(w: string, ws: string, t: string)
    requires w != [] && NoSpace(w)
    requires ws != [] && AllSpace(ws)
    ensures Split(w + ws + t) == [w] + Split(t)
  {
    var s := w + ws + t;
    assert s == w + (ws + t);
    assert LeadingSpaces(s) == 0;
    WordLengthOfWord(w, ws + t);
    assert s[..|w|] == w;
    assert s[|w|..] == ws + t;
    SplitAfterSpaces(ws, t);
  }

  /** A single word is a single token. */
  lemma SplitWord(w: string)
    requires w != [] && NoSpace(w)
    ensures Split(w) == [w]
  {
    WordLengthOfWord(w, []);
    assert w + [] == w;
    assert w[|w|..] == [];
  }

  /** Splitting words joined by single blanks gives the words back. */
  lemma {:induction false} SplitJoin(words: seq<string>)
    requires forall i :: 0 <= i < |words| ==> words[i] != [] && NoSpace(words[i])
    ensures Split(Join(" ", words)) == words
  {
    if |words| == 1 {
      SplitWord(words[0]);
    } else if |words| > 1 {
      var w, tail := words[0], Join(" ", words[1..]);
      SplitAfterWord(w, " ", tail);
      SplitJoin(words[1..]);
      assert [words[0]] + words[1..] == words;
    }
  }

  /** The tokens laid end to end. */
  function Concat(ss: seq<string>): string {
    if ss == [] then [] else ss[0] + Concat(ss[1..])
  }

  /** The characters of `s` that are not whitespace, in their order. */
  function NonBlank(s: string): string {
    if s == [] then [] else (if IsSpace(s[0]) then [] else [s[0]]) + NonBlank(s[1..])
  }

  lemma {:induction false} NonBlankAppend(a: string, b: string)
    ensures NonBlank(a + b) == NonBlank(a) + NonBlank(b)
  {
    if a == [] {
      assert a + b == b;
    } else {
      assert (a + b)[1..] == a[1..] + b;
      NonBlankAppend(a[1..], b);
    }
  }

  lemma {:induction false} NonBlankOfRun(ws: string)
    requires AllSpace(ws)
    ensures NonBlank(ws) == []
  {
    if ws != [] {
      NonBlankOfRun(ws[1..]);
    }
  }

  lemma {:induction false} NonBlankOfWord(w: string)
    requires NoSpace(w)
    ensures NonBlank(w) == w
  {
    if w != [] {
      NonBlankOfWord(w[1..]);
      assert [w[0]] + w[1..] == w;
    }
  }

  lemma NonBlankAfterLeading(s: string)
    ensures NonBlank(s) == NonBlank(s[LeadingSpaces(s)..])
  {
    var i := LeadingSpaces(s);
    assert s == s[..i] + s[i..];
    NonBlankAppend(s[..i], s[i..]);
    NonBlankOfRun(s[..i]);
  }

  lemma NonBlankAfterWord(t: string)
    ensures NonBlank(t) == t[..WordLength(t)] + NonBlank(t[WordLength(t)..])
  {
    var n := WordLength(t);
    assert t == t[..n] + t[n..];
    NonBlankAppend(t[..n], t[n..]);
    NonBlankOfWord(t[..n]);
  }

  /** `split()` drops exactly the whitespace: its tokens laid end to end are the other characters, in order. */
  lemma {:induction false} SplitKeepsCharacters(s: string)
    ensures Concat(Split(s)) == NonBlank(s)
    decreases |s|
  {
    NonBlankAfterLeading(s);
    var t := s[LeadingSpaces(s)..];
    if t != [] {
      var n := WordLength(t);
      NonBlankAfterWord(t);
      SplitKeepsCharacters(t[n..]);
      assert Split(s) == [t[..n]] + Split(t[n..]);
      assert ([t[..n]] + Split(t[n..]))[1..] == Split(t[n..]);
    }
  }

  /** Blanks joined between non-empty whitespace-free words leave both ends free of whitespace. */
  lemma {:induction false} JoinEnds(words: seq<string>)
    requires forall i :: 0 <= i < |words| ==> words[i] != [] && NoSpace(words[i])
    ensures var j := Join(" ", words); j == [] || (!IsSpace(j[0]) && !IsSpace(j[|j| - 1]))
  {
    if |words| > 1 {
      JoinEnds(words[1..]);
      var w, tail := words[0], Join(" ", words[1..]);
      assert (w + " " + tail)[0] == w[0];
      assert (w + " " + tail)[|w + " " + tail| - 1] == tail[|tail| - 1];
    }
  }

  /** `strip()` removes leading whitespace and nothing else from an already trimmed string. */
  lemma StripAfterRun(ws: string, x: string)
    requires AllSpace(ws)
    requires x == [] || (!IsSpace(x[0]) && !IsSpace(x[|x| - 1]))
    ensures Strip(ws + x) == x
  {
    LeadingSpacesAfterRun(ws, x);
    assert LeadingSpaces(x) == 0;
    var s := ws + x;
    assert s[|ws|..] == x;
    assert TrailingSpaces(x) == 0;
  }

  lemma {:induction false} TrailingSpacesBeforeRun(s: string, ws: string)
    requires AllSpace(ws)
    ensures TrailingSpaces(s + ws) == TrailingSpaces(s) + |ws|
  {
    if ws == [] {
      assert s + ws == s;
    } else {
      var p := ws[..|ws| - 1];
      TrailingSpacesBeforeRun(s, p);
      assert (s + ws)[..|s + ws| - 1] == s + p;
    }
  }

  /** Trimming whitespace placed on both sides of an already trimmed string gives that string. */
  lemma StripBetweenRuns(a: string, x: string, b: string)
    requires AllSpace(a) && AllSpace(b)
    requires x != [] && !IsSpace(x[0]) && !IsSpace(x[|x| - 1])
    ensures LeadingSpaces(a + x + b) == |a|
    ensures Strip(a + x + b) == x
  {
    var s := a + x + b;
    assert s == a + (x + b);
    LeadingSpacesAfterRun(a, x + b);
    assert LeadingSpaces(x + b) == 0;
    assert s[|a|..] == x + b;
    TrailingSpacesBeforeRun(x, b);
    assert TrailingSpaces(x) == 0;
    assert (x + b)[..|x|] == x;
  }

  /** `text.startswith(prefix)`: the text is at least as long and begins with the prefix. */
  predicate StartsWith(text: string, prefix: string): (b: bool)
    ensures b <==> |prefix| <= |text| && text[..|prefix|] == prefix
  {
    prefix <= text
  }

  // ---------------------------------------------------------------------
  // Removing characters
  // ---------------------------------------------------------------------

  /** `s.replace(c, "")` for a one-character `c`. */
  function Remove(s: string, c: char): (r: string)
    ensures |r| <= |s|
  {
    if s == [] then [] else (if s[0] == c then [] else [s[0]]) + Remove(s[1..], c)
  }

  /** `replace(c, "")` drops every `c` and keeps every other character, as often as it occurs. */
  lemma {:induction false} RemoveCounts(s: string, c: char)
    ensures multiset(Remove(s, c)) == multiset(s)[c := 0]
  {
    if s != [] {
      RemoveCounts(s[1..], c);
      assert s == [s[0]] + s[1..];
    }
  }

  /** The characters of `s` that are not in `cs`, in their order: the reference for repeated `Remove`. */
  function Without(s: string, cs: string): string {
    if s == [] then [] else (if s[0] in cs then [] else [s[0]]) + Without(s[1..], cs)
  }

  lemma {:induction false} WithoutAvoids(s: string, cs: string)
    ensures forall k :: 0 <= k < |Without(s, cs)| ==> Without(s, cs)[k] !in cs
    ensures forall k :: 0 <= k < |Without(s, cs)| ==> Without(s, cs)[k] in s
  {
    if s != [] {
      WithoutAvoids(s[1..], cs);
    }
  }

  lemma {:induction false} WithoutNoSpace(s: string, cs: string)
    requires NoSpace(s)
    ensures NoSpace(Without(s, cs))
  {
    WithoutAvoids(s, cs);
  }

  lemma {:induction false} RemoveThenWithout(s: string, c: char, cs: string)
    ensures Without(Remove(s, c), cs) == Without(s, [c] + cs)
  {
    if s != [] {
      RemoveThenWithout(s[1..], c, cs);
      var r := Remove(s, c);
      if s[0] == c {
        assert r == Remove(s[1..], c);
        assert s[0] in [c] + cs;
      } else {
        assert r[0] == s[0] && r[1..] == Remove(s[1..], c);
        assert s[0] in [c] + cs <==> s[0] in cs;
      }
    }
  }

  // ---------------------------------------------------------------------
  // Letter case (ASCII letters only)
  // ---------------------------------------------------------------------

  predicate IsUpper(c: char) { 'A' <= c <= 'Z' }
  predicate IsLower(c: char) { 'a' <= c <= 'z' }

  function LowerChar(c: char): (d: char)
    ensures !IsUpper(d)
    ensures IsSpace(d) <==> IsSpace(c)
  {
    if IsUpper(c) then (c as int + 32) as char else c
  }

  function UpperChar(c: char): (d: char)
    ensures !IsLower(d)
    ensures IsSpace(d) <==> IsSpace(c)
  {
    if IsLower(c) then (c as int - 32) as char else c
  }

  /** The two characters are the same letter up to case, or the same non-letter. */
  predicate SameIgnoringCase(c: char, d: char) {
    UpperChar(c) == UpperChar(d)
  }

  /** `s.lower()`. */
  function Lower(s: string): (r: string)
    ensures |r| == |s|
    ensures forall k :: 0 <= k < |r| ==> !IsUpper(r[k]) && SameIgnoringCase(r[k], s[k])
    ensures NoSpace(s) ==> NoSpace(r)
  {
    if s == [] then [] else [LowerChar(s[0])] + Lower(s[1..])
  }

  /** The shape `capitalize()` produces: no lower-case first letter, no upper-case letter after it. */
  predicate IsCapitalized(s: string) {
    (s != [] ==> !IsLower(s[0])) && forall k :: 1 <= k < |s| ==> !IsUpper(s[k])
  }

  /** `s.capitalize()`: first character upper-case, the rest lower-case. */
  function Capitalize(s: string): (r: string)
    ensures |r| == |s|
    ensures IsCapitalized(r)
    ensures forall k :: 0 <= k < |r| ==> SameIgnoringCase(r[k], s[k])
    ensures NoSpace(s) ==> NoSpace(r)
  {
    if s == [] then [] else [UpperChar(s[0])] + Lower(s[1..])
  }

  lemma {:induction false} LowerFixes(s: string)
    requires forall k :: 0 <= k < |s| ==> !IsUpper(s[k])
    ensures Lower(s) == s
  {
    if s != [] {
      LowerFixes(s[1..]);
      assert [s[0]] + s[1..] == s;
    }
  }

  /** The strings `capitalize()` leaves alone are exactly the capitalised ones. */
  lemma CapitalizeFixedPoints(s: string)
    ensures Capitalize(s) == s <==> IsCapitalized(s)
  {
    if IsCapitalized(s) && s != [] {
      LowerFixes(s[1..]);
      assert [s[0]] + s[1..] == s;
    }
  }

  lemma CapitalizeIdempotent(s: string)
    ensures Capitalize(Capitalize(s)) == Capitalize(s)
  {
    CapitalizeFixedPoints(Capitalize(s));
  }

  // ---------------------------------------------------------------------
  // int() on decimal strings
  // ---------------------------------------------------------------------

  predicate IsDigit(c: char) { '0' <= c <= '9' }

  /** A non-empty string of ASCII decimal digits. */
  predicate IsDecimal(s: string) {
    |s| > 0 && forall k :: 0 <= k < |s| ==> IsDigit(s[k])
  }

  function DigitsValue(s: string): nat
    requires forall k :: 0 <= k < |s| ==> IsDigit(s[k])
  {
    if s == [] then 0
    else
      assert IsDigit(s[|s| - 1]);
      10 * DigitsValue(s[..|s| - 1]) + (s[|s| - 1] as int - '0' as int)
  }

  lemma {:induction false} DigitsValueZero(s: string)
    requires forall k :: 0 <= k < |s| ==> IsDigit(s[k])
    ensures DigitsValue(s) == 0 <==> forall k :: 0 <= k < |s| ==> s[k] == '0'
  {
    if s != [] {
      var p := s[..|s| - 1];
      DigitsValueZero(p);
      if DigitsValue(s) == 0 {
        forall k | 0 <= k < |s| ensures s[k] == '0' {
          if k < |s| - 1 { assert s[k] == p[k]; }
        }
      } else {
        assert !(DigitsValue(p) == 0 && s[|s| - 1] == '0');
      }
    }
  }

  /**
    The default of `sys.get_int_max_str_digits()`: `int()` refuses a decimal
    string with more digits than this with a `ValueError`.
   */
  const MAX_STR_DIGITS: nat := 4300

  /**
    The whitespace `int()` skips around its digits. CPython first turns every
    non-ASCII whitespace character into a blank and then skips only the six
    ASCII whitespace characters, so the separators U+001C to U+001F, which
    `isspace` and `strip()` accept, are not skipped.
   */
  predicate IsIntSpace(c: char) {
    IsSpace(c) && !(28 <= c as int <= 31)
  }

  predicate IntSkips(s: string) {
    forall k :: 0 <= k < |s| ==> IsIntSpace(s[k])
  }

  /**
    A string `int()` reads in base 10: the digits left by `strip()`, at most
    `MAX_STR_DIGITS` of them, and only whitespace that `int()` skips around
    them.
   */
  predicate IsIntText(s: string) {
    var i, t := LeadingSpaces(s), Strip(s);
    IsDecimal(t) && |t| <= MAX_STR_DIGITS && IntSkips(s[..i]) && IntSkips(s[i + |t|..])
  }

  /** `int(s)` for base 10. */
  function ParseInt(s: string): (r: Option<nat>)
    ensures r.Some? <==> IsIntText(s)
    ensures r.Some? ==> (r.value == 0 <==> forall k :: 0 <= k < |Strip(s)| ==> Strip(s)[k] == '0')
  {
    var t := Strip(s);
    if IsIntText(s) then
      DigitsValueZero(t);
      Some(DigitsValue(t))
    else
      None
  }

  /**
    `int()` accepts digits padded on both sides by whitespace it skips, and
    reads their value; by `Strip`'s contract every text it accepts has this
    shape.
   */
  lemma ParseIntPadded(a: string, d: string, b: string)
    requires IntSkips(a) && IntSkips(b)
    requires IsDecimal(d) && |d| <= MAX_STR_DIGITS
    ensures ParseInt(a + d + b) == Some(DigitsValue(d))
  {
    var s := a + d + b;
    StripBetweenRuns(a, d, b);
    assert s[..|a|] == a;
    assert s[|a| + |d|..] == b;
  }

  /** A separator control character after the digits makes `int()` fail, though `strip()` would remove it. */
  lemma ParseIntRefusesSeparator(d: string, c: char)
    requires IsDecimal(d)
    requires 28 <= c as int <= 31
    ensures IsSpace(c)
    ensures ParseInt(d + [c]) == None
  {
    var s := d + [c];
    assert LeadingSpaces(s) == 0 by { assert s[0] == d[0]; }
    var t := Strip(s);
    if IsDecimal(t) && |t| <= MAX_STR_DIGITS {
      assert |t| <= |d|;
      assert s[|t|..][|d| - |t|] == c;
    }
  }
}
