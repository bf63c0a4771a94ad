/**
  The `normalize_phone` step (bot.py:21-29): trim the argument, delete every
  `+`, `(`, `)` and `-`, and decide by `int()` whether the handler runs.
 */
module Phone {
  import opened Wrappers
  import opened PyStr

  /** The characters `normalize_phone` deletes, in the order its `reduce` visits them. */
  const SEPARATORS: string := "+()-"

  /**
    `reduce(lambda a, b: a.replace(b, ""), cs, s)`: deleting the characters
    one at a time is filtering them all out at once.
   */
  function RemoveEach(s: string, cs: string): (r: string)
    ensures r == Without(s, cs)
    decreases |cs|
  {
    if cs == [] then
      WithoutNothing(s);
      s
    else
      RemoveThenWithout(s, cs[0], cs[1..]);
      assert [cs[0]] + cs[1..] == cs;
      RemoveEach(Remove(s, cs[0]), cs[1..])
  }

  lemma {:induction false} WithoutNothing(s: string)
    ensures Without(s, []) == s
  {
    if s != [] {
      WithoutNothing(s[1..]);
      assert [s[0]] + s[1..] == s;
    }
  }

  /** The phone string `normalize_phone` passes on: the trimmed argument without separators. */
  function Normalize(raw: string): (p: string)
    ensures p == Without(Strip(raw), SEPARATORS)
    ensures forall k :: 0 <= k < |p| ==> p[k] !in SEPARATORS
    ensures NoSpace(raw) ==> NoSpace(p)
  {
    WithoutAvoids(Strip(raw), SEPARATORS);
    StripKeepsNoSpace(raw);
    RemoveEach(Strip(raw), SEPARATORS)
  }

  lemma StripKeepsNoSpace(raw: string)
    ensures NoSpace(raw) ==> NoSpace(Without(Strip(raw), SEPARATORS))
  {
    if NoSpace(raw) {
      StripNoSpace(raw);
      WithoutNoSpace(raw, SEPARATORS);
    }
  }

  /** A phone the contact table may hold: no separators, and `int()` reads it as a non-zero number. */
  predicate Storable(phone: string) {
    (forall k :: 0 <= k < |phone| ==> phone[k] !in SEPARATORS)
    && ParseInt(phone).Some? && ParseInt(phone).value != 0
  }

  /** What `if int(phone):` decides: raise `ValueError`, skip the handler, or call it with the phone. */
  datatype Verdict = Malformed | Zero | Accepted(phone: string)

  function CheckPhone(raw: string): (v: Verdict)
    ensures v.Malformed? <==> !IsIntText(Normalize(raw))
    ensures v.Accepted? ==> v.phone == Normalize(raw) && Storable(v.phone)
  {
    var phone := Normalize(raw);
    match ParseInt(phone)
    case None => Malformed
    case Some(n) => if n == 0 then Zero else Accepted(phone)
  }

  /** `int()` reads zero exactly when the normalised phone is a run of zeros, possibly blank-padded. */
  lemma CheckPhoneZero(raw: string)
    ensures CheckPhone(raw).Zero? <==>
      var t := Strip(Normalize(raw));
      IsIntText(Normalize(raw)) && forall k :: 0 <= k < |t| ==> t[k] == '0'
  {
    var p := Normalize(raw);
    assert CheckPhone(raw).Zero? <==> ParseInt(p) == Some(0);
  }

  /** Every storable phone is non-empty, so the `if rec:` and `if phone:` tests on it succeed. */
  lemma StorableNonEmpty(phone: string)
    requires Storable(phone)
    ensures phone != []
  {
  }

  /** A whitespace-free argument that is accepted becomes a string of decimal digits. */
  lemma TokenPhoneIsDigits(raw: string)
    requires NoSpace(raw)
    requires CheckPhone(raw).Accepted?
    ensures IsDecimal(CheckPhone(raw).phone)
  {
    StripNoSpace(Normalize(raw));
  }

  /** A string that holds no separator loses nothing to the filter. */
  lemma {:induction false} WithoutKeeps(s: string)
    requires forall k :: 0 <= k < |s| ==> s[k] !in SEPARATORS
    ensures Without(s, SEPARATORS) == s
  {
    if s != [] {
      WithoutKeeps(s[1..]);
      assert [s[0]] + s[1..] == s;
    }
  }

  /** A typed phone of plain digits is refused when it is longer than `int()` accepts. */
  lemma TooManyDigitsIsMalformed(raw: string)
    requires IsDecimal(raw) && |raw| > MAX_STR_DIGITS
    ensures CheckPhone(raw) == Malformed
  {
    assert NoSpace(raw);
    StripNoSpace(raw);
    WithoutKeeps(raw);
  }

  /** `Without` works character by character, so it distributes over concatenation. */
  lemma {:induction false} WithoutAppend(a: string, b: string, cs: string)
    ensures Without(a + b, cs) == Without(a, cs) + Without(b, cs)
  {
    if a == [] {
      assert a + b == b;
    } else {
      WithoutAppend(a[1..], b, cs);
      assert (a + b)[0] == a[0];
      assert (a + b)[1..] == a[1..] + b;
    }
  }

  /**
    A separator control character (U+001C to U+001F) inside the brackets
    survives the trim, is exposed when the brackets go, and then makes
    `int()` fail: the argument is malformed.
   */
  lemma BracketedSeparatorIsMalformed(d: string, c: char)
    requires IsDecimal(d)
    requires 28 <= c as int <= 31
    ensures CheckPhone("(" + d + [c] + ")") == Malformed
  {
    var m := d + [c];
    assert "(" + d + [c] + ")" == "(" + m + ")";
    assert forall k :: 0 <= k < |m| ==> m[k] !in SEPARATORS by {
      forall k | 0 <= k < |m| ensures m[k] !in SEPARATORS {
        if k < |d| { assert IsDigit(d[k]); }
      }
    }
    StripBracketed(m);
    WithoutBracketed(m);
    ParseIntRefusesSeparator(d, c);
  }

  lemma StripBracketed(m: string)
    ensures Strip("(" + m + ")") == "(" + m + ")"
  {
    var x := "(" + m + ")";
    StripAfterRun("", x);
    assert "" + x == x;
  }

  lemma WithoutBracketed(m: string)
    requires forall k :: 0 <= k < |m| ==> m[k] !in SEPARATORS
    ensures Without("(" + m + ")", SEPARATORS) == m
  {
    WithoutAppend("(" + m, ")", SEPARATORS);
    WithoutAppend("(", m, SEPARATORS);
    WithoutKeeps(m);
    assert Without(")", SEPARATORS) == [];
    assert Without("(", SEPARATORS) == [];
  }

  /** `"(1\x1c)"` is refused, although `strip()` treats U+001C as whitespace. */
  lemma SeparatorExample()
    ensures CheckPhone("(1\U{1c})") == Malformed
  {
    assert "(1\U{1c})" == "(" + "1" + ['\U{1c}'] + ")";
    BracketedSeparatorIsMalformed("1", '\U{1c}');
  }

  // Worked examples. Each evaluation on a literal is kept in a lemma of its
  // own, so that the solver unfolds one string at a time.

  lemma StripExample()
    ensures Strip("+(1)-2") == "+(1)-2"
  {
    StripNoSpace("+(1)-2");
  }

  lemma WithoutExample()
    ensures Without("+(1)-2", SEPARATORS) == "12"
  {
    assert Without("-2", SEPARATORS) == "2";
    assert Without(")-2", SEPARATORS) == "2";
    assert Without("1)-2", SEPARATORS) == "12";
  }

  lemma NormalizeDigitsWithSeparators()
    ensures Normalize("+(1)-2") == "12"
  {
    StripExample();
    WithoutExample();
  }

  lemma ParseNonZero()
    ensures ParseInt("12").Some? && ParseInt("12").value != 0
  {
    StripNoSpace("12");
    assert IsDecimal("12") && "12"[0] != '0';
  }

  /** Separators go and a non-zero number is passed on. */
  lemma AcceptedExample()
    ensures CheckPhone("+(1)-2") == Accepted("12")
  {
    NormalizeDigitsWithSeparators();
    ParseNonZero();
  }

  lemma NormalizeBracketedZero()
    ensures Normalize("(0)") == "0"
  {
    StripNoSpace("(0)");
    assert Without("(0)", SEPARATORS) == "0";
  }

  lemma ParseZero()
    ensures ParseInt("0") == Some(0)
  {
    StripNoSpace("0");
  }

  /** A phone that reads as zero skips the handler. */
  lemma ZeroExample()
    ensures CheckPhone("(0)") == Zero
  {
    NormalizeBracketedZero();
    ParseZero();
  }

  lemma NormalizeLetter()
    ensures Normalize("1a") == "1a"
  {
    StripNoSpace("1a");
    assert Without("1a", SEPARATORS) == "1a";
  }

  lemma ParseLetter()
    ensures ParseInt("1a") == None
  {
    StripNoSpace("1a");
    assert !IsDigit("1a"[1]);
  }

  /** A letter makes `int()` fail. */
  lemma MalformedExample()
    ensures CheckPhone("1a") == Malformed
  {
    NormalizeLetter();
    ParseLetter();
  }

  lemma NormalizeExposesBlank()
    ensures Normalize("(1 )") == "1 "
  {
    assert LeadingSpaces("(1 )") == 0;
    assert TrailingSpaces("(1 )") == 0;
    assert Strip("(1 )") == "(1 )";
    assert Without("(1 )", SEPARATORS) == "1 ";
  }

  lemma ParseTrailingBlank()
    ensures ParseInt("1 ") == Some(1)
  {
    assert LeadingSpaces("1 ") == 0;
    assert TrailingSpaces("1 ") == 1;
    assert Strip("1 ") == "1";
  }

  /**
    The trim runs before the separators are deleted, so whitespace inside a
    separator pair is exposed afterwards; `int()` skips it and the phone is
    kept with its trailing blank.
   */
  lemma ExposedBlankIsKept()
    ensures CheckPhone("(1 )") == Accepted("1 ")
  {
    NormalizeExposesBlank();
    ParseTrailingBlank();
  }
}
