/**
  The hex colour parser `hex_to_rgb`: every leading '#' is stripped and three
  base-16 fields are read from the Python slices t[0:2], t[2:4] and t[4:6] of
  what is left. A slice past the end of the string is shorter or empty, so a
  field may hold one or two digits; an empty field or a non-hex character is an
  error (Python's `int(field, 16)` raising `ValueError`).
*/
module HexColor {
  import opened Wrappers
  import opened Color

  /** The parse failure: the offset of the first field that is not a base-16 number, and its text. */
  datatype HexError = InvalidField(offset: nat, text: string)

  predicate IsHexDigit(c: char) {
    '0' <= c <= '9' || 'a' <= c <= 'f' || 'A' <= c <= 'F'
  }

  predicate AllHexDigits(s: string) {
    forall i :: 0 <= i < |s| ==> IsHexDigit(s[i])
  }

  function DigitValue(c: char): (v: nat)
    requires IsHexDigit(c)
    ensures v < 16
  {
    if '0' <= c <= '9' then (c as int) - ('0' as int)
    else if 'a' <= c <= 'f' then (c as int) - ('a' as int) + 10
    else (c as int) - ('A' as int) + 10
  }

  function Pow16(n: nat): (p: nat)
    ensures p >= 1
  {
    if n == 0 then 1 else 16 * Pow16(n - 1)
  }

  /** The base-16 number a string of hex digits spells, most significant digit first. */
  function HexValue(s: string): (v: nat)
    requires AllHexDigits(s)
    ensures v < Pow16(|s|)
  {
    if s == [] then 0
    else 16 * HexValue(s[..|s| - 1]) + DigitValue(s[|s| - 1])
  }

  /** `s.lstrip('#')`: the string without its leading '#' characters. */
  function StripLeadingHashes(s: string): (t: string)
    ensures |t| <= |s|
    ensures t != [] ==> t[0] != '#'
  {
    if s != [] && s[0] == '#' then StripLeadingHashes(s[1..]) else s
  }

  /** What the strip leaves is a suffix of the input, and everything before it is '#'. */
  lemma {:induction false} StripIsSuffix(s: string)
    ensures var t := StripLeadingHashes(s);
      t == s[|s| - |t|..] && forall i :: 0 <= i < |s| - |t| ==> s[i] == '#'
  {
    if s != [] && s[0] == '#' {
      StripIsSuffix(s[1..]);
    }
  }

  /** The Python slice `t[i:i+2]`: clipped to the end of `t`, empty past it. */
  function Field(t: string, i: nat): (f: string)
    ensures |f| <= 2
    ensures |f| == 0 <==> |t| <= i
  {
    var lo := if i <= |t| then i else |t|;
    var hi := if i + 2 <= |t| then i + 2 else |t|;
    t[lo..hi]
  }

  /** `int(f, 16)` for a field of at most two characters, limited to plain hex digits. */
  function FieldValue(f: string): (r: Option<Channel>)
    requires |f| <= 2
    ensures r.Some? <==> f != [] && AllHexDigits(f)
    ensures |f| == 1 && r.Some? ==> r.value == DigitValue(f[0])
    ensures |f| == 2 && r.Some? ==> r.value == 16 * DigitValue(f[0]) + DigitValue(f[1])
  {
    if f != [] && AllHexDigits(f) then
      assert Pow16(|f|) <= 256;
      assert |f| == 1 ==> f[..0] == [];
      assert |f| == 2 ==> HexValue(f[..1]) == DigitValue(f[0]) by {
        if |f| == 2 { assert f[..1][..0] == []; }
      }
      Some(HexValue(f))
    else None
  }

  /** `hex_to_rgb`: strip the leading '#' characters, then read the three fields. */
  function HexToRgb(s: string): Result<Rgb, HexError> {
    ReadFields(StripLeadingHashes(s))
  }

  /** The fields are read in the order 0, 2, 4 and the first bad one is reported. */
  function ReadFields(t: string): Result<Rgb, HexError> {
    var f0, f2, f4 := Field(t, 0), Field(t, 2), Field(t, 4);
    match FieldValue(f0)
    case None => Err(InvalidField(0, f0))
    case Some(r) =>
      match FieldValue(f2)
      case None => Err(InvalidField(2, f2))
      case Some(g) =>
        match FieldValue(f4)
        case None => Err(InvalidField(4, f4))
        case Some(b) => Ok(Rgb(r, g, b))
  }

  /** Two hex digits read as one channel value. */
  function PairValue(hi: char, lo: char): (v: Channel)
    requires IsHexDigit(hi) && IsHexDigit(lo)
  {
    16 * DigitValue(hi) + DigitValue(lo)
  }

  function Hashes(k: nat): (s: string)
    ensures |s| == k && forall i :: 0 <= i < k ==> s[i] == '#'
  {
    if k == 0 then [] else ['#'] + Hashes(k - 1)
  }

  /** Stripping removes exactly the leading '#' run and nothing of what follows it. */
  lemma {:induction false} StripHashesPrefix(k: nat, t: string)
    requires t == [] || t[0] != '#'
    ensures StripLeadingHashes(Hashes(k) + t) == t
  {
    var s := Hashes(k) + t;
    if k > 0 {
      assert s == ['#'] + (Hashes(k - 1) + t);
      assert s[1..] == Hashes(k - 1) + t;
      StripHashesPrefix(k - 1, t);
    } else {
      assert s == t;
    }
  }

  /** When something other than '#' survives the strip, text appended to the input survives it too. */
  lemma {:induction false} StripHashesAppend(s: string, x: string)
    requires StripLeadingHashes(s) != []
    ensures StripLeadingHashes(s + x) == StripLeadingHashes(s) + x
  {
    if s[0] == '#' {
      assert (s + x)[1..] == s[1..] + x;
      StripHashesAppend(s[1..], x);
    }
  }

  /** A field of two hex digits is read as their two-digit value. */
  lemma PairFieldValue(t: string, i: nat)
    requires i + 2 <= |t| && IsHexDigit(t[i]) && IsHexDigit(t[i + 1])
    ensures FieldValue(Field(t, i)) == Some(PairValue(t[i], t[i + 1]))
  {
    var f := Field(t, i);
    assert f[0] == t[i] && f[1] == t[i + 1];
    assert AllHexDigits(f);
  }

  /**
    Any number of leading '#' followed by six hex digits parses to the triple of
    the three two-digit base-16 values; upper and lower case digits are equal.
  */
  lemma SixHexDigitsParse(k: nat, h: string)
    requires |h| == 6 && AllHexDigits(h)
    ensures HexToRgb(Hashes(k) + h)
         == Ok(Rgb(PairValue(h[0], h[1]), PairValue(h[2], h[3]), PairValue(h[4], h[5])))
  {
    StripHashesPrefix(k, h);
    ReadSixDigits(h);
  }

  lemma ReadSixDigits(h: string)
    requires |h| == 6 && AllHexDigits(h)
    ensures ReadFields(h) == Ok(Rgb(PairValue(h[0], h[1]), PairValue(h[2], h[3]), PairValue(h[4], h[5])))
  {
    PairFieldValue(h, 0);
    PairFieldValue(h, 2);
    PairFieldValue(h, 4);
  }

  /**
    Parsing succeeds exactly when, after the strip, at least five characters are
    left and the first six (or five) are all hex digits.
  */
  lemma ParseSucceedsIff(s: string)
    ensures HexToRgb(s).Ok? <==>
      var t := StripLeadingHashes(s);
      |t| >= 5 && forall i :: 0 <= i < |t| && i < 6 ==> IsHexDigit(t[i])
  {
    var t := StripLeadingHashes(s);
    FieldReadsIff(t, 0);
    FieldReadsIff(t, 2);
    FieldReadsIff(t, 4);
  }

  /** A field is read exactly when its slice is non-empty and all hex digits. */
  lemma FieldReadsIff(t: string, i: nat)
    ensures FieldValue(Field(t, i)).Some? <==>
      i < |t| && forall j :: i <= j < |t| && j < i + 2 ==> IsHexDigit(t[j])
  {
    var f := Field(t, i);
    if i < |t| {
      assert forall j :: i <= j < |t| && j < i + 2 ==> t[j] == f[j - i];
    }
  }

  /**
    A failure names the first field, in the order 0, 2, 4, that is empty or not
    all hex digits, and carries that field's text.
  */
  lemma ErrorNamesFirstBadField(s: string)
    ensures HexToRgb(s).Err? ==>
      var t, e := StripLeadingHashes(s), HexToRgb(s).error;
      && (e.offset == 0 || e.offset == 2 || e.offset == 4)
      && e.text == Field(t, e.offset)
      && FieldValue(e.text).None?
      && (e.offset >= 2 ==> FieldValue(Field(t, 0)).Some?)
      && (e.offset >= 4 ==> FieldValue(Field(t, 2)).Some?)
  {
  }

  /** When the strip leaves six or more characters, what follows offset 6 does not matter. */
  lemma ParseIgnoresTail(s: string, x: string)
    requires |StripLeadingHashes(s)| >= 6
    ensures HexToRgb(s + x) == HexToRgb(s)
  {
    StripHashesAppend(s, x);
    var t := StripLeadingHashes(s);
    ReadIgnoresTail(t, x);
  }

  /** Only the three field slices decide the outcome of reading. */
  lemma SameFieldsSameRead(t: string, u: string)
    requires Field(t, 0) == Field(u, 0) && Field(t, 2) == Field(u, 2) && Field(t, 4) == Field(u, 4)
    ensures ReadFields(t) == ReadFields(u)
  {
  }

  lemma ReadIgnoresTail(t: string, x: string)
    requires |t| >= 6
    ensures ReadFields(t + x) == ReadFields(t)
  {
    assert (t + x)[0..2] == t[0..2];
    assert (t + x)[2..4] == t[2..4];
    assert (t + x)[4..6] == t[4..6];
    SameFieldsSameRead(t + x, t);
  }

  /** "#FF0000" is pure red. */
  lemma RedParses()
    ensures HexToRgb("#FF0000") == Ok(Rgb(255, 0, 0))
  {
    assert StripLeadingHashes("#FF0000") == "FF0000" by {
      assert "#FF0000"[1..] == "FF0000";
    }
    ReadSixDigits("FF0000");
  }

  /** Without the '#' and in lower case, "ff0000" is the same red. */
  lemma LowerCaseRedParses()
    ensures HexToRgb("ff0000") == Ok(Rgb(255, 0, 0))
  {
    assert StripLeadingHashes("ff0000") == "ff0000";
    ReadSixDigits("ff0000");
  }

  /** Four digits leave the third field empty, and that is the error reported. */
  lemma FourDigitsFail()
    ensures HexToRgb("FF00") == Err(InvalidField(4, ""))
  {
    assert StripLeadingHashes("FF00") == "FF00";
  }

  /** Five digits are accepted: the third field is the single digit left. */
  lemma FiveDigitsParse()
    ensures HexToRgb("#FFF00") == Ok(Rgb(255, 240, 0))
  {
    StripHashesPrefix(1, "FFF00");
    assert Hashes(1) + "FFF00" == "#FFF00";
    PairFieldValue("FFF00", 0);
    PairFieldValue("FFF00", 2);
    assert Field("FFF00", 4) == "0";
  }

  /** Two digits leave the second field empty: that field, not the third, is the error reported. */
  lemma TwoDigitsFail()
    ensures HexToRgb("#FF") == Err(InvalidField(2, ""))
  {
    StripHashesPrefix(1, "FF");
    assert Hashes(1) + "FF" == "#FF";
  }

  /** A non-hex character in the first field stops the parse there. */
  lemma NonHexFirstFieldFails()
    ensures HexToRgb("#GG0000") == Err(InvalidField(0, "GG"))
  {
    StripHashesPrefix(1, "GG0000");
    assert Hashes(1) + "GG0000" == "#GG0000";
    assert Field("GG0000", 0) == "GG" by {
      assert "GG0000"[0..2] == "GG";
    }
    assert !AllHexDigits("GG") by {
      assert !IsHexDigit("GG"[0]);
    }
  }
}
