/**
 * The Phone value object (app/domain/value_objects/phone.py): a frozen
 * wrapper around a phone number that is normalised on construction
 * (everything but digits and '+' is dropped) and then validated against
 * E.164. Equality and hashing use the normalised value, which is what
 * datatype equality on `Phone` gives.
 */
module PhoneNumbers {
  import opened Common
  import opened Patterns

  /** A constructed phone; `value` is the normalised number. */
  datatype Phone = Phone(value: string)

  /** The characters `_normalize` keeps. */
  predicate Kept(c: char) { IsDigit(c) || c == '+' }

  predicate AllKept(s: string) { forall i :: 0 <= i < |s| ==> Kept(s[i]) }

  /** `_normalize`: the digits and '+' signs of `s`, in order. */
  function Normalize(s: string): (r: string)
    ensures |r| <= |s|
    ensures AllKept(r)
  {
    if s == [] then []
    else (if Kept(s[0]) then [s[0]] else []) + Normalize(s[1..])
  }

  /** '+', a non-zero digit and 1 to 14 further digits. */
  predicate IsE164(v: string) {
    3 <= |v| <= 16 && v[0] == '+' && '1' <= v[1] <= '9' && AllDigits(v[1..])
  }

  /**
   * `_validate(original)`, run on the normalised value: a blank input is an
   * empty field; an input that normalises to nothing, does not start with
   * '+' followed only by digits, or does not fit E164_PATTERN is invalid.
   */
  function Validate(original: string): Outcome {
    var v := Normalize(original);
    if IsBlank(original) then Fail(EmptyField("phone"))
    else if IsBlank(v) then Fail(InvalidPhone(original))
    else if !(v[0] == '+' && |v| > 1 && AllDigits(v[1..])) then Fail(InvalidPhone(original))
    else if !E164Pattern(v) then Fail(InvalidPhone(original))
    else Pass
  }

  /** On normalised text, the four checks of `_validate` amount to `IsE164`. */
  lemma {:induction false} ValidateMeansE164(original: string)
    ensures !IsBlank(original) ==> (Validate(original).Pass? <==> IsE164(Normalize(original)))
  {
    var v := Normalize(original);
    assert |v| > 0 ==> Kept(v[|v| - 1]);
    if IsE164(v) {
      assert !IsSpace(v[0]);
      assert E164Core(v);
    }
  }

  /**
   * `Phone.create(value)` (and `Phone.from_e164`, which makes the same
   * constructor call): succeeds exactly on non-blank input that normalises
   * to an E.164 number, and then holds the normalised number.
   */
  function Create(original: string): (r: Result<Phone, DomainError>)
    ensures r.Success? <==> !IsBlank(original) && IsE164(Normalize(original))
    ensures r.Success? ==> r.value.value == Normalize(original)
    ensures IsBlank(original) ==> r == Failure(EmptyField("phone"))
    ensures !IsBlank(original) && r.Failure? ==> r == Failure(InvalidPhone(original))
  {
    ValidateMeansE164(original);
    :- Validate(original);
    Success(Phone(Normalize(original)))
  }

  /** `Phone.try_create`: None exactly when `create` raises one of the two errors it can raise. */
  function TryCreate(original: string): (r: Option<Phone>)
    ensures r.None? <==> Create(original).Failure?
    ensures r.Some? ==> Create(original) == Success(r.value)
  {
    match Create(original)
    case Success(p) => Some(p)
    case Failure(_) => None
  }

  /** The text after a leading '+', or all of it. */
  function Digits(p: Phone): string {
    if |p.value| > 0 && p.value[0] == '+' then p.value[1..] else p.value
  }

  /** `digits[:n]` with Python's clamping slice. */
  function Prefix(s: string, n: nat): string {
    if n <= |s| then s[..n] else s
  }

  /**
   * `get_country_code`: for ten or more digits, the first of the 3-, 2- and
   * 1-character prefixes that is all digits; otherwise (and as fallback)
   * the first two characters.
   */
  function CountryCode(p: Phone): string {
    var digits := Digits(p);
    if |digits| >= 10 && AllDigits(digits[..3]) then digits[..3]
    else if |digits| >= 10 && AllDigits(digits[..2]) then digits[..2]
    else if |digits| >= 10 && AllDigits(digits[..1]) then digits[..1]
    else Prefix(digits, 2)
  }

  /** `get_national_number`: what follows '+' and the country code. */
  function NationalNumber(p: Phone): string {
    var cc := CountryCode(p);
    if |p.value| > 0 && p.value[0] == '+' then
      (if 1 + |cc| <= |p.value| then p.value[1 + |cc|..] else [])
    else p.value
  }

  /** `" ".join(s[i:i+3] for i in range(0, len(s), 3))`. */
  function GroupsOfThree(s: string): string
    decreases |s|
  {
    if |s| <= 3 then s else s[..3] + " " + GroupsOfThree(s[3..])
  }

  /** `format_international`: "+CC NNN NNN …", or the value itself when it has no '+'. */
  function FormatInternational(p: Phone): string {
    if !(|p.value| > 0 && p.value[0] == '+') then p.value
    else
      var digits := p.value[1..];
      var cc := CountryCode(p);
      "+" + cc + " " + GroupsOfThree(if |cc| <= |digits| then digits[|cc|..] else [])
  }

  // ---------------------------------------------------------------------
  // Properties

  lemma {:induction false} NormalizeAppend(a: string, b: string)
    ensures Normalize(a + b) == Normalize(a) + Normalize(b)
    decreases |a|
  {
    if a == [] {
      assert a + b == b;
    } else {
      var head := if Kept(a[0]) then [a[0]] else [];
      assert (a + b)[0] == a[0];
      assert (a + b)[1..] == a[1..] + b;
      assert Normalize(a + b) == head + Normalize(a[1..] + b);
      NormalizeAppend(a[1..], b);
      assert Normalize(a) == head + Normalize(a[1..]);
    }
  }

  /** Normalising text made of digits and '+' changes nothing, so `_normalize` is idempotent. */
  lemma {:induction false} NormalizeKeeps(s: string)
    requires AllKept(s)
    ensures Normalize(s) == s
    decreases |s|
  {
    if s != [] {
      NormalizeKeeps(s[1..]);
    }
  }

  lemma NormalizeIdempotent(s: string)
    ensures Normalize(Normalize(s)) == Normalize(s)
  {
    NormalizeKeeps(Normalize(s));
  }

  /** The spaces `format_international` inserts are exactly what normalising drops again. */
  lemma {:induction false} NormalizeGroups(s: string)
    requires AllDigits(s)
    ensures Normalize(GroupsOfThree(s)) == s
    decreases |s|
  {
    if |s| <= 3 {
      NormalizeKeeps(s);
    } else {
      NormalizeAppend(s[..3] + " ", GroupsOfThree(s[3..]));
      NormalizeAppend(s[..3], " ");
      NormalizeKeeps(s[..3]);
      assert Normalize(" ") == [];
      NormalizeGroups(s[3..]);
      assert s[..3] + s[3..] == s;
    }
  }

  /**
   * The parts of a valid phone: the country code is the first three digits
   * when there are ten or more, else the first two, and '+', the country
   * code and the national number put back together give the value.
   */
  lemma ValidPhoneParts(p: Phone)
    requires IsE164(p.value)
    ensures CountryCode(p) == if |p.value| >= 11 then p.value[1..4] else p.value[1..3]
    ensures "+" + CountryCode(p) + NationalNumber(p) == p.value
  {
    var digits := p.value[1..];
    if |p.value| >= 11 {
      assert AllDigits(digits[..3]);
      assert digits[..3] == p.value[1..4];
    } else {
      assert digits[..2] == p.value[1..3];
    }
    assert p.value == [p.value[0]] + p.value[1..1 + |CountryCode(p)|] + p.value[1 + |CountryCode(p)|..];
  }

  /** Normalising the formatted text drops exactly the spaces `format_international` put in. */
  lemma NormalizeFormatted(cc: string, national: string)
    requires AllDigits(cc) && AllDigits(national)
    ensures Normalize("+" + cc + " " + GroupsOfThree(national)) == "+" + cc + national
  {
    var plus, space, groups := "+", " ", GroupsOfThree(national);
    assert Normalize(space) == [] by { assert !Kept(space[0]); }
    assert Normalize(plus) == plus by { assert Kept(plus[0]); }
    NormalizeKeeps(cc);
    NormalizeGroups(national);
    var a := plus + cc;
    NormalizeAppend(plus, cc);
    assert Normalize(a) == a;
    var b := a + space;
    NormalizeAppend(a, space);
    assert Normalize(b) == a;
    NormalizeAppend(b, groups);
    assert Normalize(b + groups) == a + national;
  }

  /** Formatting a valid phone and creating a phone from the text gives the same phone back. */
  lemma FormatRoundTrip(p: Phone)
    requires IsE164(p.value)
    ensures Create(FormatInternational(p)) == Success(p)
  {
    ValidPhoneParts(p);
    var cc := CountryCode(p);
    var digits := p.value[1..];
    var national := digits[|cc|..];
    var text := FormatInternational(p);
    assert text == "+" + cc + " " + GroupsOfThree(national);
    assert digits == cc + national;
    NormalizeFormatted(cc, national);
    assert !IsSpace(text[0]);
  }

  /** On text that is already normalised, `create` keeps it exactly when it is E.164. */
  lemma CreateOnNormalForm(s: string)
    requires AllKept(s) && !IsBlank(s)
    ensures Create(s) == if IsE164(s) then Success(Phone(s)) else Failure(InvalidPhone(s))
  {
    NormalizeKeeps(s);
  }

  /** The shortest number the tests accept, "+12", is stored unchanged. */
  lemma ShortestAccepted()
    ensures Create("+12") == Success(Phone("+12"))
  {
    var v := "+12";
    forall i | 0 <= i < |v| ensures Kept(v[i]) { }
    assert !IsSpace(v[0]);
    CreateOnNormalForm(v);
  }

  /** Blank input is an empty field, not an invalid phone. */
  lemma BlankRefused()
    ensures Create("") == Failure(EmptyField("phone"))
    ensures Create("   ") == Failure(EmptyField("phone"))
  {
  }

  /** A zero right after '+' is refused. */
  lemma LeadingZeroRefused()
    ensures Create("+0612345678") == Failure(InvalidPhone("+0612345678"))
  {
    var z := "+0612345678";
    forall i | 0 <= i < |z| ensures Kept(z[i]) { }
    assert !IsSpace(z[0]);
    assert !IsE164(z) by { assert z[1] == '0'; }
    CreateOnNormalForm(z);
  }

  /** A number without '+' is refused. */
  lemma MissingPlusRefused()
    ensures Create("34612345678") == Failure(InvalidPhone("34612345678"))
  {
    var n := "34612345678";
    forall i | 0 <= i < |n| ensures Kept(n[i]) { }
    assert !IsSpace(n[0]);
    CreateOnNormalForm(n);
  }

  /** A Spanish mobile number is accepted unchanged. */
  lemma SpanishNumberAccepted()
    ensures Create("+34612345678") == Success(Phone("+34612345678"))
  {
    var v := "+34612345678";
    forall i | 0 <= i < |v| ensures Kept(v[i]) { }
    assert !IsSpace(v[0]);
    assert IsE164(v);
    CreateOnNormalForm(v);
  }

  /**
   * Equality and hash use only the normalised value: two phones made from
   * any two accepted inputs are equal exactly when the inputs normalise
   * alike, however they were spaced or punctuated.
   */
  lemma EqualIffSameNormalForm(a: string, b: string)
    requires Create(a).Success? && Create(b).Success?
    ensures Create(a).value == Create(b).value <==> Normalize(a) == Normalize(b)
  {
  }

  /** Its country code is "346" and its national number "12345678". */
  lemma SpanishNumberParts()
    ensures CountryCode(Phone("+34612345678")) == "346"
    ensures NationalNumber(Phone("+34612345678")) == "12345678"
  {
    var v := "+34612345678";
    assert AllDigits(v[1..]) by {
      forall i | 0 <= i < |v[1..]| ensures IsDigit(v[1..][i]) { assert v[1..][i] == v[i + 1]; }
    }
    ValidPhoneParts(Phone(v));
    assert v[1..4] == "346";
    assert v[4..] == "12345678";
  }

  /** The international form of a valid phone is "+", its country code, a space and its grouped national number. */
  lemma FormatOfParts(p: Phone)
    requires IsE164(p.value)
    ensures FormatInternational(p) == "+" + CountryCode(p) + " " + GroupsOfThree(NationalNumber(p))
  {
    ValidPhoneParts(p);
  }

  /** Eight digits fall into groups of three, three and two, as "12345678" becomes "123 456 78". */
  lemma GroupsOfEight(s: string)
    requires |s| == 8
    ensures GroupsOfThree(s) == s[..3] + " " + s[3..6] + " " + s[6..]
  {
    var t := s[3..];
    assert t[..3] == s[3..6] && t[3..] == s[6..];
    assert GroupsOfThree(t[3..]) == t[3..];
    assert GroupsOfThree(t) == t[..3] + " " + t[3..];
  }
}
