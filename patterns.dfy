/**
 * Hand-written recognisers for the regular expressions the entities match
 * with `re.match`: URL_PATTERN (compiled with re.IGNORECASE), EMAIL_PATTERN
 * and the E.164 PHONE_PATTERN. Each is the set of strings some split of
 * which fits the pattern's parts, which is what a backtracking `match`
 * anchored by `^…$` accepts. Python's `$` matches at the very end and also
 * just before one final newline, and each pattern below says so. Character
 * classes are the ASCII ones (`\d`, `\S`, letters).
 */
module Patterns {
  import opened Common

  predicate IsDigit(c: char) { '0' <= c <= '9' }
  predicate IsLetter(c: char) { ('a' <= c <= 'z') || ('A' <= c <= 'Z') }
  predicate IsAlnum(c: char) { IsDigit(c) || IsLetter(c) }

  predicate AllDigits(s: string) { forall i :: 0 <= i < |s| ==> IsDigit(s[i]) }
  predicate AllLetters(s: string) { forall i :: 0 <= i < |s| ==> IsLetter(s[i]) }
  predicate NoSpace(s: string) { forall i :: 0 <= i < |s| ==> !IsSpace(s[i]) }

  function ToLower(c: char): char {
    if 'A' <= c <= 'Z' then (c as int + 32) as char else c
  }

  /** `s` equals the lower-case ASCII literal `lit` ignoring case. */
  predicate EqualsIgnoreCase(s: string, lit: string) {
    |s| == |lit| && forall i :: 0 <= i < |s| ==> ToLower(s[i]) == lit[i]
  }

  /** Text without upper-case letters equals itself ignoring case. */
  lemma LowerEqualsIgnoreCase(s: string)
    requires forall i :: 0 <= i < |s| ==> !('A' <= s[i] <= 'Z')
    ensures EqualsIgnoreCase(s, s)
  {
  }

  /** Python's `$`: `s` ends with one '\n' after the text the pattern's body matched. */
  predicate EndsWithNewline(s: string) {
    |s| > 0 && s[|s| - 1] == '\n'
  }

  /** `s` without its final character. */
  function Chomp(s: string): string
    requires EndsWithNewline(s)
  {
    s[..|s| - 1]
  }

  // ---------------------------------------------------------------------
  // URL_PATTERN

  /** `[A-Z0-9](?:[A-Z0-9-]{0,61}[A-Z0-9])?`: a DNS label of 1 to 63 characters. */
  predicate Label(l: string) {
    1 <= |l| <= 63 && IsAlnum(l[0]) && IsAlnum(l[|l| - 1])
    && forall i :: 0 < i < |l| - 1 ==> (IsAlnum(l[i]) || l[i] == '-')
  }

  /** `(?:label\.)+`: one or more labels, each followed by a dot. */
  predicate Labels(s: string)
    decreases |s|
  {
    exists i :: 0 < i < |s| && s[i] == '.' && Label(s[..i]) && (i + 1 == |s| || Labels(s[i + 1..]))
  }

  /** `[A-Z]{2,6}\.?`: the top-level domain with an optional trailing dot. */
  predicate TopLevel(s: string) {
    var core := if |s| > 0 && s[|s| - 1] == '.' then s[..|s| - 1] else s;
    2 <= |core| <= 6 && AllLetters(core)
  }

  predicate DomainName(s: string) {
    exists i :: 0 < i < |s| && Labels(s[..i]) && TopLevel(s[i..])
  }

  /** `\d{1,3}`. */
  predicate Octet(s: string) { 1 <= |s| <= 3 && AllDigits(s) }

  /** `\d{1,3}\.\d{1,3}\.\d{1,3}\.\d{1,3}`. */
  predicate DottedQuad(s: string) {
    exists i, j, k :: 0 < i < j < k < |s| - 1 && s[i] == '.' && s[j] == '.' && s[k] == '.'
      && Octet(s[..i]) && Octet(s[i + 1..j]) && Octet(s[j + 1..k]) && Octet(s[k + 1..])
  }

  predicate Host(s: string) {
    DomainName(s) || EqualsIgnoreCase(s, "localhost") || DottedQuad(s)
  }

  /** `(?::\d+)?`. */
  predicate Port(s: string) {
    s == [] || (|s| >= 2 && s[0] == ':' && AllDigits(s[1..]))
  }

  /** `(?:/?|[/?]\S+)`. */
  predicate PathPart(s: string) {
    s == [] || s == "/" || (|s| >= 2 && (s[0] == '/' || s[0] == '?') && NoSpace(s[1..]))
  }

  predicate Authority(s: string) {
    exists i, j :: 0 <= i <= j <= |s| && Host(s[..i]) && Port(s[i..j]) && PathPart(s[j..])
  }

  /** `^https?://` followed by the rest, scheme compared ignoring case. */
  predicate UrlCore(s: string) {
    (|s| >= 7 && EqualsIgnoreCase(s[..7], "http://") && Authority(s[7..]))
    || (|s| >= 8 && EqualsIgnoreCase(s[..8], "https://") && Authority(s[8..]))
  }

  /** `URL_PATTERN.match(s)` is not None. */
  predicate UrlPattern(s: string) {
    UrlCore(s) || (EndsWithNewline(s) && UrlCore(Chomp(s)))
  }

  /** An optional URL after blank values were coerced to None: absent or matching the pattern. */
  predicate UrlOk(u: Option<string>) {
    u.None? || (!IsBlank(u.value) && UrlPattern(u.value))
  }

  /** The pattern check of an optional URL field, applied after coercion. */
  function CheckUrl(u: Option<string>): (o: Outcome)
    requires u.Some? ==> !IsBlank(u.value)
    ensures o.Pass? <==> UrlOk(u)
    ensures o.Fail? ==> o == Fail(InvalidUrl(u.value))
  {
    if u.Some? && !UrlPattern(u.value) then Fail(InvalidUrl(u.value)) else Pass
  }

  /**
   * `_validate_avatar_url`, `_validate_credential_url`, … : a blank URL is
   * written back as None, a present one must match URL_PATTERN.
   */
  function CheckCoercedUrl(u: Option<string>): (o: Outcome)
    ensures o.Pass? <==> UrlOk(BlankToNone(u))
    ensures o.Fail? ==> o == Fail(InvalidUrl(u.value))
  {
    CheckUrl(BlankToNone(u))
  }

  // ---------------------------------------------------------------------
  // EMAIL_PATTERN = ^[a-zA-Z0-9._%+-]+@[a-zA-Z0-9.-]+\.[a-zA-Z]{2,}$

  predicate LocalChar(c: char) {
    IsAlnum(c) || c == '.' || c == '_' || c == '%' || c == '+' || c == '-'
  }

  predicate DomainChar(c: char) { IsAlnum(c) || c == '.' || c == '-' }

  /** `s` splits as local `@` domain `.` letters, with the parts' classes and sizes. */
  predicate EmailCore(s: string) {
    exists at, dot :: 0 < at && at + 1 < dot && dot + 3 <= |s| && s[at] == '@' && s[dot] == '.'
      && (forall i :: 0 <= i < at ==> LocalChar(s[i]))
      && (forall i :: at < i < dot ==> DomainChar(s[i]))
      && AllLetters(s[dot + 1..])
  }

  /** `EMAIL_PATTERN.match(s)` is not None. */
  predicate EmailPattern(s: string) {
    EmailCore(s) || (EndsWithNewline(s) && EmailCore(Chomp(s)))
  }

  /** Non-blank and matching EMAIL_PATTERN. */
  predicate EmailOk(e: string) {
    !IsBlank(e) && EmailPattern(e)
  }

  /** `_validate_email` of ContactInformation and ContactMessage: a blank email is an empty field, a malformed one an invalid email. */
  function CheckEmail(e: string): (o: Outcome)
    ensures o.Pass? <==> EmailOk(e)
    ensures IsBlank(e) ==> o == Fail(EmptyField("email"))
    ensures !IsBlank(e) && o.Fail? ==> o == Fail(InvalidEmail(e))
  {
    if IsBlank(e) then Fail(EmptyField("email"))
    else if !EmailPattern(e) then Fail(InvalidEmail(e))
    else Pass
  }

  // ---------------------------------------------------------------------
  // PHONE_PATTERN / E164_PATTERN = ^\+?[1-9]\d{1,14}$

  /** An optional '+', a non-zero digit and then 1 to 14 more digits. */
  predicate E164Core(s: string) {
    var digits := if |s| > 0 && s[0] == '+' then s[1..] else s;
    2 <= |digits| <= 15 && '1' <= digits[0] <= '9' && AllDigits(digits)
  }

  /** `PHONE_PATTERN.match(s)` is not None. */
  predicate E164Pattern(s: string) {
    E164Core(s) || (EndsWithNewline(s) && E164Core(Chomp(s)))
  }

  /** URL_PATTERN refuses text without a scheme, as the profile tests expect for "not-a-url". */
  lemma UrlRefused()
    ensures !UrlPattern("not-a-url")
  {
    var n := "not-a-url";
    assert !EqualsIgnoreCase(n[..7], "http://") by { assert ToLower(n[..7][0]) != "http://"[0]; }
    assert !EqualsIgnoreCase(n[..8], "https://") by { assert ToLower(n[..8][0]) != "https://"[0]; }
    assert n[|n| - 1] != '\n';
  }

  /** A witness split for `Authority`. */
  lemma AuthoritySplit(s: string, i: nat, j: nat)
    requires i <= j <= |s| && Host(s[..i]) && Port(s[i..j]) && PathPart(s[j..])
    ensures Authority(s)
  {
  }

  /** A scheme spelled "http://" in any case, then an authority, is a URL. */
  lemma SchemeThenAuthority(scheme: string, a: string)
    requires EqualsIgnoreCase(scheme, "http://") && Authority(a)
    ensures UrlCore(scheme + a)
  {
    var u := scheme + a;
    assert u[..7] == scheme && u[7..] == a;
  }

  /** An http URL: the scheme, then an authority. */
  lemma HttpUrl(a: string)
    requires Authority(a)
    ensures UrlPattern("http://" + a)
  {
    HttpSchemeMatches();
    SchemeThenAuthority("http://", a);
  }

  lemma HttpSchemeMatches()
    ensures EqualsIgnoreCase("http://", "http://")
  {
    LowerEqualsIgnoreCase("http://");
  }

  /**
   * `localhost` followed by any port part and path part is an authority;
   * this covers the API's documentation link "http://localhost:8000/docs".
   */
  lemma LocalhostAccepted(port: string, path: string)
    requires Port(port) && PathPart(path)
    ensures Authority("localhost" + port + path)
  {
    var rest := "localhost" + port + path;
    assert rest[..9] == "localhost";
    assert rest[9..9 + |port|] == port;
    assert rest[9 + |port|..] == path;
    LowerEqualsIgnoreCase("localhost");
    AuthoritySplit(rest, 9, 9 + |port|);
  }

  lemma DocsUrlAccepted()
    ensures UrlPattern("http://" + ("localhost" + ":8000" + "/docs"))
  {
    var port, path := ":8000", "/docs";
    assert Port(port) by { assert port[1..] == "8000"; }
    LocalhostAccepted(port, path);
    HttpUrl("localhost" + port + path);
  }

  /**
   * EMAIL_PATTERN accepts every address made of a local part, '@', a
   * domain, '.' and a top-level domain of two or more letters, each part
   * drawn from its character class.
   */
  lemma EmailAccepted(local: string, domain: string, tld: string)
    requires |local| > 0 && forall i :: 0 <= i < |local| ==> LocalChar(local[i])
    requires |domain| > 0 && forall i :: 0 <= i < |domain| ==> DomainChar(domain[i])
    requires |tld| >= 2 && AllLetters(tld)
    ensures EmailPattern(local + "@" + domain + "." + tld)
  {
    var e := local + "@" + domain + "." + tld;
    var at, dot := |local|, |local| + 1 + |domain|;
    assert e[at] == '@' && e[dot] == '.';
    assert forall i :: 0 <= i < at ==> e[i] == local[i];
    assert forall i :: at < i < dot ==> e[i] == domain[i - at - 1];
    assert e[dot + 1..] == tld;
    assert EmailCore(e);
  }

  /** "john@example.com" is such an address. */
  lemma PlainEmailAccepted()
    ensures EmailPattern("john" + "@" + "example" + "." + "com")
  {
    EmailAccepted("john", "example", "com");
  }

  /** EMAIL_PATTERN refuses an address without '@'. */
  lemma EmailRefused()
    ensures !EmailPattern("john.example.com")
  {
    var bad := "john.example.com";
    assert forall i :: 0 <= i < |bad| ==> bad[i] != '@';
    assert bad[|bad| - 1] != '\n';
  }

  /** PHONE_PATTERN refuses a leading zero after the '+'. */
  lemma E164Examples()
    ensures E164Pattern("+15551234567") && !E164Pattern("+0612345678")
  {
    assert "+15551234567"[1..] == "15551234567";
    assert "+0612345678"[1..] == "0612345678";
  }
}
