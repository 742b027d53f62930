/**
  Username rules shared by the server action, the availability endpoint and the
  public profile URLs: normalisation (trim, then lower-case) and validation
  (length 3..20, characters `[a-z0-9_-]`, not a reserved word).
*/
module Username {
  import opened Wrappers
  import opened Text

  /** Names that would collide with application routes. */
  const Reserved: set<string> :=
    {"admin", "youreview", "api", "login", "sign-in", "u", "top10", "create", "recap", "onboarding"}

  const LengthReason: string := "3~20자여야 합니다"
  const CharsetReason: string := "영문 소문자, 숫자, -, _ 만 허용"
  const ReservedReason: string := "사용할 수 없는 이름입니다"

  /** `{ ok, reason? }` as the validator returns it. */
  datatype Verdict = Verdict(ok: bool, reason: Option<string>)

  /** One character of the pattern `[a-z0-9_-]`. */
  predicate IsNameChar(c: char) {
    'a' <= c <= 'z' || '0' <= c <= '9' || c == '_' || c == '-'
  }

  /** `/^[a-z0-9_-]+$/.test(u)` */
  predicate MatchesCharset(u: string) {
    |u| > 0 && forall i :: 0 <= i < |u| ==> IsNameChar(u[i])
  }

  /**
    `normalizeUsername(input)`: `(input || "").trim().toLowerCase()`. `None` stands
    for a null or undefined argument.
  */
  function Normalize(input: Option<string>): (u: string)
    ensures input.None? || input.value == "" ==> u == ""
    ensures Trimmed(u)
    ensures forall i :: 0 <= i < |u| ==> !LowersToAscii(u[i])
    ensures input.Some? ==> |u| <= |input.value|
  {
    var t := Trim(input.GetOr(""));
    TrimIsTrimmedInfix(input.GetOr(""));
    ToLowerKeepsTrimmed(t);
    ToLower(t)
  }

  /**
    Normalising drops the white space around the name and lower-cases what is left:
    `normalizeUsername(pre + core + post)` is `core` in lower case.
  */
  lemma NormalizePadded(pre: string, core: string, post: string)
    requires forall i :: 0 <= i < |pre| ==> IsSpace(pre[i])
    requires forall i :: 0 <= i < |post| ==> IsSpace(post[i])
    requires core != [] && Trimmed(core)
    ensures Normalize(Some(pre + core + post)) == ToLower(core)
  {
    TrimPadded(pre, core, post);
  }

  /** An input made only of white space normalises to the empty name. */
  lemma NormalizeBlank(s: string)
    requires forall i :: 0 <= i < |s| ==> IsSpace(s[i])
    ensures Normalize(Some(s)) == ""
  {
  }

  /** A normalised name is its own normalisation. */
  lemma NormalizeIdempotent(input: Option<string>)
    ensures Normalize(Some(Normalize(input))) == Normalize(input)
  {
    var u := Normalize(input);
    TrimOfTrimmed(u);
    ToLowerIdempotent(Trim(input.GetOr("")));
  }

  /**
    `validateUsername(username)`: it normalises first, then rejects a length outside
    3..20 (in UTF-16 code units, as `length` counts), then a character outside
    `[a-z0-9_-]`, then a reserved word.
  */
  function Validate(username: string): (v: Verdict)
    ensures v.ok <==> v.reason.None?
    ensures v.ok <==>
      var u := Normalize(Some(username));
      3 <= JsLength(u) <= 20 && MatchesCharset(u) && u !in Reserved
    ensures !(3 <= JsLength(Normalize(Some(username))) <= 20) ==> v.reason == Some(LengthReason)
    ensures 3 <= JsLength(Normalize(Some(username))) <= 20 && !MatchesCharset(Normalize(Some(username)))
      ==> v.reason == Some(CharsetReason)
    ensures (3 <= JsLength(Normalize(Some(username))) <= 20 && MatchesCharset(Normalize(Some(username)))
             && Normalize(Some(username)) in Reserved) ==> v.reason == Some(ReservedReason)
  {
    var u := Normalize(Some(username));
    if JsLength(u) < 3 || JsLength(u) > 20 then Verdict(false, Some(LengthReason))
    else if !MatchesCharset(u) then Verdict(false, Some(CharsetReason))
    else if u in Reserved then Verdict(false, Some(ReservedReason))
    else Verdict(true, None)
  }

  /** A string without surrounding white space normalises to its lower-case form. */
  lemma NormalizeOfTrimmed(x: string)
    requires Trimmed(x)
    ensures Normalize(Some(x)) == ToLower(x)
  {
    TrimOfTrimmed(x);
  }

  /** Name characters are ASCII, so a name's `length` is its number of characters. */
  lemma NameCharsAreBasic(u: string)
    ensures MatchesCharset(u) ==> JsLength(u) == |u|
  {
    if MatchesCharset(u) {
      JsLengthOfBasic(u);
    }
  }

  /** A normalised name of acceptable length and characters is accepted exactly when it is not reserved. */
  lemma WellFormedAcceptedUnlessReserved(x: string)
    requires 3 <= |Normalize(Some(x))| <= 20 && MatchesCharset(Normalize(Some(x)))
    ensures Validate(x).ok <==> Normalize(Some(x)) !in Reserved
  {
    NameCharsAreBasic(Normalize(Some(x)));
  }

  /** Validation looks only at the normalised form. */
  lemma ValidateIgnoresNormalization(x: string)
    ensures Validate(x) == Validate(Normalize(Some(x)))
  {
    NormalizeIdempotent(Some(x));
  }

  /** Every accepted name is already in normal form and uses only `[a-z0-9_-]`. */
  lemma AcceptedNamesAreNormal(x: string)
    requires Validate(x).ok
    ensures Validate(Normalize(Some(x))).ok
    ensures Normalize(Some(Normalize(Some(x)))) == Normalize(Some(x))
    ensures '%' !in Normalize(Some(x)) && '\\' !in Normalize(Some(x))
  {
    var u := Normalize(Some(x));
    assert MatchesCharset(u);
    NameCharsAreNormal(u);
    NameCharsAreNoWildcards(u);
  }

  /** Name characters include neither the `ilike` wildcard `%` nor its escape character, a backslash. */
  lemma NameCharsAreNoWildcards(s: string)
    requires forall i :: 0 <= i < |s| ==> IsNameChar(s[i])
    ensures '%' !in s && '\\' !in s
  {
  }

  /** A string made only of name characters is already normalised. */
  lemma NameCharsAreNormal(s: string)
    requires forall i :: 0 <= i < |s| ==> IsNameChar(s[i])
    ensures Normalize(Some(s)) == s
  {
    assert Trimmed(s);
    TrimOfTrimmed(s);
    ToLowerOfLower(s);
  }

  /**
    Every reserved word is rejected; those of an acceptable length ("u" is not) are
    rejected as reserved although they pass the charset test.
  */
  lemma ReservedNamesRejected(r: string)
    requires r in Reserved
    ensures MatchesCharset(r)
    ensures !Validate(r).ok
    ensures |r| >= 3 ==> Validate(r) == Verdict(false, Some(ReservedReason))
  {
    ReservedWordsAreWellFormed(r);
    NameCharsAreNormal(r);
    NameCharsAreBasic(r);
  }

  /** Every reserved word is at most 20 characters of `[a-z0-9_-]`. */
  lemma ReservedWordsAreWellFormed(r: string)
    requires r in Reserved
    ensures MatchesCharset(r) && |r| <= 20
  {
    if r == "sign-in" {
      assert r[4] == '-';
    }
  }

  /** `isUsernameAvailable` is a stub that accepts every name. */
  function IsUsernameAvailable(username: string): (available: bool)
    ensures available
  {
    true
  }

  /** `normalizeUsername(" Ab ")` is `"ab"`. */
  lemma NormalizeExample()
    ensures Normalize(Some(" Ab ")) == "ab"
  {
    TrimExample();
    LowerExample();
  }

  lemma TrimExample()
    ensures Trim(" Ab ") == "Ab"
  {
    var sp: string := [' '];
    var core: string := ['A', 'b'];
    assert IsSpace(sp[0]);
    assert !IsSpace(core[0]) && !IsSpace(core[1]);
    assert Trimmed(core);
    TrimPadded(sp, core, sp);
    assert " Ab " == sp + core + sp;
  }

  lemma LowerExample()
    ensures ToLower("Ab") == "ab"
  {
    var l := ToLower("Ab");
    assert l[0] == 'a' && l[1] == 'b';
  }

  /** `validateUsername("AB")` fails for its length. */
  lemma ValidateTooShortExample()
    ensures Validate("AB") == Verdict(false, Some(LengthReason))
  {
    var e: string := [];
    TrimPadded(e, "AB", e);
    assert e + "AB" + e == "AB";
    assert |Normalize(Some("AB"))| == 2;
  }

  /** U+212A KELVIN SIGN lowers to `k`, so `"\u212Aim"` is accepted and normalises to `"kim"`. */
  lemma KelvinSignLowered()
    ensures Normalize(Some("\U{212A}im")) == "kim"
    ensures Validate("\U{212A}im").ok
  {
    var s := "\U{212A}im";
    assert Trimmed(s);
    NormalizeOfTrimmed(s);
    KelvinLowerExample();
    ValidateIgnoresNormalization(s);
    KimAccepted();
  }

  lemma KelvinLowerExample()
    ensures ToLower("\U{212A}im") == "kim"
  {
    var l := ToLower("\U{212A}im");
    assert l[0] == 'k' && l[1] == 'i' && l[2] == 'm';
  }

  lemma KimAccepted()
    ensures Validate("kim").ok
  {
    var s := "kim";
    assert forall i :: 0 <= i < |s| ==> IsNameChar(s[i]);
    assert s !in Reserved;
    NameAccepted(s);
  }

  /** A name of 3..20 characters of `[a-z0-9_-]` that is not reserved is accepted as it is. */
  lemma NameAccepted(s: string)
    requires 3 <= |s| <= 20 && forall i :: 0 <= i < |s| ==> IsNameChar(s[i])
    requires s !in Reserved
    ensures Normalize(Some(s)) == s
    ensures Validate(s).ok
  {
    NameCharsAreNormal(s);
    NameCharsAreBasic(s);
  }

  /** `"😀a"` is three code units long, so it fails for its characters, not its length. */
  lemma AstralCharCountsTwice()
    ensures Validate("\U{1F600}a") == Verdict(false, Some(CharsetReason))
  {
    var s := "\U{1F600}a";
    assert Trimmed(s);
    NormalizeOfTrimmed(s);
    var l := ToLower(s);
    assert l == s;
    assert s == ['\U{1F600}'] + ['a'];
    JsLengthAppend(['\U{1F600}'], ['a']);
    JsLengthOfOne('\U{1F600}');
    JsLengthOfOne('a');
    assert JsLength(s) == 3;
    assert !IsNameChar(s[0]);
  }

  /** `validateUsername("ab_12")` succeeds. */
  lemma ValidateAcceptedExample()
    ensures Validate("ab_12").ok
  {
    var s := "ab_12";
    assert forall i :: 0 <= i < |s| ==> IsNameChar(s[i]);
    assert s !in Reserved;
    NameAccepted(s);
  }
}
