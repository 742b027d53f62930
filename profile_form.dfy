/**
  The client-side profile form: its own username validator (which differs from the
  server's), the availability short-circuit, the submit guard and the payload it posts.
  The component's state lives in the class `ProfileForm`; every asynchronous step is a
  method whose network outcome is a parameter.
*/
module ProfileFormModel {
  import opened Wrappers
  import opened Text
  import Username
  import Profiles

  const TooShortMessage: string := "사용자명은 3자 이상이어야 합니다"
  const TooLongMessage: string := "사용자명은 20자 이하여야 합니다"
  const BadCharsMessage: string := "사용자명은 영문, 숫자, 언더스코어만 사용할 수 있습니다"
  const TakenMessage: string := "이미 사용 중인 사용자명입니다"
  const SavedToast: string := "프로필이 업데이트되었습니다"
  const FailedMessage: string := "프로필 업데이트에 실패했습니다"

  /** One character of the form's pattern `[a-zA-Z0-9_]`. */
  predicate IsFormChar(c: char) {
    'a' <= c <= 'z' || 'A' <= c <= 'Z' || '0' <= c <= '9' || c == '_'
  }

  /** `/^[a-zA-Z0-9_]+$/.test(value)` */
  predicate FormCharset(value: string) {
    |value| > 0 && forall i :: 0 <= i < |value| ==> IsFormChar(value[i])
  }

  /**
    The form's `validateUsername`: the empty string means "no error"; the length, in
    UTF-16 code units, is checked (short first, then long) before the character set. No
    trimming and no lower-casing happen here.
  */
  function ValidateUsername(value: string): (error: string)
    ensures error == "" <==> 3 <= |value| <= 20 && FormCharset(value)
    ensures JsLength(value) < 3 ==> error == TooShortMessage
    ensures JsLength(value) > 20 ==> error == TooLongMessage
    ensures 3 <= JsLength(value) <= 20 && !FormCharset(value) ==> error == BadCharsMessage
  {
    FormCharsAreBasic(value);
    if JsLength(value) < 3 then TooShortMessage
    else if JsLength(value) > 20 then TooLongMessage
    else if !FormCharset(value) then BadCharsMessage
    else ""
  }

  /** Form characters are ASCII, so a value of them has `length` equal to its number of characters. */
  lemma FormCharsAreBasic(value: string)
    ensures FormCharset(value) ==> JsLength(value) == |value|
  {
    if FormCharset(value) {
      JsLengthOfBasic(value);
    }
  }

  /** `"😀a"` is three code units long, so the form blames its characters, not its length. */
  lemma AstralCharCountsTwice()
    ensures ValidateUsername("\U{1F600}a") == BadCharsMessage
  {
    var v := "\U{1F600}a";
    assert v[1..] == "a";
    assert JsLength(v) == 3;
    assert !IsFormChar(v[0]);
  }

  /** Capitals pass the form's character set. */
  lemma FormAcceptsCapitals()
    ensures ValidateUsername("AbC") == ""
  {
    var up := "AbC";
    assert forall i :: 0 <= i < |up| ==> IsFormChar(up[i]);
  }

  /** `-` fails the form's character set although the server accepts it. */
  lemma FormRejectsHyphen()
    ensures ValidateUsername("a-b") == BadCharsMessage
    ensures Username.Validate("a-b").ok
  {
    var h := "a-b";
    HyphenIsNoFormChar();
    assert forall i :: 0 <= i < |h| ==> Username.IsNameChar(h[i]);
    assert h !in Username.Reserved;
    Username.NameAccepted(h);
  }

  lemma HyphenIsNoFormChar()
    ensures ValidateUsername("a-b") == BadCharsMessage
  {
    var h := "a-b";
    assert !IsFormChar(h[1]);
    JsLengthOfBasic(h);
  }

  /**
    A name the form accepts is, once lower-cased, a name the server accepts unless it
    is a reserved word: the form never lets through a name the server rejects for its
    length or its characters.
  */
  lemma FormAcceptedNamesPassServerUnlessReserved(value: string)
    requires ValidateUsername(value) == ""
    ensures Username.Normalize(Some(value)) == ToLower(value)
    ensures Username.Validate(value).ok <==> ToLower(value) !in Username.Reserved
  {
    FormCharsAreTrimmed(value);
    Username.NormalizeOfTrimmed(value);
    LowerFormCharsAreNameChars(value);
    Username.WellFormedAcceptedUnlessReserved(value);
  }

  /** A string of form characters has no white space at either end. */
  lemma FormCharsAreTrimmed(value: string)
    requires FormCharset(value)
    ensures Trimmed(value)
  {
    assert IsFormChar(value[0]) && IsFormChar(value[|value| - 1]);
  }

  /** Lower-casing form characters gives name characters. */
  lemma LowerFormCharsAreNameChars(value: string)
    requires FormCharset(value)
    ensures Username.MatchesCharset(ToLower(value))
  {
    forall i | 0 <= i < |value|
      ensures Username.IsNameChar(ToLower(value)[i])
    {
      assert IsFormChar(value[i]);
    }
  }

  /** What `response.json()` of the availability endpoint gave, or that the request threw. */
  datatype AvailabilityResponse =
    | Replied(available: Option<bool>)   // `data.available`, absent in an error body
    | RequestFailed                      // the request or the JSON parse threw

  /**
    `checkUsernameAvailability(value)`: the initial username is available without a
    request; otherwise the reply's `available` decides, a missing field or a thrown
    request counting as unavailable.
  */
  function CheckAvailability(value: string, initialUsername: string, response: AvailabilityResponse)
    : (available: bool)
    ensures value == initialUsername ==> available
    ensures value != initialUsername ==>
      (available <==> response == Replied(Some(true)))
  {
    if value == initialUsername then true
    else match response
      case Replied(a) => a == Some(true)
      case RequestFailed => false
  }

  /** The server's availability answer for a valid new name is what the form believes. */
  lemma FormBelievesEndpoint(value: string, initialUsername: string, rows: map<Profiles.UserId, Profiles.ProfileRow>)
    requires value != initialUsername
    requires Username.Validate(value).ok
    ensures
      var reply := Profiles.Availability(Some(value), rows, None);
      reply.Answer? &&
      CheckAvailability(value, initialUsername, Replied(Some(reply.available))) == reply.available
  {
  }

  /** How the `POST /api/profile/update` request ended. */
  datatype SubmitOutcome =
    | ResponseOk
    | ResponseNotOk
    | Threw(message: string)   // the request itself threw with this message

  /** The JSON body posted: `username` is left out when it did not change. */
  datatype SubmitPayload = SubmitPayload(username: Option<string>)

  function PayloadOf(username: string, initialUsername: string): (p: SubmitPayload)
    ensures p.username.None? <==> username == initialUsername
    ensures p.username.Some? ==> p.username.value == username
  {
    SubmitPayload(if username != initialUsername then Some(username) else None)
  }

  /**
    The toast shown after a submit that got past the guard; the form styles it as an
    error exactly when it starts with "에러".
  */
  function ToastAfter(outcome: SubmitOutcome): (toast: string)
    ensures outcome.ResponseOk? ==> toast == SavedToast
    ensures outcome.ResponseNotOk? ==> toast == "에러: " + FailedMessage
    ensures outcome.Threw? ==> toast == "에러: " + outcome.message
    ensures StartsWith(toast, "에러") <==> !outcome.ResponseOk?
  {
    match outcome
    case ResponseOk =>
      assert SavedToast[0] != '에';
      SavedToast
    case ResponseNotOk => "에러: " + FailedMessage
    case Threw(m) => "에러: " + m
  }

  /** The state of one mounted `ProfileForm`. */
  class ProfileForm {
    const initialUsername: string
    var username: string
    var usernameError: string
    var isCheckingUsername: bool
    var isLoading: bool
    var toast: string

    /**
      No error is shown for a changed username only if it passed the form's validator.
      (The initial username itself is never validated.)
    */
    ghost predicate Valid()
      reads this
    {
      (usernameError == "" && username != initialUsername ==> ValidateUsername(username) == "")
      && usernameError in {"", TooShortMessage, TooLongMessage, BadCharsMessage, TakenMessage}
    }

    constructor (initial: string)
      ensures Valid()
      ensures initialUsername == initial && username == initial
      ensures usernameError == "" && !isCheckingUsername && !isLoading && toast == ""
    {
      initialUsername := initial;
      username := initial;
      usernameError := "";
      isCheckingUsername := false;
      isLoading := false;
      toast := "";
    }

    /** `hasChanges` */
    function HasChanges(): (changed: bool)
      reads this
      ensures changed <==> username != initialUsername
      ensures !changed <==> PayloadOf(username, initialUsername).username.None?
    {
      username != initialUsername
    }

    /** Whether the submit button is enabled. */
    predicate CanSubmit()
      reads this
    {
      !isLoading && HasChanges() && usernameError == "" && !isCheckingUsername
    }

    /**
      The synchronous part of `handleUsernameChange(value)`: store the value and the
      form validator's verdict, and start an availability request when the value is
      valid and new. `checkStarted` says whether the request is now in flight.
    */
    method BeginUsernameChange(value: string) returns (checkStarted: bool)
      requires Valid()
      modifies this
      ensures Valid()
      ensures username == value && usernameError == ValidateUsername(value)
      ensures checkStarted <==> ValidateUsername(value) == "" && value != initialUsername
      ensures isCheckingUsername == (checkStarted || old(isCheckingUsername))
      ensures isLoading == old(isLoading) && toast == old(toast)
    {
      username := value;
      var error := ValidateUsername(value);
      usernameError := error;
      checkStarted := false;
      if error == "" && value != initialUsername {
        isCheckingUsername := true;
        checkStarted := true;
      }
    }

    /**
      The rest of `handleUsernameChange` once the availability request settles: the
      check is no longer in flight, and an unavailable answer sets the "taken" error.
      As in the source, the answer is applied whatever the current value is.
    */
    method FinishAvailabilityCheck(value: string, response: AvailabilityResponse)
      requires Valid()
      modifies this
      ensures Valid()
      ensures !isCheckingUsername
      ensures usernameError ==
        (if CheckAvailability(value, initialUsername, response) then old(usernameError) else TakenMessage)
      ensures username == old(username) && isLoading == old(isLoading) && toast == old(toast)
    {
      isCheckingUsername := false;
      var available := CheckAvailability(value, initialUsername, response);
      if !available {
        usernameError := TakenMessage;
      }
    }

    /**
      `handleSubmit`: nothing happens while an error is shown or a check is in flight;
      otherwise the payload is posted (`sent`), the toast reports the outcome and the
      loading flag ends up cleared. The page reload and the toast timer are not modelled.
    */
    method HandleSubmit(outcome: SubmitOutcome) returns (sent: Option<SubmitPayload>)
      requires Valid()
      modifies this
      ensures Valid()
      ensures sent.None? <==> old(usernameError) != "" || old(isCheckingUsername)
      ensures sent.None? ==>
        toast == old(toast) && isLoading == old(isLoading)
      ensures sent.Some? ==>
        sent.value == PayloadOf(username, initialUsername) && toast == ToastAfter(outcome) && !isLoading
      ensures sent.Some? && sent.value.username.Some? ==>
        ValidateUsername(sent.value.username.value) == ""
      ensures username == old(username) && usernameError == old(usernameError)
      ensures isCheckingUsername == old(isCheckingUsername)
    {
      if usernameError != "" || isCheckingUsername {
        return None;
      }
      isLoading := true;
      sent := Some(PayloadOf(username, initialUsername));
      toast := ToastAfter(outcome);
      isLoading := false;
    }
  }

  /**
    A form whose button is enabled posts a changed, form-valid username; the disabled
    button is stricter than the guard inside `handleSubmit`.
  */
  lemma EnabledSubmitSendsValidName(f: ProfileForm)
    requires f.Valid() && f.CanSubmit()
    ensures f.usernameError == "" && !f.isCheckingUsername
    ensures PayloadOf(f.username, f.initialUsername).username == Some(f.username)
    ensures ValidateUsername(f.username) == ""
  {
  }
}
