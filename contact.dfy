/** The contact form: the e-mail pattern, the validity of one required field, live
    validation on input and blur, and the submit handler that clears old errors, validates
    every field, focuses the first invalid one and either blocks or "sends" and resets. */
module Contact {
  import opened Wrappers
  import opened Strings
  import opened Seqs

  const REQUIRED_MESSAGE: string := "This field is required"
  const EMAIL_MESSAGE: string := "Please enter a valid email address"
  const FIX_ERRORS_MESSAGE: string := "Please fix errors in the form"
  const SENT_MESSAGE: string := "Thank you! Your message has been sent."

  // ---------------------------------------------------------------------------
  // The e-mail pattern
  // ---------------------------------------------------------------------------

  /** A character of the class `[^\s@]`. */
  predicate Plain(c: char) {
    !IsWhitespace(c) && c != '@'
  }

  predicate AllPlain(s: string) {
    forall i :: 0 <= i < |s| ==> Plain(s[i])
  }

  /** A character outside the Basic Multilingual Plane: a regular expression without the
      `u` flag sees it as two UTF-16 code units, each of them in `[^\s@]`. */
  predicate IsAstral(c: char) {
    c as int >= 0x1_0000
  }

  /** `top` is at least two UTF-16 code units long, as `{2,}` counts them. */
  predicate TwoUnitsLong(top: string) {
    |top| >= 2 || (|top| == 1 && IsAstral(top[0]))
  }

  /** `v` splits as `local "@" host "." top` with `local` and `host` non-empty, `top` at
      least two code units long, and all three made of characters of `[^\s@]`; the '@' is at
      index `at`, the '.' at index `dot`. */
  ghost predicate EmailShape(v: string, at: nat, dot: nat) {
    && 0 < at && at + 1 < dot && dot + 2 <= |v|
    && v[at] == '@' && v[dot] == '.'
    && AllPlain(v[..at]) && AllPlain(v[at + 1..dot]) && AllPlain(v[dot + 1..])
    && TwoUnitsLong(v[dot + 1..])
  }

  /** `v` matches `^[^\s@]+@[^\s@]+\.[^\s@]{2,}$`. */
  ghost predicate MatchesEmailPattern(v: string) {
    exists at: nat, dot: nat :: EmailShape(v, at, dot)
  }

  /** `isValidEmail(value)`: the pattern tested on the trimmed value. */
  function IsValidEmail(value: string): bool {
    IsAddress(Trim(value))
  }

  /** The pattern test on an already trimmed value: the '@' can only be the first one, and
      the part after it needs a '.' with at least one character before it and either two
      characters after it or one character outside the Basic Multilingual Plane. */
  function IsAddress(v: string): bool {
    match IndexOf(v, "@")
    case None => false
    case Some(at) =>
      var host := v[at + 1..];
      && at > 0
      && AllPlain(v[..at])
      && AllPlain(host)
      && ((|host| >= 4 && Contains(host[1..|host| - 2], "."))
          || (|host| >= 3 && host[|host| - 2] == '.' && IsAstral(host[|host| - 1])))
  }

  /** The first '@' of a string whose '@' sits after only plain characters is that one. */
  lemma FirstAt(v: string, at: nat)
    requires at < |v| && v[at] == '@' && AllPlain(v[..at])
    ensures IndexOf(v, "@") == Some(at)
  {
    assert OccursAt(v, "@", at);
    forall k | 0 <= k < at ensures !OccursAt(v, "@", k) {
      assert v[..at][k] == v[k];
      assert v[k..k + 1][0] == v[k];
    }
  }

  lemma AddressSound(v: string)
    requires IsAddress(v)
    ensures MatchesEmailPattern(v)
  {
    var at := IndexOf(v, "@").value;
    var host := v[at + 1..];
    assert v[at..at + 1] == "@";
    if |host| >= 4 && Contains(host[1..|host| - 2], ".") {
      var mid := host[1..|host| - 2];
      var j := IndexOf(mid, ".").value;
      assert mid[j..j + 1] == ".";
      var dot := at + 2 + j;
      assert v[dot] == mid[j];
      assert |v[dot + 1..]| >= 2;
      ShapeAtDot(v, at, dot);
    } else {
      var dot := |v| - 2;
      assert v[dot] == host[|host| - 2];
      assert v[dot + 1..] == [host[|host| - 1]];
      ShapeAtDot(v, at, dot);
    }
  }

  /** An '@' after plain characters, followed by plain characters holding a '.' with at least
      one character before it and two code units after it, is the pattern's shape. */
  lemma ShapeAtDot(v: string, at: nat, dot: nat)
    requires 0 < at && at + 1 < dot && dot + 2 <= |v|
    requires v[at] == '@' && v[dot] == '.'
    requires AllPlain(v[..at]) && AllPlain(v[at + 1..])
    requires TwoUnitsLong(v[dot + 1..])
    ensures EmailShape(v, at, dot)
  {
    var host, between, top := v[at + 1..], v[at + 1..dot], v[dot + 1..];
    forall i | 0 <= i < |between| ensures Plain(between[i]) {
      assert between[i] == host[i];
    }
    forall i | 0 <= i < |top| ensures Plain(top[i]) {
      assert top[i] == host[dot - at + i];
    }
  }

  lemma AddressComplete(v: string)
    requires MatchesEmailPattern(v)
    ensures IsAddress(v)
  {
    var at: nat, dot: nat :| EmailShape(v, at, dot);
    FirstAt(v, at);
    HostPlain(v, at, dot);
    HostDot(v, at, dot);
  }

  /** After the '@', a string of the pattern's shape has the '.' the executable test looks
      for. */
  lemma HostDot(v: string, at: nat, dot: nat)
    requires EmailShape(v, at, dot)
    ensures var host := v[at + 1..];
            || (|host| >= 4 && Contains(host[1..|host| - 2], "."))
            || (|host| >= 3 && host[|host| - 2] == '.' && IsAstral(host[|host| - 1]))
  {
    var host := v[at + 1..];
    if dot + 3 <= |v| {
      var mid := host[1..|host| - 2];
      var j := dot - at - 2;
      assert mid[j] == v[dot];
      assert mid[j..j + 1] == ".";
      assert OccursAt(mid, ".", j);
    } else {
      var top := v[dot + 1..];
      assert |top| == 1;
      assert IsAstral(top[0]);
      assert host[|host| - 2] == v[dot];
      assert host[|host| - 1] == top[0];
    }
  }

  /** After the '@', a string of the pattern's shape holds only plain characters and the '.'. */
  lemma HostPlain(v: string, at: nat, dot: nat)
    requires EmailShape(v, at, dot)
    ensures AllPlain(v[at + 1..])
  {
    var host := v[at + 1..];
    forall i | 0 <= i < |host| ensures Plain(host[i]) {
      if at + 1 + i < dot {
        assert host[i] == v[at + 1..dot][i];
      } else if at + 1 + i > dot {
        assert host[i] == v[dot + 1..][at + i - dot];
      }
    }
  }

  /** The executable test and the pattern agree on every value. */
  lemma EmailIff(value: string)
    ensures IsValidEmail(value) <==> MatchesEmailPattern(Trim(value))
  {
    var v := Trim(value);
    if IsAddress(v) {
      AddressSound(v);
    }
    if MatchesEmailPattern(v) {
      AddressComplete(v);
    }
  }

  /** The last part is measured in UTF-16 code units: one character outside the Basic
      Multilingual Plane after the '.' is long enough. */
  lemma AstralTopLevelAccepted()
    ensures IsValidEmail("a@b.\U{1F600}")
  {
    var v := "a@b.\U{1F600}";
    TrimKeeps(v);
    assert EmailShape(v, 1, 3) by {
      assert v[..1] == "a" && v[2..3] == "b" && v[4..] == "\U{1F600}";
    }
    EmailIff(v);
  }

  /** One ordinary character after the '.' is one code unit, which `{2,}` refuses. */
  lemma ShortTopLevelRefused()
    ensures !IsValidEmail("a@b.c")
  {
    var v := "a@b.c";
    TrimKeeps(v);
    EmailIff(v);
  }

  /** A valid address has no whitespace and exactly one '@' once trimmed. */
  lemma ValidEmailShape(value: string)
    requires IsValidEmail(value)
    ensures var v := Trim(value);
            && (forall i :: 0 <= i < |v| ==> !IsWhitespace(v[i]))
            && exists at :: 0 <= at < |v| && v[at] == '@' && forall i :: 0 <= i < |v| && v[i] == '@' ==> i == at
  {
    EmailIff(value);
    var v := Trim(value);
    var at: nat, dot: nat :| EmailShape(v, at, dot);
    ShapeCharacters(v, at, dot);
  }

  /** A string of the pattern's shape has no whitespace and no '@' but the one at `at`. */
  lemma ShapeCharacters(v: string, at: nat, dot: nat)
    requires EmailShape(v, at, dot)
    ensures forall i :: 0 <= i < |v| ==> !IsWhitespace(v[i]) && (v[i] == '@' ==> i == at)
  {
    forall i | 0 <= i < |v| ensures !IsWhitespace(v[i]) && (v[i] == '@' ==> i == at) {
      if i < at {
        assert v[i] == v[..at][i];
      } else if at < i < dot {
        assert v[i] == v[at + 1..dot][i - at - 1];
      } else if dot < i {
        assert v[i] == v[dot + 1..][i - dot - 1];
      }
    }
  }

  // ---------------------------------------------------------------------------
  // One field
  // ---------------------------------------------------------------------------

  /** The message a required field shows: an all-blank value is reported as missing before
      anything else, and the e-mail field must also hold a valid address. */
  function FieldError(value: string, isEmail: bool): Option<string> {
    if Trim(value) == "" then Some(REQUIRED_MESSAGE)
    else if isEmail && !IsValidEmail(value) then Some(EMAIL_MESSAGE)
    else None
  }

  /** A blank value gets the "required" message even in the e-mail field, where it would also
      fail the e-mail test; a field passes exactly when it is filled in and, for the e-mail
      field, matches the pattern. */
  lemma FieldErrorPrecedence(value: string, isEmail: bool)
    ensures Trim(value) == "" ==> FieldError(value, isEmail) == Some(REQUIRED_MESSAGE) && !IsValidEmail(value)
    ensures FieldError(value, isEmail).None? <==>
              Trim(value) != "" && (isEmail ==> MatchesEmailPattern(Trim(value)))
  {
    EmailIff(value);
    if Trim(value) == "" {
      assert IndexOf(Trim(value), "@").None?;
    }
  }

  // ---------------------------------------------------------------------------
  // The form
  // ---------------------------------------------------------------------------

  /** Whether field `i` of the required fields is the e-mail input. */
  function IsEmailField(emailIndex: Option<nat>, i: nat): bool {
    emailIndex == Some(i)
  }

  function ErrorOf(values: seq<string>, emailIndex: Option<nat>, i: nat): Option<string>
    requires i < |values|
  {
    FieldError(values[i], IsEmailField(emailIndex, i))
  }

  /** The message every field shows after a full validation pass, in document order. */
  function Errors(values: seq<string>, emailIndex: Option<nat>): seq<Option<string>>
  {
    seq(|values|, j requires 0 <= j < |values| => ErrorOf(values, emailIndex, j))
  }

  /** Whether field `i` exists and fails validation. */
  function Invalid(values: seq<string>, emailIndex: Option<nat>): nat -> bool {
    (i: nat) => i < |values| && ErrorOf(values, emailIndex, i).Some?
  }

  /** The field the submit handler focuses. */
  function FirstInvalid(values: seq<string>, emailIndex: Option<nat>): Option<nat> {
    FirstFrom(|values|, Invalid(values, emailIndex), 0)
  }

  /** The focused field is the earliest invalid one in document order, and there is none
      exactly when every field is valid. */
  lemma FirstInvalidIsEarliest(values: seq<string>, emailIndex: Option<nat>)
    ensures var r := FirstInvalid(values, emailIndex);
            && (r.Some? ==> r.value < |values| && ErrorOf(values, emailIndex, r.value).Some?)
            && (r.Some? ==> forall j :: 0 <= j < r.value ==> ErrorOf(values, emailIndex, j).None?)
            && (r.None? ==> forall j :: 0 <= j < |values| ==> ErrorOf(values, emailIndex, j).None?)
  {
    var invalid := Invalid(values, emailIndex);
    assert forall j :: 0 <= j < |values| ==> invalid(j) == ErrorOf(values, emailIndex, j).Some?;
  }

  /** Any index that is invalid with only valid fields before it is the first invalid one. */
  lemma FirstInvalidUnique(values: seq<string>, emailIndex: Option<nat>, r: Option<nat>)
    requires r.Some? ==> r.value < |values| && ErrorOf(values, emailIndex, r.value).Some?
    requires r.Some? ==> forall j :: 0 <= j < r.value ==> ErrorOf(values, emailIndex, j).None?
    requires r.None? ==> forall j :: 0 <= j < |values| ==> ErrorOf(values, emailIndex, j).None?
    ensures r == FirstInvalid(values, emailIndex)
  {
    FirstFromUnique(|values|, Invalid(values, emailIndex), r);
  }

  datatype Notification = Notification(text: string, kind: string)

  /** The contact form: the values of its required inputs in document order, which of them
      is the e-mail input, the error message each one shows, and the focused field. */
  class ContactForm {
    var values: seq<string>
    const emailIndex: Option<nat>
    var errors: seq<Option<string>>
    var focused: Option<nat>

    ghost predicate Valid()
      reads this
    {
      |errors| == |values|
    }

    constructor (initial: seq<string>, email: Option<nat>)
      ensures Valid() && values == initial && emailIndex == email
      ensures errors == seq(|initial|, i => None) && focused.None?
    {
      values := initial;
      emailIndex := email;
      errors := seq(|initial|, i => None);
      focused := None;
    }

    /** The `input` listener of field `i`, after its value has become `value`. */
    method OnFieldInput(i: nat, value: string)
      requires Valid() && i < |values|
      modifies this
      ensures Valid() && values == old(values)[i := value]
      ensures errors == old(errors)[i := FieldError(value, IsEmailField(emailIndex, i))]
      ensures focused == old(focused)
    {
      values := values[i := value];
      if Trim(value) == "" {
        errors := errors[i := Some(REQUIRED_MESSAGE)];
        return;
      } else {
        errors := errors[i := None];
      }
      if IsEmailField(emailIndex, i) {
        if !IsValidEmail(value) {
          errors := errors[i := Some(EMAIL_MESSAGE)];
        } else {
          errors := errors[i := None];
        }
      }
    }

    /** The `blur` listener of field `i`. */
    method OnFieldBlur(i: nat)
      requires Valid() && i < |values|
      modifies this`errors
      ensures Valid()
      ensures errors == old(errors)[i := FieldError(values[i], IsEmailField(emailIndex, i))]
    {
      if Trim(values[i]) == "" {
        errors := errors[i := Some(REQUIRED_MESSAGE)];
        return;
      } else {
        errors := errors[i := None];
      }
      if IsEmailField(emailIndex, i) && !IsValidEmail(values[i]) {
        errors := errors[i := Some(EMAIL_MESSAGE)];
      }
    }

    /** The submit handler. Every error shown before is cleared, then each field gets the
        message of its own value, so exactly the invalid fields show one. When a field is
        invalid, the earliest such field is focused, an error notification is returned and
        the values stay as typed. Otherwise the success notification is returned and the form
        is reset to blank values. */
    method Submit() returns (firstInvalid: Option<nat>, notice: Notification)
      requires Valid()
      modifies this
      ensures Valid()
      ensures errors == Errors(old(values), emailIndex)
      ensures firstInvalid == FirstInvalid(old(values), emailIndex)
      ensures firstInvalid.Some? ==>
                && focused == firstInvalid && values == old(values)
                && notice == Notification(FIX_ERRORS_MESSAGE, "error")
      ensures firstInvalid.None? ==>
                && focused == old(focused) && values == seq(|old(values)|, i => "")
                && notice == Notification(SENT_MESSAGE, "success")
    {
      var inputs := values;
      errors := seq(|inputs|, i => None);
      var shown;
      shown, firstInvalid := ValidateFields(inputs, emailIndex);
      errors := shown;
      if firstInvalid.Some? {
        focused := firstInvalid;
        notice := Notification(FIX_ERRORS_MESSAGE, "error");
        return;
      }
      notice := Notification(SENT_MESSAGE, "success");
      var blank: seq<string> := seq(|values|, i => "");
      values := blank;
    }
  }

  /** The validation pass of the submit handler over the required fields in document order:
      each field gets the message of its own value, and the first field given one is
      remembered. */
  method ValidateFields(inputs: seq<string>, emailIndex: Option<nat>) returns (shown: seq<Option<string>>, firstInvalid: Option<nat>)
    ensures shown == Errors(inputs, emailIndex)
    ensures firstInvalid == FirstInvalid(inputs, emailIndex)
  {
    shown := seq(|inputs|, i => None);
    firstInvalid := None;
    var k := 0;
    while k < |inputs|
      invariant 0 <= k <= |inputs| && |shown| == |inputs|
      invariant forall j :: 0 <= j < k ==> shown[j] == ErrorOf(inputs, emailIndex, j)
      invariant forall j :: k <= j < |inputs| ==> shown[j].None?
      invariant firstInvalid.Some? ==> firstInvalid.value < k && shown[firstInvalid.value].Some?
      invariant firstInvalid.Some? ==> forall j :: 0 <= j < firstInvalid.value ==> shown[j].None?
      invariant firstInvalid.None? ==> forall j :: 0 <= j < k ==> shown[j].None?
    {
      // the same two checks as `FieldError`: blank first, then the e-mail pattern
      var error := FieldError(inputs[k], IsEmailField(emailIndex, k));
      if error.Some? {
        shown := shown[k := error];
        if firstInvalid.None? {
          firstInvalid := Some(k);
        }
      }
      k := k + 1;
    }
    FirstInvalidUnique(inputs, emailIndex, firstInvalid);
  }

  /** Submitting goes through exactly when every field is valid; since every field is
      required, the blank form left by a successful submit is blocked at its first field. */
  lemma SubmitBlocksIffInvalid(values: seq<string>, emailIndex: Option<nat>)
    ensures FirstInvalid(values, emailIndex).None? <==>
              forall j :: 0 <= j < |values| ==> ErrorOf(values, emailIndex, j).None?
    ensures |values| > 0 ==> FirstInvalid(seq(|values|, i => ""), emailIndex) == Some(0)
  {
    FirstInvalidIsEarliest(values, emailIndex);
    if |values| > 0 {
      var blank := seq(|values|, i => "");
      BlankIsRequired(IsEmailField(emailIndex, 0));
      assert Invalid(blank, emailIndex)(0);
    }
  }

  /** A blank value is reported as missing, whichever field it is in. */
  lemma BlankIsRequired(isEmail: bool)
    ensures FieldError("", isEmail) == Some(REQUIRED_MESSAGE)
  {
    assert Trim("") == "";
  }
}
