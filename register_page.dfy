/** The registration form: live validation while typing, the validation gate
    on submit, and the message shown for the server's answer. */
module RegisterPage {
  import opened Common
  import opened Text
  import opened Http
  import RegisterRoute

  /** A character the email pattern's `[^\s@]` class accepts. */
  predicate PlainChar(c: char) {
    c != '@' && !IsWhitespace(c)
  }

  predicate AllPlain(t: string) {
    forall k :: 0 <= k < |t| ==> PlainChar(t[k])
  }

  /** What `^[^\s@]+@[^\s@]+\.[^\s@]+$` accepts: one `@` with text before it,
      and a `.` after it that has text on both sides; no whitespace, no other `@`. */
  predicate EmailShape(s: string) {
    exists i, j :: 0 < i && i + 1 < j < |s| - 1 && s[i] == '@' && s[j] == '.' &&
      forall k :: 0 <= k < |s| && k != i ==> PlainChar(s[k])
  }

  /** The index of the first `@`, or `|s|` when there is none. */
  function FirstAt(s: string): (r: nat)
    ensures r <= |s|
    ensures r < |s| ==> s[r] == '@'
    ensures forall k :: 0 <= k < r ==> s[k] != '@'
  {
    if s == [] then 0
    else if s[0] == '@' then 0
    else 1 + FirstAt(s[1..])
  }

  /** The pattern test, one scan at a time. */
  predicate EmailPattern(s: string) {
    var i := FirstAt(s);
    0 < i && i + 3 < |s| && AllPlain(s[..i]) && AllPlain(s[i + 1..]) && '.' in s[i + 2..|s| - 1]
  }

  /** The test accepts exactly the strings of the pattern's shape. */
  lemma EmailPatternIffShape(s: string)
    ensures EmailPattern(s) <==> EmailShape(s)
  {
    var i := FirstAt(s);
    if EmailPattern(s) {
      var mid := s[i + 2..|s| - 1];
      var m :| 0 <= m < |mid| && mid[m] == '.';
      var j := i + 2 + m;
      assert s[j] == '.';
      forall k | 0 <= k < |s| && k != i ensures PlainChar(s[k]) {
        if k < i {
          assert s[k] == s[..i][k];
        } else {
          assert s[k] == s[i + 1..][k - i - 1];
        }
      }
      assert EmailShape(s);
    }
    if EmailShape(s) {
      var a, j :| 0 < a && a + 1 < j < |s| - 1 && s[a] == '@' && s[j] == '.' &&
        forall k :: 0 <= k < |s| && k != a ==> PlainChar(s[k]);
      assert i == a;
      assert s[i + 2..|s| - 1][j - i - 2] == '.';
      assert AllPlain(s[..i]) by {
        forall k | 0 <= k < i ensures PlainChar(s[..i][k]) { assert s[..i][k] == s[k]; }
      }
      var rest := s[i + 1..];
      assert AllPlain(rest) by {
        forall k | 0 <= k < |rest| ensures PlainChar(rest[k]) { assert rest[k] == s[i + 1 + k]; }
      }
    }
  }

  /** The three checks `handleSubmit` makes. */
  predicate NameOk(name: string) {
    |Trim(name)| > 0
  }

  predicate PasswordOk(password: string) {
    |password| >= 6
  }

  datatype Validation = Validation(nameValid: bool, emailValid: bool, passwordValid: bool) {
    predicate AllValid() {
      nameValid && emailValid && passwordValid
    }
  }

  function SubmitChecks(name: string, email: string, password: string): Validation {
    Validation(NameOk(name), EmailPattern(email), PasswordOk(password))
  }

  /** What the three checks accept: a name with a non-whitespace character,
      an email of the pattern's shape, a password of six characters or more. */
  lemma SubmitChecksMeaning(name: string, email: string, password: string)
    ensures var v := SubmitChecks(name, email, password);
      && (v.nameValid <==> exists i :: 0 <= i < |name| && !IsWhitespace(name[i]))
      && (v.emailValid <==> EmailShape(email))
      && (v.passwordValid <==> |password| >= 6)
  {
    TrimEmptyIffBlank(name);
    EmailPatternIffShape(email);
  }

  /** The inputs of the form. */
  datatype Field = Name | Email | Password

  /** The submit check for one field. */
  predicate Check(field: Field, value: string) {
    match field
    case Name => NameOk(value)
    case Email => EmailPattern(value)
    case Password => PasswordOk(value)
  }

  /** While typing, an empty field is not flagged. */
  predicate LiveValid(field: Field, value: string) {
    Check(field, value) || value == ""
  }

  /** The live flag agrees with the submit check on every non-empty value; an
      empty value passes live and fails on submit, for every field. */
  lemma LiveAgreesWithSubmit(field: Field, value: string)
    ensures value != "" ==> (LiveValid(field, value) <==> Check(field, value))
    ensures value == "" ==> LiveValid(field, value) && !Check(field, value)
  {
    if value == "" {
      assert Trim(value) == "";
      assert FirstAt(value) == 0;
    }
  }

  const SubmitFallback := "Something went wrong"
  const NetworkError := "Network error. Please try again."

  /** The form's state. */
  class RegisterForm {
    var name: string
    var email: string
    var password: string
    var validation: Validation
    var loading: bool
    var error: string
    var redirect: Option<string>

    constructor ()
      ensures name == "" && email == "" && password == ""
      ensures validation == Validation(true, true, true)
      ensures !loading && error == "" && redirect.None?
    {
      name, email, password := "", "", "";
      validation := Validation(true, true, true);
      loading, error, redirect := false, "", None;
    }

    /** `handleInputChange`: store the value and refresh only that field's flag. */
    method HandleInputChange(field: Field, value: string)
      modifies this
      ensures name == (if field == Name then value else old(name))
      ensures email == (if field == Email then value else old(email))
      ensures password == (if field == Password then value else old(password))
      ensures validation == match field
        case Name => old(validation).(nameValid := LiveValid(Name, value))
        case Email => old(validation).(emailValid := LiveValid(Email, value))
        case Password => old(validation).(passwordValid := LiveValid(Password, value))
      ensures loading == old(loading) && error == old(error) && redirect == old(redirect)
    {
      match field
      case Name =>
        name := value;
        validation := validation.(nameValid := NameOk(value) || value == "");
      case Email =>
        email := value;
        validation := validation.(emailValid := EmailPattern(value) || value == "");
      case Password =>
        password := value;
        validation := validation.(passwordValid := PasswordOk(value) || value == "");
    }

    /** `handleSubmit`. `reply` is the server's answer, or `None` when the
        request fails; it is read only when a request is sent. A body that is
        not JSON makes `res.json()` throw, which lands in the network error. */
    method HandleSubmit(reply: Option<Response>) returns (request: Option<RegisterRoute.RegisterRequest>)
      modifies this
      ensures var checks := SubmitChecks(old(name), old(email), old(password));
        && (request.Some? <==> checks.AllValid())
        && (request.None? ==> validation == checks && error == "" && redirect == old(redirect))
      ensures request.Some? ==>
        && request.value == RegisterRoute.RegisterRequest(email, password, Some(name))
        && validation == old(validation)
        && (reply.None? || !IsJson(reply.value.body) ==> error == NetworkError && redirect == old(redirect))
        && (reply.Some? && IsJson(reply.value.body) && !reply.value.Ok() ==>
              error == ErrorOr(reply.value.body, SubmitFallback) && redirect == old(redirect))
        && (reply.Some? && IsJson(reply.value.body) && reply.value.Ok() ==>
              error == "" && redirect == Some("/login"))
      ensures name == old(name) && email == old(email) && password == old(password)
      ensures !loading
    {
      var checks := SubmitChecks(name, email, password);
      loading := true;
      error := "";
      if !checks.AllValid() {
        validation := checks;
        loading := false;
        return None;
      }
      request := Some(RegisterRoute.RegisterRequest(email, password, Some(name)));
      if reply.None? || !IsJson(reply.value.body) {
        error := NetworkError;
      } else if !reply.value.Ok() {
        error := ErrorOr(reply.value.body, SubmitFallback);
      } else {
        redirect := Some("/login");
      }
      loading := false;
    }
  }
}
