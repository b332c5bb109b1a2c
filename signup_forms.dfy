/**
 * What a signup form reads back from `fetch`: the HTTP status, the
 * `success` flag and the message fields of the JSON body, or nothing at
 * all when the request or the JSON parse threw.
 */
module SignupAnswers {
  import opened Http

  /** The `success` member of the body: absent, a boolean, or some other value with its truthiness. */
  datatype Flag = Absent | Bool(b: bool) | OtherValue(truthy: bool)

  predicate Truthy(f: Flag) {
    (f.Bool? && f.b) || (f.OtherValue? && f.truthy)
  }

  /**
   * The parsed answer. The string members hold "" when they are absent
   * or empty, which JavaScript treats alike; `emailErrors` is
   * `errors.email`, empty when absent.
   */
  datatype Answer =
    | Answer(status: int, success: Flag, message: string, error: string, emailErrors: seq<string>)
    | Thrown

  /** `response.ok`. */
  predicate Ok(status: int) {
    200 <= status <= 299
  }

  /** The body the seller signup route sends with a reply: `{ success, message }`, successful only on 201. */
  function SellerAnswer(reply: Reply): (a: Answer)
    ensures a.Answer? && a.status == reply.status && a.message == reply.message
    ensures Truthy(a.success) <==> reply.status == 201
  {
    Answer(reply.status, Bool(reply.status == 201), reply.message, "", [])
  }
}

/**
 * The seller signup page: the checks run before anything is sent, the
 * request body, and how the page's status, message and fields change
 * with the answer.
 */
module SellerSignupForm {
  import opened Wrappers
  import opened Http
  import opened SignupAnswers
  import SellerAuth

  datatype Fields = Fields(
    businessName: string,
    fullName: string,
    email: string,
    phone: string,
    country: string,
    password: string,
    confirmPassword: string,
    agreeToTerms: bool)

  const EmptyFields: Fields := Fields("", "", "", "", "", "", "", false)

  /** `submitStatus`: null, "success" or "error". */
  datatype Status = NoStatus | SuccessStatus | ErrorStatus

  const PasswordsDiffer: string := "Passwords do not match."
  const TermsRequired: string := "You must agree to the Terms of Service and Privacy Policy."
  const CountryRequired: string := "Please select your country."
  const DefaultSuccess: string := "Account created successfully! Please verify your email."
  const ServerDown: string := "Server error. Please try again later."

  /** The first check the fields fail, in the page's order, or None when they pass all three. */
  function PreCheck(f: Fields): (r: Option<string>)
    ensures r.None? <==> f.password == f.confirmPassword && f.agreeToTerms && f.country != ""
    ensures f.password != f.confirmPassword ==> r == Some(PasswordsDiffer)
    ensures f.password == f.confirmPassword && !f.agreeToTerms ==> r == Some(TermsRequired)
    ensures f.password == f.confirmPassword && f.agreeToTerms && f.country == "" ==> r == Some(CountryRequired)
  {
    if f.password != f.confirmPassword then Some(PasswordsDiffer)
    else if !f.agreeToTerms then Some(TermsRequired)
    else if f.country == "" then Some(CountryRequired)
    else None
  }

  /** The JSON body: `phone` goes out as `phoneNumber`; the confirmation and the terms box stay behind. */
  function RequestBody(f: Fields): SellerAuth.SignupInput {
    SellerAuth.SignupInput(Text(f.businessName), Text(f.fullName), Text(f.email), Text(f.phone),
                           Text(f.password), Text(f.country))
  }

  /** The request sent, and the page state after the submit handler. */
  datatype Outcome = Outcome(sent: Option<SellerAuth.SignupInput>, fields: Fields, status: Status, message: string)

  /** `handleSubmit` given the fields and what came back from the request. */
  function SubmitSpec(f: Fields, answer: Answer): (r: Outcome)
    ensures r.sent.None? <==> PreCheck(f).Some?
    ensures r.sent.Some? ==> r.sent.value == RequestBody(f)
    ensures r.status != NoStatus
  {
    match PreCheck(f)
    case Some(problem) => Outcome(None, f, ErrorStatus, problem)
    case None =>
      var sent := Some(RequestBody(f));
      match answer
      case Thrown => Outcome(sent, f, ErrorStatus, ServerDown)
      case Answer(status, success, message, _, _) =>
        if Ok(status) && Truthy(success) then
          Outcome(sent, EmptyFields, SuccessStatus, if message != "" then message else DefaultSuccess)
        else Outcome(sent, f, ErrorStatus, message)
  }

  /** A failed check is reported, nothing is sent, and the fields stay as typed. */
  lemma PreCheckStopsSubmit(f: Fields, answer: Answer)
    requires PreCheck(f).Some?
    ensures var r := SubmitSpec(f, answer);
            r.sent.None? && r.fields == f && r.status == ErrorStatus && r.message == PreCheck(f).value
  {
  }

  /** The body carries every typed field under the route's names and nothing from the two extra inputs. */
  lemma RequestBodyFields(f: Fields, confirm: string, agree: bool)
    ensures var b := RequestBody(f);
            b.businessName == Text(f.businessName) && b.fullName == Text(f.fullName)
            && b.email == Text(f.email) && b.phoneNumber == Text(f.phone)
            && b.password == Text(f.password) && b.country == Text(f.country)
    ensures RequestBody(f.(confirmPassword := confirm, agreeToTerms := agree)) == RequestBody(f)
  {
  }

  /**
   * The page reports success exactly for an ok status with a truthy
   * `success`, and then clears every field; on any failure the fields
   * are kept.
   */
  lemma SuccessResetsFields(f: Fields, answer: Answer)
    requires PreCheck(f).None?
    ensures var r := SubmitSpec(f, answer);
            (r.status == SuccessStatus <==> answer.Answer? && Ok(answer.status) && Truthy(answer.success))
            && (r.status == SuccessStatus ==> r.fields == EmptyFields && r.message != "")
            && (r.status == ErrorStatus ==> r.fields == f)
  {
  }

  /**
   * The page does not check the password's length, so a short password
   * passes every check, reaches the route, is refused there with 400,
   * and the route's message is shown with the fields kept.
   */
  lemma ShortPasswordRefusedByRoute(f: Fields, store: SellerAuth.Store, isEmail: string -> bool, now: int,
                                    newId: string, uuid: string, hash: string, token: string, mailOk: bool)
    requires PreCheck(f).None? && |f.password| < 8
    ensures var route := SellerAuth.SignupSpec(store, Some(RequestBody(f)), isEmail, now, newId, uuid, hash, token, mailOk);
            var r := SubmitSpec(f, SellerAnswer(route.reply));
            route.reply.status == 400 && route.store == store
            && r.sent == Some(RequestBody(f)) && r.status == ErrorStatus
            && r.message == route.reply.message && r.fields == f
  {
    SellerAuth.SignupContract(store, Some(RequestBody(f)), isEmail, now, newId, uuid, hash, token, mailOk);
  }

  class SignupPage {
    var fields: Fields
    var status: Status
    var message: string
    var submitting: bool

    constructor()
      ensures fields == EmptyFields && status == NoStatus && message == "" && !submitting
    {
      fields := EmptyFields;
      status := NoStatus;
      message := "";
      submitting := false;
    }

    /** `handleSubmit`; `answer` is what the request produced, when one is sent. */
    method HandleSubmit(answer: Answer) returns (sent: Option<SellerAuth.SignupInput>)
      modifies this
      ensures Outcome(sent, fields, status, message) == SubmitSpec(old(fields), answer)
      ensures !submitting || (old(submitting) && sent.None?)
    {
      status := NoStatus;
      message := "";
      var problem := PreCheck(fields);
      if problem.Some? {
        status := ErrorStatus;
        message := problem.value;
        return None;
      }
      submitting := true;
      sent := Some(RequestBody(fields));
      match answer {
        case Thrown =>
          status := ErrorStatus;
          message := ServerDown;
        case Answer(code, success, text, _, _) =>
          if Ok(code) && Truthy(success) {
            status := SuccessStatus;
            message := if text != "" then text else DefaultSuccess;
            fields := EmptyFields;
          } else {
            status := ErrorStatus;
            message := text;
          }
      }
      submitting := false;
    }
  }
}

/**
 * The affiliate signup page: two checks before anything is sent, a body
 * of three fields, and the fallback chain that picks the error text.
 */
module AffiliateSignupForm {
  import opened Wrappers
  import opened Http
  import opened SignupAnswers
  import AffiliateAuth

  datatype Fields = Fields(fullName: string, email: string, password: string, confirmPassword: string)

  const EmptyFields: Fields := Fields("", "", "", "")

  datatype AlertKind = SuccessAlert | ErrorAlert

  /** The alert box, or none. */
  datatype Alert = NoAlert | Alert(kind: AlertKind, message: string)

  const PasswordsDiffer: string := "Passwords do not match."
  const PasswordTooShort: string := "Password must be at least 8 characters."
  const Created: string := "Account created! Check your email to verify your account."
  const SignupFailed: string := "Signup failed. Please try again."
  const ServerDown: string := "Server error. Try again later."

  /** The shortest password the page lets through. */
  const MinPassword: nat := 8

  /** The first check the fields fail: a mismatch before the length. */
  function PreCheck(f: Fields): (r: Option<string>)
    ensures r.None? <==> f.password == f.confirmPassword && |f.password| >= MinPassword
    ensures f.password != f.confirmPassword ==> r == Some(PasswordsDiffer)
    ensures f.password == f.confirmPassword && |f.password| < MinPassword ==> r == Some(PasswordTooShort)
  {
    if f.password != f.confirmPassword then Some(PasswordsDiffer)
    else if |f.password| < MinPassword then Some(PasswordTooShort)
    else None
  }

  /** The JSON body: the name, the email and the password, and no phone. */
  function RequestBody(f: Fields): AffiliateAuth.SignupInput {
    AffiliateAuth.SignupInput(Text(f.fullName), Text(f.email), Missing, Text(f.password))
  }

  /** `errors?.email?.[0]`, or "" when there is none. */
  function FirstEmailError(errors: seq<string>): string {
    if errors == [] then "" else errors[0]
  }

  /** The error text: the first non-empty of `message`, `error` and the first email error, else the default. */
  function ErrorText(message: string, error: string, emailErrors: seq<string>): (r: string)
    ensures r != ""
    ensures message != "" ==> r == message
    ensures message == "" && error != "" ==> r == error
    ensures message == "" && error == "" && emailErrors != [] && emailErrors[0] != "" ==> r == emailErrors[0]
    ensures message == "" && error == "" && FirstEmailError(emailErrors) == "" ==> r == SignupFailed
    ensures r == message || r == error || r == FirstEmailError(emailErrors) || r == SignupFailed
  {
    if message != "" then message
    else if error != "" then error
    else if FirstEmailError(emailErrors) != "" then FirstEmailError(emailErrors)
    else SignupFailed
  }

  datatype Outcome = Outcome(sent: Option<AffiliateAuth.SignupInput>, fields: Fields, alert: Alert)

  /** `handleSubmit` given the fields and what came back from the request. */
  function SubmitSpec(f: Fields, answer: Answer): (r: Outcome)
    ensures r.sent.None? <==> PreCheck(f).Some?
    ensures r.sent.Some? ==> r.sent.value == RequestBody(f)
    ensures r.alert.Alert? && r.alert.message != ""
  {
    match PreCheck(f)
    case Some(problem) => Outcome(None, f, Alert(ErrorAlert, problem))
    case None =>
      var sent := Some(RequestBody(f));
      match answer
      case Thrown => Outcome(sent, f, Alert(ErrorAlert, ServerDown))
      case Answer(status, success, message, error, emailErrors) =>
        if Ok(status) && success != Bool(false) then Outcome(sent, EmptyFields, Alert(SuccessAlert, Created))
        else Outcome(sent, f, Alert(ErrorAlert, ErrorText(message, error, emailErrors)))
  }

  /** A failed check is reported, nothing is sent, and the fields stay as typed. */
  lemma PreCheckStopsSubmit(f: Fields, answer: Answer)
    requires PreCheck(f).Some?
    ensures var r := SubmitSpec(f, answer);
            r.sent.None? && r.fields == f && r.alert == Alert(ErrorAlert, PreCheck(f).value)
  {
  }

  /**
   * Success needs only an ok status and a `success` that is not the
   * boolean false: an absent flag counts as success. It clears the
   * fields; a failure keeps them.
   */
  lemma SuccessUnlessFlagFalse(f: Fields, answer: Answer)
    requires PreCheck(f).None?
    ensures var r := SubmitSpec(f, answer);
            (r.alert.kind == SuccessAlert <==> answer.Answer? && Ok(answer.status) && answer.success != Bool(false))
            && (r.alert.kind == SuccessAlert ==> r.fields == EmptyFields && r.alert.message == Created)
            && (r.alert.kind == ErrorAlert ==> r.fields == f)
  {
  }

  /**
   * Whatever passes the page's checks meets the route's password and
   * phone rules, so the route's schema then judges only the name and the
   * email.
   */
  lemma BodyMeetsRoutePasswordRule(f: Fields, isEmail: string -> bool)
    requires PreCheck(f).None?
    ensures AffiliateAuth.ValidSignup(RequestBody(f), isEmail) <==> 2 <= |f.fullName| <= 200 && isEmail(f.email)
  {
  }

  /** A password the page lets through is one the route's schema accepts, and one it refuses is never sent. */
  lemma PasswordRuleAgrees(f: Fields)
    requires f.password == f.confirmPassword
    ensures PreCheck(f).None? <==> MinText(RequestBody(f).password, 8)
  {
  }

  class SignupPage {
    var fields: Fields
    var alert: Alert
    var submitting: bool

    constructor()
      ensures fields == EmptyFields && alert == NoAlert && !submitting
    {
      fields := EmptyFields;
      alert := NoAlert;
      submitting := false;
    }

    /** `handleSubmit`; `answer` is what the request produced, when one is sent. */
    method HandleSubmit(answer: Answer) returns (sent: Option<AffiliateAuth.SignupInput>)
      modifies this
      ensures Outcome(sent, fields, alert) == SubmitSpec(old(fields), answer)
      ensures !submitting || (old(submitting) && sent.None?)
    {
      alert := NoAlert;
      var problem := PreCheck(fields);
      if problem.Some? {
        alert := Alert(ErrorAlert, problem.value);
        return None;
      }
      submitting := true;
      sent := Some(RequestBody(fields));
      match answer {
        case Thrown =>
          alert := Alert(ErrorAlert, ServerDown);
        case Answer(code, success, message, error, emailErrors) =>
          if Ok(code) && success != Bool(false) {
            alert := Alert(SuccessAlert, Created);
            fields := EmptyFields;
          } else {
            alert := Alert(ErrorAlert, ErrorText(message, error, emailErrors));
          }
      }
      submitting := false;
    }
  }
}
