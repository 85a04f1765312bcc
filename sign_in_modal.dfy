/** The sign-in dialog: an email form that signs in or signs up depending
    on the mode, a Google button, and the translation of authentication
    errors into messages for the user. The identity provider is outside the
    model: each call's outcome is a parameter of the handler that makes it,
    and the handler returns the call it made. */
module SignIn {
  import opened Text

  datatype Mode = SignInMode | SignUpMode

  /** How an authentication call ended: success, or an exception. The
      message is present when the thrown value is an `Error`. */
  datatype AuthOutcome = AuthOk | AuthFailed(message: Option<string>)

  /** The call a handler made to the identity provider. */
  datatype AuthCall =
    | NoCall
    | EmailSignIn(email: string, password: string)
    | EmailSignUp(email: string, password: string)
    | GooglePopup

  const MissingCredentials := "Please enter email and password"
  const EmailFallback := "Authentication failed"
  const GoogleFallback := "Google sign-in failed"
  const PopupClosed := "Sign-in popup was closed"
  const BadCredentials := "Incorrect email or password"
  const NoAccount := "No account found with this email"
  const AccountExists := "An account already exists with this email"
  const WeakPassword := "Password must be at least 6 characters"
  const BadEmail := "Invalid email address"

  /** The form may be sent only when neither field is blank after trimming. */
  predicate CredentialsEntered(email: string, password: string) {
    Trim(email) != "" && Trim(password) != ""
  }

  /** A field counts as blank exactly when it is all white space. */
  lemma CredentialsEnteredIff(email: string, password: string)
    ensures CredentialsEntered(email, password) <==> !AllWhitespace(email) && !AllWhitespace(password)
  {
    TrimEmptyIff(email);
    TrimEmptyIff(password);
  }

  /** The text of a thrown value: an `Error`'s message, or `fallback` for
      anything else. */
  function ThrownMessage(message: Option<string>, fallback: string): (m: string)
    ensures message.Some? ==> m == message.value
    ensures message.None? ==> m == fallback
  {
    message.GetOr(fallback)
  }

  /** Messages for errors of the email form, tested in order against the
      provider's error text; an unknown error is shown as it is. */
  function EmailErrorText(msg: string): (t: string)
    ensures t == msg || t in [BadCredentials, NoAccount, AccountExists, WeakPassword, BadEmail]
    ensures Contains(msg, "wrong-password") || Contains(msg, "invalid-credential") ==> t == BadCredentials
  {
    if Contains(msg, "wrong-password") || Contains(msg, "invalid-credential") then BadCredentials
    else if Contains(msg, "user-not-found") then NoAccount
    else if Contains(msg, "email-already-in-use") then AccountExists
    else if Contains(msg, "weak-password") then WeakPassword
    else if Contains(msg, "invalid-email") then BadEmail
    else msg
  }

  /** The message for an error of the Google button. */
  function GoogleErrorText(msg: string): string {
    if Contains(msg, "popup-closed") then PopupClosed else msg
  }

  // ---- the same translations as ordered rule tables -------------------

  /** A translation rule: any of the error codes, found in the error text,
      selects the message. */
  datatype Rule = Rule(codes: seq<string>, text: string)

  predicate Matches(rule: Rule, msg: string) {
    exists c :: c in rule.codes && Contains(msg, c)
  }

  /** The index of the first rule that matches, if any. */
  function FirstMatch(rules: seq<Rule>, msg: string): (r: Option<nat>)
    ensures r.None? <==> forall k :: 0 <= k < |rules| ==> !Matches(rules[k], msg)
    ensures r.Some? ==>
      && r.value < |rules| && Matches(rules[r.value], msg)
      && forall j :: 0 <= j < r.value ==> !Matches(rules[j], msg)
  {
    if rules == [] then None
    else if Matches(rules[0], msg) then Some(0)
    else match FirstMatch(rules[1..], msg)
      case None => None
      case Some(k) => Some(k + 1)
  }

  /** The text of the first matching rule, or the error text itself. */
  function Translate(rules: seq<Rule>, msg: string): string {
    if rules == [] then msg
    else if Matches(rules[0], msg) then rules[0].text
    else Translate(rules[1..], msg)
  }

  const EmailRules: seq<Rule> := [
    Rule(["wrong-password", "invalid-credential"], BadCredentials),
    Rule(["user-not-found"], NoAccount),
    Rule(["email-already-in-use"], AccountExists),
    Rule(["weak-password"], WeakPassword),
    Rule(["invalid-email"], BadEmail)]

  const GoogleRules: seq<Rule> := [Rule(["popup-closed"], PopupClosed)]

  /** Translating picks the text of the first matching rule, and leaves
      the error text alone when no rule matches. */
  lemma {:induction false} TranslateIsFirstMatch(rules: seq<Rule>, msg: string)
    ensures Translate(rules, msg) == match FirstMatch(rules, msg)
      case None => msg
      case Some(k) => rules[k].text
  {
    if rules != [] && !Matches(rules[0], msg) {
      TranslateIsFirstMatch(rules[1..], msg);
    }
  }

  /** Translating with a table is testing its first rule, then translating
      with the rest. */
  lemma TranslateCons(r: Rule, rest: seq<Rule>, msg: string)
    ensures Translate([r] + rest, msg) == if Matches(r, msg) then r.text else Translate(rest, msg)
  {
    var rules := [r] + rest;
    assert rules[0] == r && rules[1..] == rest;
  }

  /** A rule with one code matches when the code occurs in the text. */
  lemma MatchesOne(code: string, text: string, msg: string)
    ensures Matches(Rule([code], text), msg) <==> Contains(msg, code)
  {
    if Contains(msg, code) { assert code in [code]; }
  }

  /** A rule with two codes matches when either occurs in the text. */
  lemma MatchesTwo(code1: string, code2: string, text: string, msg: string)
    ensures Matches(Rule([code1, code2], text), msg) <==> Contains(msg, code1) || Contains(msg, code2)
  {
    if Contains(msg, code1) { assert code1 in [code1, code2]; }
    if Contains(msg, code2) { assert code2 in [code1, code2]; }
  }

  /** Translating with a table of five rules is the chain of tests that
      tries them in order. */
  lemma TranslateOfFive(r0: Rule, r1: Rule, r2: Rule, r3: Rule, r4: Rule, msg: string)
    ensures Translate([r0, r1, r2, r3, r4], msg)
      == if Matches(r0, msg) then r0.text
         else if Matches(r1, msg) then r1.text
         else if Matches(r2, msg) then r2.text
         else if Matches(r3, msg) then r3.text
         else if Matches(r4, msg) then r4.text
         else msg
  {
    TranslateCons(r4, [], msg);
    assert [r3, r4] == [r3] + [r4];
    TranslateCons(r3, [r4], msg);
    assert [r2, r3, r4] == [r2] + [r3, r4];
    TranslateCons(r2, [r3, r4], msg);
    assert [r1, r2, r3, r4] == [r1] + [r2, r3, r4];
    TranslateCons(r1, [r2, r3, r4], msg);
    assert [r0, r1, r2, r3, r4] == [r0] + [r1, r2, r3, r4];
    TranslateCons(r0, [r1, r2, r3, r4], msg);
  }

  /** The email form's chain of tests is first-match over its rule table:
      the first rule whose code occurs in the error text decides, and an
      error text with none of the codes is shown unchanged. */
  lemma EmailErrorTextFollowsRules(msg: string)
    ensures EmailErrorText(msg) == Translate(EmailRules, msg)
  {
    TranslateOfFive(EmailRules[0], EmailRules[1], EmailRules[2], EmailRules[3], EmailRules[4], msg);
    MatchesTwo("wrong-password", "invalid-credential", BadCredentials, msg);
    MatchesOne("user-not-found", NoAccount, msg);
    MatchesOne("email-already-in-use", AccountExists, msg);
    MatchesOne("weak-password", WeakPassword, msg);
    MatchesOne("invalid-email", BadEmail, msg);
  }

  /** The Google button's test is first-match over its one-rule table. */
  lemma GoogleErrorTextFollowsRules(msg: string)
    ensures GoogleErrorText(msg) == Translate(GoogleRules, msg)
  {
    MatchesOne("popup-closed", PopupClosed, msg);
    TranslateCons(Rule(["popup-closed"], PopupClosed), [], msg);
    assert GoogleRules == [Rule(["popup-closed"], PopupClosed)] + [];
  }

  // ---- the dialog's state ----------------------------------------------

  class SignInModal {
    var mode: Mode
    var email: string
    var password: string
    var error: Option<string>
    var loading: bool

    constructor ()
      ensures mode == SignInMode && email == "" && password == ""
      ensures error == None && !loading
    {
      mode := SignInMode;
      email := "";
      password := "";
      error := None;
      loading := false;
    }

    method EditEmail(value: string)
      modifies this
      ensures email == value
      ensures mode == old(mode) && password == old(password) && error == old(error) && loading == old(loading)
    {
      email := value;
    }

    method EditPassword(value: string)
      modifies this
      ensures password == value
      ensures mode == old(mode) && email == old(email) && error == old(error) && loading == old(loading)
    {
      password := value;
    }

    /** "Sign up": switches the form to creating an account and clears the
        error. */
    method SwitchToSignUp()
      modifies this
      ensures mode == SignUpMode && error == None
      ensures email == old(email) && password == old(password) && loading == old(loading)
    {
      mode := SignUpMode;
      error := None;
    }

    /** "Sign in": switches the form back and clears the error. */
    method SwitchToSignIn()
      modifies this
      ensures mode == SignInMode && error == None
      ensures email == old(email) && password == old(password) && loading == old(loading)
    {
      mode := SignInMode;
      error := None;
    }

    /** The dialog is busy while a call is outstanding. */
    method AttemptStarted()
      modifies this
      ensures loading
      ensures mode == old(mode) && email == old(email) && password == old(password) && error == old(error)
    {
      loading := true;
    }

    /** The call settled, successfully or not: the dialog is no longer busy,
        and a failure's message is shown. */
    method AttemptSettled(failure: Option<string>)
      requires loading
      modifies this
      ensures !loading
      ensures error == if failure.Some? then failure else old(error)
      ensures mode == old(mode) && email == old(email) && password == old(password)
    {
      if failure.Some? {
        error := failure;
      }
      loading := false;
    }

    /** The email form was sent. Blank fields stop it with a message and no
        call. Otherwise the mode chooses sign-up or sign-in with the fields
        as typed, success is reported once to the caller, a failure shows the
        translated message, and the dialog ends not busy. */
    method HandleEmail(outcome: AuthOutcome) returns (call: AuthCall, succeeded: bool)
      modifies this
      ensures mode == old(mode) && email == old(email) && password == old(password)
      ensures !CredentialsEntered(old(email), old(password)) ==>
        && call == NoCall && !succeeded
        && error == Some(MissingCredentials) && loading == old(loading)
      ensures CredentialsEntered(old(email), old(password)) ==>
        && call == (if old(mode) == SignUpMode then EmailSignUp(old(email), old(password))
                    else EmailSignIn(old(email), old(password)))
        && succeeded == outcome.AuthOk?
        && !loading
        && error == (if outcome.AuthOk? then None
                     else Some(EmailErrorText(ThrownMessage(outcome.message, EmailFallback))))
    {
      error := None;
      if !CredentialsEntered(email, password) {
        error := Some(MissingCredentials);
        return NoCall, false;
      }
      AttemptStarted();
      call := if mode == SignUpMode then EmailSignUp(email, password) else EmailSignIn(email, password);
      succeeded := outcome.AuthOk?;
      AttemptSettled(if outcome.AuthOk? then None
                     else Some(EmailErrorText(ThrownMessage(outcome.message, EmailFallback))));
    }

    /** The Google button: the error is cleared, the popup is opened, success
        is reported once to the caller, a failure shows its message (a closed
        popup says so), and the dialog ends not busy. */
    method HandleGoogle(outcome: AuthOutcome) returns (call: AuthCall, succeeded: bool)
      modifies this
      ensures mode == old(mode) && email == old(email) && password == old(password)
      ensures call == GooglePopup && succeeded == outcome.AuthOk? && !loading
      ensures error == (if outcome.AuthOk? then None
                        else Some(GoogleErrorText(ThrownMessage(outcome.message, GoogleFallback))))
    {
      error := None;
      AttemptStarted();
      call := GooglePopup;
      succeeded := outcome.AuthOk?;
      AttemptSettled(if outcome.AuthOk? then None
                     else Some(GoogleErrorText(ThrownMessage(outcome.message, GoogleFallback))));
    }
  }
}
