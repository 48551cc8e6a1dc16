/**
 * The registration screen: four text fields checked for blanks and for a
 * password match, a multipart request with the trimmed values, and on a
 * response with a token the session record stored under `'userInfo'`.
 */
module Register {
  import opened Js
  import opened Session
  import opened Api
  import opened Platform

  /** A field passes the blank check when it has a character that is not whitespace. */
  ghost predicate HasText(s: string) {
    exists i :: 0 <= i < |s| && !IsSpace(s[i])
  }

  datatype Verdict = Accept | Reject(message: string)

  /**
   * `handleRegister`'s checks, in order: every field non-empty after `trim()`,
   * then the untrimmed password equal to the untrimmed repeat.
   */
  function ValidateRegistration(username: string, email: string, password: string, repassword: string): (v: Verdict)
    ensures v == Accept <==> HasText(username) && HasText(email) && HasText(password) && HasText(repassword) && password == repassword
    ensures !(HasText(username) && HasText(email) && HasText(password) && HasText(repassword)) ==>
      v == Reject("All fields are required.")
    ensures HasText(username) && HasText(email) && HasText(password) && HasText(repassword) && password != repassword ==>
      v == Reject("Passwords do not match.")
  {
    TrimEmptyIffBlank(username);
    TrimEmptyIffBlank(email);
    TrimEmptyIffBlank(password);
    TrimEmptyIffBlank(repassword);
    if Trim(username) == "" || Trim(email) == "" || Trim(password) == "" || Trim(repassword) == "" then
      Reject("All fields are required.")
    else if password != repassword then
      Reject("Passwords do not match.")
    else
      Accept
  }

  /** The blank check comes first: a blank field is reported even when the passwords also differ. */
  lemma BlankReportedBeforeMismatch()
    ensures ValidateRegistration(" ", "a@b.c", "secret", "other") == Reject("All fields are required.")
  {
    assert IsSpace(" "[0]);
    TrimEmptyIffBlank(" ");
  }

  /** Passwords are compared untrimmed: a trailing space in one of them is a mismatch. */
  lemma PasswordsComparedUntrimmed()
    ensures ValidateRegistration("ann", "a@b.c", "pw ", "pw") == Reject("Passwords do not match.")
  {
    assert !IsSpace("ann"[0]) && !IsSpace("a@b.c"[0]) && !IsSpace("pw "[0]) && !IsSpace("pw"[0]);
  }

  /** The registration form: username, email and password, each trimmed; never an image. */
  function RegisterParts(username: string, email: string, password: string): (parts: seq<Part>)
    ensures PartNames(parts) == ["username", "email", "password"]
    ensures forall i :: 0 <= i < |parts| ==> parts[i].Field?
    ensures parts[0].value == Str(Trim(username)) && parts[1].value == Str(Trim(email)) && parts[2].value == Str(Trim(password))
  {
    [Field("username", Str(Trim(username))), Field("email", Str(Trim(email))), Field("password", Str(Trim(password)))]
  }

  /** Yet the password is sent trimmed: a typed `"pw "` goes out in the form as `"pw"`. */
  lemma TrailingSpaceTrimmed(username: string, email: string)
    ensures Trim("pw ") == "pw"
    ensures RegisterParts(username, email, "pw ")[2] == Field("password", Str("pw"))
  {
    var s, t := "pw ", "pw";
    assert !IsSpace(s[0]) && IsSpace(s[2]) && !IsSpace(t[1]);
    assert TrimStart(s) == s;
    assert s[..|s| - 1] == t;
    assert TrimEnd(t) == t;
    assert TrimEnd(s) == t;
  }

  /** What `handleRegister` does once the request has been answered (or has thrown). */
  function ReplyEvents(reply: SessionReply): (es: seq<Event>)
    ensures reply.Granted? ==> es == [Wrote(UserInfoKey, Record(reply.info)),
      Alerted("Registration Successful", Str("Welcome, " + ToStr(reply.info.email))), Navigated(Navigate("Home", None))]
    ensures reply.Refused? ==> es == [Alerted("Registration Failed", Str("Something went wrong.")),
      Alerted("Error", Str("Something went wrong during registration."))]
    ensures reply.Broken? ==> es == [Alerted("Error", Str("Something went wrong during registration."))]
  {
    match reply
    case Granted(info) =>
      [Wrote(UserInfoKey, Record(info)), Alerted("Registration Successful", Str("Welcome, " + ToStr(info.email))),
       Navigated(Navigate("Home", None))]
    case Refused =>
      [Alerted("Registration Failed", Str("Something went wrong.")), Alerted("Error", Str("Something went wrong during registration."))]
    case Broken =>
      [Alerted("Error", Str("Something went wrong during registration."))]
  }

  /** An answer without a token shows two alerts in a row and never writes to the store nor leaves the screen. */
  lemma {:induction false} RefusedShowsTwoAlerts(status: int, d: Data)
    requires !Truthy(d.token)
    ensures var es := ReplyEvents(SessionReplyOf(Responded(status, d)));
      |es| == 2 && forall i :: 0 <= i < |es| ==> es[i].Alerted? && !WritesStorage(es[i])
  {
    var es := ReplyEvents(SessionReplyOf(Responded(status, d)));
    assert es == [Alerted("Registration Failed", Str("Something went wrong.")),
      Alerted("Error", Str("Something went wrong during registration."))];
  }

  /** The part of `handleRegister` after the `await`. */
  method HandleReply(dev: Device, reply: SessionReply)
    modifies dev
    ensures dev.storage == (if reply.Granted? then old(dev.storage)[UserInfoKey := Record(reply.info)] else old(dev.storage))
    ensures dev.trace == old(dev.trace) + ReplyEvents(reply)
  {
    match reply
    case Granted(info) =>
      dev.SetItem(UserInfoKey, Record(info));
      dev.Alert("Registration Successful", Str("Welcome, " + ToStr(info.email)));
      dev.Navigate(Navigate("Home", None));
    case Refused =>
      dev.Alert("Registration Failed", Str("Something went wrong."));
      dev.Alert("Error", Str("Something went wrong during registration."));
    case Broken =>
      dev.Alert("Error", Str("Something went wrong during registration."));
  }

  class RegisterScreen {
    var username: string
    var email: string
    var password: string
    var repassword: string
    var imageUri: JsValue

    constructor ()
      ensures username == "" && email == "" && password == "" && repassword == "" && imageUri == Null
    {
      username, email, password, repassword := "", "", "", "";
      imageUri := Null;
    }

    /** pickImage: the picked profile picture is kept on screen only. */
    method PickImage(picked: Option<string>)
      modifies this
      ensures imageUri == (if picked.Some? then Str(picked.value) else old(imageUri))
      ensures username == old(username) && email == old(email) && password == old(password) && repassword == old(repassword)
    {
      if picked.Some? {
        imageUri := Str(picked.value);
      }
    }

    /**
     * handleRegister: reject blanks, then a password mismatch, with no
     * request; otherwise post the trimmed fields. A truthy token in the
     * answer stores the session record, then greets and navigates Home. An
     * answer without a token shows a failure and then, because the handler
     * goes on to read an undefined variable, the generic error. An exception
     * shows the generic error. Only the success path writes to storage.
     */
    method HandleRegister(dev: Device, o: Outcome)
      modifies dev
      ensures ValidateRegistration(username, email, password, repassword).Reject? ==>
        && dev.storage == old(dev.storage)
        && dev.trace == old(dev.trace) + [Alerted("Validation Error", Str(ValidateRegistration(username, email, password, repassword).message))]
      ensures ValidateRegistration(username, email, password, repassword).Accept? ==>
        && dev.storage == (if SessionReplyOf(o).Granted? then old(dev.storage)[UserInfoKey := Record(SessionReplyOf(o).info)] else old(dev.storage))
        && dev.trace == old(dev.trace) + [Sent(Request(POST, Register, None, Multipart(RegisterParts(username, email, password))))]
             + ReplyEvents(SessionReplyOf(o))
    {
      var verdict := ValidateRegistration(username, email, password, repassword);
      if verdict.Reject? {
        dev.Alert("Validation Error", Str(verdict.message));
        return;
      }
      dev.Send(Request(POST, Register, None, Multipart(RegisterParts(username, email, password))));
      HandleReply(dev, SessionReplyOf(o));
    }

    /** navigateToLogin */
    method NavigateToLogin(dev: Device)
      modifies dev
      ensures dev.storage == old(dev.storage)
      ensures dev.trace == old(dev.trace) + [Navigated(Navigate("Login", None))]
    {
      dev.Navigate(Navigate("Login", None));
    }
  }
}
