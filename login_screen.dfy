/**
 * The login screen: posts email and password as JSON and, when the answer
 * carries a token, stores the session record under `'userInfo'` and goes
 * Home. The startup check reads `'authToken'` instead, so a login does not
 * decide where the next start of the app lands.
 */
module Login {
  import opened Js
  import opened Session
  import opened Api
  import opened Platform

  /** The JSON body of the login request: the two fields exactly as typed. */
  function LoginBody(email: string, password: string): (b: Body)
    ensures b.Json? && |b.fields| == 2
    ensures b.fields[0] == ("email", Str(email)) && b.fields[1] == ("password", Str(password))
  {
    Json([("email", Str(email)), ("password", Str(password))])
  }

  /** What `handleLogin` does once the request has been answered (or has thrown). */
  function ReplyEvents(reply: SessionReply): (es: seq<Event>)
    ensures reply.Granted? ==> es == [Wrote(UserInfoKey, Record(reply.info)),
      Alerted("Login Successful", Str("Welcome back, " + ToStr(reply.info.email))), Navigated(Navigate("Home", None))]
    ensures reply.Refused? ==> es == [Alerted("Login failed", Str("Invalid credentials"))]
    ensures reply.Broken? ==> es == [Alerted("Error", Str("Something went wrong during login."))]
  {
    match reply
    case Granted(info) =>
      [Wrote(UserInfoKey, Record(info)), Alerted("Login Successful", Str("Welcome back, " + ToStr(info.email))),
       Navigated(Navigate("Home", None))]
    case Refused => [Alerted("Login failed", Str("Invalid credentials"))]
    case Broken => [Alerted("Error", Str("Something went wrong during login."))]
  }

  /** The store changes, and the screen leaves, exactly when the answer grants a session. */
  lemma {:induction false} OnlyGrantedWritesAndLeaves(reply: SessionReply)
    ensures (exists i :: 0 <= i < |ReplyEvents(reply)| && WritesStorage(ReplyEvents(reply)[i])) <==> reply.Granted?
    ensures (exists i :: 0 <= i < |ReplyEvents(reply)| && ReplyEvents(reply)[i].Navigated?) <==> reply.Granted?
  {
    var es := ReplyEvents(reply);
    if reply.Granted? {
      assert WritesStorage(es[0]) && es[2].Navigated?;
    } else {
      assert |es| == 1 && es[0].Alerted?;
    }
  }

  /** A token in the answer without a user object ends in the generic error, not in a login. */
  lemma TokenWithoutUserIsError(status: int, d: Data)
    requires Truthy(d.token) && d.user.None?
    ensures ReplyEvents(SessionReplyOf(Responded(status, d))) == [Alerted("Error", Str("Something went wrong during login."))]
  {
  }

  /** A successful login stores a record the other screens read back, yet the next start still lands where it did before. */
  lemma LoginDoesNotChangeStartup(s: Storage, o: Outcome)
    requires SessionReplyOf(o).Granted?
    ensures LoadUserInfo(s[UserInfoKey := Record(SessionReplyOf(o).info)]) == Loaded(SessionReplyOf(o).info)
    ensures StartupRoute(s[UserInfoKey := Record(SessionReplyOf(o).info)]) == StartupRoute(s)
  {
    SessionWriteKeepsStartupRoute(s, SessionReplyOf(o).info);
  }

  /** The part of `handleLogin` after the `await`. */
  method HandleReply(dev: Device, reply: SessionReply)
    modifies dev
    ensures dev.storage == (if reply.Granted? then old(dev.storage)[UserInfoKey := Record(reply.info)] else old(dev.storage))
    ensures dev.trace == old(dev.trace) + ReplyEvents(reply)
  {
    match reply
    case Granted(info) =>
      dev.SetItem(UserInfoKey, Record(info));
      dev.Alert("Login Successful", Str("Welcome back, " + ToStr(info.email)));
      dev.Navigate(Navigate("Home", None));
    case Refused =>
      dev.Alert("Login failed", Str("Invalid credentials"));
    case Broken =>
      dev.Alert("Error", Str("Something went wrong during login."));
  }

  class LoginScreen {
    var email: string
    var password: string

    constructor ()
      ensures email == "" && password == ""
    {
      email, password := "", "";
    }

    /**
     * handleLogin: post the credentials with no check of their own; the
     * status is never looked at, only `data.token`.
     */
    method HandleLogin(dev: Device, o: Outcome)
      modifies dev
      ensures dev.storage == (if SessionReplyOf(o).Granted? then old(dev.storage)[UserInfoKey := Record(SessionReplyOf(o).info)] else old(dev.storage))
      ensures StartupRoute(dev.storage) == StartupRoute(old(dev.storage))
      ensures dev.trace == old(dev.trace) + [Sent(Request(POST, Api.Login, None, LoginBody(email, password)))] + ReplyEvents(SessionReplyOf(o))
    {
      dev.Send(Request(POST, Api.Login, None, LoginBody(email, password)));
      var reply := SessionReplyOf(o);
      if reply.Granted? {
        SessionWriteKeepsStartupRoute(dev.storage, reply.info);
      }
      HandleReply(dev, reply);
    }

    /** navigateToRegister */
    method NavigateToRegister(dev: Device)
      modifies dev
      ensures dev.storage == old(dev.storage)
      ensures dev.trace == old(dev.trace) + [Navigated(Navigate("RegisterScreen", None))]
    {
      dev.Navigate(Navigate("RegisterScreen", None));
    }
  }
}
