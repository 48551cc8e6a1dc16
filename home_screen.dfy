/**
 * The home screen: logout and two navigation buttons. Logout removes
 * `'authToken'` only; the session record under `'userInfo'` stays.
 */
module Home {
  import opened Js
  import opened Session
  import opened Platform

  /** What `handleLogout` shows and does after removing the token, in order. */
  function LogoutEvents(): (es: seq<Event>)
    ensures |es| == 3 && es[0] == Removed(AuthTokenKey)
    ensures es[1] == Alerted("Logged out", Str("You have been logged out successfully."))
    ensures es[2] == Navigated(Replace("Login"))
  {
    [Removed(AuthTokenKey), Alerted("Logged out", Str("You have been logged out successfully.")), Navigated(Replace("Login"))]
  }

  /** The token is gone before the alert shows and before the screen is replaced. */
  lemma {:induction false} LogoutRemovesBeforeLeaving()
    ensures forall i :: 0 <= i < |LogoutEvents()| && WritesStorage(LogoutEvents()[i]) ==> i == 0
    ensures forall i :: 0 <= i < |LogoutEvents()| && LogoutEvents()[i].Navigated? ==> i == |LogoutEvents()| - 1
  {
    var es := LogoutEvents();
    assert !WritesStorage(es[1]) && !WritesStorage(es[2]);
    assert !es[0].Navigated? && !es[1].Navigated?;
  }

  /**
   * handleLogout: remove `'authToken'`, tell the user, and replace the
   * screen with Login. The next start goes to Login; every other stored
   * value, the session record included, is kept.
   */
  method HandleLogout(dev: Device)
    modifies dev
    ensures dev.storage == old(dev.storage) - {AuthTokenKey}
    ensures StartupRoute(dev.storage) == "Login"
    ensures LoadUserInfo(dev.storage) == LoadUserInfo(old(dev.storage))
    ensures dev.trace == old(dev.trace) + LogoutEvents()
  {
    LogoutStartsAtLogin(dev.storage);
    LogoutKeepsSessionRecord(dev.storage);
    dev.RemoveItem(AuthTokenKey);
    dev.Alert("Logged out", Str("You have been logged out successfully."));
    dev.Navigate(Replace("Login"));
  }

  /** navigateToProfileUpdate */
  method NavigateToProfileUpdate(dev: Device)
    modifies dev
    ensures dev.storage == old(dev.storage)
    ensures dev.trace == old(dev.trace) + [Navigated(Navigate("ProfileUpdate", None))]
  {
    dev.Navigate(Navigate("ProfileUpdate", None));
  }

  /** navigateToHotelScreen */
  method NavigateToHotelScreen(dev: Device)
    modifies dev
    ensures dev.storage == old(dev.storage)
    ensures dev.trace == old(dev.trace) + [Navigated(Navigate("HotelScreen", None))]
  {
    dev.Navigate(Navigate("HotelScreen", None));
  }
}
