/**
 * The root navigator (app/_layout.tsx): while the session is loading it
 * shows a spinner and redirects nowhere; afterwards signed-out users are
 * sent out of the protected "(tabs)" group and signed-in users into it.
 * router.replace is the path returned; the session hook is two booleans.
 */
module Layout {
  import opened Text

  datatype Screen = Spinner | Slot

  const LOGIN: string := "/login"
  const HOME: string := "/"
  const TABS_GROUP: string := "(tabs)"

  /** segments[0] === '(tabs)'; an empty segment list has no first segment. */
  predicate InTabsGroup(segments: seq<string>) {
    |segments| > 0 && segments[0] == TABS_GROUP
  }

  /** The path the effect replaces the route with, if any. */
  function Redirect(loading: bool, signedIn: bool, segments: seq<string>): (r: Option<string>)
    ensures loading ==> r == None
    ensures r == Some(LOGIN) <==> !loading && !signedIn && InTabsGroup(segments)
    ensures r == Some(HOME) <==> !loading && signedIn && !InTabsGroup(segments)
    ensures r == None || r == Some(LOGIN) || r == Some(HOME)
  {
    if loading then None
    else
      var inTabs := InTabsGroup(segments);
      if !signedIn && inTabs then Some(LOGIN)
      else if signedIn && !inTabs then Some(HOME)
      else None
  }

  /** What the navigator renders. */
  function Render(loading: bool): (screen: Screen)
    ensures screen == Spinner <==> loading
  {
    if loading then Spinner else Slot
  }

  /**
   * The segments of the two redirect targets: "/login" is the login screen
   * outside the group; "/" lands on `home`, the segments of whichever index
   * screen the router resolves it to. The tree has two candidates,
   * app/(tabs)/index.tsx inside the group and app/index.tsx outside it, so
   * `home` is a parameter.
   */
  function SegmentsOf(path: string, home: seq<string>): seq<string> {
    if path == HOME then home else if path == [] then [] else [path[1..]]
  }

  /**
   * If "/" resolves inside the group, one redirect settles the route: after
   * it, the rule asks for no other, and the user is inside the group
   * exactly when signed in.
   */
  lemma RedirectSettles(signedIn: bool, segments: seq<string>, home: seq<string>)
    requires InTabsGroup(home)
    ensures var r := Redirect(false, signedIn, segments);
      var final := if r.Some? then SegmentsOf(r.value, home) else segments;
      && Redirect(false, signedIn, final) == None
      && (InTabsGroup(final) <==> signedIn)
  {
    var r := Redirect(false, signedIn, segments);
    if r == Some(LOGIN) {
      assert SegmentsOf(LOGIN, home) == ["login"];
      assert "login" != TABS_GROUP;
    }
  }

  /**
   * If "/" resolves outside the group instead, a signed-in user outside it
   * is sent to "/" again after the redirect, so the route never settles.
   */
  lemma RedirectRepeatsWhenHomeOutsideTabs(segments: seq<string>, home: seq<string>)
    requires !InTabsGroup(home) && !InTabsGroup(segments)
    ensures Redirect(false, true, segments) == Some(HOME)
    ensures Redirect(false, true, SegmentsOf(HOME, home)) == Some(HOME)
  {
  }

  /** With no change of session, a route that needs no redirect keeps needing none. */
  lemma NoRedirectMeansSettled(signedIn: bool, segments: seq<string>)
    requires Redirect(false, signedIn, segments) == None
    ensures InTabsGroup(segments) <==> signedIn
  {
  }
}
