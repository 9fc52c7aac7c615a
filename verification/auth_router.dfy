/** `AuthenticationRouter`: decides, once mounted in a browser, whether the login
    page shows the in-app SSO button or the QR login. */
module AuthRouting {
  import opened Js

  datatype RouterState = RouterState(isAppWebview: bool, detectionComplete: bool)

  function Init(): RouterState {
    RouterState(false, false)
  }

  /** `componentDidMount`: in a browser, record whether the host app injected a
      truthy `isIranNationApp` global; elsewhere do nothing. */
  function Mount(s: RouterState, inBrowser: bool, isIranNationApp: Value): (r: RouterState)
    ensures !inBrowser ==> r == s
    ensures inBrowser ==> r.detectionComplete && (r.isAppWebview <==> Truthy(isIranNationApp))
  {
    if inBrowser then RouterState(Truthy(isIranNationApp), true) else s
  }

  datatype Screen = LoadingSpinner | MobileSSOScreen | WebQRLoginScreen

  /** `render`: a spinner until detection completes, then exactly one login variant. */
  function Render(s: RouterState): (v: Screen)
    ensures v == LoadingSpinner <==> !s.detectionComplete
    ensures v == MobileSSOScreen <==> s.detectionComplete && s.isAppWebview
    ensures v == WebQRLoginScreen <==> s.detectionComplete && !s.isAppWebview
  {
    if !s.detectionComplete then LoadingSpinner
    else if s.isAppWebview then MobileSSOScreen
    else WebQRLoginScreen
  }

  /** What the page shows after mounting: the spinner stays outside a browser;
      in one, the SSO button exactly when the app's flag is truthy. */
  lemma MountedScreen(inBrowser: bool, isIranNationApp: Value)
    ensures Render(Init()) == LoadingSpinner
    ensures Render(Mount(Init(), inBrowser, isIranNationApp)) ==
      if !inBrowser then LoadingSpinner
      else if Truthy(isIranNationApp) then MobileSSOScreen
      else WebQRLoginScreen
  {
  }

  class AuthenticationRouter {
    var isAppWebview: bool
    var detectionComplete: bool

    function State(): RouterState
      reads this
    {
      RouterState(isAppWebview, detectionComplete)
    }

    constructor()
      ensures State() == Init()
    {
      isAppWebview, detectionComplete := false, false;
    }

    method ComponentDidMount(inBrowser: bool, isIranNationApp: Value)
      modifies this
      ensures State() == Mount(old(State()), inBrowser, isIranNationApp)
    {
      if inBrowser {
        var isWebview := Truthy(isIranNationApp);
        isAppWebview, detectionComplete := isWebview, true;
      }
    }

    function View(): (v: Screen)
      reads this
      ensures v == Render(State())
    {
      if !detectionComplete then LoadingSpinner
      else if isAppWebview then MobileSSOScreen
      else WebQRLoginScreen
    }
  }
}
