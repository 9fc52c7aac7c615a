/** The `MobileSSO` button inside the app's web view: one flag, `isSigningIn`,
    keeps a second tap from posting a second sign-in request to the host app. */
module SSOBridge {

  /** `JSON.stringify({ action: 'requestForumSSO' })`. */
  const RequestForumSSO: string := "{\"action\":\"requestForumSSO\"}"

  datatype Effect =
    | Posted(message: string)  // `window.ReactNativeWebView.postMessage(message)`
    | BridgeMissingToast       // the `sso_error_bridge_not_found` danger toast

  datatype SSOState = SSOState(isSigningIn: bool, log: seq<Effect>)

  function Init(): SSOState {
    SSOState(false, [])
  }

  /** The bridge can be used: running in a browser and
      `window.ReactNativeWebView?.postMessage` is present. */
  predicate BridgePresent(inBrowser: bool, hasPostMessage: bool) {
    inBrowser && hasPostMessage
  }

  /** `handleSignInClick`. */
  function Click(s: SSOState, inBrowser: bool, hasPostMessage: bool): (r: SSOState)
    ensures s.isSigningIn ==> r == s
    ensures !s.isSigningIn && BridgePresent(inBrowser, hasPostMessage) ==>
      r.isSigningIn && r.log == s.log + [Posted(RequestForumSSO)]
    ensures !s.isSigningIn && !BridgePresent(inBrowser, hasPostMessage) ==>
      !r.isSigningIn && r.log == s.log + [BridgeMissingToast]
  {
    if s.isSigningIn then s
    else
      var signing := s.(isSigningIn := true);
      if inBrowser && hasPostMessage then signing.(log := s.log + [Posted(RequestForumSSO)])
      else signing.(isSigningIn := false, log := s.log + [BridgeMissingToast])
  }

  /** The sign-in button: whether it is disabled, and whether it shows a spinner
      instead of its label. */
  datatype Button = Button(disabled: bool, spinner: bool)

  function RenderButton(isSigningIn: bool): (b: Button)
    ensures b.disabled <==> isSigningIn
    ensures b.spinner <==> isSigningIn
  {
    Button(isSigningIn, isSigningIn)
  }

  /** One tap on the button, with what the environment offered at that moment. */
  datatype Tap = Tap(inBrowser: bool, hasPostMessage: bool)

  function Taps(s: SSOState, taps: seq<Tap>): SSOState
    decreases |taps|
  {
    if taps == [] then s
    else Taps(Click(s, taps[0].inBrowser, taps[0].hasPostMessage), taps[1..])
  }

  /** The number of messages posted to the host app. */
  function Posts(log: seq<Effect>): nat
    decreases |log|
  {
    if log == [] then 0
    else Posts(log[..|log| - 1]) + (if log[|log| - 1].Posted? then 1 else 0)
  }

  lemma PostsAppend(log: seq<Effect>, e: Effect)
    ensures Posts(log + [e]) == Posts(log) + (if e.Posted? then 1 else 0)
  {
    assert (log + [e])[..|log|] == log;
  }

  predicate Bridged(t: Tap) {
    BridgePresent(t.inBrowser, t.hasPostMessage)
  }

  /** Some tap of a non-empty sequence has the bridge exactly when its first one
      or some later one does. */
  lemma SomeBridged(taps: seq<Tap>)
    requires taps != []
    ensures (exists k :: 0 <= k < |taps| && Bridged(taps[k]))
        <==> Bridged(taps[0]) || exists k :: 0 <= k < |taps[1..]| && Bridged(taps[1..][k])
  {
    if exists k :: 0 <= k < |taps| && Bridged(taps[k]) {
      var k :| 0 <= k < |taps| && Bridged(taps[k]);
      if k > 0 {
        assert Bridged(taps[1..][k - 1]);
      }
    }
    if exists k :: 0 <= k < |taps[1..]| && Bridged(taps[1..][k]) {
      var k :| 0 <= k < |taps[1..]| && Bridged(taps[1..][k]);
      assert Bridged(taps[k + 1]);
    }
  }

  /** From a state where the flag records whether a request went out, any taps
      keep it so, and a request goes out exactly when some tap had the bridge. */
  lemma {:induction false} TapsKeepFlag(s: SSOState, taps: seq<Tap>)
    requires Posts(s.log) <= 1 && (s.isSigningIn <==> Posts(s.log) == 1)
    ensures var r := Taps(s, taps);
      Posts(r.log) <= 1 && (r.isSigningIn <==> Posts(r.log) == 1)
      && (r.isSigningIn <==> s.isSigningIn || exists k :: 0 <= k < |taps| && Bridged(taps[k]))
    decreases |taps|
  {
    if taps != [] {
      var t := taps[0];
      var c := Click(s, t.inBrowser, t.hasPostMessage);
      if !s.isSigningIn {
        PostsAppend(s.log, if Bridged(t) then Posted(RequestForumSSO) else BridgeMissingToast);
      }
      assert c.isSigningIn <==> s.isSigningIn || Bridged(t);
      TapsKeepFlag(c, taps[1..]);
      SomeBridged(taps);
    }
  }

  /** However often the button is tapped, at most one sign-in request is posted,
      and one is posted exactly when some tap found the bridge. */
  lemma AtMostOneRequest(taps: seq<Tap>)
    ensures Posts(Taps(Init(), taps).log) <= 1
    ensures Posts(Taps(Init(), taps).log) == 1 <==> exists k :: 0 <= k < |taps| && Bridged(taps[k])
  {
    TapsKeepFlag(Init(), taps);
  }

  class MobileSSO {
    var isSigningIn: bool
    ghost var log: seq<Effect>

    ghost function State(): SSOState
      reads this
    {
      SSOState(isSigningIn, log)
    }

    constructor()
      ensures State() == Init()
    {
      isSigningIn := false;
      log := [];
    }

    method HandleSignInClick(inBrowser: bool, hasPostMessage: bool)
      modifies this
      ensures State() == Click(old(State()), inBrowser, hasPostMessage)
    {
      if isSigningIn {
        return;
      }
      isSigningIn := true;
      if inBrowser && hasPostMessage {
        log := log + [Posted(RequestForumSSO)];
      } else {
        log := log + [BridgeMissingToast];
        isSigningIn := false;
      }
    }

    function ButtonView(): (b: Button)
      reads this
      ensures b == RenderButton(isSigningIn)
    {
      Button(isSigningIn, isSigningIn)
    }
  }
}
