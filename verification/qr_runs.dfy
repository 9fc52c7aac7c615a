/** Whole runs of the QR handshake: a run feeds the component a sequence of
    inputs, each taken only when its environment can produce it (a push only
    from an open socket, a click on "generate new code" only while that button
    is shown, a creation outcome only for a request still pending). */
module QRHandshakeRuns {
  import opened Js
  import opened QRHandshake

  datatype Input =
    | Regenerate                         // click on the regenerate button
    | Settled(outcome: CreationOutcome)  // the creation request ends
    | Pushed(event: SocketEvent)         // the socket delivers an event
    | Unmounted                          // the component is unmounted

  predicate Deliverable(s: QRState, i: Input) {
    match i
    case Regenerate => View(s).panel.regenerateButton
    case Settled(_) => s.pending > 0
    case Pushed(_) => Live(s)
    case Unmounted => true
  }

  function Step(s: QRState, i: Input): QRState
    requires Deliverable(s, i)
  {
    match i
    case Regenerate => StartGeneration(s)
    case Settled(o) => ResolveCreation(s, o)
    case Pushed(e) => OnPush(s, e)
    case Unmounted => Unmount(s)
  }

  /** The state after `inputs`, skipping those the environment cannot deliver. */
  function Run(s: QRState, inputs: seq<Input>): QRState
    decreases |inputs|
  {
    if inputs == [] then s
    else Run(if Deliverable(s, inputs[0]) then Step(s, inputs[0]) else s, inputs[1..])
  }

  lemma RunDelivered(s: QRState, i: Input, rest: seq<Input>)
    requires Deliverable(s, i)
    ensures Run(s, [i] + rest) == Run(Step(s, i), rest)
  {
    assert ([i] + rest)[1..] == rest;
  }

  /** The state right after `componentDidMount`. */
  function Mounted(): QRState {
    StartGeneration(Init())
  }

  /** The sockets opened and not yet disconnected, according to the log. */
  function OpenSockets(log: seq<Effect>): set<nat>
    decreases |log|
  {
    if log == [] then {}
    else
      Track(OpenSockets(log[..|log| - 1]), log[|log| - 1])
  }

  /** How one log entry changes the set of open sockets. */
  function Track(open: set<nat>, e: Effect): set<nat> {
    if e.Opened? then open + {e.socket}
    else if e.Disconnected? then open - {e.socket}
    else open
  }

  /** The number of `UserService.login` calls in the log. */
  function Logins(log: seq<Effect>): nat
    decreases |log|
  {
    if log == [] then 0
    else Logins(log[..|log| - 1]) + (if log[|log| - 1].LoggedIn? then 1 else 0)
  }

  lemma LogAppend(log: seq<Effect>, e: Effect)
    ensures OpenSockets(log + [e]) == Track(OpenSockets(log), e)
    ensures Logins(log + [e]) == Logins(log) + (if e.LoggedIn? then 1 else 0)
  {
    assert (log + [e])[..|log|] == log;
  }

  /** The log agrees with the socket field on which socket is open, and every
      login used up a socket: the open one, if any, has not logged in yet. */
  ghost predicate Inv(s: QRState) {
    OpenSockets(s.log) == (if Live(s) then {s.socket.value.id} else {})
    && Logins(s.log) + (if Live(s) then 1 else 0) <= s.socketsCreated
  }

  lemma DisconnectInv(s: QRState)
    requires Inv(s)
    ensures OpenSockets(DisconnectSocket(s).log) == {}
    ensures Logins(DisconnectSocket(s).log) == Logins(s.log)
  {
    if s.socket.Some? {
      LogAppend(s.log, Disconnected(s.socket.value.id));
    }
  }

  lemma SettleInv(s: QRState, o: CreationOutcome)
    requires Inv(s) && s.pending > 0
    ensures Inv(ResolveCreation(s, o))
  {
    if o.Created? {
      var c := s.(pending := s.pending - 1, qrCodeUrl := Some(o.qrCodeUrl),
                  qrToken := Some(o.qrToken), status := Waiting);
      DisconnectInv(c);
      LogAppend(DisconnectSocket(c).log, Opened(s.socketsCreated));
    }
  }

  lemma HandoffInv(s: QRState, jwt: string)
    requires Inv(s) && Live(s)
    ensures Inv(HandleAuthentication(s, jwt))
    ensures Logins(HandleAuthentication(s, jwt).log) == Logins(s.log) + 1
  {
    var d := DisconnectSocket(s.(status := Authenticated));
    DisconnectInv(s.(status := Authenticated));
    LogAppend(d.log, LoggedIn(jwt, false, false));
    LogAppend(d.log + [LoggedIn(jwt, false, false)], RedirectScheduled);
    assert d.log + [LoggedIn(jwt, false, false), RedirectScheduled]
        == d.log + [LoggedIn(jwt, false, false)] + [RedirectScheduled];
  }

  lemma PushInv(s: QRState, e: SocketEvent)
    requires Inv(s) && Live(s)
    ensures Inv(OnPush(s, e))
  {
    match e
    case Connected =>
      LogAppend(s.log, Joined(s.socket.value.id, s.socket.value.joinToken));
    case CodeRefreshed(url, token) =>
      LogAppend(s.log, Joined(s.socket.value.id, token));
    case AuthSuccess(jwt) =>
      if jwt.Some? && jwt.value != "" {
        HandoffInv(s, jwt.value);
      }
    case _ =>
  }

  lemma StepInv(s: QRState, i: Input)
    requires Inv(s) && Deliverable(s, i)
    ensures Inv(Step(s, i))
  {
    match i
    case Regenerate =>
    case Unmounted => DisconnectInv(s);
    case Settled(o) => SettleInv(s, o);
    case Pushed(e) => PushInv(s, e);
  }

  lemma {:induction false} RunInv(s: QRState, inputs: seq<Input>)
    requires Inv(s)
    ensures Inv(Run(s, inputs))
    decreases |inputs|
  {
    if inputs != [] {
      if Deliverable(s, inputs[0]) {
        StepInv(s, inputs[0]);
        RunInv(Step(s, inputs[0]), inputs[1..]);
      } else {
        RunInv(s, inputs[1..]);
      }
    }
  }

  /** `connectWebSocket` disconnects the old socket before creating a new one, so
      in every run at most one socket is open, and it is the one the component holds. */
  lemma AtMostOneOpenSocket(inputs: seq<Input>)
    ensures var s := Run(Mounted(), inputs);
      OpenSockets(s.log) == (if Live(s) then {s.socket.value.id} else {})
      && |OpenSockets(s.log)| <= 1
  {
    RunInv(Mounted(), inputs);
  }

  /** `handleAuthentication` disconnects the socket that delivered the JWT, so
      there are never more `UserService.login` calls than sockets created. */
  lemma LoginsAtMostSockets(inputs: seq<Input>)
    ensures var s := Run(Mounted(), inputs);
      Logins(s.log) + (if Live(s) then 1 else 0) <= s.socketsCreated
  {
    RunInv(Mounted(), inputs);
  }

  /** Once authenticated with its socket closed and no creation request pending,
      the component takes no further transition: a later run changes nothing but
      the log, which keeps its prefix and gains only `disconnect` calls of the
      old socket from unmounting, and logs in no more. */
  lemma {:induction false} AuthenticatedIsFinal(s: QRState, inputs: seq<Input>)
    requires s.status == Authenticated && !Live(s) && s.pending == 0
    ensures Run(s, inputs).(log := s.log) == s
    ensures Logins(Run(s, inputs).log) == Logins(s.log)
    ensures var r := Run(s, inputs);
      |s.log| <= |r.log| && r.log[..|s.log|] == s.log
      && (s.socket.None? ==> r.log == s.log)
      && forall k :: |s.log| <= k < |r.log| ==> s.socket.Some? && r.log[k] == Disconnected(s.socket.value.id)
    decreases |inputs|
  {
    if inputs != [] {
      if Deliverable(s, inputs[0]) {
        assert inputs[0].Unmounted?;
        var t := Unmount(s);
        if s.socket.Some? {
          LogAppend(s.log, Disconnected(s.socket.value.id));
        }
        AuthenticatedIsFinal(t, inputs[1..]);
        var r := Run(s, inputs);
        assert r == Run(t, inputs[1..]);
        assert t.socket.Some? <==> s.socket.Some?;
        assert s.socket.Some? ==> t.socket.value.id == s.socket.value.id;
        assert r.log[..|s.log|] == r.log[..|t.log|][..|s.log|];
      } else {
        AuthenticatedIsFinal(s, inputs[1..]);
      }
    }
  }

  /** A `qr-auth-success` push with a JWT, arriving while no creation request is
      pending, logs in exactly once; nothing that follows changes the state apart
      from the log, which keeps its entries and gains only `disconnect` calls of
      the closed socket from unmounting, and there is no further login. */
  lemma HandoffIsFinal(s: QRState, jwt: string, inputs: seq<Input>)
    requires Live(s) && s.pending == 0 && jwt != ""
    ensures var a := OnPush(s, AuthSuccess(Some(jwt)));
      a.status == Authenticated
      && Run(a, inputs).(log := a.log) == a
      && Logins(Run(a, inputs).log) == Logins(s.log) + 1
  ensures var a := OnPush(s, AuthSuccess(Some(jwt)));
    var r := Run(a, inputs);
      |a.log| <= |r.log| && r.log[..|a.log|] == a.log
      && forall k :: |a.log| <= k < |r.log| ==> r.log[k] == Disconnected(s.socket.value.id)
  {
    var a := OnPush(s, AuthSuccess(Some(jwt)));
    var d := DisconnectSocket(s.(status := Authenticated));
    LogAppend(s.log, Disconnected(s.socket.value.id));
    LogAppend(d.log, LoggedIn(jwt, false, false));
    LogAppend(d.log + [LoggedIn(jwt, false, false)], RedirectScheduled);
    assert a.log == d.log + [LoggedIn(jwt, false, false)] + [RedirectScheduled];
    AuthenticatedIsFinal(a, inputs);
  }

  /** Running `a` and then `b` is running `a + b`. */
  lemma {:induction false} RunConcat(s: QRState, a: seq<Input>, b: seq<Input>)
    ensures Run(s, a + b) == Run(Run(s, a), b)
    decreases |a|
  {
    if a == [] {
      assert a + b == b;
    } else {
      assert (a + b)[0] == a[0] && (a + b)[1..] == a[1..] + b;
      RunConcat(if Deliverable(s, a[0]) then Step(s, a[0]) else s, a[1..], b);
    }
  }

  /** `handleAuthentication` calls `login` exactly once, whatever the state. */
  lemma HandleAuthenticationLogsInOnce(s: QRState, jwt: string)
    ensures Logins(HandleAuthentication(s, jwt).log) == Logins(s.log) + 1
  {
    var d := DisconnectSocket(s.(status := Authenticated));
    if s.socket.Some? {
      LogAppend(s.log, Disconnected(s.socket.value.id));
    }
    LogAppend(d.log, LoggedIn(jwt, false, false));
    LogAppend(d.log + [LoggedIn(jwt, false, false)], RedirectScheduled);
    assert HandleAuthentication(s, jwt).log == d.log + [LoggedIn(jwt, false, false)] + [RedirectScheduled];
  }

  /** The end of a creation request never calls `login`. */
  lemma ResolveCreationLogsNoLogin(s: QRState, o: CreationOutcome)
    requires s.pending > 0
    ensures Logins(ResolveCreation(s, o).log) == Logins(s.log)
  {
    if o.Created? {
      var d := DisconnectSocket(s);
      if s.socket.Some? {
        LogAppend(s.log, Disconnected(s.socket.value.id));
      }
      LogAppend(d.log, Opened(s.socketsCreated));
    }
  }

  /** Why `HandoffIsFinal` needs no creation request pending. A click on
      "generate new code" while the code shows as expired starts a request but
      leaves the old socket open. If that socket then delivers a JWT, the login
      happens, and the late creation success afterwards replaces `authenticated`
      with `waiting` and opens a new live socket. */
  lemma LateCreationReopens(s: QRState, jwt: string, url: string, token: string)
    requires Live(s) && s.status == Expired && jwt != ""
    ensures var r := Run(s, [Regenerate, Pushed(AuthSuccess(Some(jwt))), Settled(Created(url, token))]);
      r.status == Waiting && Live(r) && r.socket == Some(Socket(s.socketsCreated, token, true))
      && r.qrToken == Some(token) && Logins(r.log) == Logins(s.log) + 1
  {
    var i1, i2, i3 := Regenerate, Pushed(AuthSuccess(Some(jwt))), Settled(Created(url, token));
    var s1 := StartGeneration(s);
    var s2 := HandleAuthentication(s1, jwt);
    var s3 := ResolveCreation(s2, Created(url, token));
    assert Run(s2, [i3]) == s3 by {
      RunDelivered(s2, i3, []);
      assert [i3] == [i3] + [];
    }
    assert Run(s1, [i2, i3]) == s3 by {
      RunDelivered(s1, i2, [i3]);
      assert [i2, i3] == [i2] + [i3];
    }
    assert Run(s, [i1, i2, i3]) == s3 by {
      assert View(s).panel.regenerateButton;
      RunDelivered(s, i1, [i2, i3]);
      assert [i1, i2, i3] == [i1] + [i2, i3];
    }
    HandleAuthenticationLogsInOnce(s1, jwt);
    ResolveCreationLogsNoLogin(s2, Created(url, token));
  }

  /** The run of `LateCreationReopens`, followed by an auth success on the new
      socket, calls `login` twice from one mounted component. */
  lemma LateCreationAllowsSecondLogin(s: QRState, jwt: string, url: string, token: string, jwt2: string)
    requires Live(s) && s.status == Expired && jwt != "" && jwt2 != ""
    ensures Logins(Run(s, [Regenerate, Pushed(AuthSuccess(Some(jwt))), Settled(Created(url, token)),
                           Pushed(AuthSuccess(Some(jwt2)))]).log) == Logins(s.log) + 2
  {
    var a := [Regenerate, Pushed(AuthSuccess(Some(jwt))), Settled(Created(url, token))];
    var i4 := Pushed(AuthSuccess(Some(jwt2)));
    var r := Run(s, a);
    LateCreationReopens(s, jwt, url, token);
    RunConcat(s, a, [i4]);
    assert a + [i4] == [Regenerate, Pushed(AuthSuccess(Some(jwt))), Settled(Created(url, token)), i4];
    RunDelivered(r, i4, []);
    assert [i4] == [i4] + [];
    HandleAuthenticationLogsInOnce(r, jwt2);
  }

  // ---------------------------------------------------------------------------
  // Runs from mount

  /** On a live socket, `connect`, a `scanned` update and an auth success with a
      JWT: the socket joins its token, the page ends authenticated with the same
      code shown, the socket is disconnected and the JWT logged in once. */
  lemma ConnectScanAuthenticate(s: QRState, jwt: string)
    requires Live(s) && jwt != ""
    ensures var r := Run(s, [Pushed(Connected), Pushed(StatusUpdate(PushedScanned)),
                             Pushed(AuthSuccess(Some(jwt)))]);
      r.status == Authenticated && !Live(r)
      && r.qrCodeUrl == s.qrCodeUrl && r.qrToken == s.qrToken
      && r.log == s.log + [Joined(s.socket.value.id, s.socket.value.joinToken),
                           Disconnected(s.socket.value.id), LoggedIn(jwt, false, false),
                           RedirectScheduled]
  {
    var i2, i3, i4 := Pushed(Connected), Pushed(StatusUpdate(PushedScanned)), Pushed(AuthSuccess(Some(jwt)));
    var sock := s.socket.value;
    var s2 := OnConnect(s);
    var s3 := s2.(status := Scanned);
    var s4 := HandleAuthentication(s3, jwt);
    assert Run(s3, [i4]) == s4 by {
      RunDelivered(s3, i4, []);
      assert [i4] == [i4] + [];
    }
    assert Run(s2, [i3, i4]) == s4 by {
      RunDelivered(s2, i3, [i4]);
      assert [i3, i4] == [i3] + [i4];
    }
    assert Run(s, [i2, i3, i4]) == s4 by {
      RunDelivered(s, i2, [i3, i4]);
      assert [i2, i3, i4] == [i2] + [i3, i4];
    }
    assert s4.log == s.log + [Joined(sock.id, sock.joinToken), Disconnected(sock.id),
                              LoggedIn(jwt, false, false), RedirectScheduled];
  }

  /** Create `abc123`, scan, complete with `xyz`: the browser joins `abc123`,
      ends authenticated, disconnects and logs in with `xyz` once. */
  lemma ScanThenAuthenticate()
    ensures var s := Run(Mounted(), [Settled(Created("img", "abc123")), Pushed(Connected),
                                     Pushed(StatusUpdate(PushedScanned)),
                                     Pushed(AuthSuccess(Some("xyz")))]);
      s.status == Authenticated && s.qrToken == Some("abc123") && !Live(s)
      && s.log == [Opened(0), Joined(0, "abc123"), Disconnected(0),
                   LoggedIn("xyz", false, false), RedirectScheduled]
  {
    var i1 := Settled(Created("img", "abc123"));
    var rest := [Pushed(Connected), Pushed(StatusUpdate(PushedScanned)), Pushed(AuthSuccess(Some("xyz")))];
    var s1 := Step(Mounted(), i1);
    assert s1.socket == Some(Socket(0, "abc123", true)) && s1.log == [Opened(0)];
    RunDelivered(Mounted(), i1, rest);
    assert [i1] + rest == [i1, Pushed(Connected), Pushed(StatusUpdate(PushedScanned)),
                           Pushed(AuthSuccess(Some("xyz")))];
    ConnectScanAuthenticate(s1, "xyz");
  }

  /** The code expires before it is scanned; the user regenerates; the old socket
      is disconnected before a socket for the new token is opened. */
  lemma ExpireThenRegenerate()
    ensures var s := Run(Mounted(), [Settled(Created("img1", "abc123")),
                                     Pushed(StatusUpdate(PushedExpired)), Regenerate,
                                     Settled(Created("img2", "def456"))]);
      s.status == Waiting && s.qrToken == Some("def456") && s.qrCodeUrl == Some("img2")
      && s.socket == Some(Socket(1, "def456", true))
      && s.log == [Opened(0), Disconnected(0), Opened(1)]
  {
    var s1 := Step(Mounted(), Settled(Created("img1", "abc123")));
    var s2 := Step(s1, Pushed(StatusUpdate(PushedExpired)));
    assert View(s2).panel.regenerateButton;
  }

  /** A creation request aborted by its timer ends in `error` with the timeout
      text, and no socket was ever created. */
  lemma TimeoutBeforeAnySocket()
    ensures var s := Run(Mounted(), [Settled(Aborted)]);
      s.status == Error && s.errorMessage == Some(Literal(TimeoutText))
      && s.socket.None? && s.pending == 0 && s.log == []
  {
  }

  /** The `connect` handler joins the token the socket was created for. After a
      `qr-code-refreshed` push, a reconnect of the same socket joins the original
      token again, not the refreshed one the component now shows. */
  lemma ReconnectJoinsCreationToken()
    ensures var s := Run(Mounted(), [Settled(Created("img1", "abc")), Pushed(Connected),
                                     Pushed(CodeRefreshed("img2", "def")), Pushed(Connected)]);
      s.qrToken == Some("def")
      && s.log == [Opened(0), Joined(0, "abc"), Joined(0, "def"), Joined(0, "abc")]
  {
    var s1 := Step(Mounted(), Settled(Created("img1", "abc")));
    var s2 := Step(s1, Pushed(Connected));
    var s3 := Step(s2, Pushed(CodeRefreshed("img2", "def")));
    assert s3.socket == Some(Socket(0, "abc", true));
  }

  /** Unmounting does not cancel a pending creation request: in the run from
      mount that unmounts and then sees the creation succeed, a live socket is
      opened. In the component, unmounting happens once and has already run, so
      nothing closes that socket. */
  lemma UnmountKeepsPendingCreation()
    ensures var s := Run(Mounted(), [Unmounted, Settled(Created("img", "abc"))]);
      Live(s) && s.status == Waiting && s.log == [Opened(0)]
  {
  }
}
