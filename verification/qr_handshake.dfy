/** The browser side of the QR login handshake (`WebQRLogin`).

    The component's state is a `QRState` value; every handler is a function from
    the old state (and the handler's input) to the new one. The class
    `WebQRLogin` in module `QRLoginComponent` holds the same fields and is
    proved to follow these functions. Network and socket effects are recorded in `log`: the sockets
    opened, the `join-qr-session` emits, the `disconnect` calls and the
    `UserService.login` calls. */
module QRHandshake {
  import opened Js

  datatype Status = Generating | Waiting | Scanned | Authenticated | Expired | Error

  /** An error message: a literal text, or an i18n key kept as its key (the handler
      translates it when it runs). */
  datatype Message = Literal(text: string) | Translated(key: string)

  const TimeoutText: string := "Request timed out. Please check if the backend is running."
  const NoSessionText: string := "Authentication failed to return a session."

  /** How the session-creation request ends. */
  datatype CreationOutcome =
    | Created(qrCodeUrl: string, qrToken: string)  // OK response; its JSON body
    | NotOk                                         // a response whose `ok` is false
    | Aborted                                       // the 5 s timer aborted the request
    | Failed(message: string)                       // any other error, with its message

  /** The `status` field of a `qr-status-update` push. */
  datatype PushedStatus = PushedScanned | PushedExpired | PushedCancelled | PushedOther(name: string)

  /** What the socket delivers to the handlers `connectWebSocket` installs. */
  datatype SocketEvent =
    | Connected                                            // `connect`
    | StatusUpdate(pushed: PushedStatus)                   // `qr-status-update`
    | AuthSuccess(jwt: Option<string>)                     // `qr-auth-success`
    | CodeRefreshed(newQrCodeUrl: string, newQrToken: string)  // `qr-code-refreshed`
    | ConnectError                                         // `connect_error`
    | SocketError(message: string)                         // `error`

  /** A socket created by `connectWebSocket`: its identity, the token its `connect`
      handler joins (captured when the socket was created), and whether it is
      still open (not yet disconnected by the component). */
  datatype Socket = Socket(id: nat, joinToken: string, open: bool)

  datatype Effect =
    | Opened(socket: nat)
    | Joined(socket: nat, token: string)
    | Disconnected(socket: nat)
    | LoggedIn(jwt: string, registrationCreated: bool, verifyEmailSent: bool)
    | RedirectScheduled

  datatype QRState = QRState(
    status: Status,
    qrCodeUrl: Option<string>,
    qrToken: Option<string>,
    errorMessage: Option<Message>,
    socket: Option<Socket>,
    socketsCreated: nat,  // sockets created so far; the next one gets this id
    pending: nat,         // creation requests awaiting their outcome, each with its timer armed
    log: seq<Effect>)

  function Init(): QRState {
    QRState(Generating, None, None, None, None, 0, 0, [])
  }

  /** A socket exists and the component has not disconnected it. */
  predicate Live(s: QRState) {
    s.socket.Some? && s.socket.value.open
  }

  /** What the user sees is the same in both states. */
  predicate SameScreen(r: QRState, s: QRState) {
    r.status == s.status && r.qrCodeUrl == s.qrCodeUrl && r.qrToken == s.qrToken
    && r.errorMessage == s.errorMessage
  }

  // ---------------------------------------------------------------------------
  // Handlers

  /** The synchronous part of `generateQRCode`: show `generating` and send the
      creation request with its 5 s timer armed. */
  function StartGeneration(s: QRState): (r: QRState)
    ensures r.status == Generating && r.pending == s.pending + 1
    ensures r.qrCodeUrl == s.qrCodeUrl && r.qrToken == s.qrToken && r.errorMessage == s.errorMessage
    ensures r.socket == s.socket && r.socketsCreated == s.socketsCreated && r.log == s.log
  {
    s.(status := Generating, pending := s.pending + 1)
  }

  /** The message `generateQRCode` shows when the creation request fails. */
  function FailureMessage(o: CreationOutcome): (m: Message)
    requires !o.Created?
    ensures o.Aborted? ==> m == Literal(TimeoutText)
    ensures o.NotOk? ==> m == Translated("failed_to_generate_qr")
    ensures o.Failed? && o.message != "" ==> m == Literal(o.message)
    ensures o.Failed? && o.message == "" ==> m == Translated("qr_generation_failed")
  {
    match o
    case Aborted => Literal(TimeoutText)
    case NotOk => Translated("failed_to_generate_qr")
    case Failed(text) => if text != "" then Literal(text) else Translated("qr_generation_failed")
  }

  /** `if (this.socket) this.socket.disconnect()`. */
  function DisconnectSocket(s: QRState): (r: QRState)
    ensures !Live(r)
    ensures SameScreen(r, s) && r.socketsCreated == s.socketsCreated && r.pending == s.pending
    ensures s.socket.None? ==> r.socket.None? && r.log == s.log
    ensures s.socket.Some? ==> r.socket == Some(s.socket.value.(open := false))
                               && r.log == s.log + [Disconnected(s.socket.value.id)]
  {
    match s.socket
    case None => s
    case Some(sock) => s.(socket := Some(sock.(open := false)), log := s.log + [Disconnected(sock.id)])
  }

  /** `connectWebSocket(token)`: disconnect any existing socket, then open a new
      one whose `connect` handler joins `token`. */
  function ConnectWebSocket(s: QRState, token: string): (r: QRState)
    ensures r.socket == Some(Socket(s.socketsCreated, token, true))
    ensures r.socketsCreated == s.socketsCreated + 1
    ensures r.log == DisconnectSocket(s).log + [Opened(s.socketsCreated)]
    ensures SameScreen(r, s) && r.pending == s.pending
  {
    var d := DisconnectSocket(s);
    d.(socket := Some(Socket(s.socketsCreated, token, true)),
       socketsCreated := s.socketsCreated + 1,
       log := d.log + [Opened(s.socketsCreated)])
  }

  /** The continuation of `generateQRCode` once the creation request ends. The
      timer is cleared on every path. */
  function ResolveCreation(s: QRState, o: CreationOutcome): (r: QRState)
    requires s.pending > 0
    ensures r.pending == s.pending - 1
    ensures o.Created? ==>
      r.status == Waiting && r.qrCodeUrl == Some(o.qrCodeUrl) && r.qrToken == Some(o.qrToken)
      && r.errorMessage == s.errorMessage
      && r.socket == Some(Socket(s.socketsCreated, o.qrToken, true))
      && r.log == DisconnectSocket(s).log + [Opened(s.socketsCreated)]
    ensures !o.Created? ==>
      r.status == Error && r.errorMessage == Some(FailureMessage(o))
      && r.qrCodeUrl == s.qrCodeUrl && r.qrToken == s.qrToken
      && r.socket == s.socket && r.socketsCreated == s.socketsCreated && r.log == s.log
  {
    var cleared := s.(pending := s.pending - 1);
    match o
    case Created(url, token) =>
      ConnectWebSocket(cleared.(qrCodeUrl := Some(url), qrToken := Some(token), status := Waiting), token)
    case _ =>
      cleared.(status := Error, errorMessage := Some(FailureMessage(o)))
  }

  /** `connect`: join the session of the token the socket was created for. */
  function OnConnect(s: QRState): (r: QRState)
    requires Live(s)
    ensures r.log == s.log + [Joined(s.socket.value.id, s.socket.value.joinToken)]
    ensures SameScreen(r, s) && r.socket == s.socket
    ensures r.socketsCreated == s.socketsCreated && r.pending == s.pending
  {
    s.(log := s.log + [Joined(s.socket.value.id, s.socket.value.joinToken)])
  }

  /** `qr-status-update`: only `status` changes; `cancelled` shows as `expired`,
      an unknown status changes nothing. */
  function OnStatusUpdate(s: QRState, p: PushedStatus): (r: QRState)
    ensures p.PushedScanned? ==> r.status == Scanned
    ensures p.PushedExpired? || p.PushedCancelled? ==> r.status == Expired
    ensures p.PushedOther? ==> r == s
    ensures r == s.(status := r.status)
  {
    match p
    case PushedScanned => s.(status := Scanned)
    case PushedExpired => s.(status := Expired)
    case PushedCancelled => s.(status := Expired)
    case PushedOther(_) => s
  }

  /** `handleAuthentication(jwt)`: show `authenticated`, disconnect the socket,
      hand the JWT to `UserService.login` and schedule the redirect. */
  function HandleAuthentication(s: QRState, jwt: string): (r: QRState)
    ensures r.status == Authenticated && !Live(r)
    ensures r.log == DisconnectSocket(s).log + [LoggedIn(jwt, false, false), RedirectScheduled]
    ensures r.qrCodeUrl == s.qrCodeUrl && r.qrToken == s.qrToken && r.errorMessage == s.errorMessage
    ensures r.socketsCreated == s.socketsCreated && r.pending == s.pending
  {
    var d := DisconnectSocket(s.(status := Authenticated));
    d.(log := d.log + [LoggedIn(jwt, false, false), RedirectScheduled])
  }

  /** `qr-auth-success`: a non-empty JWT is handed off; a missing or empty one
      ends in `error` and nothing is logged in. */
  function OnAuthSuccess(s: QRState, jwt: Option<string>): (r: QRState)
    ensures jwt.Some? && jwt.value != "" ==> r == HandleAuthentication(s, jwt.value)
    ensures jwt.None? || jwt.value == "" ==>
      r == s.(status := Error, errorMessage := Some(Literal(NoSessionText)))
  {
    if jwt.Some? && jwt.value != "" then HandleAuthentication(s, jwt.value)
    else s.(status := Error, errorMessage := Some(Literal(NoSessionText)))
  }

  /** `qr-code-refreshed`: replace image and token, show `waiting`, and join the
      new token on the same socket. */
  function OnCodeRefreshed(s: QRState, url: string, token: string): (r: QRState)
    requires Live(s)
    ensures r.status == Waiting && r.qrCodeUrl == Some(url) && r.qrToken == Some(token)
    ensures r.log == s.log + [Joined(s.socket.value.id, token)]
    ensures r.socket == s.socket && r.errorMessage == s.errorMessage
    ensures r.socketsCreated == s.socketsCreated && r.pending == s.pending
  {
    s.(qrCodeUrl := Some(url), qrToken := Some(token), status := Waiting,
       log := s.log + [Joined(s.socket.value.id, token)])
  }

  /** `connect_error`: show the translated connection failure. */
  function OnConnectError(s: QRState): (r: QRState)
    ensures r == s.(status := Error, errorMessage := Some(Translated("websocket_connection_failed")))
  {
    s.(status := Error, errorMessage := Some(Translated("websocket_connection_failed")))
  }

  /** `error`: show the error's message, or the translated fallback when it has none. */
  function OnSocketError(s: QRState, message: string): (r: QRState)
    ensures r.status == Error && r == s.(status := Error, errorMessage := r.errorMessage)
    ensures message != "" ==> r.errorMessage == Some(Literal(message))
    ensures message == "" ==> r.errorMessage == Some(Translated("websocket_error"))
  {
    s.(status := Error,
       errorMessage := Some(if message != "" then Literal(message) else Translated("websocket_error")))
  }

  /** Dispatch of a socket event to its handler. Events come from the socket, so one exists. */
  function OnPush(s: QRState, e: SocketEvent): QRState
    requires Live(s)
  {
    match e
    case Connected => OnConnect(s)
    case StatusUpdate(p) => OnStatusUpdate(s, p)
    case AuthSuccess(jwt) => OnAuthSuccess(s, jwt)
    case CodeRefreshed(url, token) => OnCodeRefreshed(s, url, token)
    case ConnectError => OnConnectError(s)
    case SocketError(message) => OnSocketError(s, message)
  }

  /** The events whose handler sets `status` unconditionally. */
  predicate SetsStatus(e: SocketEvent) {
    !e.Connected? && !(e.StatusUpdate? && e.pushed.PushedOther?)
  }

  /** The handlers never look at the current status: from two states that differ
      only in `status`, an event leads to the same state. */
  lemma HandlersIgnoreStatus(s: QRState, e: SocketEvent, other: Status)
    requires Live(s) && SetsStatus(e)
    ensures OnPush(s.(status := other), e) == OnPush(s, e)
  {
  }

  /** `componentWillUnmount`. */
  function Unmount(s: QRState): (r: QRState)
    ensures r == DisconnectSocket(s)
  {
    DisconnectSocket(s)
  }

  // ---------------------------------------------------------------------------
  // Rendering

  /** The paragraph (and button) `renderStatus` produces. */
  datatype StatusPanel = StatusPanel(text: Option<Message>, danger: bool, regenerateButton: bool)

  /** What `render` shows: the large spinner, the QR image, and the status panel. */
  datatype QRView = QRView(spinner: bool, image: Option<string>, panel: StatusPanel)

  function RenderStatus(status: Status, errorMessage: Option<Message>): (p: StatusPanel)
    ensures p.regenerateButton <==> status == Expired
    ensures p.danger <==> status == Error
    ensures status == Error ==> p.text == errorMessage
    ensures status != Error ==> p.text.Some? && p.text.value.Translated?
  {
    match status
    case Generating => StatusPanel(Some(Translated("generating_qr_code")), false, false)
    case Waiting => StatusPanel(Some(Translated("scan_qr_with_app")), false, false)
    case Scanned => StatusPanel(Some(Translated("qr_scanned_confirm_on_device")), false, false)
    case Authenticated => StatusPanel(Some(Translated("login_successful_redirecting")), false, false)
    case Expired => StatusPanel(Some(Translated("qr_code_expired")), false, true)
    case Error => StatusPanel(errorMessage, true, false)
  }

  function Render(status: Status, qrCodeUrl: Option<string>, errorMessage: Option<Message>): (v: QRView)
    ensures v.spinner <==> status == Generating || status == Authenticated
    ensures v.image.Some? <==>
      qrCodeUrl.Some? && qrCodeUrl.value != "" && status in {Waiting, Scanned, Error}
    ensures v.image.Some? ==> v.image == qrCodeUrl
    ensures !(v.spinner && v.image.Some?)
    ensures v.panel == RenderStatus(status, errorMessage)
  {
    var isLoading := status == Generating || status == Authenticated;
    var showImage := qrCodeUrl.Some? && qrCodeUrl.value != "" && !isLoading && status != Expired;
    QRView(isLoading, if showImage then qrCodeUrl else None, RenderStatus(status, errorMessage))
  }

  function View(s: QRState): QRView {
    Render(s.status, s.qrCodeUrl, s.errorMessage)
  }

  /** After an error that follows a successful creation (a socket error, say), the
      error text is shown under the last QR image, with no regenerate button. */
  lemma ErrorKeepsLastImage(s: QRState, message: string)
    requires Live(s) && s.qrCodeUrl.Some? && s.qrCodeUrl.value != ""
    ensures var v := View(OnSocketError(s, message));
      v.image == s.qrCodeUrl && v.panel.danger && !v.panel.regenerateButton
  {
  }
}
