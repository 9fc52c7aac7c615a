/** The `WebQRLogin` component as an object: its state fields, the socket it holds
    and a ghost log of the side effects. Each method is proved to move the object
    exactly as the matching handler of `QRHandshake` moves a `QRState`. */
module QRLoginComponent {
  import opened Js
  import Q = QRHandshake

  class WebQRLogin {
    var status: Q.Status
    var qrCodeUrl: Option<string>
    var qrToken: Option<string>
    var errorMessage: Option<Q.Message>
    var socket: Option<Q.Socket>
    var socketsCreated: nat
    ghost var pending: nat
    ghost var log: seq<Q.Effect>

    ghost function State(): Q.QRState
      reads this
    {
      Q.QRState(status, qrCodeUrl, qrToken, errorMessage, socket, socketsCreated, pending, log)
    }

    /** The initial state: `generating`, nothing else set, no socket. */
    constructor()
      ensures State() == Q.Init()
    {
      status := Q.Generating;
      qrCodeUrl, qrToken, errorMessage := None, None, None;
      socket := None;
      socketsCreated := 0;
      pending := 0;
      log := [];
    }

    method ComponentDidMount()
      modifies this
      ensures State() == Q.StartGeneration(old(State()))
    {
      GenerateQRCode();
    }

    method ComponentWillUnmount()
      modifies this
      ensures State() == Q.Unmount(old(State()))
    {
      DisconnectSocket();
    }

    /** `generateQRCode` up to its `await`: show `generating`, arm the 5 s timer
        and send the creation request. */
    method GenerateQRCode()
      modifies this
      ensures State() == Q.StartGeneration(old(State()))
    {
      status := Q.Generating;
      pending := pending + 1;
    }

    /** `generateQRCode` after its `await`: the request has ended with `outcome`. */
    method SettleCreation(outcome: Q.CreationOutcome)
      requires pending > 0
      modifies this
      ensures State() == Q.ResolveCreation(old(State()), outcome)
    {
      pending := pending - 1;  // clearTimeout, on both paths
      if outcome.Created? {
        qrCodeUrl, qrToken, status := Some(outcome.qrCodeUrl), Some(outcome.qrToken), Q.Waiting;
        ConnectWebSocket(outcome.qrToken);
      } else {
        var message: Q.Message;
        if outcome.Aborted? {
          message := Q.Literal(Q.TimeoutText);
        } else if outcome.NotOk? {
          message := Q.Translated("failed_to_generate_qr");
        } else if outcome.message != "" {
          message := Q.Literal(outcome.message);
        } else {
          message := Q.Translated("qr_generation_failed");
        }
        status, errorMessage := Q.Error, Some(message);
      }
    }

    method DisconnectSocket()
      modifies this
      ensures State() == Q.DisconnectSocket(old(State()))
    {
      if socket.Some? {
        log := log + [Q.Disconnected(socket.value.id)];
        socket := Some(socket.value.(open := false));
      }
    }

    method ConnectWebSocket(token: string)
      modifies this
      ensures State() == Q.ConnectWebSocket(old(State()), token)
    {
      DisconnectSocket();
      socket := Some(Q.Socket(socketsCreated, token, true));
      log := log + [Q.Opened(socketsCreated)];
      socketsCreated := socketsCreated + 1;
    }

    method OnConnect()
      requires Q.Live(State())
      modifies this
      ensures State() == Q.OnConnect(old(State()))
    {
      log := log + [Q.Joined(socket.value.id, socket.value.joinToken)];
    }

    method OnStatusUpdate(pushed: Q.PushedStatus)
      requires Q.Live(State())
      modifies this
      ensures State() == Q.OnStatusUpdate(old(State()), pushed)
    {
      match pushed {
        case PushedScanned => status := Q.Scanned;
        case PushedExpired => status := Q.Expired;
        case PushedCancelled => status := Q.Expired;
        case PushedOther(_) =>
      }
    }

    method OnAuthSuccess(jwt: Option<string>)
      requires Q.Live(State())
      modifies this
      ensures State() == Q.OnAuthSuccess(old(State()), jwt)
    {
      if jwt.Some? && jwt.value != "" {
        HandleAuthentication(jwt.value);
      } else {
        status, errorMessage := Q.Error, Some(Q.Literal(Q.NoSessionText));
      }
    }

    method HandleAuthentication(jwt: string)
      modifies this
      ensures State() == Q.HandleAuthentication(old(State()), jwt)
    {
      status := Q.Authenticated;
      DisconnectSocket();
      log := log + [Q.LoggedIn(jwt, false, false), Q.RedirectScheduled];
    }

    method OnCodeRefreshed(newQrCodeUrl: string, newQrToken: string)
      requires Q.Live(State())
      modifies this
      ensures State() == Q.OnCodeRefreshed(old(State()), newQrCodeUrl, newQrToken)
    {
      qrCodeUrl, qrToken, status := Some(newQrCodeUrl), Some(newQrToken), Q.Waiting;
      log := log + [Q.Joined(socket.value.id, newQrToken)];
    }

    method OnConnectError()
      requires Q.Live(State())
      modifies this
      ensures State() == Q.OnConnectError(old(State()))
    {
      status, errorMessage := Q.Error, Some(Q.Translated("websocket_connection_failed"));
    }

    method OnError(message: string)
      requires Q.Live(State())
      modifies this
      ensures State() == Q.OnSocketError(old(State()), message)
    {
      status := Q.Error;
      errorMessage := Some(if message != "" then Q.Literal(message) else Q.Translated("websocket_error"));
    }

    /** `render`: the spinner, the image and the status panel for the current state. */
    function View(): (v: Q.QRView)
      reads this
      ensures v == Q.View(State())
    {
      Q.Render(status, qrCodeUrl, errorMessage)
    }
  }
}
