/**
 * The module-level state of the service (`sock`, `isConnected`) and what changes it:
 * starting a connection, the `connection.update` handler, and the `/api/send` guard.
 */
module Connection {
  import opened Wrappers
  import opened KeyStore
  import opened CredsLoad
  import SendApi

  /** The `output` of the Boom error attached to a disconnect. */
  datatype BoomOutput = BoomOutput(statusCode: Option<int>)

  /** The error carried by a disconnect. */
  datatype DisconnectError = DisconnectError(output: Option<BoomOutput>)

  /** `update.lastDisconnect`. */
  datatype LastDisconnect = LastDisconnect(error: Option<DisconnectError>)

  /** A `connection.update` event; `connection` is `"open"`, `"close"`, `"connecting"` or absent. */
  datatype ConnectionUpdate = ConnectionUpdate(
    connection: Option<string>,
    lastDisconnect: Option<LastDisconnect>,
    qr: Option<string>)

  /** A socket made by the socket factory, identified by a handle. */
  type SocketId = nat

  const Open: string := "open"
  const Close: string := "close"

  /** `lastDisconnect?.error?.output?.statusCode`. */
  function DisconnectStatus(last: Option<LastDisconnect>): Option<int> {
    if last.Some? && last.value.error.Some? && last.value.error.value.output.Some?
    then last.value.error.value.output.value.statusCode
    else None
  }

  /**
   * `shouldReconnect`: the status code, possibly `undefined`, is not `loggedOut`. It is false
   * exactly when every link of the chain is present and the code equals `loggedOut`.
   */
  predicate ShouldReconnect(last: Option<LastDisconnect>, loggedOut: int)
    ensures !ShouldReconnect(last, loggedOut) <==>
              last.Some? && last.value.error.Some? && last.value.error.value.output.Some? &&
              last.value.error.value.output.value.statusCode == Some(loggedOut)
  {
    DisconnectStatus(last) != Some(loggedOut)
  }

  /** The connection flag after the handler has seen an update with field `connection`. */
  function NextConnected(before: bool, connection: Option<string>): bool {
    if connection == Some(Open) then true
    else if connection == Some(Close) then false
    else before
  }

  /** The connection flag after the handler has seen each of `updates` in turn. */
  function Replay(before: bool, updates: seq<ConnectionUpdate>): bool
    decreases |updates|
  {
    if updates == [] then before
    else Replay(NextConnected(before, updates[0].connection), updates[1..])
  }

  /** Whether an update opens or closes the connection; every other update leaves the flag. */
  predicate Decisive(u: ConnectionUpdate) {
    u.connection == Some(Open) || u.connection == Some(Close)
  }

  /**
   * A missing `lastDisconnect`, error, output or status code always reconnects, and so does
   * every status code other than `loggedOut`.
   */
  lemma ReconnectUnlessLoggedOut(last: Option<LastDisconnect>, loggedOut: int)
    ensures last.None? || last.value.error.None? ==> ShouldReconnect(last, loggedOut)
    ensures last.Some? && last.value.error.Some? && last.value.error.value.output.None? ==>
              ShouldReconnect(last, loggedOut)
    ensures last.Some? && last.value.error.Some? && last.value.error.value.output.Some? &&
            last.value.error.value.output.value.statusCode != Some(loggedOut) ==>
              ShouldReconnect(last, loggedOut)
  {
  }

  /** Updates that neither open nor close leave the flag as it was. */
  lemma {:induction false} ReplayWithoutEvents(before: bool, updates: seq<ConnectionUpdate>)
    requires forall j :: 0 <= j < |updates| ==> !Decisive(updates[j])
    ensures Replay(before, updates) == before
  {
    if updates != [] {
      ReplayWithoutEvents(before, updates[1..]);
    }
  }

  /** After a run of updates the flag is set exactly when the last open-or-close event was an open. */
  lemma {:induction false} ReplayFollowsLastEvent(before: bool, updates: seq<ConnectionUpdate>, k: nat)
    requires k < |updates| && Decisive(updates[k])
    requires forall j :: k < j < |updates| ==> !Decisive(updates[j])
    ensures Replay(before, updates) == (updates[k].connection == Some(Open))
    decreases k
  {
    var next := NextConnected(before, updates[0].connection);
    if k == 0 {
      ReplayWithoutEvents(next, updates[1..]);
    } else {
      ReplayFollowsLastEvent(next, updates[1..], k - 1);
    }
  }

  /** The module-level state of the service. */
  class Service {
    /** `DisconnectReason.loggedOut`. */
    const loggedOut: int
    var isConnected: bool
    var sock: Option<SocketId>

    /** The state before the server starts: no socket, not connected. */
    constructor (loggedOut: int)
      ensures this.loggedOut == loggedOut
      ensures !isConnected && sock.None?
    {
      this.loggedOut := loggedOut;
      isConnected := false;
      sock := None;
    }

    /**
     * `startWhatsAppConnection()`: loads the credentials from the outcome of reading the
     * session row, fetches the protocol version and makes the socket `socket`.
     * `baileysCallsSucceed` is false when `fetchLatestBaileysVersion` or `makeWASocket` throws.
     * That error, like a payload that does not parse, is caught and `sock` stays as it was.
     * The flag is left alone: only the handler changes it.
     */
    method Start(read: ReadOutcome, defaults: Creds, baileysCallsSucceed: bool, socket: SocketId)
      returns (auth: Option<AuthState>)
      modifies this`sock
      ensures auth.Some? <==> LoadCreds(read, defaults).Success? && baileysCallsSucceed
      ensures auth.Some? ==> fresh(auth.value) && auth.value.creds == LoadCreds(read, defaults).value
      ensures sock == if auth.Some? then Some(socket) else old(sock)
    {
      var loaded := LoadCreds(read, defaults);
      if loaded.Failure? || !baileysCallsSucceed {
        return None;
      }
      var state := new AuthState(loaded.value);
      sock := Some(socket);
      auth := Some(state);
    }

    /**
     * The `connection.update` handler: an open sets the flag; a close clears it and asks for a
     * restart unless the status code is `loggedOut`; any other update changes nothing.
     */
    method OnConnectionUpdate(update: ConnectionUpdate) returns (restart: bool)
      modifies this`isConnected
      ensures isConnected == NextConnected(old(isConnected), update.connection)
      ensures restart <==> update.connection == Some(Close) && ShouldReconnect(update.lastDisconnect, loggedOut)
    {
      restart := false;
      if update.connection == Some(Open) {
        isConnected := true;
      }
      if update.connection == Some(Close) {
        isConnected := false;
        restart := ShouldReconnect(update.lastDisconnect, loggedOut);
      }
    }

    /** The `/api/send` handler's answer for body field `number`, from the current state. */
    method Send(number: Option<string>) returns (response: SendApi.SendResponse)
      ensures response == SendApi.SendDecision(isConnected, sock.Some?, number)
    {
      response := SendApi.SendDecision(isConnected, sock.Some?, number);
    }
  }

  /**
   * The lifecycle of a session that pairs, drops for a transient reason and is then logged
   * out: the first close asks for a restart, the logout does not, and the service refuses to
   * send after either.
   */
  method LifecycleScenario(loggedOut: int, transient: int, socket: SocketId, defaults: Creds, number: string)
    requires transient != loggedOut
  {
    var service := new Service(loggedOut);
    var auth := service.Start(NoRow, defaults, true, socket);
    assert auth.Some? && auth.value.creds == defaults;
    var r0 := service.OnConnectionUpdate(ConnectionUpdate(None, None, Some(number)));
    assert !r0 && !service.isConnected;
    var r1 := service.OnConnectionUpdate(ConnectionUpdate(Some(Open), None, None));
    assert !r1 && service.isConnected;
    var sent := service.Send(Some(number));
    assert sent.Accepted?;
    var closed := LastDisconnect(Some(DisconnectError(Some(BoomOutput(Some(transient))))));
    var r2 := service.OnConnectionUpdate(ConnectionUpdate(Some(Close), Some(closed), None));
    assert r2 && !service.isConnected;
    var refused := service.Send(Some(number));
    assert refused == SendApi.Unavailable;
    var loggedOutClose := LastDisconnect(Some(DisconnectError(Some(BoomOutput(Some(loggedOut))))));
    var r3 := service.OnConnectionUpdate(ConnectionUpdate(Some(Close), Some(loggedOutClose), None));
    assert !r3 && !service.isConnected;
    var refusedAgain := service.Send(Some(number));
    assert refusedAgain == SendApi.Unavailable;
  }
}
