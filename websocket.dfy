/**
 * The streaming-socket controller `ChatWebSocket`. The transport is a
 * sequence of abstract events (the socket opens, a frame arrives, the
 * transport fails) delivered to the handler methods of the class; what a
 * handler does outside the object (invoke a callback, close the socket task,
 * schedule a reconnect) is returned as a value. `JSON.parse` is an oracle
 * argument that either yields a value or fails.
 */
module SocketSession {
  import opened Wrappers
  import opened Strings

  /** What an inbound frame makes the controller do. */
  datatype FrameAction<J> =
    | Done                  // `onDone()`, then `close()`
    | Failed(message: string) // `onError(new Error(message))`, then `close()`
    | Deliver(data: J)        // `onMessage(JSON.parse(msg))`
    | ParseError              // logged only

  const DoneFrame: string := "[DONE]"
  const ErrorPrefix: string := "[ERROR]"

  /** The frame dispatch of the `onMessage` handler. */
  function ClassifyFrame<J>(msg: string, parse: string -> Option<J>): (r: FrameAction<J>)
    ensures r.Done? <==> msg == DoneFrame
    ensures r.Failed? <==> msg != DoneFrame && StartsWith(msg, ErrorPrefix)
    ensures r.Failed? ==> ErrorPrefix + r.message == msg
    ensures r.Deliver? ==> parse(msg) == Some(r.data)
    ensures r.ParseError? <==> msg != DoneFrame && !StartsWith(msg, ErrorPrefix) && parse(msg).None?
  {
    if msg == DoneFrame then Done
    else if StartsWith(msg, ErrorPrefix) then Failed(msg[7..])
    else match parse(msg)
      case Some(data) => Deliver(data)
      case None => ParseError
  }

  /** A server error frame carries its message back out unchanged, whatever it contains. */
  lemma ErrorFrameRoundTrip<J>(message: string, parse: string -> Option<J>)
    ensures ClassifyFrame(ErrorPrefix + message, parse) == Failed(message)
  {
    assert (ErrorPrefix + message)[..7] == ErrorPrefix;
    assert (ErrorPrefix + message)[7..] == message;
  }

  /** `getToken()`: the stored token, or `""` when it is missing or the read throws. */
  function Token(stored: Option<string>): (t: string)
    ensures t != "" <==> stored.Some? && stored.value != ""
    ensures t != "" ==> stored == Some(t)
  {
    if stored.Some? then stored.value else ""
  }

  /** `getHeaders()`: JSON content always, a bearer authorization exactly when there is a token. */
  function Headers(token: string): (r: map<string, string>)
    ensures "Content-Type" in r && r["Content-Type"] == "application/json"
    ensures "Authorization" in r <==> token != ""
    ensures "Authorization" in r ==> r["Authorization"] == "Bearer " + token
    ensures r.Keys <= {"Content-Type", "Authorization"}
  {
    var headers := map["Content-Type" := "application/json"];
    if token != "" then headers["Authorization" := "Bearer " + token] else headers
  }

  /** The stored token reaches the headers: a bearer authorization exactly when a non-empty token is stored, carrying that token. */
  lemma StoredTokenHeaders(stored: Option<string>)
    ensures "Authorization" in Headers(Token(stored)) <==> stored.Some? && stored.value != ""
    ensures "Authorization" in Headers(Token(stored)) ==> Headers(Token(stored))["Authorization"] == "Bearer " + stored.value
  {
  }

  /** The token can be read back from the authorization header after its seven-character scheme. */
  lemma BearerRoundTrip(token: string)
    requires token != ""
    ensures Headers(token)["Authorization"][7..] == token
  {
    assert ("Bearer " + token)[7..] == token;
  }

  /** What a transport error leads to: a reconnect after a delay in milliseconds, or `onError`. */
  datatype ErrorReaction = Reconnect(delay: nat) | Surface

  const MaxReconnectAttempts: nat := 3

  /** The reaction once the counter has been incremented to `attempts`. */
  function Reaction(attempts: nat): (r: ErrorReaction)
    ensures r.Reconnect? <==> attempts <= MaxReconnectAttempts
    ensures r.Reconnect? ==> r.delay == 1000 * attempts
  {
    if attempts <= MaxReconnectAttempts then Reconnect(1000 * attempts) else Surface
  }

  /** The reactions to `k` transport errors in a row, the counter starting at `start`. */
  function Reactions(start: nat, k: nat): (r: seq<ErrorReaction>)
    ensures |r| == k
    decreases k
  {
    if k == 0 then [] else [Reaction(start + 1)] + Reactions(start + 1, k - 1)
  }

  /** The `i`-th of a row of errors sees the counter at `start + i + 1`. */
  lemma {:induction false} ReactionsAt(start: nat, k: nat, i: nat)
    requires i < k
    ensures Reactions(start, k)[i] == Reaction(start + i + 1)
    decreases k
  {
    if i > 0 {
      ReactionsAt(start + 1, k - 1, i - 1);
    }
  }

  /** From a fresh counter, errors bring reconnects after 1000, 2000 and 3000 ms, and `onError` from the fourth on. */
  lemma FreshErrors(k: nat, i: nat)
    requires i < k
    ensures i < 3 ==> Reactions(0, k)[i] == Reconnect(1000 * (i + 1))
    ensures i >= 3 ==> Reactions(0, k)[i] == Surface
  {
    ReactionsAt(0, k, i);
  }

  function CountReconnects(rs: seq<ErrorReaction>): nat
  {
    if rs == [] then 0 else (if rs[0].Reconnect? then 1 else 0) + CountReconnects(rs[1..])
  }

  /** However many errors follow each other, the counter at `start` allows only the reconnects left of the three. */
  lemma {:induction false} ReconnectBound(start: nat, k: nat)
    ensures CountReconnects(Reactions(start, k)) == if start >= 3 then 0 else if k < 3 - start then k else 3 - start
    decreases k
  {
    if k > 0 {
      ReconnectBound(start + 1, k - 1);
      assert Reactions(start, k)[1..] == Reactions(start + 1, k - 1);
    }
  }

  /** What `connect` hands to `wx.connectSocket`. */
  datatype ConnectRequest = ConnectRequest(url: string, headers: map<string, string>)

  /**
   * One `ChatWebSocket`. `socket` is the current socket task, named by a
   * handle; `payload` is the data of the latest `connect`, which the `onOpen`
   * handler sends and a reconnect reuses.
   */
  class ChatWebSocket<D> {
    const url: string
    const maxReconnectAttempts: nat := MaxReconnectAttempts
    var socket: Option<nat>
    var reconnectAttempts: nat
    var payload: Option<D>

    constructor(url: string)
      ensures this.url == url && maxReconnectAttempts == MaxReconnectAttempts
      ensures socket == None && reconnectAttempts == 0 && payload == None
    {
      this.url := url;
      socket := None;
      reconnectAttempts := 0;
      payload := None;
    }

    /** `connect(data)`: opens the socket task `task` with the current headers; the counter is kept. */
    method Connect(data: D, task: nat, storedToken: Option<string>) returns (request: ConnectRequest)
      modifies this
      ensures request == ConnectRequest(url, Headers(Token(storedToken)))
      ensures socket == Some(task) && payload == Some(data)
      ensures reconnectAttempts == old(reconnectAttempts)
    {
      socket := Some(task);
      payload := Some(data);
      request := ConnectRequest(url, Headers(Token(storedToken)));
    }

    /**
     * The `onOpen` handler: sends the payload over the current socket (the
     * `socket!` dereference fails once the socket is closed). Nothing else
     * changes; in particular the retry counter is not reset.
     */
    method OnOpen() returns (sent: Option<D>)
      ensures sent == (if socket.Some? then payload else None)
    {
      sent := if socket.Some? then payload else None;
    }

    /** `close()`: closes and forgets the current socket task, if any, and resets the counter. */
    method Close() returns (closed: Option<nat>)
      modifies this
      ensures closed == old(socket)
      ensures socket == None && reconnectAttempts == 0 && payload == old(payload)
    {
      closed := socket;
      if socket.Some? {
        socket := None;
      }
      reconnectAttempts := 0;
    }

    /**
     * The `onMessage` handler. The end and error frames close the session;
     * any other frame leaves the state alone, whether it parses or not.
     */
    method OnMessage<J>(msg: string, parse: string -> Option<J>) returns (action: FrameAction<J>, closed: Option<nat>)
      modifies this
      ensures action == ClassifyFrame(msg, parse)
      ensures action.Done? || action.Failed? ==> socket == None && reconnectAttempts == 0 && closed == old(socket)
      ensures action.Deliver? || action.ParseError? ==>
        socket == old(socket) && reconnectAttempts == old(reconnectAttempts) && closed == None
      ensures payload == old(payload)
    {
      if msg == DoneFrame {
        action := Done;
        closed := Close();
        return;
      }
      if StartsWith(msg, ErrorPrefix) {
        action := Failed(msg[7..]);
        closed := Close();
        return;
      }
      closed := None;
      match parse(msg)
      case Some(data) =>
        action := Deliver(data);
      case None =>
        action := ParseError;
    }

    /** The `onError` handler: counts the failure, then reconnects after a growing delay or gives up. */
    method OnError() returns (reaction: ErrorReaction)
      modifies this
      ensures reconnectAttempts == old(reconnectAttempts) + 1
      ensures reaction == Reaction(reconnectAttempts)
      ensures socket == old(socket) && payload == old(payload)
    {
      reconnectAttempts := reconnectAttempts + 1;
      if reconnectAttempts <= maxReconnectAttempts {
        reaction := Reconnect(1000 * reconnectAttempts);
      } else {
        reaction := Surface;
      }
    }
  }
}
