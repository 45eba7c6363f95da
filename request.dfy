/**
 * The one-shot request helper: joining the base address and the path,
 * assembling the request headers, and turning the transport's completion
 * (a status code with a body, or a failure) into a resolved payload or a
 * rejection message. `JSON.parse` and `JSON.stringify` are oracle arguments.
 */
module HttpRequest {
  import opened Wrappers
  import opened Strings
  import SocketSession

  /** `s.replace(/\/+$/, "")`: the longest prefix of `s` that does not end in `/`. */
  function StripTrailingSlashes(s: string): (r: string)
    ensures |r| <= |s| && s[..|r|] == r
    ensures forall i :: |r| <= i < |s| ==> s[i] == '/'
    ensures r == "" || r[|r| - 1] != '/'
  {
    if s != "" && s[|s| - 1] == '/' then
      var r := StripTrailingSlashes(s[..|s| - 1]);
      assert s[..|s| - 1][..|r|] == s[..|r|];
      r
    else s
  }

  /** The path with a leading `/` added when it has none. */
  function Rooted(path: string): string
  {
    if StartsWith(path, "/") then path else "/" + path
  }

  /** The rooted path starts with `/`, ends with the path, and adds a slash only when the path lacks one. */
  lemma RootedSpec(path: string)
    ensures var p := Rooted(path);
      && StartsWith(p, "/") && p[|p| - |path|..] == path
      && (|p| == |path| <==> StartsWith(path, "/"))
      && Rooted(p) == p
  {
  }

  /** `joinURL(base, path)`. */
  function JoinURL(base: string, path: string): (r: string)
    ensures var b := StripTrailingSlashes(base);
      && |b| < |r| && r[..|b|] == b && r[|b|] == '/'
      && (StartsWith(path, "/") ==> r[|b|..] == path)
      && (!StartsWith(path, "/") ==> r[|b| + 1..] == path)
  {
    var b, p := StripTrailingSlashes(base), Rooted(path);
    assert (b + p)[..|b|] == b && (b + p)[|b|..] == p && (b + p)[|b| + 1..] == p[1..];
    b + p
  }

  /** Trailing slashes on the base make no difference to the joined address. */
  lemma JoinIgnoresTrailingSlash(base: string, path: string)
    ensures JoinURL(base + "/", path) == JoinURL(base, path)
  {
    assert (base + "/")[..|base|] == base;
  }

  /** A path given with or without its leading slash joins to the same address. */
  lemma JoinIgnoresLeadingSlash(base: string, path: string)
    requires !StartsWith(path, "/")
    ensures JoinURL(base, "/" + path) == JoinURL(base, path)
  {
    assert ("/" + path)[..1] == "/";
  }

  /** The base once stripped is stripped: the join never doubles the separator. */
  lemma StripIdempotent(s: string)
    ensures StripTrailingSlashes(StripTrailingSlashes(s)) == StripTrailingSlashes(s)
  {
  }

  /** The headers given to `wx.request`: JSON content and accept, the bearer token when there is one, then the caller's extra headers, which win on a clash. */
  function RequestHeaders(token: string, extra: Option<map<string, string>>): (r: map<string, string>)
    ensures var e := if extra.Some? then extra.value else map[];
      && r.Keys == {"Content-Type", "Accept"} + (if token != "" then {"Authorization"} else {}) + e.Keys
      && (forall k :: k in e ==> r[k] == e[k])
      && ("Content-Type" !in e ==> r["Content-Type"] == "application/json")
      && ("Accept" !in e ==> r["Accept"] == "application/json")
      && (token != "" && "Authorization" !in e ==> r["Authorization"] == "Bearer " + token)
  {
    var base := map["Content-Type" := "application/json", "Accept" := "application/json"];
    var auth: map<string, string> := if token != "" then map["Authorization" := "Bearer " + token] else map[];
    base + auth + (if extra.Some? then extra.value else map[])
  }

  /** Without extra headers the request carries the socket's headers plus a JSON `Accept`. */
  lemma RequestHeadersMatchSocket(token: string)
    ensures RequestHeaders(token, None) == SocketSession.Headers(token)["Accept" := "application/json"]
  {
  }

  /** A response body: text the client left unparsed, or a value it already decoded. */
  datatype Body<J> = Text(text: string) | Value(value: J)

  /** How the transport completes: a response with its status code and body, or a failure with an optional `errMsg`. */
  datatype Completion<J> = Response(statusCode: int, data: Body<J>) | Failure(errMsg: Option<string>)

  /** The text after `HTTP <code>: ` in a rejection: the body itself when it is text, its JSON rendering otherwise. */
  function BodyText<J>(data: Body<J>, stringify: J -> string): (r: string)
    ensures data.Text? ==> r == data.text
    ensures data.Value? ==> r == stringify(data.value)
  {
    if data.Text? then data.text else stringify(data.value)
  }

  /** The payload a success resolves with: a text body is decoded when it parses and kept as text otherwise. */
  function Payload<J>(data: Body<J>, parse: string -> Option<J>): (r: Body<J>)
    ensures data.Value? ==> r == data
    ensures data.Text? && parse(data.text).Some? ==> r == Value(parse(data.text).value)
    ensures data.Text? && parse(data.text).None? ==> r == data
  {
    if data.Text? then
      match parse(data.text)
      case Some(v) => Value(v)
      case None => data
    else data
  }

  /** The rejection message of a transport failure: `Network error: `, then the `errMsg` when it is present and non-empty, `unknown` otherwise. */
  function NetworkError(errMsg: Option<string>): (r: string)
    ensures |r| > |"Network error: "| && r[..15] == "Network error: "
    ensures errMsg.Some? && errMsg.value != "" ==> r[15..] == errMsg.value
    ensures errMsg.None? || errMsg.value == "" ==> r[15..] == "unknown"
  {
    "Network error: " + (if errMsg.Some? && errMsg.value != "" then errMsg.value else "unknown")
  }

  /** The promise `request` returns, settled: resolved with the payload on a 2xx status, rejected otherwise. */
  function Settle<J>(c: Completion<J>, parse: string -> Option<J>, stringify: J -> string): (r: Result<Body<J>>)
    ensures r.Ok? <==> c.Response? && 200 <= c.statusCode < 300
    ensures r.Ok? ==> r.value == Payload(c.data, parse)
    ensures c.Response? && r.Err? ==> r.message == "HTTP " + IntToString(c.statusCode) + ": " + BodyText(c.data, stringify)
    ensures c.Failure? ==> r.message == NetworkError(c.errMsg)
  {
    match c
    case Response(code, data) =>
      if 200 <= code && code < 300 then Ok(Payload(data, parse))
      else Err("HTTP " + IntToString(code) + ": " + BodyText(data, stringify))
    case Failure(errMsg) => Err(NetworkError(errMsg))
  }

  /** The status code of a rejected response can be read back from the digits after `HTTP `. */
  lemma StatusReadBack<J>(code: nat, data: Body<J>, parse: string -> Option<J>, stringify: J -> string)
    requires !(200 <= code < 300)
    ensures var m := Settle(Response(code, data), parse, stringify).message;
      var n := |NatToString(code)|;
      && 5 + n + 2 <= |m|
      && m[..5] == "HTTP "
      && ParseDecimal(m[5..5 + n]) == code
      && m[5 + n..5 + n + 2] == ": "
  {
    Fields("HTTP ", NatToString(code), ": ", BodyText(data, stringify));
    NatToStringRoundTrip(code);
  }

  /** The first three parts of a four-part text can be cut back out of it. */
  lemma Fields(a: string, b: string, c: string, d: string)
    ensures var m := a + b + c + d;
      && m[..|a|] == a && m[|a|..|a| + |b|] == b && m[|a| + |b|..|a| + |b| + |c|] == c
  {
    var m := a + b + c + d;
    assert m[..|a|] == a;
    assert m[|a|..|a| + |b|] == b;
    assert m[|a| + |b|..|a| + |b| + |c|] == c;
  }

  /** A failure without a usable `errMsg` is reported as unknown. */
  lemma UnknownNetworkError(errMsg: Option<string>)
    requires errMsg.None? || errMsg.value == ""
    ensures NetworkError(errMsg) == "Network error: unknown"
  {
  }
}
