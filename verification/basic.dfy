/** The loggers package's `basic` Logger: it posts the JSON encoding of what
    it is given to an HTTP endpoint built from a base url and a sender name.
    The HTTP client is not modelled; the POST is a function from endpoint and
    body to its outcome. */
module Loggers {
  import opened Values
  import Jog

  /** The `basic` struct without its `*http.Client`. */
  datatype Basic = Basic(url: string, name: string)

  /** `strings.HasSuffix(url, "/")`. */
  predicate EndsWithSlash(s: string) {
    |s| > 0 && s[|s| - 1] == '/'
  }

  /** `New(client, name, url)`: the endpoint is the url and the name joined by
      exactly one slash, unless the url already ends in one. */
  function New(name: string, url: string): (b: Basic)
    ensures b.name == name
    ensures EndsWithSlash(url) ==> b.url == url + name
    ensures !EndsWithSlash(url) ==> b.url == url + "/" + name
    ensures |b.url| >= |url| + |name|
    ensures b.url[..|url|] == url
    ensures b.url[|b.url| - |name|..] == name
  {
    if EndsWithSlash(url) then Basic(url + name, name)
    else Basic(url + "/" + name, name)
  }

  /** In both branches the character just before the name is a slash. */
  lemma NewSlashBeforeName(name: string, url: string)
    ensures var e := New(name, url).url;
      |e| > |name| && e[|e| - |name| - 1] == '/'
  {
  }

  /** A url given without its trailing slash yields the same endpoint. */
  lemma NewTrailingSlashIrrelevant(name: string, url: string)
    requires !EndsWithSlash(url)
    ensures New(name, url + "/") == New(name, url)
  {
  }

  /** What `client.Post` gives back: a transport error or a response status. */
  datatype PostOutcome = TransportError(err: GoError) | Response(status: int)

  /** The 2xx range `basic.Log` accepts. */
  predicate Success(status: int) {
    200 <= status <= 299
  }

  /** `basic.Log`: given the outcome of `json.Marshal` on the value and the
      POST, the count is the encoding's length only when the endpoint answered
      2xx; a marshal error, a transport error or any other status gives 0
      and an error. */
  function Log(b: Basic, encoded: Result<seq<byte>>, post: (string, seq<byte>) -> PostOutcome): (r: Reply)
    ensures encoded.Fail? ==> r == Reply(0, Some(encoded.error))
    ensures encoded.Ok? && post(b.url, encoded.value).TransportError? ==>
      r == Reply(0, Some(post(b.url, encoded.value).err))
    ensures encoded.Ok? && post(b.url, encoded.value).Response? && !Success(post(b.url, encoded.value).status)
      ==> r == Reply(0, Some(BadStatus(post(b.url, encoded.value).status, b.url, encoded.value)))
    ensures r.err.None? <==>
      encoded.Ok? && post(b.url, encoded.value).Response? && Success(post(b.url, encoded.value).status)
    ensures r.err.None? ==> r.n == |encoded.value|
    ensures r.err.Some? ==> r.n == 0
  {
    match encoded
    case Fail(e) => Reply(0, Some(e))
    case Ok(body) =>
      match post(b.url, body)
      case TransportError(e) => Reply(0, Some(e))
      case Response(status) =>
        if status < 200 || status > 299 then Reply(0, Some(BadStatus(status, b.url, body)))
        else Reply(|body|, None)
  }

  /** A `basic` logger as the Logger a Jog dispatches to, with the message
      encoder and the POST as collaborators. */
  function AsLogger(b: Basic, marshal: Jog.Message -> Result<seq<byte>>,
                    post: (string, seq<byte>) -> PostOutcome): Jog.Logger
  {
    m => Log(b, marshal(m), post)
  }

  /** A line written through a Jog backed by `basic` comes back as the
      encoded Message's length exactly when the endpoint accepted it, and as
      `(0, err)` otherwise. */
  lemma WriteThroughBasic(b: Basic, marshal: Jog.Message -> Result<seq<byte>>,
                          post: (string, seq<byte>) -> PostOutcome, p: seq<byte>, env: Jog.Env)
    ensures var m := Jog.WriteMessage(p, env);
      var r := Jog.Write(AsLogger(b, marshal, post), p, env);
      && (r.err.None? <==> marshal(m).Ok? && post(b.url, marshal(m).value).Response?
                           && Success(post(b.url, marshal(m).value).status))
      && (r.err.None? ==> r.n == |marshal(m).value|)
      && (r.err.Some? ==> r.n == 0)
  {
  }
}
