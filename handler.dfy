/** The request handler (main.go, lines 29-184): decode the body, parse the
    Content-Type, walk the multipart parts and post one chat message per
    "new library item" payload, then answer the API gateway.

    The library calls (base64 decoding, media-type parsing, the multipart
    reader, JSON decoding) are given as functions of their inputs, and the
    chat service's replies as one reply per posted message, by position. */
module Handler {
  import opened Wrappers
  import opened Data
  import Mapper
  import Notifier

  newtype byte = x: int | 0 <= x < 256

  type Bytes = seq<byte>

  /** The parts of the API gateway request the handler reads. */
  datatype Request = Request(body: string, headers: map<string, string>)

  /** A parsed Content-Type: the media type and its parameters. */
  datatype MediaType = MediaType(mediaType: string, params: map<string, string>)

  /** One part of a multipart body: its form name and its content. */
  datatype Part = Part(formName: string, body: Bytes)

  /** The results of the library calls, as functions of their arguments.
      `readParts(body, boundary)` is the sequence of parts the multipart
      reader yields before it reports the end of the input. */
  datatype Libraries = Libraries(
    decodeBase64: string -> Result<Bytes>,
    parseMediaType: string -> Result<MediaType>,
    readParts: (Bytes, string) -> seq<Part>,
    unmarshal: Bytes -> Result<PlexMessage>)

  datatype Response = Response(statusCode: int, headers: map<string, string>, body: string)

  /** What the invocation ends with: a response, or a panic that returns
      none. */
  datatype Outcome = Responded(response: Response) | Panicked(reason: string)

  /** One call of `SendSlackNotification`: the URL and the message. */
  datatype Call = Call(url: string, message: SlackRequestBody)

  /** The outcome of one invocation and the messages it posted, in order. */
  datatype Invocation = Invocation(outcome: Outcome, calls: seq<Call>)

  const STATUS_OK := 200
  const STATUS_BAD_REQUEST := 400
  const STATUS_UNSUPPORTED_MEDIA_TYPE := 415

  const RESPONSE_HEADERS: map<string, string> :=
    map["Content-Type" := "application/json", "Access-Control-Allow-Origin" := "*"]

  /** Go's map index: the value, or the empty string for a missing key. */
  function Lookup(m: map<string, string>, key: string): string {
    if key in m then m[key] else ""
  }

  /** `strings.HasPrefix`. */
  function HasPrefix(s: string, prefix: string): (b: bool)
    ensures b <==> exists rest :: s == prefix + rest
  {
    if prefix <= s then
      assert s == prefix + s[|prefix|..];
      true
    else
      false
  }

  /** Both error responses carry the same text before the error (for a
      decoding error too). */
  function ErrorResponse(status: int, error: string): Response {
    Response(status, RESPONSE_HEADERS, "Error getting content type: " + error)
  }

  const SUCCESS := Response(STATUS_OK, RESPONSE_HEADERS, "Success")

  /** A payload part whose content is not valid JSON for a payload. */
  predicate Malformed(unmarshal: Bytes -> Result<PlexMessage>, p: Part) {
    p.formName == "payload" && unmarshal(p.body).Err?
  }

  /** What one part does: nothing, post a message, or abort with the JSON
      error. */
  datatype PartStep = Skip | Send(message: SlackRequestBody) | Abort(reason: string)

  function Step(unmarshal: Bytes -> Result<PlexMessage>, p: Part): (r: PartStep)
    ensures r.Abort? <==> Malformed(unmarshal, p)
    ensures r.Send? <==> p.formName == "payload" && unmarshal(p.body).Ok?
                         && unmarshal(p.body).value.event == Mapper.LIBRARY_NEW
    ensures r.Send? ==> Mapper.Notification(unmarshal(p.body).value) == Some(r.message)
  {
    if p.formName == "thumb" then Skip
    else if p.formName == "payload" then
      match unmarshal(p.body)
      case Err(e) => Abort(e)
      case Ok(msg) =>
        match Mapper.Notification(msg)
        case None => Skip
        case Some(b) => Send(b)
    else Skip
  }

  /** The messages posted while walking a sequence of parts, and the JSON
      error that stopped the walk, if any. */
  datatype PartsRun = PartsRun(calls: seq<Call>, panic: Option<string>)

  function RunParts(url: string, unmarshal: Bytes -> Result<PlexMessage>, parts: seq<Part>): (r: PartsRun)
    ensures |r.calls| <= |parts|
    ensures forall c :: c in r.calls ==> c.url == url
  {
    if parts == [] then PartsRun([], None)
    else
      match Step(unmarshal, parts[0])
      case Skip => RunParts(url, unmarshal, parts[1..])
      case Send(b) =>
        var rest := RunParts(url, unmarshal, parts[1..]);
        PartsRun([Call(url, b)] + rest.calls, rest.panic)
      case Abort(e) => PartsRun([], Some(e))
  }

  /** The result of two walks one after the other: a panic in the first ends it. */
  function Then(x: PartsRun, y: PartsRun): PartsRun {
    if x.panic.Some? then x else PartsRun(x.calls + y.calls, y.panic)
  }

  lemma {:induction false} RunPartsAppend(url: string, unmarshal: Bytes -> Result<PlexMessage>, a: seq<Part>, b: seq<Part>)
    ensures RunParts(url, unmarshal, a + b) == Then(RunParts(url, unmarshal, a), RunParts(url, unmarshal, b))
  {
    if a == [] {
      assert a + b == b;
      assert [] + RunParts(url, unmarshal, b).calls == RunParts(url, unmarshal, b).calls;
    } else {
      assert (a + b)[0] == a[0];
      assert (a + b)[1..] == a[1..] + b;
      RunPartsAppend(url, unmarshal, a[1..], b);
      match Step(unmarshal, a[0])
      case Skip =>
      case Send(m) =>
        var x := RunParts(url, unmarshal, a[1..]);
        var y := RunParts(url, unmarshal, b);
        if x.panic.None? {
          assert [Call(url, m)] + (x.calls + y.calls) == ([Call(url, m)] + x.calls) + y.calls;
        }
      case Abort(e) =>
    }
  }

  /** The walk panics exactly when some payload part is malformed. */
  lemma {:induction false} PanicIffMalformed(url: string, unmarshal: Bytes -> Result<PlexMessage>, parts: seq<Part>)
    ensures RunParts(url, unmarshal, parts).panic.Some?
        <==> exists k :: 0 <= k < |parts| && Malformed(unmarshal, parts[k])
  {
    if parts != [] {
      PanicIffMalformed(url, unmarshal, parts[1..]);
      if exists k :: 0 <= k < |parts[1..]| && Malformed(unmarshal, parts[1..][k]) {
        var k :| 0 <= k < |parts[1..]| && Malformed(unmarshal, parts[1..][k]);
        assert parts[k + 1] == parts[1..][k];
      }
      if exists k :: 0 <= k < |parts| && Malformed(unmarshal, parts[k]) {
        var k :| 0 <= k < |parts| && Malformed(unmarshal, parts[k]);
        if k > 0 {
          assert parts[1..][k - 1] == parts[k];
        }
      }
    }
  }

  /** The first malformed payload part ends the walk with its JSON error:
      the messages posted are those of the parts before it, and no later
      part has any effect. */
  lemma FirstMalformedStops(url: string, unmarshal: Bytes -> Result<PlexMessage>, parts: seq<Part>, k: nat)
    requires k < |parts| && Malformed(unmarshal, parts[k])
    requires forall j :: 0 <= j < k ==> !Malformed(unmarshal, parts[j])
    ensures RunParts(url, unmarshal, parts)
         == PartsRun(RunParts(url, unmarshal, parts[..k]).calls, Some(unmarshal(parts[k].body).error))
  {
    assert parts == parts[..k] + ([parts[k]] + parts[k + 1..]);
    RunPartsAppend(url, unmarshal, parts[..k], [parts[k]] + parts[k + 1..]);
    PanicIffMalformed(url, unmarshal, parts[..k]);
    var x := RunParts(url, unmarshal, parts[..k]);
    assert x.calls + [] == x.calls;
  }

  /** A part that is not a payload (a thumbnail or any other form name)
      has no effect, wherever it stands. */
  lemma IgnoredPartInvisible(url: string, unmarshal: Bytes -> Result<PlexMessage>, a: seq<Part>, p: Part, b: seq<Part>)
    requires p.formName != "payload"
    ensures RunParts(url, unmarshal, a + [p] + b) == RunParts(url, unmarshal, a + b)
  {
    RunPartsAppend(url, unmarshal, a + [p], b);
    RunPartsAppend(url, unmarshal, a, [p]);
    RunPartsAppend(url, unmarshal, a, b);
    var x := RunParts(url, unmarshal, a);
    assert x.calls + [] == x.calls;
  }

  /** A payload part that causes a post: it parses and announces a new
      library item. */
  predicate Qualifies(unmarshal: Bytes -> Result<PlexMessage>, p: Part) {
    p.formName == "payload" && unmarshal(p.body).Ok? && unmarshal(p.body).value.event == Mapper.LIBRARY_NEW
  }

  /** The payloads of the qualifying parts, in part order. */
  function Requested(unmarshal: Bytes -> Result<PlexMessage>, parts: seq<Part>): (r: seq<PlexMessage>)
    ensures forall m :: m in r ==> m.event == Mapper.LIBRARY_NEW
  {
    if parts == [] then []
    else
      (if Qualifies(unmarshal, parts[0]) then [unmarshal(parts[0].body).value] else [])
      + Requested(unmarshal, parts[1..])
  }

  /** One post to `url` per payload, in order. */
  function CallsFor(url: string, msgs: seq<PlexMessage>): seq<Call>
    requires forall m :: m in msgs ==> m.event == Mapper.LIBRARY_NEW
  {
    if msgs == [] then [] else [Call(url, Mapper.Notification(msgs[0]).value)] + CallsFor(url, msgs[1..])
  }

  /** Without a malformed payload, the walk posts exactly the messages of
      the qualifying parts, one each, in part order. */
  lemma {:induction false} WhichPartsSend(url: string, unmarshal: Bytes -> Result<PlexMessage>, parts: seq<Part>)
    requires forall k :: 0 <= k < |parts| ==> !Malformed(unmarshal, parts[k])
    ensures RunParts(url, unmarshal, parts) == PartsRun(CallsFor(url, Requested(unmarshal, parts)), None)
  {
    if parts != [] {
      assert forall k :: 0 <= k < |parts[1..]| ==> parts[1..][k] == parts[k + 1];
      WhichPartsSend(url, unmarshal, parts[1..]);
      assert !Malformed(unmarshal, parts[0]);
      var rest := Requested(unmarshal, parts[1..]);
      if Qualifies(unmarshal, parts[0]) {
        var m := unmarshal(parts[0].body).value;
        assert Requested(unmarshal, parts) == [m] + rest;
        assert ([m] + rest)[1..] == rest;
      } else {
        assert Requested(unmarshal, parts) == [] + rest;
        assert [] + rest == rest;
      }
    }
  }

  /** The walk over the parts, posting each message as it is built. The
      reply to the n-th post is `replies(n)`; `SendSlackNotification`'s
      result is computed and dropped, so the replies change nothing. */
  method ProcessParts(url: string, unmarshal: Bytes -> Result<PlexMessage>, parts: seq<Part>,
                      replies: nat -> Notifier.SlackReply)
    returns (calls: seq<Call>, panic: Option<string>)
    ensures PartsRun(calls, panic) == RunParts(url, unmarshal, parts)
  {
    calls, panic := [], None;
    var i := 0;
    while i < |parts|
      invariant 0 <= i <= |parts|
      invariant RunParts(url, unmarshal, parts[..i]) == PartsRun(calls, None)
    {
      var part := parts[i];
      assert parts[..i + 1] == parts[..i] + [part];
      RunPartsAppend(url, unmarshal, parts[..i], [part]);
      if part.formName == "thumb" {
        // The thumbnail is written to a file; that has no effect here.
      } else if part.formName == "payload" {
        var msg := unmarshal(part.body);
        if msg.Err? {
          panic := Some(msg.error);
          assert parts == parts[..i + 1] + parts[i + 1..];
          RunPartsAppend(url, unmarshal, parts[..i + 1], parts[i + 1..]);
          return;
        }
        if msg.value.event == Mapper.LIBRARY_NEW {
          var slackMsg := Mapper.EMPTY_MESSAGE;
          var md := msg.value.metadata;
          if md.itemType == Mapper.MOVIE {
            slackMsg := Mapper.MovieMessage(md.title);
          }
          if md.itemType == Mapper.EPISODE {
            slackMsg := Mapper.EpisodeMessage(md.grandparentTitle, md.parentTitle, md.title);
          }
          var delivery := Notifier.ReplyOutcome(replies(|calls|));
          calls := calls + [Call(url, slackMsg)];
        }
      }
      i := i + 1;
    }
    assert parts[..i] == parts;
  }

  /** The handler's answer for a request, given the webhook URL in force. */
  function Handle(url: string, lib: Libraries, request: Request): (r: Invocation)
    ensures r.outcome.Responded? ==>
      r.outcome.response.headers == map["Content-Type" := "application/json", "Access-Control-Allow-Origin" := "*"]
    ensures (r.outcome.Responded? && r.outcome.response.statusCode == 400) <==> lib.decodeBase64(request.body).Err?
    ensures (r.outcome.Responded? && r.outcome.response.statusCode == 415)
        <==> lib.decodeBase64(request.body).Ok? && lib.parseMediaType(Lookup(request.headers, "Content-Type")).Err?
    ensures r.outcome.Responded? ==> r.outcome.response.statusCode in {200, 400, 415}
    ensures r.outcome.Responded? && r.outcome.response.statusCode == 200 ==> r.outcome.response.body == "Success"
    ensures r.outcome.Responded? && r.outcome.response.statusCode != 200 ==> r.calls == []
    ensures r.outcome.Panicked? ==> WalksParts(lib, request)
    ensures forall c :: c in r.calls ==> c.url == url
  {
    match lib.decodeBase64(request.body)
    case Err(e) => Invocation(Responded(ErrorResponse(STATUS_BAD_REQUEST, e)), [])
    case Ok(decoded) =>
      match lib.parseMediaType(Lookup(request.headers, "Content-Type"))
      case Err(e) => Invocation(Responded(ErrorResponse(STATUS_UNSUPPORTED_MEDIA_TYPE, e)), [])
      case Ok(media) =>
        if !HasPrefix(media.mediaType, "multipart/") then Invocation(Responded(SUCCESS), [])
        else
          var run := RunParts(url, lib.unmarshal, lib.readParts(decoded, Lookup(media.params, "boundary")));
          match run.panic
          case Some(e) => Invocation(Panicked(e), run.calls)
          case None => Invocation(Responded(SUCCESS), run.calls)
  }

  /** Whether the request gets as far as the multipart walk. */
  predicate WalksParts(lib: Libraries, request: Request) {
    && lib.decodeBase64(request.body).Ok?
    && lib.parseMediaType(Lookup(request.headers, "Content-Type")).Ok?
    && HasPrefix(lib.parseMediaType(Lookup(request.headers, "Content-Type")).value.mediaType, "multipart/")
  }

  /** The parts the multipart reader yields for a request that gets that far. */
  function PartsOf(lib: Libraries, request: Request): seq<Part>
    requires WalksParts(lib, request)
  {
    var media := lib.parseMediaType(Lookup(request.headers, "Content-Type")).value;
    lib.readParts(lib.decodeBase64(request.body).value, Lookup(media.params, "boundary"))
  }

  /** A body that does not decode is answered 400 and nothing is posted. */
  lemma DecodeFailure(url: string, lib: Libraries, request: Request)
    requires lib.decodeBase64(request.body).Err?
    ensures Handle(url, lib, request)
         == Invocation(Responded(Response(400, RESPONSE_HEADERS,
              "Error getting content type: " + lib.decodeBase64(request.body).error)), [])
  {
  }

  /** A Content-Type that does not parse is answered 415 and nothing is
      posted. */
  lemma MediaTypeFailure(url: string, lib: Libraries, request: Request)
    requires lib.decodeBase64(request.body).Ok?
    requires lib.parseMediaType(Lookup(request.headers, "Content-Type")).Err?
    ensures Handle(url, lib, request)
         == Invocation(Responded(Response(415, RESPONSE_HEADERS,
              "Error getting content type: " + lib.parseMediaType(Lookup(request.headers, "Content-Type")).error)), [])
  {
  }

  /** A media type that is not multipart is answered 200 and nothing is
      posted. */
  lemma NonMultipartSucceeds(url: string, lib: Libraries, request: Request)
    requires lib.decodeBase64(request.body).Ok?
    requires lib.parseMediaType(Lookup(request.headers, "Content-Type")).Ok?
    requires !HasPrefix(lib.parseMediaType(Lookup(request.headers, "Content-Type")).value.mediaType, "multipart/")
    ensures Handle(url, lib, request) == Invocation(Responded(SUCCESS), [])
  {
  }

  /** A multipart request is answered 200 "Success" exactly when no payload
      part is malformed, and then it posts the messages of the qualifying
      parts in order; otherwise it panics. */
  lemma {:induction false} MultipartOutcome(url: string, lib: Libraries, request: Request)
    requires WalksParts(lib, request)
    ensures var parts := PartsOf(lib, request);
      (Handle(url, lib, request).outcome.Panicked?
       <==> exists k :: 0 <= k < |parts| && Malformed(lib.unmarshal, parts[k]))
    ensures var parts := PartsOf(lib, request);
      (forall k :: 0 <= k < |parts| ==> !Malformed(lib.unmarshal, parts[k])) ==>
        Handle(url, lib, request) == Invocation(Responded(SUCCESS), CallsFor(url, Requested(lib.unmarshal, parts)))
  {
    var parts := PartsOf(lib, request);
    PanicIffMalformed(url, lib.unmarshal, parts);
    if forall k :: 0 <= k < |parts| ==> !Malformed(lib.unmarshal, parts[k]) {
      WhichPartsSend(url, lib.unmarshal, parts);
    }
  }

  /** The process-wide state: the webhook URL, which each invocation
      refreshes from the environment. */
  class Lambda {
    var webhookURL: string

    constructor ()
      ensures webhookURL == ""
    {
      webhookURL := "";
    }

    /** Takes the URL from the environment value when that is non-empty,
        and otherwise keeps the one already set. */
    method ParseEnvironment(env: string)
      modifies this
      ensures webhookURL == (if env != "" then env else old(webhookURL))
    {
      if env != "" {
        webhookURL := env;
      }
    }

    /** One invocation; `env` is the value of PLEX2SLACK_WEBHOOK_URL. */
    method Handler(lib: Libraries, env: string, request: Request, replies: nat -> Notifier.SlackReply)
      returns (outcome: Outcome, calls: seq<Call>)
      modifies this
      ensures webhookURL == (if env != "" then env else old(webhookURL))
      ensures Invocation(outcome, calls) == Handle(webhookURL, lib, request)
    {
      ParseEnvironment(env);
      calls := [];
      var decoded := lib.decodeBase64(request.body);
      if decoded.Err? {
        outcome := Responded(ErrorResponse(STATUS_BAD_REQUEST, decoded.error));
        return;
      }
      var media := lib.parseMediaType(Lookup(request.headers, "Content-Type"));
      if media.Err? {
        outcome := Responded(ErrorResponse(STATUS_UNSUPPORTED_MEDIA_TYPE, media.error));
        return;
      }
      if HasPrefix(media.value.mediaType, "multipart/") {
        var parts := lib.readParts(decoded.value, Lookup(media.value.params, "boundary"));
        var panic;
        calls, panic := ProcessParts(webhookURL, lib.unmarshal, parts, replies);
        if panic.Some? {
          outcome := Panicked(panic.value);
          return;
        }
      }
      outcome := Responded(SUCCESS);
    }
  }
}
