# plex2slack-lambda, modelled in Dafny

An AWS Lambda function receives the webhook of a Plex media server and posts
a chat message to a Slack incoming-webhook URL. The body of the request is
base64 text holding a multipart form. The handler walks the parts of that
form. A `payload` part holds the event as JSON. For a "new library item"
event (`library.new`) it posts one message: a three-block card for a movie
or an episode, and the empty message for any other item type. It answers
400 when the body does not decode, 415 when the Content-Type does not parse,
and 200 `Success` otherwise, whatever the chat service replied. A payload
that is not valid JSON makes the handler panic, so no response is returned.

Files:

- `wrappers.dfy`: `Option` and `Result` (a Go `(value, error)` pair).
- `data.dfy`: the payload fields the handler reads (`Event`, `Metadata.Type`,
  `Title`, `ParentTitle`, `GrandparentTitle`) and the message records
  `SlackRequestBody`, `SlackBlock`, `SlackText`, `SlackElement`.
- `mapper.dfy`: the payload-to-message mapping, with the exact messages,
  the title round trip for movies and the ambiguity of episode messages.
- `notifier.dfy`: the check on the chat service's reply (success iff the
  response body is exactly `ok`).
- `handler.dfy`: the handler as a function `Handle` over abstract library
  results, the walk over the parts (`RunParts`, a recursive specification,
  and `ProcessParts`, the loop proved against it), and the class `Lambda`.
  `Lambda` holds the process-wide `webhookURL` that `ParseEnvironment`
  updates.

The library calls are inputs of the model, gathered in `Handler.Libraries`.
These are base64 decoding, `mime.ParseMediaType`, the multipart reader and
`json.Unmarshal`. `decodeBase64`, `parseMediaType` and `unmarshal` are
functions from their argument to a `Result`. `readParts` maps the decoded
body and the boundary to the sequence of parts the reader yields before end
of input; it has no error case (see "## Left out"). The reply to the n-th
post is `replies(n)`, and the environment value of `PLEX2SLACK_WEBHOOK_URL`
is a parameter of `Lambda.Handler`. A message that is posted is recorded as
a `Call` of the URL and the structured message.

Three behaviours of the code are easy to miss:

- A payload part whose JSON does not parse makes the handler panic
  (main.go:98-100); no response is returned and later parts are not read.
- A `library.new` event for an item that is neither a movie nor an episode
  still posts a message: the zero value, with empty text and no blocks
  (main.go:106, main.go:165).
- The 400 response for a body that does not decode carries the text
  `Error getting content type: <error>`, the same prefix as the 415 response
  (main.go:54).

## Model

| member | source | states |
|---|---|---|
| `Notifier.ReplyOutcome` | main.go:198-216 | a post succeeds exactly when the reply is a response body equal to `ok`; a transport error is returned as is; any other body gives the fixed "Non-ok response" error |
| `Mapper.MovieMessage` | main.go:109-134 | the movie message's summary is the title followed by " added to Movies", and its section headline is the title in bold, so both give the title back |
| `Mapper.EpisodeMessage` | main.go:137-162 | the episode summary is "show season: title" followed by " added to TV shows" |
| `Mapper.Notification` | main.go:102-166 | a message is posted exactly for `library.new` events; for an item type other than movie or episode the posted message is the empty one; a non-empty message has three blocks |
| `Mapper.MovieNotification` | main.go:109-133 | the exact movie message: summary, a mrkdwn section `*title*`, a context with the single mrkdwn element "added to Movies", a divider, in that order |
| `Mapper.EpisodeNotification` | main.go:137-161 | the exact episode message: summary, the section "New episode of *show season*: _title_", the context "added to TV shows", a divider |
| `Mapper.MovieMessageInjective` | main.go:110-133 | two different movie titles never give the same message |
| `Mapper.EpisodeMessageAmbiguous` | main.go:139-144 | moving a word from the show title into the season title gives the same message for a different episode |
| `Handler.HasPrefix` | main.go:78 | a string has a prefix exactly when it is that prefix followed by some rest |
| `Handler.Step` | main.go:89-166 | a part aborts exactly when it is a payload whose JSON does not parse; it posts exactly when it is a payload that parses into a `library.new` event, and then posts that event's message |
| `Handler.RunParts` | main.go:84-171 | the walk posts at most one message per part, all to the given URL |
| `Handler.RunPartsAppend` | main.go:84-171 | walking two sequences of parts one after the other is walking the first, then, unless it panicked, the second |
| `Handler.PanicIffMalformed` | main.go:95-100 | the walk panics exactly when some payload part is malformed |
| `Handler.FirstMalformedStops` | main.go:84-100 | the first malformed payload ends the walk with its JSON error, after the posts of the parts before it; later parts have no effect |
| `Handler.IgnoredPartInvisible` | main.go:89-95 | a thumbnail part, or a part with any name other than `payload`, changes nothing wherever it stands |
| `Handler.WhichPartsSend` | main.go:84-166 | without a malformed payload, the posts are exactly one per qualifying part (a payload with event `library.new`), in part order, each with that payload's message |
| `Handler.ProcessParts` | main.go:84-171 | the loop over the parts posts and stops as the walk specifies; the chat service's replies do not affect anything it returns |
| `Handler.Handle` | main.go:37-184 | every response has exactly the two fixed headers; the status is 400 exactly when the body does not decode and 415 exactly when it decodes and the Content-Type does not parse; otherwise it is 200 with body `Success`; only a request that reaches the multipart walk can panic; error responses post nothing; every post goes to the configured URL |
| `Handler.DecodeFailure` | main.go:45-56 | a body that does not decode gives status 400 with the error text, and nothing is posted |
| `Handler.MediaTypeFailure` | main.go:64-75 | a Content-Type that does not parse gives status 415 with the error text, and nothing is posted |
| `Handler.NonMultipartSucceeds` | main.go:78-182 | a media type that is not `multipart/` gives 200 `Success` and nothing is posted |
| `Handler.MultipartOutcome` | main.go:84-182 | a multipart request panics exactly when a payload part is malformed; otherwise it gives 200 `Success` after posting one message per qualifying part, in order |
| `Handler.Lambda.constructor` | main.go:25-27 | the webhook URL starts empty |
| `Handler.Lambda.ParseEnvironment` | main.go:29-35 | the URL is replaced by the environment value when that is non-empty, and kept otherwise |
| `Handler.Lambda.Handler` | main.go:37-184 | each invocation first refreshes the URL from the environment, then answers and posts as `Handle` gives for the refreshed URL; the replies of the chat service do not appear in the result |

## Left out

- Base64 decoding, `mime.ParseMediaType`, the multipart reader and `json.Unmarshal` are library code. Their results are inputs of the model, not algorithms in it.
- `json.Marshal` of the outgoing message is left out: a post is recorded with the structured message.
- The outgoing HTTP request, its ten-second client timeout and the reading of the response body are network I/O. Only their outcome is an input, as a transport error or a response body.
- Writing the thumbnail part to `thumb.jpg` is file I/O. Nothing in the result depends on it.
- An error from the multipart reader other than end of input leaves the part nil, and the source then panics on a nil-pointer dereference at main.go:89. A `multipart/` Content-Type without a `boundary` parameter (so the boundary at main.go:81 is empty), or a truncated body, triggers it. The model does not capture this panic: it answers such a request from whatever parts `readParts` yields. So `Handler.MultipartOutcome`'s "panics exactly when a payload part is malformed", and the 200 `Success` answer described at the top, hold only for requests whose multipart body the reader walks to its end without error.
- What the Lambda runtime does with a panic is not modelled. The outcome is `Panicked` with the JSON error.
- Logging (`log.Printf`, `fmt.Printf`) and `lambda.Start` are left out.
- `Data.PlexMessage` holds only the five payload fields the handler reads: `Event`, `Metadata.Type`, `Title`, `ParentTitle` and `GrandparentTitle`, which decide the message and are logged at main.go:169. Nothing reads the other fields: `User`, `Owner`, `Account`, `Server`, `Player`, the `LibrarySection*`, key and GUID fields, `Summary`, `Index`, `Year`, the timestamps and the artwork. Their only effect is on whether `json.Unmarshal` fails, for instance on a string where a number is expected, and the abstract `unmarshal` input already covers that.
- The Slack message types `SlackRequestBody`, `SlackBlock`, `SlackText` and `SlackElement` are declared in the `data` package, in a file other than data/root.go that is not part of this model. The model gives them the fields main.go:110-161 sets.
- The source runs the part loop inline in `handler`. The model gives that loop a method of its own, `Handler.ProcessParts`, which `Lambda.Handler` calls.
