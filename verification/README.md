# simplechat Lambda handler — Dafny model

The repository is one AWS Lambda function (`lambda/index.py`) that sits between
an API Gateway endpoint and a remote text-generation service. This project
models its two pieces of deterministic logic:

- `extract_region_from_arn`, which searches an ARN for
  `arn:aws:lambda:<region>:` and returns the region or `"us-east-1"`
  (module `ArnRegion`, file `arn_region.dfy`). It is written as a hand-made
  scanner that tries every offset in turn, exactly as `re.search` does with the
  pattern `arn:aws:lambda:([^:]+):`, and is proved against a declarative
  description of a match (`RegionAt`, `LeftmostRegion`).
- `lambda_handler`, rewritten as a pure function of the parsed event, the
  configured base URL and what the upstream service would answer (module
  `Handler`, file `handler.dfy`). It returns the request the handler builds
  and hands to `urlopen` (or none, when it fails before reaching that point) and the HTTP envelope:
  status, headers and either `Answered(response, conversationHistory)`
  (`success: true`) or `Errored(error)` (`success: false`). The steps of the
  `try` block are separate functions; every exception becomes a `Fault`, and
  `Envelope` maps any fault to the one status-500 envelope.
- Properties that relate several invocations or single out one failure path
  are lemmas in module `HandlerProperties` (`handler_properties.dfy`).
- `results.dfy` holds the `Option` and `Result` datatypes.

Inputs the handler reads from the outside world are parameters: the base URL
(`LLM_API_URL`) is `apiUrl`, and the upstream HTTP exchange is the `Upstream`
value (`Replied(fields)` for a 2xx JSON object, `Unavailable(reason)` for a call
that ends with a connection error, an error status or a body that is not a JSON object).

The handler's order of steps is kept: the `claims` read of an authorizer comes
first, then the body and `message` reads, then the upstream call, then
`generated_text`, and only then the `append` on the history. So an authorizer
without `claims` fails with `'claims'` before any request is built, and a
`conversationHistory` that is not a list fails only after the request has been
handed to `urlopen`.

## Model

| member | source | states |
|---|---|---|
| ArnRegion.RunEnd | lambda/index.py:9 | the end of the `[^:]+` run: the first colon at or after the start, or the end of the string; every character before it is not a colon |
| ArnRegion.RegionAtUnique | lambda/index.py:9 | at one offset the pattern can capture at most one region, because the run must stop at the first colon |
| ArnRegion.RegionStartingAt | lambda/index.py:9 | trying the pattern at one offset yields `Some(r)` exactly when `r` is a capture there, and `None` when there is none |
| ArnRegion.FirstRegionFrom | lambda/index.py:9-10 | scanning from offset `i` finds a match whose offset is the smallest at or after `i`, or reports that no offset from `i` on matches |
| ArnRegion.ExtractRegionFromArn | lambda/index.py:8-12 | with no match anywhere the result is `us-east-1`; otherwise it is the region captured at the leftmost matching offset |
| ArnRegion.ExtractRegionShape | lambda/index.py:9-12 | the result is either `us-east-1` with no match in the input, or a non-empty colon-free piece of the input preceded by `arn:aws:lambda:` and followed by `:` |
| ArnRegion.ExtractRegionOfLambdaArn | lambda/index.py:8-11 | for `arn:aws:lambda:` + R + `:` + rest with R non-empty and colon-free, the result is R |
| ArnRegion.EmptyRegionIsSkipped | lambda/index.py:9-11 | a prefix directly followed by `:` does not end the search: the result is the one for the remaining text |
| ArnRegion.SkippedToLeftmost | lambda/index.py:9-11 | when the text after a prefix-and-colon has a match, the whole input yields the same region as that text |
| ArnRegion.NothingAfterEmptyField | lambda/index.py:9-12 | when the text after a prefix-and-colon has no match, the whole input yields `us-east-1` |
| ArnRegion.RegionAtShift | lambda/index.py:9 | whether the pattern matches at an offset does not depend on the text before that offset |
| ArnRegion.NoRegionInEmptyField | lambda/index.py:9 | no offset up to the end of a prefix that is directly followed by `:` matches |
| Handler.Describe | lambda/index.py:78-91 | the error text is never empty; a missing key is reported as the key in single quotes, as `str(KeyError)` prints it |
| Handler.MergeHistory | lambda/index.py:58-60 | the merged history is two longer, keeps every prior turn at its index, then holds the user turn with the message and the assistant turn with the reply |
| Handler.LambdaHandler | lambda/index.py:17-92 | the whole handler: `Process` runs the steps of the `try` block (lines 18-60) and `Envelope` builds the response (lines 62-92). Its contract states, for an invocation whose upstream call ends: uniform headers; status 200 or 500; a request is built and handed to `urlopen` exactly when the claims, body and message reads succeed, and it then goes to `<base>/generate` with the message unchanged as prompt, `max_new_tokens` 512 and `do_sample` true (lines 33-44); status 200 exactly when moreover the upstream answered with `generated_text` and the history is a list or absent; on success the response is that text and the history is the prior one with the user and assistant turns appended; on failure the error text is non-empty |
| HandlerProperties.MergeKeepsAlternation | lambda/index.py:58-60 | appending one exchange to an even-length history whose roles alternate user/assistant keeps it alternating and even |
| HandlerProperties.ResentHistoryAccumulates | lambda/index.py:30-60 | a client that sends back the returned history on its next call receives the original history followed by both exchanges in order |
| HandlerProperties.ClaimsAreOnlyLogged | lambda/index.py:22-25 | an event with claims gives the same request and response as the same event without an authorizer |
| HandlerProperties.AuthorizerWithoutClaimsFails | lambda/index.py:23-24 | an authorizer without `claims` yields status 500 with error `'claims'` and no upstream request |
| HandlerProperties.BadBodyFails | lambda/index.py:28-29 | a missing or unreadable body, or a missing `message`, yields status 500 and no upstream request; the error is `'body'` or `'message'` for the missing keys |
| HandlerProperties.UpstreamFailureFails | lambda/index.py:53-56 | an unavailable upstream, or one whose answer lacks `generated_text`, yields status 500 with an error body and no history, after the request was handed to `urlopen`; a missing `generated_text` is reported as `'generated_text'` |
| HandlerProperties.HistoryNotListFailsAfterCall | lambda/index.py:30-59 | a `conversationHistory` that is not a list is read without error at line 30, still lets the request be built and handed to `urlopen`, and the invocation then fails with status 500 |
| HandlerProperties.HeadersAreUniform | lambda/index.py:62-92 | any two invocations return the same headers, with `Access-Control-Allow-Origin: *`, `OPTIONS,POST` and the JSON content type |
| HandlerProperties.OnlyTheReplyDiffers | lambda/index.py:56-60 | two successful upstream answers to the same event give the same request and status and histories that agree except for the content of the last assistant turn |
| HandlerProperties.HelloScenario | lambda/index.py:56-75 | message `hello` with an empty history and the answer `hi there` give status 200 and the two-turn history |

## Left out

- The HTTP POST itself, reading its answer and the `with` block (lambda/index.py:46-54): network I/O, replaced by the `Upstream` input. The request's `Content-Type: application/json` header and the `POST` method are fixed in the source and not carried in `GenerationRequest`.
- An upstream that does not answer: `urlopen` (line 53) has no timeout, so the invocation blocks until the platform stops it and no envelope is returned. The model assumes every upstream call ends in `Replied` or `Unavailable`, so status 200 or 500 and the uniform headers are promised only for invocations that return.
- An unusable base URL: `urllib.request.Request` (line 46) raises for an empty URL and `urlopen` (line 53) for an unknown scheme, both before anything is sent. The model does not inspect `apiUrl`; such a failure is folded into `Unavailable`, so `request` is the request handed to `urlopen`, not a promise that it reached the network.
- JSON text (`json.loads`, `json.dumps`): the model works on already-parsed values. A body that is null, not JSON, or JSON but not an object is one case, `BodyUnreadable`; an upstream answer that is not JSON or not an object is part of `Unavailable`.
- The float sampling constants `temperature: 0.7` and `top_p: 0.9`: floating point is out of scope, so `Payload` holds only the prompt, `max_new_tokens` and `do_sample`.
- Logging with `print` (lambda/index.py:19, 25, 34, 79), including the logged user identity: it has no effect on the result. A `json.dumps(event)` failure at line 19 is not modelled.
- Reading `LLM_API_URL` and its hard-coded default (lambda/index.py:15): the base URL is the `apiUrl` parameter.
- The exact text of exceptions other than `KeyError`: it is an opaque non-empty `Description` carried by the input that raises it.
- Python dynamic typing beyond the cases above: a `message` or a `generated_text` that is not a string, claims that are not a mapping, or history entries that are not role/content pairs. A `conversationHistory` that is not a list is modelled as `HistoryNotList`.
- `extract_region_from_arn` is never called by the handler in the source; the two models are independent.
- Client errors (missing body or `message`) are sometimes described for this system as 400-class; the code returns status 500 for every failure, and the model follows the code.
