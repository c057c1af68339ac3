/** Properties of the handler that relate several invocations or pin down one path. */
module HandlerProperties {
  import opened Results
  import opened Handler

  /** Turns alternate user, assistant, user, ... from the first one. */
  predicate Alternates(h: seq<Turn>) {
    forall i :: 0 <= i < |h| ==> h[i].role == (if i % 2 == 0 then UserRole else AssistantRole)
  }

  /** Appending one exchange to a complete alternating history keeps it alternating and complete. */
  lemma MergeKeepsAlternation(prior: seq<Turn>, message: string, reply: string)
    requires Alternates(prior) && |prior| % 2 == 0
    ensures Alternates(MergeHistory(prior, message, reply))
    ensures |MergeHistory(prior, message, reply)| % 2 == 0
  {
  }

  /** A client that resends the returned history gets back its previous history
      with both exchanges appended in order. */
  lemma ResentHistoryAccumulates(apiUrl: string, a1: Authorizer, a2: Authorizer, prior: seq<Turn>,
                                 m1: string, m2: string, u1: Upstream, u2: Upstream)
    requires !a1.AuthorizerWithoutClaims? && !a2.AuthorizerWithoutClaims?
    requires u1.Replied? && GeneratedTextKey in u1.fields
    requires u2.Replied? && GeneratedTextKey in u2.fields
    ensures var first := LambdaHandler(apiUrl, Event(a1, BodyObject(RequestBody(Some(m1), HistoryList(prior)))), u1);
            first.response.body.Answered? &&
            var h1 := first.response.body.conversationHistory;
            var second := LambdaHandler(apiUrl, Event(a2, BodyObject(RequestBody(Some(m2), HistoryList(h1)))), u2);
            second.response.body.Answered? &&
            second.response.body.conversationHistory ==
              prior + [Turn(UserRole, m1), Turn(AssistantRole, u1.fields[GeneratedTextKey]),
                       Turn(UserRole, m2), Turn(AssistantRole, u2.fields[GeneratedTextKey])]
  {
  }

  /** Claims, when present, are only logged: the invocation is the same as without an authorizer. */
  lemma ClaimsAreOnlyLogged(apiUrl: string, claims: map<string, string>, body: BodyField, upstream: Upstream)
    ensures LambdaHandler(apiUrl, Event(AuthorizerWithClaims(claims), body), upstream)
            == LambdaHandler(apiUrl, Event(NoAuthorizer, body), upstream)
  {
  }

  /** An authorizer without `claims` fails the invocation before anything is sent. */
  lemma AuthorizerWithoutClaimsFails(apiUrl: string, body: BodyField, upstream: Upstream)
    ensures var out := LambdaHandler(apiUrl, Event(AuthorizerWithoutClaims, body), upstream);
            && out.request.None?
            && out.response.statusCode == StatusError
            && out.response.body == Errored("'claims'")
  {
  }

  /** A missing body, an unreadable body or a missing `message` fails before anything is sent. */
  lemma BadBodyFails(apiUrl: string, authorizer: Authorizer, body: BodyField, upstream: Upstream)
    requires !(body.BodyObject? && body.fields.message.Some?)
    ensures var out := LambdaHandler(apiUrl, Event(authorizer, body), upstream);
            && out.request.None?
            && out.response.statusCode == StatusError
            && out.response.body.Errored?
            && (!authorizer.AuthorizerWithoutClaims? && body.BodyAbsent? ==> out.response.body.error == "'body'")
            && (!authorizer.AuthorizerWithoutClaims? && body.BodyObject? ==> out.response.body.error == "'message'")
  {
  }

  /** An upstream failure, or an answer without `generated_text`, fails after the request was handed to `urlopen`,
      and the error body carries no history. */
  lemma UpstreamFailureFails(apiUrl: string, event: Event, upstream: Upstream)
    requires ReachesUpstream(event)
    requires !(upstream.Replied? && GeneratedTextKey in upstream.fields)
    ensures var out := LambdaHandler(apiUrl, event, upstream);
            && out.request.Some?
            && out.response.statusCode == StatusError
            && out.response.body.Errored?
            && (upstream.Replied? ==> out.response.body.error == "'generated_text'")
            && (upstream.Unavailable? ==> out.response.body.error == upstream.reason)
  {
  }

  /** A history field that is not a list is only touched after the upstream answered,
      so the request is still built and handed to `urlopen` and the invocation then fails. */
  lemma HistoryNotListFailsAfterCall(apiUrl: string, authorizer: Authorizer, message: string,
                                     reason: Description, upstream: Upstream)
    requires !authorizer.AuthorizerWithoutClaims?
    ensures var out := LambdaHandler(apiUrl, Event(authorizer, BodyObject(RequestBody(Some(message), HistoryNotList(reason)))), upstream);
            && out.request == Some(GenerationRequest(apiUrl + "/generate", Payload(message, 512, true)))
            && out.response.statusCode == StatusError
            && out.response.body.Errored?
  {
  }

  /** Every response carries the same headers, whatever the inputs. */
  lemma HeadersAreUniform(url1: string, e1: Event, u1: Upstream, url2: string, e2: Event, u2: Upstream)
    ensures LambdaHandler(url1, e1, u1).response.headers == LambdaHandler(url2, e2, u2).response.headers
    ensures LambdaHandler(url1, e1, u1).response.headers["Access-Control-Allow-Origin"] == "*"
    ensures LambdaHandler(url1, e1, u1).response.headers["Access-Control-Allow-Methods"] == "OPTIONS,POST"
    ensures LambdaHandler(url1, e1, u1).response.headers["Content-Type"] == "application/json"
  {
  }

  /** Two upstream answers for the same event give the same status and request, and histories
      that differ at most in the content of the final assistant turn. */
  lemma OnlyTheReplyDiffers(apiUrl: string, event: Event, u1: Upstream, u2: Upstream)
    requires Succeeds(event, u1) && Succeeds(event, u2)
    ensures var o1 := LambdaHandler(apiUrl, event, u1);
            var o2 := LambdaHandler(apiUrl, event, u2);
            var h1 := o1.response.body.conversationHistory;
            var h2 := o2.response.body.conversationHistory;
            && o1.request == o2.request
            && o1.response.statusCode == o2.response.statusCode == StatusOk
            && |h1| == |h2|
            && h1[..|h1| - 1] == h2[..|h2| - 1]
            && h1[|h1| - 1].role == h2[|h2| - 1].role == AssistantRole
  {
  }

  /** A first message with an empty history and a well-behaved upstream. */
  lemma HelloScenario(apiUrl: string)
    ensures var out := LambdaHandler(apiUrl,
                                     Event(NoAuthorizer, BodyObject(RequestBody(Some("hello"), HistoryList([])))),
                                     Replied(map[GeneratedTextKey := "hi there"]));
            && out.response.statusCode == 200
            && out.response.body == Answered("hi there", [Turn("user", "hello"), Turn("assistant", "hi there")])
  {
  }
}
