/** POST /api/video (app/api/video/route.ts): authenticate, read the
    prompt, check the free trial and the subscription, ask Eden AI's
    `runway` provider for a video, then count the call for non-pro users.
    The Eden AI reply is an input; so are the results of checkApiLimit and
    checkSubscription, whose lookups are modelled in ApiLimit and not at
    all (the subscription rule) respectively. */
module VideoRoute {
  import opened Wrappers
  import opened Http
  import opened Generation

  /** One entry of `runway.items` in Eden AI's reply. */
  datatype RunwayItem = RunwayItem(videoResourceUrl: Option<string>)

  /** The parts of Eden AI's JSON reply the handler reads: `error.message`
      and `runway.items` (None when `runway` or its `items` are absent). */
  datatype EdenData = EdenData(errorMessage: Option<string>, runwayItems: Option<seq<RunwayItem>>)

  /** How the `fetch` to Eden AI and the `response.json()` after it ended. */
  datatype EdenReply =
    | FetchRejected                        // `fetch` threw (network failure)
    | BodyNotJson                          // `response.json()` threw
    | Answered(ok: bool, data: EdenData)   // `response.ok` and the parsed body

  /** The `code` of a structured provider error: the three the handler
      recognises, and any other string. */
  datatype ErrorCode =
    | InsufficientCredits   // "INSUFFICIENT_CREDITS"
    | RateLimitExceeded     // "RATE_LIMIT_EXCEEDED"
    | InvalidApiKey         // "INVALID_API_KEY"
    | OtherCode(code: string)

  /** `.response.data` of a structured provider error. */
  datatype ErrorData = ErrorData(code: ErrorCode)

  /** A value caught by the inner `catch`, reduced to its `.response`. */
  datatype Caught = Caught(response: Option<ErrorData>)

  /** The JSON payload of a successful reply, `{ url }`. */
  datatype VideoPayload = VideoPayload(url: string)

  /** `data.runway?.items?.[0]?.video_resource_url`: None as soon as one
      link of the optional chain is missing. */
  function FirstVideoUrl(data: EdenData): (r: Option<string>)
    ensures r.Some? <==>
      data.runwayItems.Some? && |data.runwayItems.value| > 0
      && data.runwayItems.value[0].videoResourceUrl.Some?
    ensures r.Some? ==> r == data.runwayItems.value[0].videoResourceUrl
  {
    match data.runwayItems
    case None => None
    case Some(items) => if |items| == 0 then None else items[0].videoResourceUrl
  }

  /** The inner `try` up to the increment: either the video URL or the
      error it throws. Every error thrown there is a fetch or JSON error or
      a `new Error(...)`, none of which has a `.response`. */
  function CallEden(reply: EdenReply): (r: Result<string, Caught>)
    ensures r.Success? <==>
      reply.Answered? && reply.ok && Truthy(FirstVideoUrl(reply.data))
    ensures r.Success? ==> FirstVideoUrl(reply.data) == Some(r.value) && r.value != ""
    ensures r.Failure? ==> r.error.response.None?
  {
    match reply
    case FetchRejected => Failure(Caught(None))
    case BodyNotJson => Failure(Caught(None))
    case Answered(ok, data) =>
      if !ok then Failure(Caught(None))
      else if !Truthy(FirstVideoUrl(data)) then Failure(Caught(None))
      else Success(FirstVideoUrl(data).value)
  }

  /** The inner `catch`: a structured error is mapped by its code, anything
      else is a plain 500. */
  function EdenErrorStatus(e: Caught): (status: int)
    ensures e.response.None? ==> status == INTERNAL_ERROR
    ensures e.response == Some(ErrorData(InsufficientCredits)) ==> status == PAYMENT_REQUIRED
    ensures e.response == Some(ErrorData(RateLimitExceeded)) ==> status == TOO_MANY_REQUESTS
    ensures e.response == Some(ErrorData(InvalidApiKey)) ==> status == INTERNAL_ERROR
    ensures e.response.Some? && e.response.value.code.OtherCode? ==> status == INTERNAL_ERROR
  {
    match e.response
    case None => INTERNAL_ERROR
    case Some(data) =>
      match data.code
      case InsufficientCredits => PAYMENT_REQUIRED
      case RateLimitExceeded => TOO_MANY_REQUESTS
      case InvalidApiKey => INTERNAL_ERROR
      case OtherCode(_) => INTERNAL_ERROR
  }

  /** The POST handler. `freeTrial` and `isPro` are what checkApiLimit and
      checkSubscription return for this user; `eden` is the provider's
      answer, consulted only if the request gets that far. */
  function VideoPost(userId: Option<UserId>, body: Body, freeTrial: bool, isPro: bool, eden: EdenReply)
    : (r: Handled<VideoPayload>)
    ensures 1 <= r.calls <= |PIPELINE|
    ensures r.CallsProvider() <==> Admitted(userId, body, freeTrial, isPro)
    ensures r.response.status == OK <==>
      Admitted(userId, body, freeTrial, isPro) && CallEden(eden).Success?
    // the counter is bumped for a validated result of a non-pro user, else never
    ensures r.Increments() <==> r.response.status == OK && !isPro
  {
    if userId.None? then Handled(Plain(UNAUTHORIZED), 1)
    else if body.Malformed? then Handled(Plain(INTERNAL_ERROR), 2)
    else if !Truthy(body.prompt) then Handled(Plain(BAD_REQUEST), 2)
    else if !freeTrial && !isPro then Handled(Plain(FORBIDDEN), 4)
    else
      match CallEden(eden)
      case Failure(e) => Handled(Plain(EdenErrorStatus(e)), 5)
      case Success(url) =>
        Handled(Response(OK, Some(VideoPayload(url))), if isPro then 5 else 6)
  }

  /** The gates in front of the provider, in the order they win: a missing
      identity (before the body is even read), an unreadable body, a falsy
      prompt (before the quota is looked at), then an exhausted trial
      without subscription. */
  lemma VideoGateOrder(userId: Option<UserId>, body: Body, freeTrial: bool, isPro: bool, eden: EdenReply)
    ensures var r := VideoPost(userId, body, freeTrial, isPro, eden);
      && (userId.None? ==> r.response.status == UNAUTHORIZED && r.Trace() == [Authenticate])
      && (userId.Some? && body.Malformed? ==>
            r.response.status == INTERNAL_ERROR && !r.Made(QuotaLookup))
      && (userId.Some? && body.Json? && !Truthy(body.prompt) ==>
            r.response.status == BAD_REQUEST && !r.Made(QuotaLookup))
      && (userId.Some? && body.Json? && Truthy(body.prompt) && !freeTrial && !isPro ==>
            r.response.status == FORBIDDEN && r.Made(SubscriptionLookup)
            && !r.CallsProvider())
  {
  }

  /** A successful reply carries exactly the nested URL and is never given
      for a failed or malformed provider answer, which become a 500. */
  lemma VideoProviderResult(userId: Option<UserId>, body: Body, freeTrial: bool, isPro: bool, eden: EdenReply)
    requires Admitted(userId, body, freeTrial, isPro)
    ensures var r := VideoPost(userId, body, freeTrial, isPro, eden);
      && (r.response.status == OK ==>
            eden.Answered? && eden.ok
            && r.response.payload == Some(VideoPayload(FirstVideoUrl(eden.data).value)))
      && (r.response.status != OK ==>
            r.response.status == INTERNAL_ERROR && r.response.payload.None?
            && !r.Increments())
  {
  }

  /** The 402 and 429 branches of the error mapping cannot be reached from
      the handler: what the inner `try` throws never carries `.response`. */
  lemma StructuredErrorsUnreachable(userId: Option<UserId>, body: Body, freeTrial: bool, isPro: bool, eden: EdenReply)
    ensures VideoPost(userId, body, freeTrial, isPro, eden).response.status
      in {OK, BAD_REQUEST, UNAUTHORIZED, FORBIDDEN, INTERNAL_ERROR}
  {
  }
}
