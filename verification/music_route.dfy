/** POST /api/music (app/api/music/route.ts): the same gates as the video
    route in front of Replicate's riffusion model, except that the body is
    read before the identity is checked, and that every failure, the
    provider's included, ends in the one catch-all 500. */
module MusicRoute {
  import opened Wrappers
  import opened Http
  import opened Generation

  /** How `replicate.run(...)` ended; `P` is the model's output, returned
      to the client as it is. */
  datatype ReplicateRun<P> = Ran(output: P) | Threw

  /** The POST handler. `freeTrial` and `isPro` are what checkApiLimit and
      checkSubscription return for this user; `run` is the provider's
      outcome, consulted only if the request gets that far. */
  function MusicPost<P>(userId: Option<UserId>, body: Body, freeTrial: bool, isPro: bool, run: ReplicateRun<P>)
    : (r: Handled<P>)
    ensures 2 <= r.calls <= |PIPELINE|
    ensures r.CallsProvider() <==> Admitted(userId, body, freeTrial, isPro)
    ensures r.response.status == OK <==> Admitted(userId, body, freeTrial, isPro) && run.Ran?
    ensures r.response.status == OK ==> r.response.payload == Some(run.output)
    ensures r.response.status != OK ==> r.response.payload.None?
    // the counter is bumped after a provider result for a non-pro user, else never
    ensures r.Increments() <==> r.response.status == OK && !isPro
  {
    if body.Malformed? then Handled(Plain(INTERNAL_ERROR), 2)
    else if userId.None? then Handled(Plain(UNAUTHORIZED), 2)
    else if !Truthy(body.prompt) then Handled(Plain(BAD_REQUEST), 2)
    else if !freeTrial && !isPro then Handled(Plain(FORBIDDEN), 4)
    else
      match run
      case Threw => Handled(Plain(INTERNAL_ERROR), 5)
      case Ran(output) => Handled(Response(OK, Some(output)), if isPro then 5 else 6)
  }

  /** The gates in the order they win: the body is read together with the
      identity, so an unreadable body hides a missing identity; then the
      identity, the prompt (before the quota is looked at) and the trial. */
  lemma MusicGateOrder<P>(userId: Option<UserId>, body: Body, freeTrial: bool, isPro: bool, run: ReplicateRun<P>)
    ensures var r := MusicPost(userId, body, freeTrial, isPro, run);
      && r.Made(ParseBody)
      && (body.Malformed? ==> r.response.status == INTERNAL_ERROR && !r.Made(QuotaLookup))
      && (body.Json? && userId.None? ==>
            r.response.status == UNAUTHORIZED && !r.Made(QuotaLookup))
      && (body.Json? && userId.Some? && !Truthy(body.prompt) ==>
            r.response.status == BAD_REQUEST && !r.Made(QuotaLookup))
      && (body.Json? && userId.Some? && Truthy(body.prompt) && !freeTrial && !isPro ==>
            r.response.status == FORBIDDEN && r.Made(SubscriptionLookup)
            && !r.CallsProvider())
  {
  }

  /** A provider failure is the catch-all 500 and is never counted. */
  lemma MusicProviderFailure<P>(userId: Option<UserId>, body: Body, freeTrial: bool, isPro: bool)
    requires Admitted(userId, body, freeTrial, isPro)
    ensures var r := MusicPost<P>(userId, body, freeTrial, isPro, Threw);
      r.response.status == INTERNAL_ERROR && r.CallsProvider() && !r.Increments()
  {
  }
}
