/** The generation routes together with the usage counter they consult:
    `freeTrial` is what checkApiLimit answers for the caller, and the
    counter is bumped exactly when the handler reaches increaseApiLimit.
    Each function is one request against the current `userApiLimit` table. */
module Service {
  import opened Wrappers
  import opened Http
  import opened Generation
  import ApiLimit
  import VideoRoute
  import MusicRoute

  /** The table after a handled request. */
  function Settle<P>(s: ApiLimit.Store, userId: Option<UserId>, h: Handled<P>): ApiLimit.Store
  {
    if h.Increments() then ApiLimit.IncreaseApiLimit(s, userId) else s
  }

  function ServeVideo(s: ApiLimit.Store, userId: Option<UserId>, body: Body, isPro: bool,
                      eden: VideoRoute.EdenReply)
    : (Response<VideoRoute.VideoPayload>, ApiLimit.Store)
  {
    var h := VideoRoute.VideoPost(userId, body, ApiLimit.CheckApiLimit(s, userId), isPro, eden);
    (h.response, Settle(s, userId, h))
  }

  function ServeMusic<P>(s: ApiLimit.Store, userId: Option<UserId>, body: Body, isPro: bool,
                         run: MusicRoute.ReplicateRun<P>)
    : (Response<P>, ApiLimit.Store)
  {
    var h := MusicRoute.MusicPost(userId, body, ApiLimit.CheckApiLimit(s, userId), isPro, run);
    (h.response, Settle(s, userId, h))
  }

  /** A prompt that passes the handlers' `!prompt` test. */
  predicate ValidRequest(body: Body)
  {
    body.Json? && Truthy(body.prompt)
  }

  /** A subscriber is never refused for quota and never counted, whatever
      the table holds. */
  lemma ProUsersNeverCounted<P>(s: ApiLimit.Store, userId: Option<UserId>, body: Body,
                                eden: VideoRoute.EdenReply, run: MusicRoute.ReplicateRun<P>)
    ensures ServeVideo(s, userId, body, true, eden).1 == s
    ensures ServeVideo(s, userId, body, true, eden).0.status != FORBIDDEN
    ensures ServeMusic(s, userId, body, true, run).1 == s
    ensures ServeMusic(s, userId, body, true, run).0.status != FORBIDDEN
  {
  }

  /** A non-subscriber with trial left who gets a video is counted once:
      their count goes up by one and nobody else's row changes. */
  lemma TrialVideoIsCounted(s: ApiLimit.Store, u: UserId, body: Body, eden: VideoRoute.EdenReply)
    requires ValidRequest(body) && VideoRoute.CallEden(eden).Success?
    requires ApiLimit.GetApiLimitCount(s, Some(u)) < ApiLimit.MAX_FREE_COUNT
    ensures var (resp, s') := ServeVideo(s, Some(u), body, false, eden);
      && resp.status == OK
      && ApiLimit.GetApiLimitCount(s', Some(u)) == ApiLimit.GetApiLimitCount(s, Some(u)) + 1
      && forall v :: v in s && v != u ==> v in s' && s'[v] == s[v]
  {
  }

  /** Once a non-subscriber's count reaches the ceiling, every request with
      a valid prompt is refused with 403, the provider is not asked, and
      the table does not change. */
  lemma ExhaustedTrialIsRefused<P>(s: ApiLimit.Store, u: UserId, body: Body,
                                   eden: VideoRoute.EdenReply, run: MusicRoute.ReplicateRun<P>)
    requires ValidRequest(body)
    requires ApiLimit.GetApiLimitCount(s, Some(u)) >= ApiLimit.MAX_FREE_COUNT
    ensures ServeVideo(s, Some(u), body, false, eden) == (Plain(FORBIDDEN), s)
    ensures ServeMusic(s, Some(u), body, false, run) == (Plain(FORBIDDEN), s)
  {
  }

  /** For a non-subscriber with a valid prompt and a working provider, one
      video request is served and counted exactly when checkApiLimit allows
      it, and refused with 403 and not counted otherwise. */
  lemma ServedIffTrialLeft(s: ApiLimit.Store, u: UserId, body: Body, eden: VideoRoute.EdenReply)
    requires ValidRequest(body) && VideoRoute.CallEden(eden).Success?
    ensures ServeVideo(s, Some(u), body, false, eden) ==
      if ApiLimit.CheckApiLimit(s, Some(u))
      then (Response(OK, Some(VideoRoute.VideoPayload(VideoRoute.CallEden(eden).value))),
            ApiLimit.IncreaseApiLimit(s, Some(u)))
      else (Plain(FORBIDDEN), s)
  {
  }

  /** The table after `k` identical video requests by a non-subscriber. */
  function VideoSession(s: ApiLimit.Store, u: UserId, body: Body, eden: VideoRoute.EdenReply, k: nat)
    : ApiLimit.Store
    decreases k
  {
    if k == 0 then s else ServeVideo(VideoSession(s, u, body, eden, k - 1), Some(u), body, false, eden).1
  }

  /** While a new non-subscriber's trial lasts, each of their successful
      video requests is counted exactly once. */
  lemma {:induction false} SessionCountsEveryVideo(s: ApiLimit.Store, u: UserId, body: Body,
                                                   eden: VideoRoute.EdenReply, k: nat)
    requires u !in s && ValidRequest(body) && VideoRoute.CallEden(eden).Success?
    requires k <= ApiLimit.MAX_FREE_COUNT
    ensures ApiLimit.GetApiLimitCount(VideoSession(s, u, body, eden, k), Some(u)) == k
    decreases k
  {
    if k > 0 {
      var previous := VideoSession(s, u, body, eden, k - 1);
      SessionCountsEveryVideo(s, u, body, eden, k - 1);
      ApiLimit.CheckIsCountBelowCeiling(previous, Some(u));
      ServedIffTrialLeft(previous, u, body, eden);
    }
  }

  /** A new non-subscriber whose videos all generate is served exactly
      MAX_FREE_COUNT times, the `k`-th request raising the count to `k`,
      and is refused from then on. */
  lemma {:induction false} FreeTrialSession(s: ApiLimit.Store, u: UserId, body: Body, eden: VideoRoute.EdenReply, k: nat)
    requires u !in s && ValidRequest(body) && VideoRoute.CallEden(eden).Success?
    requires k <= ApiLimit.MAX_FREE_COUNT
    ensures ApiLimit.GetApiLimitCount(VideoSession(s, u, body, eden, k), Some(u)) == k
    ensures ServeVideo(VideoSession(s, u, body, eden, k), Some(u), body, false, eden).0.status
      == if k < ApiLimit.MAX_FREE_COUNT then OK else FORBIDDEN
  {
    SessionCountsEveryVideo(s, u, body, eden, k);
    var current := VideoSession(s, u, body, eden, k);
    ApiLimit.CheckIsCountBelowCeiling(current, Some(u));
    ServedIffTrialLeft(current, u, body, eden);
  }

  /** On a readable body the two routes give the same status, provided
      their providers agree on success, and with an identity they make the
      same calls. Without an identity the video route stops right after
      `auth()`, while the music route has already read the body; and an
      unreadable body is noticed first by the music route. */
  lemma RoutesDifferOnlyInBodyOrder<P>(userId: Option<UserId>, body: Body, freeTrial: bool, isPro: bool,
                                       eden: VideoRoute.EdenReply, run: MusicRoute.ReplicateRun<P>)
    requires run.Ran? <==> VideoRoute.CallEden(eden).Success?
    ensures var v := VideoRoute.VideoPost(userId, body, freeTrial, isPro, eden);
      var m := MusicRoute.MusicPost(userId, body, freeTrial, isPro, run);
      && (body.Json? ==> v.response.status == m.response.status)
      && (body.Json? && userId.Some? ==> v.calls == m.calls)
      && (userId.None? ==> v.calls == 1 && m.calls == 2)
      && (body.Malformed? && userId.None? ==>
            v.response.status == UNAUTHORIZED && m.response.status == INTERNAL_ERROR)
  {
  }
}
