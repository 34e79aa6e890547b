# ContentFuse usage gate and billing webhook, modelled in Dafny

ContentFuse is a Next.js SaaS backend. Three of its parts make decisions of their own:

- **The free-trial usage counter** (`lib/api-limit.ts`). It keeps one `userApiLimit` row per user.
- **The music and video generation routes.** Each one authenticates the caller, reads the prompt, checks the free trial and the subscription, and calls an AI provider (Replicate for music, Eden AI's `runway` for video). For non-subscribers it then counts the call.
- **The Stripe webhook.** It creates and renews the `userSubscription` row.

The model restates these parts as pure functions over immutable values:

- The `userApiLimit` table is a `map<UserId, nat>` (module `ApiLimit`). The `userSubscription` table is a `map<UserId, SubscriptionRecord>` (module `WebhookRoute`).
- The identity from Clerk's `auth()` is an explicit `Option<UserId>`. `None` stands for every falsy id, the empty string included, because the code tests `!userId`.
- Each route handler returns a `Handled` value (module `Generation`). It holds the HTTP response (status and optional JSON payload) and the number of calls the request made along the fixed order `auth()`, `req.json()`, `checkApiLimit()`, `checkSubscription()`, provider call, `increaseApiLimit()`. So "the provider was not called" and "the counter was bumped" are properties of the result.
- The answers of the external services are inputs: the Eden AI reply, the Replicate outcome, `checkApiLimit`/`checkSubscription`, Stripe's signature check and `subscriptions.retrieve`. Prisma's failures are not inputs. They are the unique-key conflicts and missing rows that the table itself determines.
- Module `Service` connects the routes to the counter. `freeTrial` is what `CheckApiLimit` answers on the current table. The table is incremented exactly when the handler reached `increaseApiLimit()`.
- `MAX_FREE_COUNT` is left abstract: an arbitrary positive constant.

Four behaviours of the code are worth spelling out, each proved in the model:

- **Video error mapping.** The video route's catch maps the codes INSUFFICIENT_CREDITS and RATE_LIMIT_EXCEEDED to 402 and 429 (`EdenErrorStatus`, app/api/video/route.ts:71-80). Those branches are unreachable, because nothing thrown inside the inner `try` has a `.response` (`StructuredErrorsUnreachable`). The music route never answers 402 or 429 either.
- **Body before identity in the music route.** The music route reads the body before it checks the identity (app/api/music/route.ts:14-18). So an unreadable body gives 500 even without a user, where the video route answers 401 (`RoutesDifferOnlyInBodyOrder`).
- **Retrieve before metadata in checkout.** The checkout branch of the webhook fetches the subscription before it checks `metadata.userId` (app/api/webhook/route.ts:32-39). So a failed retrieve is a 500 even when the metadata is missing (`CheckoutRetrievesBeforeMetadata`).
- **Duplicate checkout.** The checkout branch creates the row unconditionally (app/api/webhook/route.ts:43). A second checkout for the same user therefore breaks a unique key and is a 500 that writes nothing (`CheckoutCreatesRow`). The unique keys assumed here are listed under "## Left out".

## Model

| member | source | states |
|---|---|---|
| `ApiLimit.GetApiLimitCount` | lib/api-limit.ts:48-61 | the count is 0 without an identity or without a row, and the stored count otherwise |
| `ApiLimit.IncreaseApiLimit` | lib/api-limit.ts:6-29 | without an identity the table is unchanged; otherwise the caller's row exists afterwards, a new row holds 1, and the count the reader reports goes up by exactly one |
| `ApiLimit.IncreaseTouchesOnlyCaller` | lib/api-limit.ts:12-27 | an increment leaves every other user's row as it was, and no count ever decreases |
| `ApiLimit.CheckApiLimit` | lib/api-limit.ts:31-46 | false without an identity; otherwise true exactly when the user has no row or a count below MAX_FREE_COUNT |
| `ApiLimit.CheckIsCountBelowCeiling` | lib/api-limit.ts:35-60 | since the ceiling is positive, the limit check holds exactly when there is an identity and the count that getApiLimitCount reports is below the ceiling |
| `ApiLimit.CountAfterIncrements` | lib/api-limit.ts:16-27 | `k` increments raise the caller's count by exactly `k` (increments are not idempotent) and leave other rows untouched |
| `ApiLimit.TrialLastsExactlyMaxFreeCount` | lib/api-limit.ts:16-45 | for a user without a row, the limit check holds after `k` increments exactly when `k < MAX_FREE_COUNT` |
| `ApiLimit.IncreasePreservesPositive` | lib/api-limit.ts:16-27 | the counter never writes a zero count, so a table built by increments holds only positive counts |
| `Generation.TraceIsOrderedPrefix` | app/api/video/route.ts:9-60 | a request's calls appear in the fixed order, each at most once, and a call is made only after all the calls before it |
| `VideoRoute.FirstVideoUrl` | app/api/video/route.ts:54 | the optional chain `runway?.items?.[0]?.video_resource_url` is present exactly when every link is, and is then the first item's URL |
| `VideoRoute.CallEden` | app/api/video/route.ts:35-56 | the inner try yields a URL exactly for an OK reply whose nested URL is truthy, and that URL is the nested field; every error it throws lacks `.response` |
| `VideoRoute.EdenErrorStatus` | app/api/video/route.ts:65-84 | INSUFFICIENT_CREDITS maps to 402, RATE_LIMIT_EXCEEDED to 429, INVALID_API_KEY and any other code to 500, and an error without `.response` to 500 |
| `VideoRoute.VideoPost` | app/api/video/route.ts:7-89 | the provider is called exactly when the request passes identity, prompt and quota; 200 exactly for a validated provider result; the counter is bumped exactly for a 200 to a non-pro user |
| `VideoRoute.VideoGateOrder` | app/api/video/route.ts:9-28 | gate precedence: 401 with only auth done, then 500 for an unreadable body, then 400 before any quota lookup, then 403 without a provider call |
| `VideoRoute.VideoProviderResult` | app/api/video/route.ts:47-83 | once admitted, a 200 needs an OK reply and carries `{url}` equal to the nested field; anything else is a 500 with no payload and no increment |
| `VideoRoute.StructuredErrorsUnreachable` | app/api/video/route.ts:49-83 | the handler only ever answers 200, 400, 401, 403 or 500: errors thrown with `new Error` never reach the 402/429 branches |
| `MusicRoute.MusicPost` | app/api/music/route.ts:12-44 | the body is always read; the provider is called exactly when identity, prompt and quota pass; 200 exactly when it ran, returning its output unchanged; increment exactly for a 200 to a non-pro user |
| `MusicRoute.MusicGateOrder` | app/api/music/route.ts:14-26 | gate precedence: 500 for an unreadable body, then 401, then 400 before any quota lookup, then 403 without a provider call |
| `MusicRoute.MusicProviderFailure` | app/api/music/route.ts:28-42 | a provider that throws gives the catch-all 500 and no increment |
| `Service.ProUsersNeverCounted` | app/api/music/route.ts:22-37 | a subscriber is never refused with 403 and never changes the usage table, on either route |
| `Service.TrialVideoIsCounted` | app/api/video/route.ts:23-60 | a non-subscriber below the ceiling who gets a video is answered 200; their count goes up by one and no other row changes |
| `Service.ExhaustedTrialIsRefused` | app/api/video/route.ts:23-28 | a non-subscriber at or above the ceiling gets 403 on both routes and the table is unchanged |
| `Service.ServedIffTrialLeft` | app/api/video/route.ts:23-64 | with a working provider, a non-subscriber's video request is served and counted exactly when checkApiLimit allows it, and otherwise refused and not counted |
| `Service.SessionCountsEveryVideo` | lib/api-limit.ts:16-45 | during the trial, each of a new user's successful video requests is counted once, so after `k` requests the count is `k` |
| `Service.FreeTrialSession` | app/api/video/route.ts:23-60 | a new non-subscriber is served exactly MAX_FREE_COUNT videos, the `k`-th leaving count `k`, and the next request is refused with 403 |
| `Service.RoutesDifferOnlyInBodyOrder` | app/api/music/route.ts:14-18 | on a readable body the two routes give the same status, and with an identity they make the same calls; without an identity video stops after `auth()` (one call) while music has already read the body (two calls); on an unreadable body without identity, video answers 401 and music answers 500 |
| `WebhookRoute.EpochMillis` | app/api/webhook/route.ts:49 | the stored period end is the Stripe period end in seconds scaled to whole milliseconds, and scales back to it |
| `WebhookRoute.CreateSubscription` | app/api/webhook/route.ts:43-51 | create succeeds exactly when neither the user id nor the subscription id is taken, and then adds that one row and keeps the others |
| `WebhookRoute.UpdateSubscription` | app/api/webhook/route.ts:68-76 | update fails exactly when no row holds the subscription id; otherwise only rows with that id change, and only in price id and period end |
| `WebhookRoute.WebhookPost` | app/api/webhook/route.ts:8-86 | statuses are 200, 400 or 500 only; any non-200 leaves the table unchanged; a bad signature is 400; other event kinds are 200 with nothing changed; 400 exactly for a bad signature or a checkout without metadata user id after a successful retrieve |
| `WebhookRoute.CheckoutCreatesRow` | app/api/webhook/route.ts:30-57 | a checkout succeeds exactly when the subscription has an item and both unique keys are free; the new row holds the subscription id, customer id, first item's price id and period end × 1000; otherwise 500 and nothing written |
| `WebhookRoute.CheckoutRetrievesBeforeMetadata` | app/api/webhook/route.ts:31-39 | a checkout without `metadata.userId` answers 500 when the retrieve fails and 400 otherwise, and writes nothing |
| `WebhookRoute.PaymentUpdatesRow` | app/api/webhook/route.ts:60-82 | a payment succeeds exactly when the subscription has an item and a row holds the retrieved subscription id; that row gets the new price and period end and keeps user, customer and subscription ids; no other row changes; otherwise 500 |
| `WebhookRoute.WebhookPreservesValidTable` | app/api/webhook/route.ts:43-76 | every webhook step keeps user ids and subscription ids unique in the table |
| `WebhookRoute.CheckoutThenRenewal` | app/api/webhook/route.ts:30-83 | a checkout followed by a payment for the same subscription leaves the user's row with the checkout's ids and the renewal's price and period end |

## Left out

- `checkSubscription` (lib/subscription.ts) is not part of this model. `isPro` is a boolean input, and its expiry-margin rule is not modelled.
- Clerk `auth()`, Prisma, `stripe.webhooks.constructEvent`, `stripe.subscriptions.retrieve`, the `fetch` to Eden AI and `replicate.run` are external calls. They appear only as input values or outcome datatypes. The provider's prompt and fixed parameters (resolution, fps, duration, model version) are not modelled, because they do not affect any decision.
- Database outages are not modelled: a failing `checkApiLimit`, `checkSubscription` or `increaseApiLimit` would surface as a 500. Only unique-key conflicts and missing update targets are modelled as Prisma failures.
- Response message strings and `console` logging are not modelled. A response is its status plus an optional JSON payload; the webhook's 200 has an empty body.
- Prompts are strings or absent. Other JSON values in `prompt` (numbers, booleans, objects) are not modelled, so JavaScript truthiness is modelled only for strings.
- `stripe.subscriptions.retrieve` is modelled by its result for the event being handled; the subscription reference it is called with is not modelled. `subscription.customer` is taken to be a string id, not an expanded object.
- `new Date(...)`: timestamps are integer milliseconds, with no range limit and no invalid dates.
- Concurrency is out of scope for a sequential model: the read-then-write race in `increaseApiLimit`, and concurrent webhook deliveries for the same user.
- `WebhookRoute.CreateSubscription` assumes that the only unique columns of `userSubscription` are `userId` and `stripeSubscriptionId`. The Prisma schema is not part of this model. The update at app/api/webhook/route.ts:68-70 selects by `stripeSubscriptionId`, which forces that column to be unique, and `userId` is the table's identity. Any other unique column, such as `stripeCustomerId`, would add create failures (500s) that the model does not have. The same assumption underlies `WebhookRoute.ValidTable` and `WebhookRoute.CheckoutCreatesRow`.
- `app/layout.tsx` is UI only, with no behaviour to verify.
