/** The free-trial usage counter of lib/api-limit.ts. The Prisma table
    `userApiLimit` is an immutable map from user id to call count, and the
    identity that each function obtains from Clerk's `auth()` is an explicit
    argument. */
module ApiLimit {
  import opened Wrappers
  import opened Http

  type Positive = n: nat | 0 < n witness 1

  /** The free-trial ceiling. Its value lives in a constants file that is
      not part of this model, so it is left abstract: any positive number. */
  const MAX_FREE_COUNT: Positive

  /** The `userApiLimit` table: at most one row per user id. */
  type Store = map<UserId, nat>

  /** getApiLimitCount: 0 for an anonymous caller or a user without a row,
      otherwise the stored count. */
  function GetApiLimitCount(s: Store, userId: Option<UserId>): (r: nat)
    ensures userId.None? ==> r == 0
    ensures userId.Some? && userId.value !in s ==> r == 0
    ensures userId.Some? && userId.value in s ==> r == s[userId.value]
  {
    match userId
    case None => 0
    case Some(u) => if u in s then s[u] else 0
  }

  /** increaseApiLimit: nothing for an anonymous caller; otherwise an upsert
      that creates the row with count 1 or rewrites it with count + 1. */
  function IncreaseApiLimit(s: Store, userId: Option<UserId>): (s': Store)
    ensures userId.None? ==> s' == s
    ensures userId.Some? ==> s'.Keys == s.Keys + {userId.value}
    ensures userId.Some? ==>
      GetApiLimitCount(s', userId) == GetApiLimitCount(s, userId) + 1
    ensures userId.Some? && userId.value !in s ==> s'[userId.value] == 1
  {
    match userId
    case None => s
    case Some(u) =>
      if u in s then s[u := s[u] + 1] else s[u := 1]
  }

  /** checkApiLimit: false for an anonymous caller; otherwise true when the
      user has no row yet or its count is still below the ceiling. */
  function CheckApiLimit(s: Store, userId: Option<UserId>): (r: bool)
    ensures userId.None? ==> !r
    ensures userId.Some? ==>
      (r <==> userId.value !in s || s[userId.value] < MAX_FREE_COUNT)
  {
    match userId
    case None => false
    case Some(u) => u !in s || s[u] < MAX_FREE_COUNT
  }

  /** An increment rewrites the caller's row only: every other row keeps
      its count, and no count ever goes down. */
  lemma IncreaseTouchesOnlyCaller(s: Store, userId: Option<UserId>)
    ensures forall u :: u in s && Some(u) != userId ==>
      u in IncreaseApiLimit(s, userId) && IncreaseApiLimit(s, userId)[u] == s[u]
    ensures forall u :: u in s ==> u in IncreaseApiLimit(s, userId) && s[u] <= IncreaseApiLimit(s, userId)[u]
  {
  }

  /** Since the ceiling is positive, "no row" and "count below the ceiling"
      collapse into one test on the count that getApiLimitCount reports. */
  lemma CheckIsCountBelowCeiling(s: Store, userId: Option<UserId>)
    ensures CheckApiLimit(s, userId) <==>
      userId.Some? && GetApiLimitCount(s, userId) < MAX_FREE_COUNT
  {
  }

  /** The store after `k` successive increments for the same caller. */
  function IncreaseTimes(s: Store, userId: Option<UserId>, k: nat): Store
    decreases k
  {
    if k == 0 then s else IncreaseApiLimit(IncreaseTimes(s, userId, k - 1), userId)
  }

  /** Increments are not idempotent: `k` calls add exactly `k` to the count
      and leave every other user's row as it was. */
  lemma {:induction false} CountAfterIncrements(s: Store, u: UserId, k: nat)
    ensures GetApiLimitCount(IncreaseTimes(s, Some(u), k), Some(u))
      == GetApiLimitCount(s, Some(u)) + k
    ensures forall v :: v in s && v != u ==>
      v in IncreaseTimes(s, Some(u), k) && IncreaseTimes(s, Some(u), k)[v] == s[v]
    decreases k
  {
    if k > 0 {
      CountAfterIncrements(s, u, k - 1);
      IncreaseTouchesOnlyCaller(IncreaseTimes(s, Some(u), k - 1), Some(u));
    }
  }

  /** A user who starts without a row keeps the free trial through the
      first MAX_FREE_COUNT chargeable calls and loses it exactly at the
      ceiling, for good. */
  lemma {:induction false} TrialLastsExactlyMaxFreeCount(s: Store, u: UserId, k: nat)
    requires u !in s
    ensures CheckApiLimit(IncreaseTimes(s, Some(u), k), Some(u)) <==> k < MAX_FREE_COUNT
  {
    CountAfterIncrements(s, u, k);
    CheckIsCountBelowCeiling(IncreaseTimes(s, Some(u), k), Some(u));
  }

  /** Rows written by increaseApiLimit never hold 0. */
  ghost predicate CountsPositive(s: Store)
  {
    forall u :: u in s ==> s[u] > 0
  }

  /** Every row the counter creates or rewrites is positive, so a store
      built only by increments has positive counts throughout. */
  lemma IncreasePreservesPositive(s: Store, userId: Option<UserId>)
    requires CountsPositive(s)
    ensures CountsPositive(IncreaseApiLimit(s, userId))
  {
  }
}
