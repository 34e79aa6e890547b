/** What the two generation handlers (music, video) have in common: the
    external calls a request can make, in the only order either handler
    makes them, and how far a request got along that order. */
module Generation {
  import opened Wrappers
  import opened Http

  /** The side-effecting calls of a generation request: Clerk `auth()`,
      `req.json()`, `checkApiLimit()`, `checkSubscription()`, the provider
      call, and `increaseApiLimit()`. */
  datatype Step =
    | Authenticate
    | ParseBody
    | QuotaLookup
    | SubscriptionLookup
    | ProviderCall
    | Increment

  /** Both handlers call the services in this order and stop at the first
      gate that fails; a pro user's request stops before the increment. */
  const PIPELINE: seq<Step> :=
    [Authenticate, ParseBody, QuotaLookup, SubscriptionLookup, ProviderCall, Increment]

  /** The request passed every gate in front of the provider call: an
      identity, a readable body with a truthy prompt, and either free trial
      left or a subscription. */
  predicate Admitted(userId: Option<UserId>, body: Body, freeTrial: bool, isPro: bool)
  {
    userId.Some? && body.Json? && Truthy(body.prompt) && (freeTrial || isPro)
  }

  /** Where a call sits in PIPELINE. */
  function Position(s: Step): (i: nat)
    ensures i < |PIPELINE| && PIPELINE[i] == s
  {
    match s
    case Authenticate => 0
    case ParseBody => 1
    case QuotaLookup => 2
    case SubscriptionLookup => 3
    case ProviderCall => 4
    case Increment => 5
  }

  /** A handled request: its response, and the number of calls of PIPELINE
      it made before answering (it made them in order, each at most once). */
  datatype Handled<P> = Handled(response: Response<P>, calls: nat)
  {
    /** Whether the request made the call `s`. */
    predicate Made(s: Step)
    {
      Position(s) < calls
    }

    /** Whether `increaseApiLimit()` ran for this request. */
    predicate Increments()
    {
      Made(Increment)
    }

    /** Whether the external generation provider was contacted. */
    predicate CallsProvider()
    {
      Made(ProviderCall)
    }

    /** The calls the request made, in the order it made them. */
    function Trace(): seq<Step>
      requires calls <= |PIPELINE|
    {
      PIPELINE[..calls]
    }
  }

  /** The trace of a handled request lists exactly the calls it made, each
      once, and a call appears only after every call PIPELINE puts before it. */
  lemma TraceIsOrderedPrefix<P>(h: Handled<P>, s: Step)
    requires h.calls <= |PIPELINE|
    ensures s in h.Trace() <==> h.Made(s)
    ensures multiset(h.Trace())[s] == if h.Made(s) then 1 else 0
    ensures forall s' :: Position(s') < Position(s) && h.Made(s) ==> s' in h.Trace()
  {
    var t := h.Trace();
    assert forall i, j :: 0 <= i < j < |PIPELINE| ==> PIPELINE[i] != PIPELINE[j];
    if h.Made(s) {
      assert t[Position(s)] == s;
      MultisetOfDistinct(t, Position(s));
    } else {
      assert forall i :: 0 <= i < |t| ==> t[i] != s;
      assert s !in multiset(t);
    }
    forall s' | Position(s') < Position(s) && h.Made(s)
      ensures s' in t
    {
      assert t[Position(s')] == s';
    }
  }

  /** In a prefix of PIPELINE, whose entries are pairwise distinct, the entry
      at index `k` occurs exactly once. */
  lemma {:induction false} MultisetOfDistinct(t: seq<Step>, k: nat)
    requires t <= PIPELINE && k < |t|
    ensures multiset(t)[t[k]] == 1
  {
    var i := |t| - 1;
    if k == i {
      assert t == t[..i] + [t[i]];
      assert forall j :: 0 <= j < i ==> t[..i][j] != t[k];
      assert t[k] !in multiset(t[..i]);
    } else {
      assert t == t[..i] + [t[i]];
      MultisetOfDistinct(t[..i], k);
    }
  }
}
