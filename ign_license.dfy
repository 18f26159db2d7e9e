/** The IGN license view-model: it holds the license status and the license details
    that the screen observes, and changes them according to what the billing
    collaborator answers. Every `postValue` is taken as an immediate assignment; each
    call into the billing collaborator becomes a parameter carrying its answer, and the
    billing callbacks become methods the collaborator calls. */
module IgnLicense {
  import opened Wrappers

  datatype LicenseStatus = Purchased | NotPurchased | Pending

  /** Product metadata from the billing SDK, reduced to what the screen uses. */
  datatype SkuDetails = SkuDetails(sku: string, price: string)

  datatype IgnLicenseDetails = IgnLicenseDetails(skuDetails: SkuDetails) {
    function Price(): string {
      skuDetails.price
    }
  }

  /** A purchase record returned by the billing collaborator. */
  datatype Purchase = Purchase(purchaseToken: string)

  /** The record persisted as an offline proof of purchase: when it was bought. */
  datatype LicenseInfo = LicenseInfo(purchaseTime: int)

  /** What fetching the license details gives: the details, or one of the three
      exceptions the view-model catches. */
  datatype DetailsResult = Details(details: IgnLicenseDetails) | ProductNotFound | IllegalState | NotSupported

  /** The observable state: the current status (null until something is posted), every
      status posted so far in order, the cached details, and the persisted records. */
  datatype LicenseState = LicenseState(
    status: Option<LicenseStatus>,
    posts: seq<LicenseStatus>,
    details: Option<IgnLicenseDetails>,
    persisted: seq<LicenseInfo>)

  const Initial := LicenseState(None, [], None, [])

  /** The status is always the last status posted, and null before the first post. */
  predicate Consistent(s: LicenseState) {
    s.status == if s.posts == [] then None else Some(s.posts[|s.posts| - 1])
  }

  function Post(s: LicenseState, status: LicenseStatus): LicenseState {
    s.(status := Some(status), posts := s.posts + [status])
  }

  /** `getIgnLicensePurchaseStatus`: when a pending purchase was acknowledged the
      purchase query is skipped; otherwise the status says whether a purchase exists. */
  function CheckStatus(s: LicenseState, ackDone: bool, purchase: Option<Purchase>): LicenseState {
    if ackDone then s else Post(s, if purchase.Some? then Purchased else NotPurchased)
  }

  /** `getIgnLicenseInfo`, one branch per answer of the billing collaborator. */
  function FetchDetails(s: LicenseState, result: DetailsResult): LicenseState {
    match result
    case Details(d) => s.(details := Some(d))
    case ProductNotFound => Post(s, Purchased)
    case IllegalState => s
    case NotSupported => s
  }

  /** `onPurchasePending`. */
  function PurchasePending(s: LicenseState): LicenseState {
    Post(s, Pending)
  }

  /** `onPurchaseAcknowledged`, with the time of the call. */
  function PurchaseAcknowledged(s: LicenseState, now: int): LicenseState {
    Post(s, Purchased).(persisted := s.persisted + [LicenseInfo(now)])
  }

  /** The product `buyLicense` hands to the billing flow, if any. */
  function PurchaseLaunch(s: LicenseState): Option<SkuDetails> {
    match s.details
    case Some(d) => Some(d.skuDetails)
    case None => None
  }

  /** Everything that can happen to the view-model, in the order it happens. */
  datatype Event =
    | StatusChecked(ackDone: bool, purchase: Option<Purchase>)
    | DetailsFetched(result: DetailsResult)
    | PendingNotified
    | AcknowledgedNotified(now: int)

  function Step(s: LicenseState, e: Event): LicenseState {
    match e
    case StatusChecked(ackDone, purchase) => CheckStatus(s, ackDone, purchase)
    case DetailsFetched(result) => FetchDetails(s, result)
    case PendingNotified => PurchasePending(s)
    case AcknowledgedNotified(now) => PurchaseAcknowledged(s, now)
  }

  function Run(s: LicenseState, events: seq<Event>): LicenseState
    decreases |events|
  {
    if events == [] then s else Run(Step(s, events[0]), events[1..])
  }

  /** The statuses an event posts, independently of the state it happens in. */
  function EventPosts(e: Event): seq<LicenseStatus> {
    match e
    case StatusChecked(ackDone, purchase) =>
      if ackDone then [] else if purchase.Some? then [Purchased] else [NotPurchased]
    case DetailsFetched(result) => if result.ProductNotFound? then [Purchased] else []
    case PendingNotified => [Pending]
    case AcknowledgedNotified(_) => [Purchased]
  }

  function RunPosts(events: seq<Event>): seq<LicenseStatus>
    decreases |events|
  {
    if events == [] then [] else EventPosts(events[0]) + RunPosts(events[1..])
  }

  /** The records persisted by a run: one per acknowledgement, in order. */
  function Acknowledgements(events: seq<Event>): seq<LicenseInfo>
    decreases |events|
  {
    if events == [] then []
    else (if events[0].AcknowledgedNotified? then [LicenseInfo(events[0].now)] else [])
         + Acknowledgements(events[1..])
  }

  /** The details delivered by successful fetches, in order. */
  function FetchedDetails(events: seq<Event>): seq<IgnLicenseDetails>
    decreases |events|
  {
    if events == [] then []
    else (if events[0].DetailsFetched? && events[0].result.Details? then [events[0].result.details] else [])
         + FetchedDetails(events[1..])
  }

  // ---- one call at a time ----

  /** If an acknowledgement was done, the status check itself changes and posts
      nothing, whatever the purchase query would have answered. */
  lemma AcknowledgedCheckPostsNothing(s: LicenseState, purchase: Option<Purchase>)
    ensures CheckStatus(s, true, purchase) == s
  {
  }

  /** Without an acknowledgement the check posts exactly one status, PURCHASED exactly
      when a purchase exists, and persists nothing. */
  lemma QueriedCheckPostsPurchaseState(s: LicenseState, purchase: Option<Purchase>)
    ensures var t := CheckStatus(s, false, purchase);
            && t.posts == s.posts + [t.status.value]
            && (t.status == Some(Purchased) <==> purchase.Some?)
            && (t.status == Some(NotPurchased) <==> purchase.None?)
            && t.persisted == s.persisted && t.details == s.details
  {
  }

  /** Acknowledgement: the status becomes PURCHASED and exactly one record, carrying
      the time of the call, is persisted. */
  lemma AcknowledgementPersistsOnce(s: LicenseState, now: int)
    ensures var t := PurchaseAcknowledged(s, now);
            && t.status == Some(Purchased) && t.posts == s.posts + [Purchased]
            && |t.persisted| == |s.persisted| + 1
            && t.persisted[..|s.persisted|] == s.persisted
            && t.persisted[|s.persisted|] == LicenseInfo(now)
            && t.details == s.details
  {
  }

  /** A pending purchase sets PENDING and persists nothing. */
  lemma PendingPersistsNothing(s: LicenseState)
    ensures var t := PurchasePending(s);
            t.status == Some(Pending) && t.persisted == s.persisted && t.details == s.details
  {
  }

  /** The fate of the details and the status for each answer of the details fetch. */
  lemma DetailsFetchOutcomes(s: LicenseState, result: DetailsResult)
    ensures var t := FetchDetails(s, result);
            && t.persisted == s.persisted
            && (result.Details? ==> t.details == Some(result.details) && t.status == s.status && t.posts == s.posts)
            && (result.ProductNotFound? ==> t.status == Some(Purchased) && t.details == s.details)
            && (result.IllegalState? || result.NotSupported? ==> t == s)
  {
  }

  /** `buyLicense` launches billing exactly when details are cached, with their
      product. */
  lemma PurchaseLaunchNeedsDetails(s: LicenseState)
    ensures PurchaseLaunch(s).Some? <==> s.details.Some?
    ensures s.details.Some? ==> PurchaseLaunch(s) == Some(s.details.value.skuDetails)
  {
  }

  // ---- whole runs ----

  lemma StepPosts(s: LicenseState, e: Event)
    ensures Step(s, e).posts == s.posts + EventPosts(e)
    ensures Step(s, e).status == if EventPosts(e) == [] then s.status else Some(EventPosts(e)[0])
  {
  }

  /** Every run posts the statuses its events post, in order, and no others. */
  lemma {:induction false} RunPostsEvents(s: LicenseState, events: seq<Event>)
    ensures Run(s, events).posts == s.posts + RunPosts(events)
    decreases |events|
  {
    if events != [] {
      StepPosts(s, events[0]);
      RunPostsEvents(Step(s, events[0]), events[1..]);
    }
  }

  /** The status observed is always the last one posted. */
  lemma {:induction false} RunKeepsConsistent(s: LicenseState, events: seq<Event>)
    requires Consistent(s)
    ensures Consistent(Run(s, events))
    decreases |events|
  {
    if events != [] {
      StepPosts(s, events[0]);
      RunKeepsConsistent(Step(s, events[0]), events[1..]);
    }
  }

  /** Records are persisted by acknowledgements only: one per acknowledgement, in
      order, and nothing is ever removed. */
  lemma {:induction false} RunPersistsAcknowledgements(s: LicenseState, events: seq<Event>)
    ensures Run(s, events).persisted == s.persisted + Acknowledgements(events)
    decreases |events|
  {
    if events != [] {
      RunPersistsAcknowledgements(Step(s, events[0]), events[1..]);
    }
  }

  /** The cached details are those of the last successful fetch, and stay as they
      were when no fetch succeeded. */
  lemma {:induction false} RunKeepsLastDetails(s: LicenseState, events: seq<Event>)
    ensures var fetched := FetchedDetails(events);
            Run(s, events).details == if fetched == [] then s.details else Some(fetched[|fetched| - 1])
    decreases |events|
  {
    if events != [] {
      RunKeepsLastDetails(Step(s, events[0]), events[1..]);
    }
  }

  /** A status check that acknowledged a pending purchase, followed by the billing
      collaborator's acknowledgement callback, posts PURCHASED once and persists one
      record. */
  lemma AcknowledgedCheckThenCallback(s: LicenseState, purchase: Option<Purchase>, now: int)
    ensures var t := Run(s, [StatusChecked(true, purchase), AcknowledgedNotified(now)]);
            t.posts == s.posts + [Purchased] && t.persisted == s.persisted + [LicenseInfo(now)]
  {
    var events := [StatusChecked(true, purchase), AcknowledgedNotified(now)];
    assert events[1..] == [AcknowledgedNotified(now)];
    assert Run(s, events) == Run(s, [AcknowledgedNotified(now)]);
    assert Run(s, [AcknowledgedNotified(now)]) == PurchaseAcknowledged(s, now);
  }

  /** The view-model object. */
  class IgnLicenseViewModel {
    var status: Option<LicenseStatus>
    var details: Option<IgnLicenseDetails>
    ghost var posts: seq<LicenseStatus>
    ghost var persisted: seq<LicenseInfo>

    ghost function State(): LicenseState
      reads this
    {
      LicenseState(status, posts, details, persisted)
    }

    ghost predicate Valid()
      reads this
    {
      Consistent(State())
    }

    constructor ()
      ensures Valid() && State() == Initial
    {
      status, details := None, None;
      posts, persisted := [], [];
    }

    method PostStatus(s: LicenseStatus)
      modifies this`status, this`posts
      ensures status == Some(s) && posts == old(posts) + [s]
    {
      status := Some(s);
      posts := posts + [s];
    }

    method GetIgnLicensePurchaseStatus(ackDone: bool, purchase: Option<Purchase>)
      requires Valid()
      modifies this
      ensures Valid() && State() == CheckStatus(old(State()), ackDone, purchase)
    {
      if !ackDone {
        PostStatus(if purchase.Some? then Purchased else NotPurchased);
      }
    }

    method GetIgnLicenseInfo(result: DetailsResult)
      requires Valid()
      modifies this
      ensures Valid() && State() == FetchDetails(old(State()), result)
    {
      match result {
        case Details(d) =>
          details := Some(d);
        case ProductNotFound =>
          PostStatus(Purchased);
        case IllegalState =>
        case NotSupported =>
      }
    }

    /** Returns the product handed to the billing flow, or nothing when no details
        are cached; the state is not touched. */
    method BuyLicense() returns (launched: Option<SkuDetails>)
      ensures details.None? ==> launched.None?
      ensures details.Some? ==> launched == Some(details.value.skuDetails)
    {
      if details.Some? {
        launched := Some(details.value.skuDetails);
      } else {
        launched := None;
      }
    }

    method OnPurchasePending()
      requires Valid()
      modifies this
      ensures Valid() && State() == PurchasePending(old(State()))
    {
      PostStatus(Pending);
    }

    method OnPurchaseAcknowledged(now: int)
      requires Valid()
      modifies this
      ensures Valid() && State() == PurchaseAcknowledged(old(State()), now)
    {
      PostStatus(Purchased);
      PersistLicense(LicenseInfo(now));
    }

    method PersistLicense(info: LicenseInfo)
      modifies this`persisted
      ensures persisted == old(persisted) + [info]
    {
      persisted := persisted + [info];
    }
  }
}
