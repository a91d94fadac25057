/**
 * The server-side push registry of Program.cs: the four handlers for
 * POST /api/users, /api/push/subscribe, /api/push/send/{userId} and
 * /api/push/broadcast, run one at a time against an in-memory store.
 *
 * The push sender (WebPushClient.SendNotificationAsync) is an oracle: the
 * caller passes the outcome of each delivery call in `outcomes`, and the
 * handlers return the trace of the deliveries they attempted.
 */
module Registry {
  import opened Wrappers
  import opened Models

  /** Request body of POST /users; either field may be null. */
  datatype CreateUserDto = CreateUserDto(name: Option<string>, email: Option<string>)

  /** Request body of POST /push/subscribe. */
  datatype SubscribeDto = SubscribeDto(userId: int, endpoint: string, p256dh: string, auth: string)

  /** Request body of POST /push/send/{userId} and POST /push/broadcast. */
  datatype NotificationPayloadDto = NotificationPayloadDto(title: string, message: string)

  /** The `{ title, message }` object the handlers serialize once per request. */
  datatype Payload = Payload(title: string, message: string)

  /** WebPush.PushSubscription: the delivery target the sender is handed. */
  datatype PushTarget = PushTarget(endpoint: string, p256dh: string, auth: string)

  /** One call of the sender: where it went, what it carried, whether it succeeded. */
  datatype Attempt = Attempt(target: PushTarget, payload: Payload, delivered: bool)

  /** The HTTP results the handlers return. */
  datatype Response =
    | BadRequest(reason: string)    // 400
    | NotFound(reason: string)      // 404
    | Ok(text: string)              // 200 with a fixed text
    | Sent(count: nat)              // 200 "<count> notifications sent."
    | Attempted(count: nat)         // 200 "<count> total notifications attempted."
    | CreatedUser(user: User)       // 201 at /api/users/<id>, body = the saved user
    | Created                       // 201 without a body

  /** System.Char.IsWhiteSpace: the Unicode space separators, line and paragraph separators, and U+0009-U+000D, U+0085, U+00A0. */
  function IsWhiteSpace(c: char): (r: bool)
    ensures c == ' ' || c == '\t' || c == '\n' || c == '\r' ==> r
    ensures ('0' <= c <= '9') || ('A' <= c <= 'Z') || ('a' <= c <= 'z') || c == '@' || c == '.' ==> !r
  {
    || ('\U{0009}' <= c <= '\U{000D}')
    || c == '\U{0020}' || c == '\U{0085}' || c == '\U{00A0}' || c == '\U{1680}'
    || ('\U{2000}' <= c <= '\U{200A}')
    || c == '\U{2028}' || c == '\U{2029}' || c == '\U{202F}' || c == '\U{205F}' || c == '\U{3000}'
  }

  /** True when every character of `s` is white space (so also for ""). */
  function AllWhiteSpace(s: string): (r: bool)
    ensures r <==> forall i :: 0 <= i < |s| ==> IsWhiteSpace(s[i])
  {
    if s == [] then true else IsWhiteSpace(s[0]) && AllWhiteSpace(s[1..])
  }

  /** string.IsNullOrWhiteSpace: null, empty, or white space only. */
  function IsNullOrWhiteSpace(s: Option<string>): (r: bool)
    ensures r <==> s.None? || forall i :: 0 <= i < |s.value| ==> IsWhiteSpace(s.value[i])
    ensures s == Some("") ==> r
  {
    match s
    case None => true
    case Some(text) => AllWhiteSpace(text)
  }

  /** `db.PushSubscriptions.FirstOrDefaultAsync(s => s.Endpoint == endpoint)`. */
  function FindByEndpoint(subs: seq<PushSubscription>, endpoint: string): (r: Option<PushSubscription>)
    ensures r.Some? ==> r.value in subs && r.value.endpoint == endpoint
    ensures r.None? <==> forall s :: s in subs ==> s.endpoint != endpoint
  {
    if subs == [] then None
    else if subs[0].endpoint == endpoint then Some(subs[0])
    else FindByEndpoint(subs[1..], endpoint)
  }

  /** No two stored subscriptions share an endpoint. */
  ghost predicate EndpointsUnique(subs: seq<PushSubscription>)
  {
    forall i, j :: 0 <= i < j < |subs| ==> subs[i].endpoint != subs[j].endpoint
  }

  /** The number of stored rows with the given endpoint. */
  function CountEndpoint(subs: seq<PushSubscription>, endpoint: string): nat
  {
    if subs == [] then 0
    else (if subs[0].endpoint == endpoint then 1 else 0) + CountEndpoint(subs[1..], endpoint)
  }

  /** Under unique endpoints, every endpoint is stored at most once, and exactly once if present. */
  lemma {:induction false} UniqueEndpointCount(subs: seq<PushSubscription>, endpoint: string)
    requires EndpointsUnique(subs)
    ensures CountEndpoint(subs, endpoint) <= 1
    ensures CountEndpoint(subs, endpoint) == 1 <==> FindByEndpoint(subs, endpoint).Some?
  {
    if subs != [] {
      var rest := subs[1..];
      assert EndpointsUnique(rest) by {
        forall i, j | 0 <= i < j < |rest| ensures rest[i].endpoint != rest[j].endpoint {
          assert rest[i] == subs[i + 1] && rest[j] == subs[j + 1];
        }
      }
      UniqueEndpointCount(rest, endpoint);
      if subs[0].endpoint == endpoint {
        assert FindByEndpoint(rest, endpoint).None? by {
          forall s | s in rest ensures s.endpoint != endpoint {
            var k :| 0 <= k < |rest| && rest[k] == s;
            assert subs[0].endpoint != subs[k + 1].endpoint;
          }
        }
      }
    }
  }

  /** Identity values are assigned in increasing order below the next one to hand out. */
  ghost predicate SubscriptionIdsIncreasing(subs: seq<PushSubscription>)
  {
    forall i, j :: 0 <= i < j < |subs| ==> subs[i].id < subs[j].id
  }

  /** The consistency of the store between requests. */
  ghost predicate StoreInvariant(users: seq<User>, subs: seq<PushSubscription>, nextUserId: int, nextSubscriptionId: int)
  {
    && 1 <= nextUserId && 1 <= nextSubscriptionId
    && UserIdsIncreasing(users)
    && (forall u :: u in users ==> 1 <= u.id < nextUserId)
    && SubscriptionIdsIncreasing(subs)
    && (forall s :: s in subs ==> 1 <= s.id < nextSubscriptionId)
    && OwnersExist(users, subs)
    && EndpointsUnique(subs)
  }

  /**
   * A user saved with the next identity value owns no subscription yet: the
   * navigation collection of a freshly registered user is empty.
   */
  lemma FreshUserHasNoSubscriptions(users: seq<User>, subs: seq<PushSubscription>, nextUserId: int, nextSubscriptionId: int)
    requires StoreInvariant(users, subs, nextUserId, nextSubscriptionId)
    ensures SubscriptionsOf(subs, nextUserId) == []
  {
  }

  /** Saving a new user with the next identity value keeps the store consistent. */
  lemma AddUserKeepsInvariant(users: seq<User>, subs: seq<PushSubscription>, nextUserId: int, nextSubscriptionId: int, u: User)
    requires StoreInvariant(users, subs, nextUserId, nextSubscriptionId)
    requires u.id == nextUserId
    ensures StoreInvariant(users + [u], subs, nextUserId + 1, nextSubscriptionId)
  {
  }

  /** Appending a row with a new endpoint keeps endpoints unique. */
  lemma AppendKeepsEndpointsUnique(subs: seq<PushSubscription>, s: PushSubscription)
    requires EndpointsUnique(subs)
    requires FindByEndpoint(subs, s.endpoint).None?
    ensures EndpointsUnique(subs + [s])
  {
  }

  /** Appending a row with the next identity value keeps identities increasing. */
  lemma AppendKeepsSubscriptionIds(subs: seq<PushSubscription>, nextSubscriptionId: int, s: PushSubscription)
    requires SubscriptionIdsIncreasing(subs)
    requires forall t :: t in subs ==> t.id < nextSubscriptionId
    requires s.id == nextSubscriptionId
    ensures SubscriptionIdsIncreasing(subs + [s])
  {
  }

  /**
   * Saving a subscription whose owner exists and whose endpoint is not yet
   * stored keeps the store consistent; in particular endpoints stay unique.
   */
  lemma AddSubscriptionKeepsInvariant(users: seq<User>, subs: seq<PushSubscription>, nextUserId: int, nextSubscriptionId: int, s: PushSubscription)
    requires StoreInvariant(users, subs, nextUserId, nextSubscriptionId)
    requires s.id == nextSubscriptionId
    requires FindUser(users, s.userId).Some?
    requires FindByEndpoint(subs, s.endpoint).None?
    ensures StoreInvariant(users, subs + [s], nextUserId, nextSubscriptionId + 1)
    ensures CountEndpoint(subs + [s], s.endpoint) == 1
  {
    var subs' := subs + [s];
    AppendKeepsEndpointsUnique(subs, s);
    AppendKeepsSubscriptionIds(subs, nextSubscriptionId, s);
    assert forall t :: t in subs' ==> t in subs || t == s;
    assert OwnersExist(users, subs');
    assert forall t :: t in subs' ==> 1 <= t.id < nextSubscriptionId + 1;
    assert s in subs';
    UniqueEndpointCount(subs', s.endpoint);
  }

  /** The delivery target is built from the stored Endpoint, P256dh and Auth, unchanged. */
  function TargetOf(s: PushSubscription): (t: PushTarget)
    ensures t.endpoint == s.endpoint && t.p256dh == s.p256dh && t.auth == s.auth
  {
    PushTarget(s.endpoint, s.p256dh, s.auth)
  }

  /** The oracle's answer to the i-th delivery call of a request (a missing answer is a failure). */
  function OutcomeAt(outcomes: seq<bool>, i: nat): bool
  {
    i < |outcomes| && outcomes[i]
  }

  /**
   * `trace` is one attempt per subscription of `subs`, in order, each to that
   * subscription's target and carrying the same payload, whatever the outcomes.
   */
  ghost predicate DeliveryTrace(trace: seq<Attempt>, subs: seq<PushSubscription>, payload: Payload, outcomes: seq<bool>)
  {
    && |trace| == |subs|
    && forall i :: 0 <= i < |trace| ==> trace[i] == Attempt(TargetOf(subs[i]), payload, OutcomeAt(outcomes, i))
  }

  /**
   * The `foreach` loop of the send and broadcast handlers: one sender call per
   * subscription; a failed call is caught (and logged) and the loop goes on.
   */
  method DeliverEach(subs: seq<PushSubscription>, payload: Payload, outcomes: seq<bool>) returns (trace: seq<Attempt>)
    ensures DeliveryTrace(trace, subs, payload, outcomes)
    ensures forall a :: a in trace ==> a.payload == payload
  {
    trace := [];
    for i := 0 to |subs|
      invariant DeliveryTrace(trace, subs[..i], payload, outcomes)
    {
      var target := TargetOf(subs[i]);
      var delivered := OutcomeAt(outcomes, i);
      // When the sender throws, the catch block logs the failure and the loop goes on.
      trace := trace + [Attempt(target, payload, delivered)];
    }
    assert subs[..|subs|] == subs;
  }

  /**
   * Two runs of the loop over the same subscriptions and payload differ at most
   * in which attempts succeeded: the count, the targets and the payloads do not
   * depend on the outcomes.
   */
  lemma TraceIgnoresOutcomes(t1: seq<Attempt>, t2: seq<Attempt>, subs: seq<PushSubscription>, payload: Payload, o1: seq<bool>, o2: seq<bool>)
    requires DeliveryTrace(t1, subs, payload, o1) && DeliveryTrace(t2, subs, payload, o2)
    ensures |t1| == |t2| == |subs|
    ensures forall i :: 0 <= i < |t1| ==> t1[i].target == t2[i].target && t1[i].payload == t2[i].payload
  {
  }

  /** The in-memory store behind AppDbContext: the two tables and their identity counters. */
  class PushStore {
    var users: seq<User>
    var subscriptions: seq<PushSubscription>
    var nextUserId: int
    var nextSubscriptionId: int

    ghost predicate Valid()
      reads this
    {
      StoreInvariant(users, subscriptions, nextUserId, nextSubscriptionId)
    }

    /** An empty store whose identity columns start at 1. */
    constructor ()
      ensures Valid()
      ensures users == [] && subscriptions == []
      ensures nextUserId == 1 && nextSubscriptionId == 1
    {
      users, subscriptions := [], [];
      nextUserId, nextSubscriptionId := 1, 1;
    }

    /** POST /users */
    method RegisterUser(dto: CreateUserDto) returns (r: Response)
      requires Valid()
      modifies this
      ensures Valid()
      ensures subscriptions == old(subscriptions) && nextSubscriptionId == old(nextSubscriptionId)
      ensures IsNullOrWhiteSpace(dto.name) || IsNullOrWhiteSpace(dto.email) ==>
                r == BadRequest("Name and Email are required.") && unchanged(this)
      ensures !IsNullOrWhiteSpace(dto.name) && !IsNullOrWhiteSpace(dto.email) ==>
                && r == CreatedUser(User(old(nextUserId), dto.name.value, dto.email.value))
                && users == old(users) + [r.user]
                && nextUserId == old(nextUserId) + 1
                && (forall u :: u in old(users) ==> u.id != r.user.id)
                && SubscriptionsOf(subscriptions, r.user.id) == []
    {
      if IsNullOrWhiteSpace(dto.name) || IsNullOrWhiteSpace(dto.email) {
        return BadRequest("Name and Email are required.");
      }
      var user := NewUser().(name := dto.name.value, email := dto.email.value);
      // db.Users.Add(user) and SaveChangesAsync: the store assigns the identity.
      FreshUserHasNoSubscriptions(users, subscriptions, nextUserId, nextSubscriptionId);
      AddUserKeepsInvariant(users, subscriptions, nextUserId, nextSubscriptionId, user.(id := nextUserId));
      user := user.(id := nextUserId);
      users := users + [user];
      nextUserId := nextUserId + 1;
      r := CreatedUser(user);
    }

    /** POST /push/subscribe */
    method Subscribe(dto: SubscribeDto) returns (r: Response)
      requires Valid()
      modifies this
      ensures Valid()
      ensures users == old(users) && nextUserId == old(nextUserId)
      ensures FindUser(old(users), dto.userId).None? ==>
                r == NotFound("User not found.") && unchanged(this)
      ensures FindUser(old(users), dto.userId).Some? && FindByEndpoint(old(subscriptions), dto.endpoint).Some? ==>
                r == Ok("Already subscribed.") && unchanged(this)
      ensures FindUser(old(users), dto.userId).Some? && FindByEndpoint(old(subscriptions), dto.endpoint).None? ==>
                && r == Created
                && subscriptions == old(subscriptions)
                     + [PushSubscription(old(nextSubscriptionId), dto.userId, dto.endpoint, dto.p256dh, dto.auth)]
                && nextSubscriptionId == old(nextSubscriptionId) + 1
      ensures CountEndpoint(subscriptions, dto.endpoint) <= 1
    {
      var user := FindUser(users, dto.userId);
      if user.None? {
        UniqueEndpointCount(subscriptions, dto.endpoint);
        return NotFound("User not found.");
      }
      var existing := FindByEndpoint(subscriptions, dto.endpoint);
      if existing.Some? {
        UniqueEndpointCount(subscriptions, dto.endpoint);
        return Ok("Already subscribed.");
      }
      var subscription := NewSubscription().(userId := dto.userId, endpoint := dto.endpoint, p256dh := dto.p256dh, auth := dto.auth);
      // db.PushSubscriptions.Add(subscription) and SaveChangesAsync.
      subscription := subscription.(id := nextSubscriptionId);
      AddSubscriptionKeepsInvariant(users, subscriptions, nextUserId, nextSubscriptionId, subscription);
      subscriptions := subscriptions + [subscription];
      nextSubscriptionId := nextSubscriptionId + 1;
      r := Created;
    }

    /** POST /push/send/{userId}: reads the store and changes nothing in it. */
    method SendToUser(userId: int, dto: NotificationPayloadDto, outcomes: seq<bool>) returns (r: Response, trace: seq<Attempt>)
      ensures SubscriptionsOf(subscriptions, userId) == [] ==>
                r == NotFound("No subscriptions found for this user.") && trace == []
      ensures SubscriptionsOf(subscriptions, userId) != [] ==>
                && r == Sent(|SubscriptionsOf(subscriptions, userId)|)
                && DeliveryTrace(trace, SubscriptionsOf(subscriptions, userId), Payload(dto.title, dto.message), outcomes)
    {
      var selected := SubscriptionsOf(subscriptions, userId);
      if selected == [] {
        return NotFound("No subscriptions found for this user."), [];
      }
      var payload := Payload(dto.title, dto.message);
      trace := DeliverEach(selected, payload, outcomes);
      r := Sent(|selected|);
    }

    /** POST /push/broadcast: reads the store and changes nothing in it. */
    method Broadcast(dto: NotificationPayloadDto, outcomes: seq<bool>) returns (r: Response, trace: seq<Attempt>)
      ensures r == Attempted(|subscriptions|)
      ensures DeliveryTrace(trace, subscriptions, Payload(dto.title, dto.message), outcomes)
    {
      var selected := subscriptions;
      var payload := Payload(dto.title, dto.message);
      trace := DeliverEach(selected, payload, outcomes);
      r := Attempted(|selected|);
    }
  }
}
