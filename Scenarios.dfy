/**
 * Request sequences against a fresh store, checked from the handlers'
 * contracts alone.
 */
module Scenarios {
  import opened Wrappers
  import opened Models
  import opened Registry

  /** A text that starts with a letter is not blank. */
  lemma LetterIsNotBlank(s: string)
    requires |s| > 0 && ('A' <= s[0] <= 'Z' || 'a' <= s[0] <= 'z')
    ensures !IsNullOrWhiteSpace(Some(s))
  {
  }

  /**
   * Register Alice, subscribe her browser at endpoint "E1", send her "Hi" /
   * "there": the sender is called exactly once, for "E1", with that payload,
   * and the response counts one notification whether or not the call failed.
   */
  method SendToNewSubscriber(outcomes: seq<bool>) returns (r: Response, trace: seq<Attempt>)
    ensures r == Sent(1)
    ensures |trace| == 1
    ensures trace[0].target == PushTarget("E1", "key", "secret")
    ensures trace[0].payload == Payload("Hi", "there")
  {
    var store := new PushStore();
    LetterIsNotBlank("Alice");
    LetterIsNotBlank("a@x.com");
    var created := store.RegisterUser(CreateUserDto(Some("Alice"), Some("a@x.com")));
    assert created.CreatedUser?;
    var alice := created.user;
    assert store.users == [alice] && store.subscriptions == [];
    assert FindUser(store.users, alice.id) == Some(alice);
    var subscribed := store.Subscribe(SubscribeDto(alice.id, "E1", "key", "secret"));
    assert store.subscriptions == [PushSubscription(1, alice.id, "E1", "key", "secret")];
    assert SubscriptionsOf(store.subscriptions, alice.id) == store.subscriptions;
    r, trace := store.SendToUser(alice.id, NotificationPayloadDto("Hi", "there"), outcomes);
  }

  /** A fresh store after registering users A and B and subscribing A at endpoint "E". */
  method StoreWithSubscribedEndpoint() returns (store: PushStore, first: Response, a: User, b: User)
    ensures fresh(store) && store.Valid()
    ensures first == Created
    ensures store.users == [a, b] && a.id != b.id
    ensures store.subscriptions == [PushSubscription(1, a.id, "E", "k1", "s1")]
  {
    store := new PushStore();
    LetterIsNotBlank("A");
    LetterIsNotBlank("a");
    var createdA := store.RegisterUser(CreateUserDto(Some("A"), Some("a")));
    a := createdA.user;
    LetterIsNotBlank("B");
    LetterIsNotBlank("b");
    var createdB := store.RegisterUser(CreateUserDto(Some("B"), Some("b")));
    b := createdB.user;
    assert store.users == [a, b] && store.subscriptions == [];
    assert a in store.users;
    first := store.Subscribe(SubscribeDto(a.id, "E", "k1", "s1"));
  }

  /**
   * Two users subscribe the same endpoint: the first gets 201, the second
   * "Already subscribed.", and the store keeps one row for that endpoint,
   * owned by the first user.
   */
  method SubscribeSameEndpointTwice() returns (first: Response, second: Response, rows: nat, owner: int, firstUser: int)
    ensures first == Created
    ensures second == Ok("Already subscribed.")
    ensures rows == 1
    ensures owner == firstUser
  {
    var store, a, b;
    store, first, a, b := StoreWithSubscribedEndpoint();
    firstUser := a.id;
    ghost var row := PushSubscription(1, a.id, "E", "k1", "s1");
    assert FindByEndpoint(store.subscriptions, "E") == Some(row);
    assert b in store.users;
    second := store.Subscribe(SubscribeDto(b.id, "E", "k2", "s2"));
    assert store.subscriptions == [row];
    rows := CountEndpoint(store.subscriptions, "E");
    owner := store.subscriptions[0].userId;
  }

  /**
   * An unknown user is refused before the endpoint is looked at, so a
   * known endpoint does not turn the 404 into "Already subscribed.".
   */
  method UnknownUserWithKnownEndpoint() returns (r: Response)
    ensures r == NotFound("User not found.")
  {
    var store := new PushStore();
    LetterIsNotBlank("A");
    LetterIsNotBlank("a");
    var a := store.RegisterUser(CreateUserDto(Some("A"), Some("a")));
    assert store.users == [a.user];
    assert FindUser(store.users, a.user.id + 1).None?;
    var _ := store.Subscribe(SubscribeDto(a.user.id, "E", "k", "s"));
    r := store.Subscribe(SubscribeDto(a.user.id + 1, "E", "k", "s"));
  }

  /** Broadcasting from an empty store attempts nothing and reports 0, not 404. */
  method BroadcastToEmptyStore(outcomes: seq<bool>) returns (r: Response, trace: seq<Attempt>)
    ensures r == Attempted(0) && trace == []
  {
    var store := new PushStore();
    r, trace := store.Broadcast(NotificationPayloadDto("t", "m"), outcomes);
  }

  /** The same name and email registered twice give two users with distinct Ids: there is no de-duplication. */
  method RegisterTwice() returns (first: Response, second: Response, registered: nat)
    ensures first.CreatedUser? && second.CreatedUser?
    ensures first.user.name == second.user.name == "A" && first.user.email == second.user.email == "a"
    ensures first.user.id != second.user.id
    ensures registered == 2
  {
    var store := new PushStore();
    LetterIsNotBlank("A");
    LetterIsNotBlank("a");
    first := store.RegisterUser(CreateUserDto(Some("A"), Some("a")));
    second := store.RegisterUser(CreateUserDto(Some("A"), Some("a")));
    registered := |store.users|;
  }

  /** A blank name is refused with 400 and registers no one. */
  method BlankNameRefused() returns (r: Response, registered: nat)
    ensures r == BadRequest("Name and Email are required.")
    ensures registered == 0
  {
    var store := new PushStore();
    r := store.RegisterUser(CreateUserDto(Some("  "), Some("a@x.com")));
    registered := |store.users|;
  }
}
