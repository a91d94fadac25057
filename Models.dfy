/**
 * The two persisted entities, Models/User.cs and Models/PushSubscription.cs.
 *
 * The entity classes carry navigation properties (User.Subscriptions and
 * PushSubscription.User) that point at each other. A value model cannot hold
 * that cycle, so the records keep only their scalar columns and each
 * navigation property is a function over the stored rows: `SubscriptionsOf`
 * and `Owner`.
 */
module Models {
  import opened Wrappers

  /** A registered user: identity column, display name and contact address. */
  datatype User = User(id: int, name: string, email: string)

  /** A browser push subscription owned by the user whose Id is `userId`. */
  datatype PushSubscription = PushSubscription(
    id: int,
    userId: int,
    endpoint: string,
    p256dh: string,
    auth: string)

  /** `new User()`: the Id stays unassigned (0) until the store saves the row. */
  function NewUser(): (u: User)
    ensures u.id == 0
    ensures u.name == "" && u.email == ""
  {
    User(0, "", "")
  }

  /** `new PushSubscription()`: every string column starts empty. */
  function NewSubscription(): (s: PushSubscription)
    ensures s.id == 0 && s.userId == 0
    ensures s.endpoint == "" && s.p256dh == "" && s.auth == ""
  {
    PushSubscription(0, 0, "", "", "")
  }

  /**
   * The navigation collection User.Subscriptions: the stored subscriptions
   * whose foreign key is the user's Id, in store order.
   */
  function SubscriptionsOf(subs: seq<PushSubscription>, userId: int): (r: seq<PushSubscription>)
    ensures |r| <= |subs|
    ensures forall s :: s in r <==> s in subs && s.userId == userId
    ensures r == [] <==> forall s :: s in subs ==> s.userId != userId
    ensures forall s :: multiset(r)[s] == (if s.userId == userId then multiset(subs)[s] else 0)
  {
    if subs == [] then []
    else
      assert subs == [subs[0]] + subs[1..];
      if subs[0].userId == userId then [subs[0]] + SubscriptionsOf(subs[1..], userId)
      else SubscriptionsOf(subs[1..], userId)
  }

  /** Selecting a user's subscriptions keeps store order: it distributes over concatenation. */
  lemma {:induction false} SubscriptionsOfAppend(a: seq<PushSubscription>, b: seq<PushSubscription>, userId: int)
    ensures SubscriptionsOf(a + b, userId) == SubscriptionsOf(a, userId) + SubscriptionsOf(b, userId)
  {
    if a == [] {
      assert a + b == b;
    } else {
      assert (a + b)[1..] == a[1..] + b;
      SubscriptionsOfAppend(a[1..], b, userId);
    }
  }

  /** Primary-key lookup of a user (`db.Users.FindAsync(id)`). */
  function FindUser(users: seq<User>, id: int): (r: Option<User>)
    ensures r.Some? ==> r.value in users && r.value.id == id
    ensures r.None? <==> forall u :: u in users ==> u.id != id
  {
    if users == [] then None
    else if users[0].id == id then Some(users[0])
    else FindUser(users[1..], id)
  }

  /** The navigation property PushSubscription.User: the user the foreign key points at. */
  function Owner(users: seq<User>, s: PushSubscription): (owner: Option<User>)
    ensures owner.Some? ==> owner.value in users && owner.value.id == s.userId
    ensures owner.None? <==> forall u :: u in users ==> u.id != s.userId
  {
    FindUser(users, s.userId)
  }

  /** Identity values are assigned in increasing order, so no two rows share one. */
  ghost predicate UserIdsIncreasing(users: seq<User>)
  {
    forall i, j :: 0 <= i < j < |users| ==> users[i].id < users[j].id
  }

  /** Every subscription's foreign key resolves to a stored user. */
  ghost predicate OwnersExist(users: seq<User>, subs: seq<PushSubscription>)
  {
    forall s :: s in subs ==> Owner(users, s).Some?
  }

  /**
   * Each stored subscription belongs to exactly one user: its owner's
   * Subscriptions collection holds it and no other user's does.
   */
  lemma OwnerIsUnique(users: seq<User>, subs: seq<PushSubscription>, s: PushSubscription)
    requires UserIdsIncreasing(users) && OwnersExist(users, subs)
    requires s in subs
    ensures Owner(users, s).Some?
    ensures s in SubscriptionsOf(subs, Owner(users, s).value.id)
    ensures forall u :: u in users && u != Owner(users, s).value ==> s !in SubscriptionsOf(subs, u.id)
  {
  }
}
