/**
 * Clients of `FirebaseDeviceStore` that drive it through whole event sequences and
 * apply the writes it requests to a collection, using only the methods' contracts.
 */
module Scenarios {
  import opened Wrappers
  import opened DeviceDocument
  import opened Subscription
  import opened DeviceStore

  /**
   * A user signs in, a token arrives, the token rotates, the user signs out: one
   * record that follows the token, then an empty `devices` map in a document that
   * is still there and still names its owner.
   */
  method SignInRotateSignOut(desc: Descriptor) returns (afterA: Collection, afterB: Collection, afterSignOut: Collection)
    ensures afterA == map["u1" := UserDevices("u1", map[desc.deviceId := CreateDevice(desc, "tok-A")])]
    ensures afterB == map["u1" := UserDevices("u1", map[desc.deviceId := CreateDevice(desc, "tok-B")])]
    ensures afterSignOut == map["u1" := UserDevices("u1", map[])]
  {
    var store := new FirebaseDeviceStore();
    var pending := store.Subscribe();
    var answer := store.OnAuthorization(true, None, None, 0);
    var w := store.OnInstanceIdResult(None);
    assert w == None;
    w := store.OnAuthStateChanged(Some("u1"));
    assert w == None;
    var c: Collection := map[];
    w := store.DidReceiveRegistrationToken("tok-A");
    assert w == Some(Upsert("u1", "tok-A"));
    c := ApplyWrite(c, desc, w.value);
    afterA := c;
    w := store.DidReceiveRegistrationToken("tok-B");
    assert w == Some(Upsert("u1", "tok-B"));
    c := ApplyWrite(c, desc, w.value);
    afterB := c;
    assert afterB["u1"].devices == map[desc.deviceId := CreateDevice(desc, "tok-B")];
    var done;
    w, done := store.SignOut();
    assert w == Some(Delete("u1")) && done == Pending;
    c := ApplyWrite(c, desc, w.value);
    afterSignOut := c;
    assert afterSignOut["u1"].devices == map[];
  }

  /**
   * Subscribing while the user refuses notifications: the completion gets the
   * platform's error, the store stays unsubscribed and later tokens are ignored.
   */
  method PermissionRefused() returns (result: Option<PlatformError>, subscribedAfter: bool, request: Option<Write>)
    ensures result == Some("denied") && !subscribedAfter && request == None
  {
    var store := new FirebaseDeviceStore();
    var pending := store.Subscribe();
    result := store.OnAuthorization(false, Some("denied"), Some("u1"), 0);
    subscribedAfter := store.subscribed;
    request := store.DidReceiveRegistrationToken("tok-A");
  }

  /**
   * A token fetch that completes after `unsubscribe` leaves its token cached. When the
   * next subscription's fetch fails, the user is cached beside that token but no write
   * is ever requested for them, and delivering the same token again writes nothing.
   * `writes` collects every write the store requests, and `c` is the empty collection
   * after all of them.
   */
  method LateFetchAfterUnsubscribe(desc: Descriptor)
    returns (writes: seq<Write>, c: Collection, user: Option<string>, token: Option<string>)
    ensures user == Some("u1") && token == Some("tok")
    ensures writes == [] && c == ApplyWrites(map[], desc, writes)
    ensures !Registered(c, desc, "u1", "tok")
  {
    var store := new FirebaseDeviceStore();
    writes, c := [], map[];
    var pending := store.Subscribe();
    var none := store.OnAuthorization(true, None, None, 0);
    store.Unsubscribe();
    var w := store.OnInstanceIdResult(Some("tok"));
    writes, c := writes + WriteSeq(w), ApplyOutcome(c, desc, w);
    pending := store.Subscribe();
    none := store.OnAuthorization(true, None, Some("u1"), 1);
    w := store.OnInstanceIdResult(None);
    writes, c := writes + WriteSeq(w), ApplyOutcome(c, desc, w);
    w := store.DidReceiveRegistrationToken("tok");
    writes, c := writes + WriteSeq(w), ApplyOutcome(c, desc, w);
    user, token := store.currentUser, store.currentToken;
  }

  /**
   * Two `subscribe` calls made before the first permission answer both register an
   * auth listener; `unsubscribe` removes only the second, so the first still acts
   * after it and can ask for an upsert while the store is unsubscribed.
   */
  method OverlappingSubscribes() returns (subscribedAfter: bool, request: Option<Write>)
    ensures !subscribedAfter && request == Some(Upsert("u1", "tok"))
  {
    var store := new FirebaseDeviceStore();
    var p1 := store.Subscribe();
    var p2 := store.Subscribe();
    var r1 := store.OnAuthorization(true, None, None, 0);
    var r2 := store.OnAuthorization(true, None, None, 1);
    store.Unsubscribe();
    assert store.outstanding.listeners == {0};
    var w := store.OnInstanceIdResult(Some("tok"));
    assert w == None;
    request := store.OnAuthStateChanged(Some("u1"));
    subscribedAfter := store.subscribed;
  }
}
