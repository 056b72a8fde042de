/**
 * The `FirebaseDeviceStore` object: its four mutable fields and one method per
 * entry point or callback. Every method is tied to `Subscription.Step`, so the
 * lemmas proved there hold of the object too.
 *
 * The platform's callbacks are explicit methods: the permission answer
 * (`OnAuthorization`), the instance-id fetch result (`OnInstanceIdResult`) and the
 * auth state listener (`OnAuthStateChanged`). Ghost bookkeeping records which of
 * them can still arrive, so that each is only called when the platform could call it.
 */
module DeviceStore {
  import opened Wrappers
  import opened DeviceDocument
  import opened Subscription

  /** An error reported by the notification permission request. */
  type PlatformError = string

  /** A completion handler either already called with its argument, or left to a later callback. */
  datatype Completion = Pending | Completed(error: Option<PlatformError>)

  /** Callbacks the platform still owes the store. */
  datatype Outstanding = Outstanding(permissionRequests: nat, tokenFetches: nat, listeners: set<ListenerHandle>)

  class FirebaseDeviceStore {
    var authSubscription: Option<ListenerHandle>
    var currentToken: Option<string>
    var currentUser: Option<string>
    var subscribed: bool

    /** Unanswered permission requests, unanswered token fetches, and registered auth listeners. */
    ghost var outstanding: Outstanding

    ghost function Snapshot(): State
      reads this
    {
      State(subscribed, currentUser, currentToken, authSubscription)
    }

    ghost predicate Valid()
      reads this
    {
      Consistent(Snapshot())
      && (authSubscription.Some? ==> authSubscription.value in outstanding.listeners)
    }

    constructor ()
      ensures Valid()
      ensures Snapshot() == Initial
      ensures outstanding == Outstanding(0, 0, {})
    {
      authSubscription := None;
      currentToken := None;
      currentUser := None;
      subscribed := false;
      outstanding := Outstanding(0, 0, {});
    }

    /** The messaging delegate's token callback; `request` is the `updateDevice` call it makes, if any. */
    method DidReceiveRegistrationToken(fcmToken: string) returns (request: Option<Write>)
      requires Valid()
      modifies this
      ensures Valid() && outstanding == old(outstanding)
      ensures !old(subscribed) ==> request == None && Snapshot() == old(Snapshot())
      ensures old(subscribed) ==>
                && currentToken == Some(fcmToken)
                && subscribed == old(subscribed) && currentUser == old(currentUser)
                && authSubscription == old(authSubscription)
                && (request.Some? <==> Some(fcmToken) != old(currentToken) && old(currentUser).Some?)
                && (request.Some? ==> request == Some(Upsert(old(currentUser).value, fcmToken)))
      ensures Outcome(Snapshot(), request) == Step(old(Snapshot()), TokenDelivered(fcmToken))
    {
      request := None;
      if !subscribed {
        return;
      }
      if Some(fcmToken) != currentToken && currentUser.Some? {
        request := Some(Upsert(currentUser.value, fcmToken));
      }
      currentToken := Some(fcmToken);
    }

    /**
     * `signOut`: with a user and a token cached, the device is deleted from the user's
     * document and the completion waits for that write; otherwise it is called at once.
     */
    method SignOut() returns (request: Option<Write>, completion: Completion)
      requires Valid()
      modifies this
      ensures Valid() && outstanding == old(outstanding)
      ensures currentUser == None
      ensures subscribed == old(subscribed) && currentToken == old(currentToken)
      ensures authSubscription == old(authSubscription)
      ensures request.Some? <==> old(currentUser).Some? && old(currentToken).Some?
      ensures request.Some? ==> request == Some(Delete(old(currentUser).value)) && completion == Pending
      ensures request.None? ==> completion == Completed(None)
      ensures Outcome(Snapshot(), request) == Step(old(Snapshot()), SignOutCalled)
    {
      if currentUser.Some? && currentToken.Some? {
        var uid := currentUser.value;
        currentUser := None;
        request, completion := Some(Delete(uid)), Pending;
      } else {
        currentUser := None;
        request, completion := None, Completed(None);
      }
    }

    /** `subscribe`: completes at once when already subscribed, otherwise asks for notification permission. */
    method Subscribe() returns (completion: Completion)
      requires Valid()
      modifies this
      ensures Valid() && Snapshot() == old(Snapshot())
      ensures old(subscribed) ==> completion == Completed(None) && outstanding == old(outstanding)
      ensures !old(subscribed) ==>
                && completion == Pending
                && outstanding == old(outstanding).(permissionRequests := old(outstanding).permissionRequests + 1)
      ensures Outcome(Snapshot(), None) == Step(old(Snapshot()), SubscribeCalled)
    {
      if subscribed {
        completion := Completed(None);
        return;
      }
      outstanding := outstanding.(permissionRequests := outstanding.permissionRequests + 1);
      completion := Pending;
    }

    /**
     * The permission request's callback. A refusal hands the platform's error (which
     * may be none) to `subscribe`'s completion; a grant subscribes and completes with none.
     * `authUser` is the auth service's current user and `handle` the handle it returns
     * for the new listener.
     */
    method OnAuthorization(granted: bool, error: Option<PlatformError>, authUser: Option<string>,
                           handle: ListenerHandle) returns (result: Option<PlatformError>)
      requires Valid() && outstanding.permissionRequests > 0
      requires granted ==> handle !in outstanding.listeners
      modifies this
      ensures Valid()
      ensures !granted ==>
                && result == error && Snapshot() == old(Snapshot())
                && outstanding == old(outstanding).(permissionRequests := old(outstanding).permissionRequests - 1)
      ensures granted ==>
                && result == None
                && subscribed && currentUser == authUser && authSubscription == Some(handle)
                && currentToken == old(currentToken)
                && outstanding == Outstanding(old(outstanding).permissionRequests - 1,
                                              old(outstanding).tokenFetches + 1,
                                              old(outstanding).listeners + {handle})
      ensures Outcome(Snapshot(), None) == Step(old(Snapshot()), PermissionAnswered(granted, authUser, handle))
    {
      outstanding := outstanding.(permissionRequests := outstanding.permissionRequests - 1);
      if !granted {
        result := error;
      } else {
        DoSubscribe(authUser, handle);
        result := None;
      }
    }

    /** `doSubscribe`: raise the flag, snapshot the user, start the token fetch, register the auth listener. */
    method DoSubscribe(authUser: Option<string>, handle: ListenerHandle)
      requires Valid() && handle !in outstanding.listeners
      modifies this
      ensures Valid()
      ensures Snapshot() == Subscribed(old(Snapshot()), authUser, handle)
      ensures outstanding == old(outstanding).(tokenFetches := old(outstanding).tokenFetches + 1,
                                               listeners := old(outstanding).listeners + {handle})
    {
      subscribed := true;
      currentUser := authUser;
      outstanding := outstanding.(tokenFetches := outstanding.tokenFetches + 1);
      authSubscription := Some(handle);
      outstanding := outstanding.(listeners := outstanding.listeners + {handle});
    }

    /** The instance-id fetch's callback; `result` is None when it failed. */
    method OnInstanceIdResult(result: Option<string>) returns (request: Option<Write>)
      requires Valid() && outstanding.tokenFetches > 0
      modifies this
      ensures Valid()
      ensures outstanding == old(outstanding).(tokenFetches := old(outstanding).tokenFetches - 1)
      ensures result.None? ==> request == None && Snapshot() == old(Snapshot())
      ensures result.Some? ==>
                && currentToken == result
                && subscribed == old(subscribed) && currentUser == old(currentUser)
                && authSubscription == old(authSubscription)
                && (request.Some? <==> old(currentUser).Some?)
                && (request.Some? ==> request == Some(Upsert(old(currentUser).value, result.value)))
      ensures Outcome(Snapshot(), request) == Step(old(Snapshot()), TokenFetched(result))
    {
      outstanding := outstanding.(tokenFetches := outstanding.tokenFetches - 1);
      request := None;
      if result.Some? {
        currentToken := result;
        if currentToken.Some? && currentUser.Some? {
          request := Some(Upsert(currentUser.value, currentToken.value));
        }
      }
    }

    /** The auth state listener, called by any listener this store registered and has not removed. */
    method OnAuthStateChanged(user: Option<string>) returns (request: Option<Write>)
      requires Valid() && outstanding.listeners != {}
      modifies this
      ensures Valid() && outstanding == old(outstanding)
      ensures subscribed == old(subscribed) && currentToken == old(currentToken)
      ensures authSubscription == old(authSubscription)
      ensures user.Some? && old(currentUser).None? ==>
                currentUser == user
                && (request.Some? <==> old(currentToken).Some?)
                && (request.Some? ==> request == Some(Upsert(user.value, old(currentToken).value)))
      ensures user.None? ==> currentUser == None && request == None
      ensures user.Some? && old(currentUser).Some? ==> currentUser == old(currentUser) && request == None
      ensures Outcome(Snapshot(), request) == Step(old(Snapshot()), AuthChanged(user))
    {
      request := None;
      if user.Some? && currentUser.None? {
        currentUser := user;
        if currentToken.Some? {
          request := Some(Upsert(currentUser.value, currentToken.value));
        }
      } else if user.None? && currentUser.Some? {
        currentUser := user;
      }
    }

    /** `unsubscribe`: remove the held listener and clear every cached field. */
    method Unsubscribe()
      requires Valid()
      modifies this
      ensures Valid()
      ensures Snapshot() == Initial
      ensures old(authSubscription).Some? ==>
                outstanding == old(outstanding).(listeners := old(outstanding).listeners - {old(authSubscription).value})
      ensures old(authSubscription).None? ==> outstanding == old(outstanding)
      ensures Outcome(Snapshot(), None) == Step(old(Snapshot()), UnsubscribeCalled)
    {
      if authSubscription.Some? {
        outstanding := outstanding.(listeners := outstanding.listeners - {authSubscription.value});
        authSubscription := None;
      }
      currentToken := None;
      currentUser := None;
      subscribed := false;
    }
  }
}
