/**
 * The subscription state machine of the device store as a pure transition
 * function: the four cached fields, the events that drive them and the write
 * each event asks for. The class in DeviceStore.dfy is proved to follow it.
 */
module Subscription {
  import opened Wrappers
  import opened DeviceDocument

  /** The handle the auth service returns for a registered state listener. */
  type ListenerHandle = nat

  /** The controller's fields: the flag, the cached user id, the cached token, the listener handle. */
  datatype State = State(subscribed: bool, currentUser: Option<string>, currentToken: Option<string>,
                         authSubscription: Option<ListenerHandle>)

  /** A freshly constructed store, and the state `unsubscribe` returns to. */
  const Initial: State := State(false, None, None, None)

  /** Everything that can reach the controller, in the order it is processed. */
  datatype Event =
    | TokenDelivered(token: string)                                       // messaging delegate
    | SignOutCalled                                                       // signOut()
    | SubscribeCalled                                                     // subscribe()
    | PermissionAnswered(granted: bool, authUser: Option<string>, handle: ListenerHandle)
                                                                          // authorization callback, then doSubscribe
    | TokenFetched(result: Option<string>)                                // instanceID callback; None is an error
    | AuthChanged(user: Option<string>)                                   // auth state listener
    | UnsubscribeCalled                                                   // unsubscribe()

  /** The state after an event and the write it requested, if any. */
  datatype Outcome = Outcome(next: State, write: Option<Write>)

  /** The messaging delegate: ignored unless subscribed; a changed token is written for a cached user. */
  function DeliverToken(s: State, token: string): Outcome
  {
    if !s.subscribed then Outcome(s, None)
    else
      var w := if Some(token) != s.currentToken && s.currentUser.Some?
               then Some(Upsert(s.currentUser.value, token)) else None;
      Outcome(s.(currentToken := Some(token)), w)
  }

  /** `signOut`: forget the user; delete this device from its document only when a token was cached too. */
  function SignOutStep(s: State): Outcome
  {
    var w := if s.currentUser.Some? && s.currentToken.Some? then Some(Delete(s.currentUser.value)) else None;
    Outcome(s.(currentUser := None), w)
  }

  /** `doSubscribe`: raise the flag, snapshot the signed-in user, keep the listener's handle. */
  function Subscribed(s: State, authUser: Option<string>, handle: ListenerHandle): State
  {
    s.(subscribed := true, currentUser := authUser, authSubscription := Some(handle))
  }

  /** The answer to the permission request: subscribe when granted, nothing otherwise. */
  function AnswerPermission(s: State, granted: bool, authUser: Option<string>, handle: ListenerHandle): Outcome
  {
    if granted then Outcome(Subscribed(s, authUser, handle), None) else Outcome(s, None)
  }

  /** The token-fetch callback: a result is cached and written for a cached user; an error changes nothing. */
  function FetchToken(s: State, result: Option<string>): Outcome
  {
    match result
    case None => Outcome(s, None)
    case Some(t) =>
      Outcome(s.(currentToken := Some(t)),
              if s.currentUser.Some? then Some(Upsert(s.currentUser.value, t)) else None)
  }

  /** The auth listener: a user appearing is cached (and written with a cached token); a user leaving is forgotten. */
  function ChangeAuth(s: State, user: Option<string>): Outcome
  {
    if user.Some? && s.currentUser.None? then
      Outcome(s.(currentUser := user),
              if s.currentToken.Some? then Some(Upsert(user.value, s.currentToken.value)) else None)
    else if user.None? && s.currentUser.Some? then
      Outcome(s.(currentUser := None), None)
    else
      Outcome(s, None)
  }

  function Step(s: State, e: Event): Outcome
  {
    match e
    case TokenDelivered(t) => DeliverToken(s, t)
    case SignOutCalled => SignOutStep(s)
    case SubscribeCalled => Outcome(s, None)
    case PermissionAnswered(g, u, h) => AnswerPermission(s, g, u, h)
    case TokenFetched(r) => FetchToken(s, r)
    case AuthChanged(u) => ChangeAuth(s, u)
    case UnsubscribeCalled => Outcome(Initial, None)
  }

  function WriteSeq(w: Option<Write>): seq<Write>
  {
    match w
    case None => []
    case Some(x) => [x]
  }

  /** The final state of a run of events and the writes it requested, in order. */
  datatype Trace = Trace(last: State, writes: seq<Write>)

  function Run(s: State, events: seq<Event>): Trace
    decreases |events|
  {
    if events == [] then Trace(s, [])
    else
      var o := Step(s, events[0]);
      var rest := Run(o.next, events[1..]);
      Trace(rest.last, WriteSeq(o.write) + rest.writes)
  }

  /** The flag is raised exactly when a listener handle is held. */
  predicate Consistent(s: State)
  {
    s.subscribed == s.authSubscription.Some?
  }

  /** Whenever a user and a token are both cached, this device is registered for that user with that token. */
  predicate Synced(s: State, c: Collection, desc: Descriptor)
  {
    s.currentUser.Some? && s.currentToken.Some? ==>
      Registered(c, desc, s.currentUser.value, s.currentToken.value)
  }

  /**
   * A permission grant that swaps in a different user while a token is cached:
   * `doSubscribe` does not write, so until the token fetch it starts comes back the
   * new pair is not registered.
   */
  predicate StaleGrant(s: State, e: Event)
  {
    e.PermissionAnswered? && e.granted && s.currentToken.Some? && e.authUser.Some?
    && e.authUser != s.currentUser
  }

  /** No event of the run is a stale grant, judged in the state it arrives in. */
  ghost predicate NoStaleGrant(s: State, events: seq<Event>)
    decreases |events|
  {
    events == [] || (!StaleGrant(s, events[0]) && NoStaleGrant(Step(s, events[0]).next, events[1..]))
  }

  function ApplyOutcome(c: Collection, desc: Descriptor, w: Option<Write>): Collection
  {
    match w
    case None => c
    case Some(x) => ApplyWrite(c, desc, x)
  }

  /** A token delivered while not subscribed changes nothing and writes nothing. */
  lemma DeliveryIgnoredWhenUnsubscribed(s: State, token: string)
    requires !s.subscribed
    ensures Step(s, TokenDelivered(token)) == Outcome(s, None)
  {
  }

  /**
   * While subscribed, a delivery writes exactly when the token changed and a user is
   * cached, and always caches the delivered token.
   */
  lemma DeliveryWritesChangedToken(s: State, token: string)
    requires s.subscribed
    ensures Step(s, TokenDelivered(token)).next == s.(currentToken := Some(token))
    ensures Step(s, TokenDelivered(token)).write.Some?
        <==> Some(token) != s.currentToken && s.currentUser.Some?
    ensures Step(s, TokenDelivered(token)).write.Some? ==>
              Step(s, TokenDelivered(token)).write == Some(Upsert(s.currentUser.value, token))
  {
  }

  /** Delivering the same token again changes nothing and writes nothing. */
  lemma RepeatedDeliveryIsQuiet(s: State, token: string)
    ensures var o := Step(s, TokenDelivered(token));
            Step(o.next, TokenDelivered(token)) == Outcome(o.next, None)
  {
  }

  /**
   * `subscribe` itself changes no field and writes nothing, subscribed or not; whether
   * it asks for permission is stated by `FirebaseDeviceStore.Subscribe`.
   */
  lemma SubscribeChangesNoState(s: State)
    ensures Step(s, SubscribeCalled) == Outcome(s, None)
  {
  }

  /** Unsubscribing twice is unsubscribing once. */
  lemma UnsubscribeIdempotent(s: State)
    ensures Step(Step(s, UnsubscribeCalled).next, UnsubscribeCalled) == Step(s, UnsubscribeCalled)
    ensures Step(s, UnsubscribeCalled).next == State(false, None, None, None)
  {
  }

  /** A user disappearing is forgotten and never costs this device its registration. */
  lemma LosingUserNeverDeletes(s: State)
    ensures Step(s, AuthChanged(None)).write == None
    ensures Step(s, AuthChanged(None)).next.currentUser == None
  {
  }

  /** Any user arriving while one is cached, the same one or another, changes nothing. */
  lemma SwitchingUserIgnored(s: State, user: string)
    requires s.currentUser.Some?
    ensures Step(s, AuthChanged(Some(user))) == Outcome(s, None)
  {
  }

  lemma StepKeepsConsistent(s: State, e: Event)
    requires Consistent(s)
    ensures Consistent(Step(s, e).next)
  {
  }

  /** Along any run the flag and the listener handle agree. */
  lemma {:induction false} RunKeepsConsistent(s: State, events: seq<Event>)
    requires Consistent(s)
    ensures Consistent(Run(s, events).last)
    decreases |events|
  {
    if events != [] {
      StepKeepsConsistent(s, events[0]);
      RunKeepsConsistent(Step(s, events[0]).next, events[1..]);
    }
  }

  /** Every event but a stale grant keeps the cached pair registered. */
  lemma StepPreservesSynced(s: State, c: Collection, desc: Descriptor, e: Event)
    requires Synced(s, c, desc) && !StaleGrant(s, e)
    ensures Synced(Step(s, e).next, ApplyOutcome(c, desc, Step(s, e).write), desc)
  {
  }

  /**
   * Along any run without a stale grant, whenever a user and a token are both cached
   * the collection holds exactly one record for this device under that user, carrying
   * that token, after the run's writes.
   */
  lemma {:induction false} RunPreservesSynced(s: State, c: Collection, desc: Descriptor, events: seq<Event>)
    requires Synced(s, c, desc) && NoStaleGrant(s, events)
    ensures Synced(Run(s, events).last, ApplyWrites(c, desc, Run(s, events).writes), desc)
    decreases |events|
  {
    if events != [] {
      var o := Step(s, events[0]);
      var c' := ApplyOutcome(c, desc, o.write);
      StepPreservesSynced(s, c, desc, events[0]);
      RunPreservesSynced(o.next, c', desc, events[1..]);
      var rest := Run(o.next, events[1..]).writes;
      match o.write
      case None =>
        assert Run(s, events).writes == rest;
      case Some(w) =>
        assert Run(s, events).writes == [w] + rest;
        assert ([w] + rest)[1..] == rest;
    }
  }

  /** Token deliveries, token fetches and auth changes are never stale grants. */
  predicate IsSignal(e: Event)
  {
    e.TokenDelivered? || e.TokenFetched? || e.AuthChanged?
  }

  lemma {:induction false} SignalsHaveNoStaleGrant(s: State, events: seq<Event>)
    requires forall i :: 0 <= i < |events| ==> IsSignal(events[i])
    ensures NoStaleGrant(s, events)
    decreases |events|
  {
    if events != [] {
      SignalsHaveNoStaleGrant(Step(s, events[0]).next, events[1..]);
    }
  }

  /**
   * Any interleaving of auth changes, token deliveries and token fetches keeps the
   * cached user and token registered, and the collection well formed.
   */
  lemma SignalsKeepSynced(s: State, c: Collection, desc: Descriptor, events: seq<Event>)
    requires Synced(s, c, desc) && WellFormed(c)
    requires forall i :: 0 <= i < |events| ==> IsSignal(events[i])
    ensures Synced(Run(s, events).last, ApplyWrites(c, desc, Run(s, events).writes), desc)
    ensures WellFormed(ApplyWrites(c, desc, Run(s, events).writes))
  {
    SignalsHaveNoStaleGrant(s, events);
    RunPreservesSynced(s, c, desc, events);
    ApplyWritesPreservesWellFormed(c, desc, Run(s, events).writes);
  }

  /** A token delivered while subscribed with a user cached is the token registered for that user. */
  lemma DeliveredTokenIsRegistered(s: State, c: Collection, desc: Descriptor, token: string)
    requires Synced(s, c, desc) && s.subscribed && s.currentUser.Some?
    ensures var o := Step(s, TokenDelivered(token));
            Registered(ApplyOutcome(c, desc, o.write), desc, s.currentUser.value, token)
  {
  }

  /** Without `signOut` no run ever asks to delete this device. */
  lemma {:induction false} OnlySignOutDeletes(s: State, events: seq<Event>)
    requires forall i :: 0 <= i < |events| ==> !events[i].SignOutCalled?
    ensures forall i :: 0 <= i < |Run(s, events).writes| ==> Run(s, events).writes[i].Upsert?
    decreases |events|
  {
    if events != [] {
      OnlySignOutDeletes(Step(s, events[0]).next, events[1..]);
    }
  }

  /** While not subscribed, any run of token deliveries changes nothing and writes nothing. */
  lemma {:induction false} UnsubscribedDeliveriesIgnored(s: State, events: seq<Event>)
    requires !s.subscribed
    requires forall i :: 0 <= i < |events| ==> events[i].TokenDelivered?
    ensures Run(s, events) == Trace(s, [])
    decreases |events|
  {
    if events != [] {
      UnsubscribedDeliveriesIgnored(s, events[1..]);
    }
  }

  /** Why stale grants are excluded above: one can leave the cached pair unregistered. */
  lemma StaleGrantCanUnsync(desc: Descriptor)
    ensures var s := State(true, Some("u1"), Some("tok"), Some(0));
            var c := UpdateDevice(map[], desc, "u1", "tok");
            var e := PermissionAnswered(true, Some("u2"), 1);
            Synced(s, c, desc) && StaleGrant(s, e)
            && !Synced(Step(s, e).next, ApplyOutcome(c, desc, Step(s, e).write), desc)
  {
  }
}
