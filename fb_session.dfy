/** The stateful half of src/lib/fb.js: the local store, the per-sign-in
    subscription guard returned as `firestoreUserUnsubscribe`, and the session
    created by `initialize` with its closure variables `lastSavedUrl` and
    `firestoreUserUnsubscribe` and its two handlers. */
module FbSession {
  import opened Js
  import opened FbDocument
  import opened FbReconcile

  /** The process-wide store; `setState` merges the given fields into `state`. */
  class Store {
    var state: LocalState

    constructor (init: LocalState)
      ensures state == init
    {
      state := init;
    }
  }

  /** The handle `ref.onSnapshot(...)` returns for an attached listener. */
  type ListenerId = nat

  /** The closure built for one sign-in: it waits for the document reference,
      attaches the snapshot listener only if it has not been cancelled by then,
      and on cancellation detaches a listener that is attached. */
  class SubscriptionGuard {
    var unsubscribed: bool
    var internalUnsubscribe: Option<ListenerId>
    /** The `userRef()` promise has resolved or rejected. */
    var refSettled: bool
    /** Calls of `ref.onSnapshot` made by this guard. */
    var attachCount: nat
    /** Calls of the inner detach function made by this guard. */
    var detachCount: nat

    ghost predicate Valid()
      reads this
    {
      && detachCount <= attachCount
      && attachCount <= (if refSettled then 1 else 0)
      && (internalUnsubscribe.Some? <==> attachCount == 1 && detachCount == 0)
      && (unsubscribed ==> internalUnsubscribe.None?)
    }

    /** A listener attached by this guard is live. */
    predicate Listening()
      reads this
    {
      internalUnsubscribe.Some?
    }

    constructor ()
      ensures Valid()
      ensures !unsubscribed && !refSettled && internalUnsubscribe.None?
      ensures attachCount == 0 && detachCount == 0
    {
      unsubscribed := false;
      internalUnsubscribe := None;
      refSettled := false;
      attachCount := 0;
      detachCount := 0;
    }

    /** The `userRef()` promise resolves: attach the listener unless the guard
        was cancelled in the meantime. */
    method RefResolved(listener: ListenerId)
      requires Valid() && !refSettled
      modifies this
      ensures Valid() && refSettled
      ensures unsubscribed == old(unsubscribed) && detachCount == old(detachCount)
      ensures old(unsubscribed) ==> internalUnsubscribe.None? && attachCount == old(attachCount)
      ensures !old(unsubscribed) ==> internalUnsubscribe == Some(listener) && attachCount == old(attachCount) + 1
    {
      refSettled := true;
      if !unsubscribed {
        internalUnsubscribe := Some(listener);
        attachCount := attachCount + 1;
      }
    }

    /** The `userRef()` promise rejects (the library failed to load): the error
        is reported and nothing is attached. */
    method RefFailed()
      requires Valid() && !refSettled
      modifies this
      ensures Valid() && refSettled
      ensures unsubscribed == old(unsubscribed) && internalUnsubscribe == old(internalUnsubscribe)
      ensures attachCount == old(attachCount) && detachCount == old(detachCount)
    {
      refSettled := true;
    }

    /** The returned closure: mark the guard cancelled and detach the listener
        if one is attached. Returns the listener it detached, if any. */
    method Unsubscribe() returns (detached: Option<ListenerId>)
      requires Valid()
      modifies this
      ensures Valid() && unsubscribed && internalUnsubscribe.None?
      ensures detached == old(internalUnsubscribe)
      ensures detachCount == old(detachCount) + (if detached.Some? then 1 else 0)
      ensures attachCount == old(attachCount) && refSettled == old(refSettled)
    {
      unsubscribed := true;
      detached := internalUnsubscribe;
      if internalUnsubscribe.Some? {
        detachCount := detachCount + 1;
        internalUnsubscribe := None;
      }
    }
  }

  /** The session `initialize` sets up once the app library has loaded. */
  class Session {
    const store: Store
    var lastSavedUrl: Option<string>
    /** `firestoreUserUnsubscribe`; `null` stands for the initial no-op. */
    var unsubscribe: SubscriptionGuard?
    /** The `saveUserUrl` calls the snapshot handler has started, in order. */
    var saves: seq<SaveRequest>

    ghost predicate Valid()
      reads this, unsubscribe
    {
      unsubscribe != null ==> unsubscribe.Valid()
    }

    constructor (store: Store)
      ensures Valid()
      ensures this.store == store && lastSavedUrl.None? && unsubscribe == null && saves == []
    {
      this.store := store;
      lastSavedUrl := None;
      unsubscribe := null;
      saves := [];
    }

    /** `onUserSnapshot`: reconcile one pushed version of the document. */
    method OnUserSnapshot(snapshot: Option<UserDoc>)
      modifies this`lastSavedUrl, this`saves, store
      ensures var r := Reconcile(old(store.state), old(lastSavedUrl), snapshot);
        && store.state == r.state
        && lastSavedUrl == r.lastSaved
        && saves == old(saves) + (if r.save.Some? then [r.save.value] else [])
    {
      var saveNewUrlToState := false;
      var data := DataOrEmpty(snapshot);
      var savedUrl := SavedUrl(data);
      var st := store.state;
      if st.activeLighthouseUrl.Some? {
        // the running audit writes its own result
      } else if Truthy(lastSavedUrl) && lastSavedUrl.value != savedUrl {
        saveNewUrlToState := true;
      } else if !Truthy(st.userUrl) {
        saveNewUrlToState := true;
      } else if !Truthy(lastSavedUrl) && Truthy(st.userUrl) {
        saves := saves + [SaveRequest(st.userUrl.value, st.userUrlSeen)];
        lastSavedUrl := st.userUrl;
        return;
      }
      lastSavedUrl := Some(savedUrl);
      if saveNewUrlToState {
        var seen := if savedUrl in data.urls then Some(data.urls[savedUrl]) else None;
        store.state := store.state.(userUrl := Some(savedUrl), userUrlSeen := seen,
                                    userUrlResultsPending := savedUrl != "");
      }
    }

    /** `clearSignedInState()` of the actions module, as far as this model
        needs it: the session is marked signed out. */
    method ClearSignedInState()
      modifies store
      ensures store.state == old(store.state).(isSignedIn := false, user := None)
    {
      store.state := store.state.(isSignedIn := false, user := None);
    }

    /** The `onAuthStateChanged` handler, for a sign-out (`None`) or a sign-in. */
    method OnAuthStateChanged(user: Option<User>)
      requires Valid()
      modifies this, store, unsubscribe
      ensures Valid()
      ensures !store.state.checkingSignedInState
      // the previous guard is always torn down
      ensures old(unsubscribe) != null ==> old(unsubscribe).unsubscribed && !old(unsubscribe).Listening()
      ensures old(unsubscribe) != null ==>
        old(unsubscribe).refSettled == old(unsubscribe.refSettled) &&
        old(unsubscribe).attachCount == old(unsubscribe.attachCount)
      // a local URL (and a running audit) survive both sign-in and sign-out
      ensures store.state.userUrl == old(store.state.userUrl)
      ensures store.state.userUrlSeen == old(store.state.userUrlSeen)
      ensures store.state.userUrlResultsPending == old(store.state.userUrlResultsPending)
      ensures store.state.activeLighthouseUrl == old(store.state.activeLighthouseUrl)
      ensures saves == old(saves)
      ensures user.None? ==>
        !store.state.isSignedIn && store.state.user.None? &&
        unsubscribe == old(unsubscribe) && lastSavedUrl == old(lastSavedUrl)
      ensures user.Some? ==>
        store.state.isSignedIn && store.state.user == user && lastSavedUrl.None? &&
        fresh(unsubscribe) && !unsubscribe.unsubscribed && !unsubscribe.refSettled &&
        unsubscribe.attachCount == 0
    {
      store.state := store.state.(checkingSignedInState := false);
      if unsubscribe != null {
        var _ := unsubscribe.Unsubscribe();
      }
      if user.None? {
        ClearSignedInState();
        return;
      }
      store.state := store.state.(isSignedIn := true, user := user);
      lastSavedUrl := None;
      unsubscribe := new SubscriptionGuard();
    }

    /** A snapshot pushed to the listener `guard` attached: it reaches the
        handler only while that listener is attached. */
    method DeliverSnapshot(guard: SubscriptionGuard, snapshot: Option<UserDoc>)
      modifies this`lastSavedUrl, this`saves, store
      ensures !guard.Listening() ==>
        store.state == old(store.state) && lastSavedUrl == old(lastSavedUrl) && saves == old(saves)
      ensures guard.Listening() ==>
        var r := Reconcile(old(store.state), old(lastSavedUrl), snapshot);
        && store.state == r.state
        && lastSavedUrl == r.lastSaved
        && saves == old(saves) + (if r.save.Some? then [r.save.value] else [])
    {
      if guard.Listening() {
        OnUserSnapshot(snapshot);
      }
    }
  }

  /** Sign-in followed by sign-out before the document library has loaded:
      when the reference finally resolves, no listener is attached, and a
      later snapshot leaves the store alone. */
  method SignOutBeforeLibraryLoads(init: LocalState, u: User, listener: ListenerId,
                                   snapshot: Option<UserDoc>) returns (attached: bool, after: LocalState)
    ensures !attached
    ensures after.userUrl == init.userUrl && !after.isSignedIn
  {
    var store := new Store(init);
    var session := new Session(store);
    session.OnAuthStateChanged(Some(u));
    var guard := session.unsubscribe;
    session.OnAuthStateChanged(None);
    guard.RefResolved(listener);
    attached := guard.Listening();
    session.DeliverSnapshot(guard, snapshot);
    after := store.state;
  }

  /** Calling the unsubscribe closure twice detaches the listener once; the
      second call finds nothing to detach. */
  method UnsubscribeTwice(listener: ListenerId) returns (first: Option<ListenerId>, second: Option<ListenerId>, detaches: nat)
    ensures first == Some(listener) && second.None? && detaches == 1
  {
    var guard := new SubscriptionGuard();
    guard.RefResolved(listener);
    first := guard.Unsubscribe();
    second := guard.Unsubscribe();
    detaches := guard.detachCount;
  }
}
