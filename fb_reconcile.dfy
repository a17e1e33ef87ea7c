/** The reconciliation rule of `onUserSnapshot` in src/lib/fb.js: how a pushed
    version of the user's document is merged into the local store, given the
    URL the session last reconciled (`lastSavedUrl`). */
module FbReconcile {
  import opened Js
  import opened FbDocument

  /** The fields of the local store the sync engine reads or writes. */
  datatype LocalState = LocalState(
    isSignedIn: bool,
    user: Option<User>,
    userUrl: Option<string>,
    userUrlSeen: Option<Timestamp>,
    userUrlResultsPending: bool,
    activeLighthouseUrl: Option<string>,
    checkingSignedInState: bool)

  /** Which branch of the handler's `if` chain a snapshot takes. */
  datatype Decision =
    | AuditInFlight   // a local Lighthouse run owns the URL
    | CrossDevice     // another device changed the URL since the last snapshot
    | AdoptRemote     // no local URL yet: take the remote one
    | PushLocal       // first snapshot, local URL exists: write it remotely
    | UpToDate        // nothing this engine tracks changed

  /** A call `saveUserUrl(url, auditedOn)` the handler starts and does not await. */
  datatype SaveRequest = SaveRequest(url: string, auditedOn: Option<Timestamp>)

  /** The handler's result: the new store, the new `lastSavedUrl` and the save
      it started, if any. */
  datatype Reconciled = Reconciled(state: LocalState, lastSaved: Option<string>, save: Option<SaveRequest>)

  function Decide(st: LocalState, lastSaved: Option<string>, savedUrl: string): (d: Decision)
    ensures d == CrossDevice ==> Truthy(lastSaved)
    ensures d == PushLocal ==> Truthy(st.userUrl) && !Truthy(lastSaved)
  {
    if st.activeLighthouseUrl.Some? then AuditInFlight
    else if Truthy(lastSaved) && lastSaved.value != savedUrl then CrossDevice
    else if !Truthy(st.userUrl) then AdoptRemote
    else if !Truthy(lastSaved) && Truthy(st.userUrl) then PushLocal
    else UpToDate
  }

  /** The store after taking the remote URL: the URL itself (`''` when unset),
      its first-seen stamp when the document has one, and a pending-results
      flag that is set exactly when the URL is non-empty. */
  function Adopt(st: LocalState, data: UserDoc): (s: LocalState)
    ensures s.userUrl == Some(SavedUrl(data))
    ensures SavedUrl(data) in data.urls ==> s.userUrlSeen == Some(data.urls[SavedUrl(data)])
    ensures SavedUrl(data) !in data.urls ==> s.userUrlSeen.None?
    ensures s.userUrlResultsPending <==> Truthy(data.currentUrl)
    ensures s.(userUrl := st.userUrl, userUrlSeen := st.userUrlSeen,
               userUrlResultsPending := st.userUrlResultsPending) == st
  {
    var savedUrl := SavedUrl(data);
    st.(userUrl := Some(savedUrl),
        userUrlSeen := if savedUrl in data.urls then Some(data.urls[savedUrl]) else None,
        userUrlResultsPending := savedUrl != "")
  }

  /** One run of `onUserSnapshot` on `snapshot` (`None` for a user with no
      document yet). */
  function Reconcile(st: LocalState, lastSaved: Option<string>, snapshot: Option<UserDoc>): (r: Reconciled)
    // only the three URL fields of the store are ever written
    ensures r.state.(userUrl := st.userUrl, userUrlSeen := st.userUrlSeen,
                     userUrlResultsPending := st.userUrlResultsPending) == st
    // a save is started only on a first snapshot, for the local URL and its stamp
    ensures r.save.Some? <==> st.activeLighthouseUrl.None? && !Truthy(lastSaved) && Truthy(st.userUrl)
    ensures r.save.Some? ==> r.save.value == SaveRequest(st.userUrl.value, st.userUrlSeen) && r.state == st
    // afterwards the session always remembers a URL
    ensures r.lastSaved.Some?
  {
    var data := DataOrEmpty(snapshot);
    var savedUrl := SavedUrl(data);
    match Decide(st, lastSaved, savedUrl)
    case PushLocal => Reconciled(st, st.userUrl, Some(SaveRequest(st.userUrl.value, st.userUrlSeen)))
    case CrossDevice => Reconciled(Adopt(st, data), Some(savedUrl), None)
    case AdoptRemote => Reconciled(Adopt(st, data), Some(savedUrl), None)
    case AuditInFlight => Reconciled(st, Some(savedUrl), None)
    case UpToDate => Reconciled(st, Some(savedUrl), None)
  }

  /** While a local audit owns the URL, a snapshot leaves the store alone and
      only moves `lastSavedUrl` to the snapshot's URL. */
  lemma DefersToActiveAudit(st: LocalState, lastSaved: Option<string>, snapshot: Option<UserDoc>)
    requires st.activeLighthouseUrl.Some?
    ensures Reconcile(st, lastSaved, snapshot) == Reconciled(st, Some(SavedUrl(DataOrEmpty(snapshot))), None)
  {
  }

  /** A snapshot whose URL is the (non-empty) one last reconciled, with a local
      URL present, changes nothing in the store. */
  lemma IgnoresUnchangedUrl(st: LocalState, lastSaved: Option<string>, snapshot: Option<UserDoc>)
    requires lastSaved == Some(SavedUrl(DataOrEmpty(snapshot))) && Truthy(lastSaved)
    requires Truthy(st.userUrl)
    ensures Reconcile(st, lastSaved, snapshot) == Reconciled(st, lastSaved, None)
  {
  }

  /** With no audit in flight, the remote URL is adopted exactly when a
      reconciled URL exists and differs from the snapshot's, or no local URL
      exists; adopting sets the URL, its stamp and the pending flag from the
      snapshot and remembers the snapshot's URL. */
  lemma AdoptsRemoteUrl(st: LocalState, lastSaved: Option<string>, snapshot: Option<UserDoc>)
    requires st.activeLighthouseUrl.None?
    ensures var savedUrl := SavedUrl(DataOrEmpty(snapshot));
      var adopt := (Truthy(lastSaved) && lastSaved.value != savedUrl) || !Truthy(st.userUrl);
      var r := Reconcile(st, lastSaved, snapshot);
      (adopt ==> r == Reconciled(Adopt(st, DataOrEmpty(snapshot)), Some(savedUrl), None)) &&
      (!adopt ==> r.state == st)
  {
  }

  /** The cross-device branch needs a previously reconciled URL, so it never
      fires on the first snapshot after sign-in, when `lastSavedUrl` is null. */
  lemma FirstSnapshotIsNeverCrossDevice(st: LocalState, savedUrl: string)
    ensures Decide(st, None, savedUrl) != CrossDevice
  {
  }

  /** First snapshot with a local URL and no audit in flight: the local URL is
      pushed with `saveUserUrl`, becomes `lastSavedUrl`, and the store is left
      untouched. */
  lemma FirstSnapshotPushesLocalUrl(st: LocalState, snapshot: Option<UserDoc>)
    requires st.activeLighthouseUrl.None? && Truthy(st.userUrl)
    ensures Reconcile(st, None, snapshot) ==
      Reconciled(st, st.userUrl, Some(SaveRequest(st.userUrl.value, st.userUrlSeen)))
  {
  }

  /** When the snapshot that echoes the pushed URL arrives, nothing changes. */
  lemma EchoOfPushedUrlIsUpToDate(st: LocalState, snapshot: Option<UserDoc>, echo: Option<UserDoc>)
    requires st.activeLighthouseUrl.None? && Truthy(st.userUrl)
    requires Truthy(DataOrEmpty(echo).currentUrl) && DataOrEmpty(echo).currentUrl == st.userUrl
    ensures var r1 := Reconcile(st, None, snapshot);
      Reconcile(r1.state, r1.lastSaved, echo) == Reconciled(st, st.userUrl, None)
  {
  }

  /** Delivering the same snapshot twice leaves the store as delivering it once,
      unless the first delivery took the push-local branch. */
  lemma RedeliveryIsIdempotent(st: LocalState, lastSaved: Option<string>, snapshot: Option<UserDoc>)
    requires Decide(st, lastSaved, SavedUrl(DataOrEmpty(snapshot))) != PushLocal
    ensures var r1 := Reconcile(st, lastSaved, snapshot);
      Reconcile(r1.state, r1.lastSaved, snapshot) == r1
  {
  }

  /** In the push-local branch a second delivery of the same, stale snapshot
      takes the cross-device branch and overwrites the local URL with the
      remote one: reconciliation is not idempotent there. */
  lemma RedeliveryAfterPushAdoptsStaleRemote()
    ensures var st := LocalState(true, Some(User("u")), Some("https://local"), None, false, None, false);
      var snapshot := Some(UserDoc(Some("https://remote"), map[], map[], None));
      var r1 := Reconcile(st, None, snapshot);
      var r2 := Reconcile(r1.state, r1.lastSaved, snapshot);
      r1.state.userUrl == Some("https://local") && r2.state.userUrl == Some("https://remote")
  {
  }

  /** Scenario: signing in with no local URL against a document whose URL has a
      first-seen stamp loads that URL, its stamp and a pending request. */
  lemma SignInWithoutLocalUrlScenario(st: LocalState, t0: Timestamp)
    requires st.activeLighthouseUrl.None? && st.userUrl.None?
    ensures var snapshot := Some(UserDoc(Some("https://x"), map["https://x" := t0], map[], None));
      var r := Reconcile(st, None, snapshot);
      r.state.userUrl == Some("https://x") && r.state.userUrlSeen == Some(t0) && r.state.userUrlResultsPending
  {
  }
}
