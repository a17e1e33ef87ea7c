/** `saveUserUrl(url, auditedOn)` of src/lib/fb.js: a transaction that makes
    `url` the user's current URL and records the first time it was audited,
    returning the earliest audit time known for it. */
module FbSaveUrl {
  import opened Js
  import opened FbDocument

  /** The `update` object the transaction writes with `{merge: true}`:
      `currentUrl` always, `urls[url]` only when `firstSeen` is present. */
  datatype UrlUpdate = UrlUpdate(currentUrl: string, firstSeen: Option<Timestamp>)

  /** How one run of the transaction body ends: it throws, or it writes `update`
      and leaves the caller's `auditedOn` variable holding `auditedOn`. */
  datatype TxBody = Threw | Writes(update: UrlUpdate, auditedOn: Option<Timestamp>)

  /** What a call leaves behind: the remote document (`None` while it does not
      exist) and the value the call returns. */
  datatype SaveOutcome = SaveOutcome(remote: Option<UserDoc>, returned: Option<Timestamp>)

  function Min(a: int, b: int): int {
    if a < b then a else b
  }

  /** The transaction body, run against the document `data` it read. A stored
      stamp of 0 is falsy and short-circuits the comparison; a non-zero stamp
      compared with a null `auditedOn` dereferences null and throws. */
  function SaveUrlTxBody(data: UserDoc, url: string, auditedOn: Option<Timestamp>): (r: TxBody)
    ensures r.Threw? <==> url in data.urls && data.urls[url] != 0 && auditedOn.None?
    ensures r.Writes? ==> r.update.currentUrl == url
    ensures r.Writes? ==>
      (r.update.firstSeen.Some? <==> url !in data.urls && auditedOn.Some? && auditedOn.value != 0)
    ensures r.Writes? && r.update.firstSeen.Some? ==> r.update.firstSeen == auditedOn
    ensures r.Writes? && url in data.urls && data.urls[url] != 0 ==>
      r.auditedOn == Some(Min(data.urls[url], auditedOn.value))
    ensures r.Writes? && !(url in data.urls && data.urls[url] != 0) ==> r.auditedOn == auditedOn
  {
    if url in data.urls then
      var cand := data.urls[url];
      if cand == 0 then Writes(UrlUpdate(url, None), auditedOn)
      else if auditedOn.None? then Threw
      else if cand < auditedOn.value then Writes(UrlUpdate(url, None), Some(cand))
      else Writes(UrlUpdate(url, None), auditedOn)
    else if auditedOn.Some? && auditedOn.value != 0 then
      Writes(UrlUpdate(url, auditedOn), auditedOn)
    else
      Writes(UrlUpdate(url, None), auditedOn)
  }

  /** `transaction.set(ref, update, {merge: true})`: the named fields are set,
      nested map entries are merged, everything else is kept; a missing
      document is created. */
  function MergeSet(remote: Option<UserDoc>, u: UrlUpdate): (d: UserDoc)
    ensures d.currentUrl == Some(u.currentUrl)
    ensures d.tokens == DataOrEmpty(remote).tokens
    ensures d.subscription == DataOrEmpty(remote).subscription
    ensures u.firstSeen.None? ==> d.urls == DataOrEmpty(remote).urls
    ensures u.firstSeen.Some? ==>
      d.urls == DataOrEmpty(remote).urls[u.currentUrl := u.firstSeen.value]
  {
    var data := DataOrEmpty(remote);
    data.(currentUrl := Some(u.currentUrl),
          urls := if u.firstSeen.Some? then data.urls[u.currentUrl := u.firstSeen.value] else data.urls)
  }

  /** A whole call of `saveUserUrl`. `signedIn` is whether `userRef()` finds a
      user; `commitOk` is whether the store accepts the commit. Every failure
      is swallowed: the remote document is then left as it was. */
  function SaveUserUrl(signedIn: bool, remote: Option<UserDoc>, url: string,
                       auditedOn: Option<Timestamp>, commitOk: bool): (r: SaveOutcome)
    ensures !signedIn ==> r.returned.None? && r.remote == remote
    ensures r.remote != remote ==> signedIn && r.remote.Some? && r.remote.value.currentUrl == Some(url)
    ensures r.remote.Some? ==>
      forall u :: u in DataOrEmpty(remote).urls ==>
        u in r.remote.value.urls && r.remote.value.urls[u] == DataOrEmpty(remote).urls[u]
    ensures r.remote.Some? ==>
      r.remote.value.tokens == DataOrEmpty(remote).tokens &&
      r.remote.value.subscription == DataOrEmpty(remote).subscription
    ensures signedIn && auditedOn.Some? ==> r.returned.Some? && r.returned.value <= auditedOn.value
  {
    if !signedIn then SaveOutcome(remote, None)
    else
      match SaveUrlTxBody(DataOrEmpty(remote), url, auditedOn)
      case Threw => SaveOutcome(remote, auditedOn)
      case Writes(update, returned) =>
        if commitOk then SaveOutcome(Some(MergeSet(remote, update)), returned)
        else SaveOutcome(remote, returned)
  }

  /** A URL seen for the first time with a non-zero audit time gets that time
      as its first-seen stamp, and the call returns it. */
  lemma RecordsFirstSighting(remote: Option<UserDoc>, url: string, t: Timestamp)
    requires url !in DataOrEmpty(remote).urls && t != 0
    ensures var r := SaveUserUrl(true, remote, url, Some(t), true);
      r.remote.Some? && r.remote.value.currentUrl == Some(url) &&
      r.remote.value.urls == DataOrEmpty(remote).urls[url := t] && r.returned == Some(t)
  {
  }

  /** A URL that already has a non-zero stamp keeps it, even when `auditedOn`
      is earlier; only the returned value is the earlier of the two. */
  lemma KeepsStoredStamp(remote: Option<UserDoc>, url: string, t: Timestamp, commitOk: bool)
    requires url in DataOrEmpty(remote).urls && DataOrEmpty(remote).urls[url] != 0
    ensures var r := SaveUserUrl(true, remote, url, Some(t), commitOk);
      r.returned == Some(Min(DataOrEmpty(remote).urls[url], t)) &&
      (r.remote.Some? ==> r.remote.value.urls == DataOrEmpty(remote).urls) &&
      (commitOk ==> r.remote.Some? && r.remote.value.currentUrl == Some(url))
  {
  }

  /** With no audit time but a stored non-zero stamp, the body throws; the
      failure is swallowed, nothing is written and the call returns null. */
  lemma NullAuditTimeAgainstStampIsSwallowed(remote: Option<UserDoc>, url: string, commitOk: bool)
    requires url in DataOrEmpty(remote).urls && DataOrEmpty(remote).urls[url] != 0
    ensures SaveUserUrl(true, remote, url, None, commitOk) == SaveOutcome(remote, None)
  {
  }

  /** A failed commit leaves the document as it was and changes nothing about
      the returned value. */
  lemma FailedCommitIsSwallowed(signedIn: bool, remote: Option<UserDoc>, url: string,
                                auditedOn: Option<Timestamp>)
    ensures SaveUserUrl(signedIn, remote, url, auditedOn, false).remote == remote
    ensures SaveUserUrl(signedIn, remote, url, auditedOn, false).returned ==
            SaveUserUrl(signedIn, remote, url, auditedOn, true).returned
  {
  }

  /** Two audits of the same new URL: the first non-zero time is the one
      stored, and the second call returns the earlier of the two times. */
  lemma RecordTwiceKeepsFirst(remote: Option<UserDoc>, url: string, t1: Timestamp, t2: Timestamp)
    requires url !in DataOrEmpty(remote).urls && t1 != 0
    ensures var r1 := SaveUserUrl(true, remote, url, Some(t1), true);
      var r2 := SaveUserUrl(true, r1.remote, url, Some(t2), true);
      r2.remote.Some? && r2.remote.value.urls[url] == t1 && r2.returned == Some(Min(t1, t2))
  {
    var r1 := SaveUserUrl(true, remote, url, Some(t1), true);
    RecordsFirstSighting(remote, url, t1);
    KeepsStoredStamp(r1.remote, url, t2, true);
  }
}
