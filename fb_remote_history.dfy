/** The remote document seen across many calls: every write to it goes through
    `saveUserUrl` or `updateSubscription` of src/lib/fb.js, one transaction
    at a time (the store serialises them). */
module FbRemoteHistory {
  import opened Js
  import opened FbDocument
  import opened FbSaveUrl
  import opened FbSubscription

  /** One transaction against the user's document. */
  datatype RemoteOp =
    | RecordUrl(url: string, auditedOn: Option<Timestamp>, commitOk: bool)
    | Subscribe(token: Option<string>, existingToken: Option<string>, now: Timestamp, commitOk: bool)

  /** The document after one signed-in call; a call that does not write (or is
      rejected) leaves it as it was. */
  function Step(remote: Option<UserDoc>, op: RemoteOp): Option<UserDoc> {
    match op
    case RecordUrl(url, auditedOn, commitOk) =>
      SaveUserUrl(true, remote, url, auditedOn, commitOk).remote
    case Subscribe(token, existingToken, now, commitOk) =>
      var r := UpdateSubscription(true, remote, token, existingToken, now, commitOk);
      if r.Committed? then Some(r.doc) else remote
  }

  /** The document after a whole sequence of calls. */
  function Run(remote: Option<UserDoc>, ops: seq<RemoteOp>): Option<UserDoc>
    decreases |ops|
  {
    if ops == [] then remote else Run(Step(remote, ops[0]), ops[1..])
  }

  /** No document yet, or one whose `subscription` marker agrees with `tokens`. */
  predicate Consistent(remote: Option<UserDoc>) {
    remote.None? || SubscriptionConsistent(remote.value)
  }

  /** The marker invariant survives any sequence of calls: `subscription` is
      present exactly when `tokens` is non-empty. */
  lemma {:induction false} RunKeepsSubscriptionConsistent(remote: Option<UserDoc>, ops: seq<RemoteOp>)
    requires Consistent(remote)
    ensures Consistent(Run(remote, ops))
    decreases |ops|
  {
    if ops != [] {
      var next := Step(remote, ops[0]);
      match ops[0] {
        case RecordUrl(url, auditedOn, commitOk) =>
          assert Consistent(next);
        case Subscribe(token, existingToken, now, commitOk) =>
          var r := UpdateSubscription(true, remote, token, existingToken, now, commitOk);
          if r.Committed? {
            CommittedTokens(true, remote, token, existingToken, now, commitOk);
          }
      }
      RunKeepsSubscriptionConsistent(next, ops[1..]);
    }
  }

  /** Once a URL has a first-seen stamp, no later call changes it. */
  lemma {:induction false} RunKeepsFirstSeenStamps(remote: Option<UserDoc>, ops: seq<RemoteOp>, url: string)
    requires remote.Some? && url in remote.value.urls
    ensures var after := Run(remote, ops);
      after.Some? && url in after.value.urls && after.value.urls[url] == remote.value.urls[url]
    decreases |ops|
  {
    if ops != [] {
      var next := Step(remote, ops[0]);
      match ops[0] {
        case RecordUrl(u, auditedOn, commitOk) =>
          assert next.Some? && url in next.value.urls && next.value.urls[url] == remote.value.urls[url];
        case Subscribe(token, existingToken, now, commitOk) =>
          assert next.Some? && next.value.urls == remote.value.urls;
      }
      RunKeepsFirstSeenStamps(next, ops[1..], url);
    }
  }
}
