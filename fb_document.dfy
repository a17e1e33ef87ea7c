/** The per-user remote document (`users/<uid>` in the document store) as the
    sync engine of src/lib/fb.js reads and writes it. Timestamps are integer
    milliseconds (`Timestamp.toDate().getTime()`), where 0 is falsy. */
module FbDocument {
  import opened Js

  type Timestamp = int

  /** An identity as the auth library reports it. */
  datatype User = User(uid: string)

  /** The stored fields of a user's document. A field missing from the stored
      document is `None` or an empty map. */
  datatype UserDoc = UserDoc(
    currentUrl: Option<string>,
    urls: map<string, Timestamp>,
    tokens: map<string, Timestamp>,
    subscription: Option<Timestamp>)

  /** The `{}` a snapshot of a missing document reads as. */
  const EmptyDoc := UserDoc(None, map[], map[], None)

  /** `snapshot.data() || {}`: a document that does not exist yet reads as empty. */
  function DataOrEmpty(snapshot: Option<UserDoc>): (d: UserDoc)
    ensures snapshot.Some? ==> d == snapshot.value
    ensures snapshot.None? ==> d == EmptyDoc
  {
    if snapshot.Some? then snapshot.value else EmptyDoc
  }

  /** `data.currentUrl || ''`: the stored URL, or the empty string when unset. */
  function SavedUrl(data: UserDoc): (s: string)
    ensures s == "" <==> !Truthy(data.currentUrl)
    ensures Truthy(data.currentUrl) ==> s == data.currentUrl.value
  {
    if Truthy(data.currentUrl) then data.currentUrl.value else ""
  }

  /** The indexable `subscription` marker is present exactly when some token is stored. */
  predicate SubscriptionConsistent(d: UserDoc) {
    d.subscription.Some? <==> |d.tokens| > 0
  }
}
