# web.dev sync engine and site-data helpers, modelled in Dafny

This project models the logic of six parts of the web.dev site repository and
proves properties about them.

- **User sync engine** (`src/lib/fb.js`). A signed-in user's Lighthouse target
  URL, its first-seen audit time and the device's push tokens are kept in a
  per-user document (`users/<uid>`). Three pieces are modelled:
  - The auth handler attaches a snapshot listener through a cancellable guard.
  - The snapshot handler (`onUserSnapshot`) merges each pushed version of the
    document into the local store. It uses the last reconciled URL
    (`lastSavedUrl`) to tell a change made on another device from the echo of
    a local write.
  - Two transactions write to the document. `saveUserUrl` records the URL and
    its first-seen time. `updateSubscription` stores the device's push token
    and rewrites the indexable `subscription` marker.
- **Library loader** (`src/lib/utils/firebase-loader.js`). A module-level cache
  starts each script load at most once. `buildLoader` wraps a set of loads and
  chains its handler a single time.
- **Post-to-path index** (`src/site/_utils/post-to-path-map.js`). A reverse
  index maps each guide slug to the learning paths and topics that list it.
- **Related content** (`src/site/_includes/components/RelatedContent.js`).
  Under a guide, the site shows the guide's paths followed by its neighbours
  within each topic, capped at three.
- **Lighthouse guide list** (`src/site/_filters/posts-lighthouse-json.js`).
  Each post becomes a guide record, which carries its audits and the first
  path and topic that list it.
- **Hosting configuration** (`firebase-config.js`). Parsed redirects are
  filtered and given a default status code. A production build appends the
  Content-Security-Policy and X-Frame-Options headers.

## How the code is modelled

- **Code that changes state is imperative Dafny.**
  - The store, the subscription guard and the session with its closure
    variables are classes (`FbSession`).
  - The library cache and built loaders are classes (`FirebaseLoader`).
  - The index builder is three nested loops over a `map` (`PostToPathMap`).
  - The recommendation accumulators are loops (`RelatedContent`).
  - The redirect reducer is a loop, and the hosting configuration is a class
    (`FirebaseConfig`).
- **Each such method is proved against a declarative function.** Examples are
  `Reconcile`, `ReverseIndex(Occurrences(...))`, `TopicRecs` and `Normalised`.
  The lemmas state what the source promises about those functions.
- **Transaction bodies are pure functions.** They take the document they read
  (`None` for a document that does not exist yet). The server timestamp is a
  parameter `now`, and the outcome of the commit is a parameter `commitOk`.
- **JavaScript semantics are written out in `Js`.** Nullable values are
  `Option`. The truthiness of strings and of timestamps is explicit: `''`,
  `null` and a 0 timestamp are falsy. `indexOf`, `splice` (with negative
  starts and clamping), `join` and `split` are modelled as functions. An
  array that is spliced in place is a `JsArray` object.

### Where the design description and the code differ (the model follows the code)

- **First-seen time for a URL.** The design states "earliest wins": recording
  T5 and then T3 for the same URL stores T3. The code writes `urls[url]` only
  when no stamp exists (src/lib/fb.js:274-287). The stored stamp therefore
  stays T5, and only the returned value is `min(T5, T3)`
  (`FbSaveUrl.RecordTwiceKeepsFirst`).
- **Re-delivered snapshots.** The design requires reconciliation to be
  idempotent on a re-delivered snapshot. The code is idempotent in every branch
  except the first-snapshot push of a local URL (`FbReconcile.RedeliveryIsIdempotent`).
  There, `lastSavedUrl` becomes the local URL. A second delivery of the same
  stale snapshot then looks like a change made on another device and
  overwrites the local URL (`FbReconcile.RedeliveryAfterPushAdoptsStaleRemote`).
- **The `subscription` marker.** The transaction compares the unwritten field
  `data.hasSubscriptions` against the computed flag (src/lib/fb.js:234), so the
  comparison always differs. `subscription` is rewritten on every committed
  call. The invariant "`subscription` present exactly when `tokens` is
  non-empty" therefore holds after every call
  (`FbRemoteHistory.RunKeepsSubscriptionConsistent`).
- **`updateSubscription` on a missing document or a failed commit.**
  `transaction.update` fails when the document does not exist, and nothing
  catches a failed `runTransaction` (src/lib/fb.js:224-244). The model reports
  `Rejected` in both cases, where the JavaScript call rejects. `saveUserUrl`
  differs: it swallows such failures.
- **`saveUserUrl` with a null `auditedOn`.** When a non-zero stamp is stored
  and `auditedOn` is null, line 279 dereferences null inside the transaction.
  The failure is caught, so nothing is written and the call returns null
  (`FbSaveUrl.NullAuditTimeAgainstStampIsSwallowed`).

## Model

| member | source | states |
|---|---|---|
| `Js.OrNull` | src/lib/fb.js:198-199 | `OrNull(s)` (the source's `s`-or-null) is non-null exactly when `s` is a non-empty string, and is then `s` itself |
| `Js.Truthy` | src/lib/fb.js:86 | `null` and `''` are falsy, and every non-empty string is truthy |
| `Js.IndexOf` | src/site/_includes/components/RelatedContent.js:43 | `indexOf` returns -1 exactly when the item is absent; otherwise it returns the first index holding the item |
| `Js.SpliceStart` | src/site/_includes/components/RelatedContent.js:68 | a `splice` start in range is kept, a negative start counts back from the end, and the start never passes the length |
| `Js.SpliceCount` | src/site/_includes/components/RelatedContent.js:63 | `splice` removes at most `deleteCount` elements and never runs past the end |
| `Js.SpliceRemoved` | src/site/_includes/components/RelatedContent.js:73 | the returned part of a `splice` has exactly as many elements as are removed |
| `Js.SpliceRest` | src/site/_includes/components/RelatedContent.js:48 | after a `splice`, the array is shorter by exactly the number of removed elements |
| `Js.JsArray.constructor` | src/site/_includes/components/RelatedContent.js:47 | `[].concat(pathItems)` makes an array holding a copy of the items |
| `Js.JsArray.Splice` | src/site/_includes/components/RelatedContent.js:48 | `splice` returns the cut-out elements and leaves the rest in the array; the rest around the cut-out part is the old array |
| `Js.Join` | firebase-config.js:28 | `join` of no parts is `''`, and of one part is that part |
| `Js.JoinEnds` | firebase-config.js:28 | a `join` starts with the first part followed by the separator, and ends with the last part |
| `Js.SplitJoin` | firebase-config.js:28 | if no part contains a one-character separator, splitting a `join` on it gives back the parts |
| `FbDocument.DataOrEmpty` | src/lib/fb.js:75 | a missing document reads as `{}` (no URL, no stamps, no tokens, no marker), and an existing one reads as its data |
| `FbDocument.SavedUrl` | src/lib/fb.js:80 | the saved URL (`currentUrl` or `''`) is empty exactly when the stored URL is null or empty, and is otherwise that URL |
| `FbReconcile.Decide` | src/lib/fb.js:83-105 | the cross-device branch needs a truthy `lastSavedUrl`; the push-local branch needs a local URL and no `lastSavedUrl` |
| `FbReconcile.Adopt` | src/lib/fb.js:111-120 | adopting sets `userUrl` to the remote URL and `userUrlSeen` to its stamp or null; results are pending exactly when the remote URL is non-empty; no other store field changes |
| `FbReconcile.Reconcile` | src/lib/fb.js:65-122 | only the three URL fields of the store change; a save starts exactly on a first snapshot with a local URL and no audit running, for that URL and its stamp, and then the store is untouched; `lastSavedUrl` is always set afterwards |
| `FbReconcile.DefersToActiveAudit` | src/lib/fb.js:83-85 | while an audit is running, the store is unchanged and `lastSavedUrl` becomes the snapshot's URL |
| `FbReconcile.IgnoresUnchangedUrl` | src/lib/fb.js:102-106 | a snapshot whose URL equals a non-empty `lastSavedUrl`, with a local URL present, changes nothing |
| `FbReconcile.AdoptsRemoteUrl` | src/lib/fb.js:86-120 | with no audit running, the remote URL is adopted exactly when `lastSavedUrl` is set and differs from it, or when there is no local URL; in every other case the store is kept |
| `FbReconcile.FirstSnapshotIsNeverCrossDevice` | src/lib/fb.js:86-89 | with `lastSavedUrl` null, the cross-device branch is never taken |
| `FbReconcile.FirstSnapshotPushesLocalUrl` | src/lib/fb.js:94-101 | the first snapshot with a local URL and no audit running starts `saveUserUrl(userUrl, userUrlSeen)`, sets `lastSavedUrl` to the local URL and leaves the store alone |
| `FbReconcile.EchoOfPushedUrlIsUpToDate` | src/lib/fb.js:94-106 | after a push, the snapshot that echoes the pushed URL changes nothing |
| `FbReconcile.RedeliveryIsIdempotent` | src/lib/fb.js:65-122 | outside the push-local branch, delivering the same snapshot twice has the same effect as delivering it once |
| `FbReconcile.RedeliveryAfterPushAdoptsStaleRemote` | src/lib/fb.js:86-101 | after a push, a second delivery of the same stale snapshot overwrites the local URL with the remote one |
| `FbReconcile.SignInWithoutLocalUrlScenario` | src/lib/fb.js:91-93 | signing in with no local URL loads the remote URL, its stamp and a pending request |
| `FbSession.SubscriptionGuard.constructor` | src/lib/fb.js:144-147 | a new guard is not cancelled, has not settled its reference and has attached nothing |
| `FbSession.Store.constructor` | src/lib/fb.js:2 | the imported `store` starts from the given state; every handler reads and writes it through `state` |
| `FbSession.SubscriptionGuard.RefResolved` | src/lib/fb.js:148-153 | when the reference resolves, a listener is attached exactly when the guard has not been cancelled |
| `FbSession.SubscriptionGuard.RefFailed` | src/lib/fb.js:154-157 | a failed library load attaches nothing and changes no guard state except that the reference has settled |
| `FbSession.SubscriptionGuard.Unsubscribe` | src/lib/fb.js:159-165 | cancelling marks the guard cancelled and detaches a live listener exactly once, returning it; with no live listener it detaches nothing |
| `FbSession.Session.constructor` | src/lib/fb.js:62-63 | a session starts with no-op teardown and a null `lastSavedUrl` |
| `FbSession.Session.OnUserSnapshot` | src/lib/fb.js:65-122 | the handler's effect on the store, on `lastSavedUrl` and on the started saves is exactly `Reconcile` |
| `FbSession.Session.ClearSignedInState` | src/lib/fb.js:129-131 | sign-out marks the store signed out with no user and keeps every other field |
| `FbSession.Session.OnAuthStateChanged` | src/lib/fb.js:125-167 | every auth event clears `checkingSignedInState` and tears down the previous guard; the local URL fields and a running audit survive; sign-out clears the signed-in state through the modelled `clearSignedInState` (see "## Left out"); sign-in sets the user, resets `lastSavedUrl` and installs a fresh guard that has attached nothing |
| `FbSession.Session.DeliverSnapshot` | src/lib/fb.js:150-151 | a snapshot reaches the handler only through a listener that is attached, and then changes the store, `lastSavedUrl` and the started saves exactly as `Reconcile` says; otherwise nothing changes |
| `FbSession.SignOutBeforeLibraryLoads` | src/lib/fb.js:125-166 | signing out before the document library loads means no listener is ever attached; the local URL is kept, given the modelled `clearSignedInState` |
| `FbSession.UnsubscribeTwice` | src/lib/fb.js:159-165 | a second teardown is a no-op: the listener is detached once |
| `FbSubscription.TokenUpdates` | src/lib/fb.js:201-219 | no token updates are gathered exactly when there is no token and no existing token that differs from it |
| `FbSubscription.ApplyUpdate` | src/lib/fb.js:243 | one field update of `transaction.update` changes only the field its path names (`tokens.<token>` or `subscription`): a set stores the timestamp, a delete removes it, and every other token is kept |
| `FbSubscription.TokensKept` | src/lib/fb.js:228-230 | deleting the replaced token removes exactly that key when it names a different token, and keeps every other token |
| `FbSubscription.TokenUpdatesEffect` | src/lib/fb.js:201-219 | the gathered token updates, applied, upsert the new token at `now` into the kept tokens and leave the marker alone |
| `FbSubscription.ApplyUpdates` | src/lib/fb.js:243 | field updates to `tokens` and `subscription` never touch `currentUrl` or `urls` |
| `FbSubscription.UpdateSubscription` | src/lib/fb.js:193-246 | the call returns `false` with no write exactly when signed out or when it has nothing to update; with updates to make it rejects exactly when the document is missing or the commit fails, and commits otherwise |
| `FbSubscription.CommittedTokens` | src/lib/fb.js:224-244 | a commit upserts `tokens[token]` at `now`; it deletes `existingToken` only when that names a different token; every other token is kept; `subscription` is present (at `now`) exactly when tokens remain |
| `FbSubscription.ReplaceTokenScenario` | src/lib/fb.js:193-246 | a token replaced by another leaves only the new token and a marker |
| `FbSubscription.RemoveLastTokenScenario` | src/lib/fb.js:229-243 | removing the only token empties `tokens` and deletes the marker |
| `FbSaveUrl.SaveUrlTxBody` | src/lib/fb.js:263-290 | the body throws exactly when a non-zero stamp is stored and `auditedOn` is null; it always writes `currentUrl`; it writes `urls[url]` only for an unstamped URL with a non-zero `auditedOn`; it leaves the earlier of the stamp and `auditedOn` |
| `FbSaveUrl.MergeSet` | src/lib/fb.js:289 | a merge write sets `currentUrl`, adds the new stamp if there is one, and keeps every other field and stamp |
| `FbSaveUrl.SaveUserUrl` | src/lib/fb.js:255-302 | signed out, the call returns null and writes nothing; a write makes `url` the current URL; existing stamps, tokens and the marker are kept; the returned time is never later than `auditedOn` |
| `FbSaveUrl.RecordsFirstSighting` | src/lib/fb.js:282-287 | a new URL with a non-zero time is stamped with that time, which is returned |
| `FbSaveUrl.KeepsStoredStamp` | src/lib/fb.js:274-281 | a stored non-zero stamp is never overwritten; the call returns the earlier time |
| `FbSaveUrl.NullAuditTimeAgainstStampIsSwallowed` | src/lib/fb.js:279-301 | a null `auditedOn` against a stored stamp throws inside the transaction; the error is swallowed, nothing is written and null is returned |
| `FbSaveUrl.FailedCommitIsSwallowed` | src/lib/fb.js:292-301 | a failed commit leaves the document unchanged and does not change the returned value |
| `FbSaveUrl.RecordTwiceKeepsFirst` | src/lib/fb.js:274-287 | after two audits of a new URL, the first time stays stored and the second call returns the earlier of the two |
| `FbRemoteHistory.RunKeepsSubscriptionConsistent` | src/lib/fb.js:229-243 | over any sequence of calls, `subscription` is present exactly when `tokens` is non-empty |
| `FbRemoteHistory.RunKeepsFirstSeenStamps` | src/lib/fb.js:274-287 | once a URL has a stamp, no later call changes or removes it |
| `FirebaseLoader.LibraryCache.constructor` | src/lib/utils/firebase-loader.js:10 | the cache starts empty |
| `FirebaseLoader.LibraryCache.InternalLoad` | src/lib/utils/firebase-loader.js:20-37 | a cached library returns its load and starts none; the first request starts exactly one load, recorded under that name; entries are never replaced |
| `FirebaseLoader.LibraryCache.LoadFirebase` | src/lib/utils/firebase-loader.js:45-47 | afterwards every name has its cached load, in argument order; old entries are kept; the keys are the old keys plus the names |
| `FirebaseLoader.Loader.constructor` | src/lib/utils/firebase-loader.js:58-59 | a built loader has not started its loads or chained its handler |
| `FirebaseLoader.Loader.Call` | src/lib/utils/firebase-loader.js:60-65 | the first call starts the loads and chains the handler once; later calls return the same loads and start nothing |
| `FirebaseLoader.CallTwiceScenario` | src/lib/utils/firebase-loader.js:58-66 | calling a built loader twice returns the same loads, one per name, starts no new load and chains the handler once |
| `PostToPathMap.SlugOccurrences` | src/site/_utils/post-to-path-map.js:33 | each item of a topic is one listing of that slug, by that path and topic, in item order |
| `PostToPathMap.Items` | src/site/_utils/post-to-path-map.js:33 | `topic.pathItems` or `[]`: a topic without `pathItems` has no items, otherwise it has exactly its `pathItems` |
| `PostToPathMap.EntryOf` | src/site/_utils/post-to-path-map.js:40-43 | an entry's `paths` and `topics` are parallel, with one element per listing |
| `PostToPathMap.ReverseIndexAppend` | src/site/_utils/post-to-path-map.js:34-43 | one more listing pushes onto an existing slug's lists, or creates the slug's entry |
| `PostToPathMap.MatchingCount` | src/site/_utils/post-to-path-map.js:33-44 | a slug's listings come from the traversal, all carry that slug, and there is one per occurrence |
| `PostToPathMap.MatchingFirst` | src/site/_utils/post-to-path-map.js:31-43 | a slug's first listing is its first occurrence in traversal order |
| `PostToPathMap.OccurrencesMembership` | src/site/_utils/post-to-path-map.js:30-33 | a listing is made exactly when its path is traversed, its topic belongs to that path and its slug is an item of that topic |
| `PostToPathMap.PostToPathMapKeys` | src/site/_utils/post-to-path-map.js:30-45 | a slug is a key exactly when some topic of some path lists it; a topic without `pathItems` lists nothing |
| `PostToPathMap.PostToPathMapEntry` | src/site/_utils/post-to-path-map.js:31-43 | `paths` and `topics` have equal length, namely the slug's occurrence count; `topics[i]` is a topic of `paths[i]` that lists the slug; index 0 holds the first occurrence |
| `PostToPathMap.ReverseIndexNonEmpty` | src/site/_utils/post-to-path-map.js:40-43 | every entry has at least one path and one topic |
| `PostToPathMap.IndexTopicItems` | src/site/_utils/post-to-path-map.js:33-44 | the innermost loop adds exactly one topic's listings to the index |
| `PostToPathMap.IndexPathTopics` | src/site/_utils/post-to-path-map.js:32-45 | the middle loop adds exactly one path's listings to the index |
| `PostToPathMap.BuildPostToPathMap` | src/site/_utils/post-to-path-map.js:28-46 | the built map is the reverse index of every listing, visiting paths, then frameworks, then audits |
| `RelatedContent.Remaining` | src/site/_includes/components/RelatedContent.js:47-48 | removing the guide from a topic that lists it leaves one item fewer |
| `RelatedContent.TopicPicks` | src/site/_includes/components/RelatedContent.js:41-74 | a topic contributes at most two items, all taken from the topic without the guide: all of them when at most two remain, otherwise a two-item window chosen by where the guide stood |
| `RelatedContent.LoneItemContributesNothing` | src/site/_includes/components/RelatedContent.js:47-52 | a topic whose only item is the guide contributes nothing |
| `RelatedContent.ShortTopicContributesAllOthers` | src/site/_includes/components/RelatedContent.js:55-58 | with at most two other items, all of them are added, in order |
| `RelatedContent.FirstGetsNextTwo` | src/site/_includes/components/RelatedContent.js:62-65 | a guide first in a longer topic gets `pathItems[1..3]` |
| `RelatedContent.LastGetsPreviousTwo` | src/site/_includes/components/RelatedContent.js:67-70 | a guide last in a longer topic gets the two items before it |
| `RelatedContent.MiddleGetsNeighbours` | src/site/_includes/components/RelatedContent.js:71-73 | a guide in the middle gets `pathItems[idx-1]` and `pathItems[idx+1]` |
| `RelatedContent.NotRecommendedFromOwnTopic` | src/site/_includes/components/RelatedContent.js:42-73 | a guide listed once in a topic is not among that topic's picks |
| `RelatedContent.TopicRecsShape` | src/site/_includes/components/RelatedContent.js:41-74 | topic recommendations are all topic items, at most two per topic |
| `RelatedContent.RecommendPaths` | src/site/_includes/components/RelatedContent.js:26-31 | the result holds one path recommendation per path, in order |
| `RelatedContent.TopicNeighbours` | src/site/_includes/components/RelatedContent.js:42-73 | the callback, splicing a copy of `pathItems` in place (first the guide, then the neighbours), yields exactly the window `TopicPicks` describes |
| `RelatedContent.AddToRecommendations` | src/site/_includes/components/RelatedContent.js:34-39 | every item is pushed as a topic recommendation, after the existing ones, in order |
| `RelatedContent.RecommendTopics` | src/site/_includes/components/RelatedContent.js:33-77 | the result holds each topic's picks in topic order |
| `RelatedContent.RelatedContentFor` | src/site/_includes/components/RelatedContent.js:117-135 | a slug that is not in the index gets the `/blog` back navigation; any other slug gets the first three of its path recommendations followed by its topic recommendations |
| `RelatedContent.RecommendationsShape` | src/site/_includes/components/RelatedContent.js:130-135 | at most three recommendations are shown, forming the start of the full list; paths come before topic neighbours |
| `RelatedContent.Cap` | src/site/_includes/components/RelatedContent.js:135 | `output.splice(0, 3)` keeps the first `min(3, length)` recommendations, in order |
| `RelatedContent.NeverRecommendsItself` | src/site/_includes/components/RelatedContent.js:33-77 | a guide listed once in each of its topics is never recommended to itself |
| `RelatedContent.IndexedTopicsListSlug` | src/site/_utils/post-to-path-map.js:33-43 | in the built index, every topic of an entry has `pathItems` and lists the entry's slug, as `recommendTopics` needs |
| `PostsLighthouseJson.ToArray` | src/site/_filters/posts-lighthouse-json.js:22 | an array is kept as is; any other value becomes a one-element list |
| `PostsLighthouseJson.GuideFor` | src/site/_filters/posts-lighthouse-json.js:28-52 | a guide takes `id`, `title` and the stripped URL from its post, with `lighthouse` always a list; an unmapped post gets empty `path` and `topic`; a mapped post gets the titles of its first path and first topic |
| `PostsLighthouseJson.PostsToGuides` | src/site/_filters/posts-lighthouse-json.js:21-56 | a missing `posts` throws with the filter's message; otherwise there is one guide per post, in order |
| `PostsLighthouseJson.GuideUsesFirstListing` | src/site/_filters/posts-lighthouse-json.js:38-51 | against the site's index, a listed post gets the titles of the first path and topic that list it in traversal order; a post listed nowhere gets empty titles |
| `PostsLighthouseJson.LighthouseIsAlwaysAList` | src/site/_filters/posts-lighthouse-json.js:22-33 | every guide's `lighthouse` is the post's array, or a one-element list of its single value |
| `FirebaseConfig.Normalise` | firebase-config.js:10-17 | a kept redirect keeps its source and destination; its type is 301 or 302, keeping an input of 301 or 302 and defaulting anything else to 301 |
| `FirebaseConfig.AllowedType` | firebase-config.js:10 | a `type` is kept exactly when it is 301 or 302 |
| `FirebaseConfig.Kept` | firebase-config.js:11 | a redirect is kept exactly when both its source and its destination are non-empty strings |
| `FirebaseConfig.CspValue` | firebase-config.js:25-32 | the CSP value starts with the `script-src 'strict-dynamic' ` text and ends with the fixed policy text; with no hashes it is just the two, and with one hash it is that hash between them |
| `FirebaseConfig.ProdHeaders` | firebase-config.js:25-36 | production adds exactly two headers: the CSP header first, then `X-Frame-Options: SAMEORIGIN` |
| `FirebaseConfig.ReduceRedirects` | firebase-config.js:8-21 | the reducer's result is the normalised list of kept redirects |
| `FirebaseConfig.NormalisedAppend` | firebase-config.js:8-21 | the reducer distributes over concatenation, so relative order is preserved |
| `FirebaseConfig.NormalisedOrigin` | firebase-config.js:11-17 | every output redirect is the normalised form of a kept input redirect |
| `FirebaseConfig.NormalisedSound` | firebase-config.js:8-21 | there are never more outputs than inputs, and every output type is 301 or 302 |
| `FirebaseConfig.NormalisedComplete` | firebase-config.js:11-17 | every redirect with a source and a destination appears in the output; one missing either is dropped |
| `FirebaseConfig.HostingConfig.constructor` | firebase-config.js:7 | the configuration starts from the included file's redirects and headers |
| `FirebaseConfig.HostingConfig.Configure` | firebase-config.js:8-36 | the redirects are replaced by the reducer's result; a production build appends the CSP header and then `X-Frame-Options: SAMEORIGIN` after the existing headers; any other build adds none |
| `FirebaseConfig.CspListsHashes` | firebase-config.js:26-31 | the CSP value is the fixed policy text around the hashes; splitting the middle part on spaces gives back a non-empty hash list, and an empty list leaves the middle empty |
| `FirebaseConfig.ProdBuildScenario` | firebase-config.js:22-36 | a production build ends with exactly the two headers, CSP first; a development build adds none |

## Left out

- **Concurrency.** Async interleaving, transaction retries and the ordering of
  promise callbacks are not modelled. Each handler and each transaction body is
  one atomic step. A transaction runs once against the document it reads; a
  retry would rerun the same body on the newer document.
- **External libraries.** The document store, auth, messaging and performance
  SDK calls are left out. So are `signIn`/`signOut`, `silentGetMessagingToken`,
  `configureMessagingSubscription`, the `onTokenRefresh` race and error
  tracking (`trackError`, `console.warn`).
- **The actions module.** It is not part of this model.
  `FbSession.Session.ClearSignedInState` models only the two store fields the
  sync engine relies on (`isSignedIn` and `user`).
- FbSession.Session.OnAuthStateChanged: on sign-out, src/lib/fb.js:129-131
  only calls `clearSignedInState()`. That the sign-out half keeps `userUrl`,
  `userUrlSeen`, `userUrlResultsPending` and `activeLighthouseUrl` follows from
  the modelled two-field `clearSignedInState`, not from fb.js itself. Only the
  sign-in half (lines 134-140) is shown by the code to keep them.
- FbSession.SignOutBeforeLibraryLoads: that the local URL is kept after the
  sign-out rests on the same modelled `clearSignedInState`. That no listener is
  attached follows from fb.js alone (line 150).
- **Store key comparisons.** `activeLighthouseUrl !== null` is modelled as
  "present": an `undefined` value is not distinguished from a set one.
- **Script loading.** DOM script injection and `onload`/`onerror` in the
  library loader are left out. A load is a handle numbered by the injection that
  started it. Whether the promise later resolves or rejects is not modelled.
- **Object keys.** Three lookups go through plain objects, which also find
  inherited properties such as `constructor`: `slug in postToPathMap`
  (src/site/_utils/post-to-path-map.js:34), `library in libs`
  (src/lib/utils/firebase-loader.js:21) and `postToPathMap[slug]`
  (src/site/_includes/components/RelatedContent.js:118). Such a key would be
  found before it is inserted. The model uses `map`s, which have no inherited
  keys.
- **Data files and HTML.** The `learn` data file and YAML parsing are left out:
  the paths, frameworks, audits and parsed redirects are inputs. `fs` reads and
  writes, `process.env` and `JSON.parse` are also left out: the script-hash
  list and an `isProd` flag are inputs.
- **Rendering.** HTML rendering (`renderRecommendations`, `ArticleNavigation`,
  the path and post cards, `findBySlug`) is left out.
- **`stripLanguage`.** It is a parameter of `PostsLighthouseJson.GuideFor`.
- **Redirect types.** The YAML `type` is modelled only as an integer when it
  is a number. Any other value (a string, a number that is not an integer) stands as `None` and
  defaults to 301, as `includes` would do for a non-number.
- **Other files.** The other files of the repository are not part of this
  model. These include the notification batch job, the service-worker loader,
  the page entry modules and the UI components.
