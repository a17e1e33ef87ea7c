/** `updateSubscription(token, existingToken)` of src/lib/fb.js: a transaction
    that stores this device's push token, drops the token it replaces and
    rewrites the indexable `subscription` marker. */
module FbSubscription {
  import opened Js
  import opened FbDocument

  /** One field update of `transaction.update(ref, ...updates)`. */
  datatype FieldUpdate =
    | SetToken(token: string, at: Timestamp)   // FieldPath('tokens', token) := serverTimestamp()
    | DeleteToken(token: string)               // FieldPath('tokens', token) := delete()
    | SetSubscription(at: Timestamp)           // 'subscription' := serverTimestamp()
    | DeleteSubscription                       // 'subscription' := delete()

  /** What a call leaves behind: no write (the call returns `false`), a
      committed document (the call returns `true`), or a rejected update. */
  datatype SubscriptionOutcome = NoWrite | Committed(doc: UserDoc) | Rejected

  /** The token updates gathered before the transaction starts: upsert the new
      token, and delete the previous one when it is a different token. */
  function TokenUpdates(token: Option<string>, existingToken: Option<string>, now: Timestamp): (us: seq<FieldUpdate>)
    ensures us == [] <==> token.None? && (existingToken.None? || existingToken == token)
  {
    (if token.Some? then [SetToken(token.value, now)] else [])
    + (if existingToken.Some? && existingToken != token then [DeleteToken(existingToken.value)] else [])
  }

  /** One field update: it changes only the field its path names, and within
      `tokens` only the key it names. */
  function ApplyUpdate(d: UserDoc, u: FieldUpdate): (r: UserDoc)
    ensures r.currentUrl == d.currentUrl && r.urls == d.urls
    ensures (u.SetToken? || u.DeleteToken?) ==> r.subscription == d.subscription
    ensures (u.SetToken? || u.DeleteToken?) ==> forall k :: k != u.token ==>
      (k in r.tokens <==> k in d.tokens) && (k in r.tokens ==> r.tokens[k] == d.tokens[k])
    ensures u.SetToken? ==> u.token in r.tokens && r.tokens[u.token] == u.at
    ensures u.DeleteToken? ==> u.token !in r.tokens
    ensures (u.SetSubscription? || u.DeleteSubscription?) ==> r.tokens == d.tokens
    ensures u.SetSubscription? ==> r.subscription == Some(u.at)
    ensures u.DeleteSubscription? ==> r.subscription.None?
  {
    match u
    case SetToken(t, at) => d.(tokens := d.tokens[t := at])
    case DeleteToken(t) => d.(tokens := d.tokens - {t})
    case SetSubscription(at) => d.(subscription := Some(at))
    case DeleteSubscription => d.(subscription := None)
  }

  /** The updates applied in order, as one commit. */
  function ApplyUpdates(d: UserDoc, us: seq<FieldUpdate>): (r: UserDoc)
    ensures r.currentUrl == d.currentUrl && r.urls == d.urls
    decreases us
  {
    if us == [] then d else ApplyUpdates(ApplyUpdate(d, us[0]), us[1..])
  }

  /** A whole call of `updateSubscription`. `signedIn` is whether `userRef()`
      finds a user, `remote` the stored document (`None` while it does not
      exist, in which case `transaction.update` rejects), `now` the server
      timestamp and `commitOk` whether the transaction commits (contention,
      permissions and the network can fail it; nothing catches that, so the
      call rejects). The transaction's guard compares `data.hasSubscriptions`,
      a field nothing writes, so the `subscription` field is rewritten on every
      commit. */
  function UpdateSubscription(signedIn: bool, remote: Option<UserDoc>, token: Option<string>,
                              existingToken: Option<string>, now: Timestamp, commitOk: bool): (r: SubscriptionOutcome)
    ensures r.NoWrite? <==>
      !signedIn || (!Truthy(token) && !(Truthy(existingToken) && OrNull(existingToken) != OrNull(token)))
    ensures r.Rejected? <==>
      signedIn && TokenUpdates(OrNull(token), OrNull(existingToken), now) != [] && (remote.None? || !commitOk)
    ensures r.Committed? <==>
      signedIn && TokenUpdates(OrNull(token), OrNull(existingToken), now) != [] && remote.Some? && commitOk
  {
    if !signedIn then NoWrite
    else
      var tok := OrNull(token);
      var existing := OrNull(existingToken);
      var updates := TokenUpdates(tok, existing, now);
      if updates == [] then NoWrite
      else if remote.None? || !commitOk then Rejected
      else
        var data := remote.value;
        var tokens := if existing.Some? && existing != tok then data.tokens - {existing.value} else data.tokens;
        var hasSubscriptions := tok.Some? || |tokens| > 0;
        var storedFlag: Option<bool> := None;  // `data.hasSubscriptions` is never written
        var marker := if storedFlag != Some(hasSubscriptions)
                      then [if hasSubscriptions then SetSubscription(now) else DeleteSubscription]
                      else [];
        Committed(ApplyUpdates(data, updates + marker))
  }

  lemma {:induction false} ApplyUpdatesAppend(d: UserDoc, us: seq<FieldUpdate>, u: FieldUpdate)
    ensures ApplyUpdates(d, us + [u]) == ApplyUpdate(ApplyUpdates(d, us), u)
    decreases us
  {
    if us != [] {
      assert (us + [u])[1..] == us[1..] + [u];
      ApplyUpdatesAppend(ApplyUpdate(d, us[0]), us[1..], u);
    } else {
      assert ApplyUpdates(ApplyUpdate(d, u), []) == ApplyUpdate(d, u);
    }
  }

  /** `tokens` without the replaced token, as the transaction computes it. */
  function TokensKept(tokens: map<string, Timestamp>, tok: Option<string>, existing: Option<string>): (r: map<string, Timestamp>)
    ensures existing.Some? && existing != tok ==> existing.value !in r
    ensures forall k :: Some(k) != existing || existing == tok ==>
      (k in r <==> k in tokens) && (k in r ==> r[k] == tokens[k])
  {
    if existing.Some? && existing != tok then tokens - {existing.value} else tokens
  }

  /** The gathered token updates upsert the new token into the kept tokens
      and leave the marker alone. */
  lemma TokenUpdatesEffect(data: UserDoc, tok: Option<string>, existing: Option<string>, now: Timestamp)
    ensures var d := ApplyUpdates(data, TokenUpdates(tok, existing, now));
      && d.subscription == data.subscription
      && d.tokens == (if tok.Some? then TokensKept(data.tokens, tok, existing)[tok.value := now]
                      else TokensKept(data.tokens, tok, existing))
  {
    var updates := TokenUpdates(tok, existing, now);
    if tok.Some? && existing.Some? && existing != tok {
      assert updates == [SetToken(tok.value, now)] + [DeleteToken(existing.value)];
      ApplyUpdatesAppend(data, [SetToken(tok.value, now)], DeleteToken(existing.value));
      ApplyUpdatesAppend(data, [], SetToken(tok.value, now));
      assert ApplyUpdates(data, updates).tokens == data.tokens[tok.value := now] - {existing.value};
    } else if tok.Some? {
      assert updates == [SetToken(tok.value, now)];
      ApplyUpdatesAppend(data, [], SetToken(tok.value, now));
    } else if existing.Some? && existing != tok {
      assert updates == [DeleteToken(existing.value)];
      ApplyUpdatesAppend(data, [], DeleteToken(existing.value));
    }
  }

  /** A committed call upserts `tokens[token]`, deletes `tokens[existingToken]`
      only when it names another token, keeps every other token, leaves
      `currentUrl` and `urls` alone, and sets `subscription` to `now` exactly
      when tokens remain. */
  lemma {:induction false} CommittedTokens(signedIn: bool, remote: Option<UserDoc>, token: Option<string>,
                                           existingToken: Option<string>, now: Timestamp, commitOk: bool)
    requires UpdateSubscription(signedIn, remote, token, existingToken, now, commitOk).Committed?
    ensures var old_ := remote.value;
      var d := UpdateSubscription(signedIn, remote, token, existingToken, now, commitOk).doc;
      var tok := OrNull(token);
      var existing := OrNull(existingToken);
      && d.currentUrl == old_.currentUrl && d.urls == old_.urls
      && (tok.Some? ==> tok.value in d.tokens && d.tokens[tok.value] == now)
      && (existing.Some? && existing != tok ==> existing.value !in d.tokens)
      && (forall k :: Some(k) != tok && Some(k) != existing ==>
            (k in d.tokens <==> k in old_.tokens) && (k in d.tokens ==> d.tokens[k] == old_.tokens[k]))
      && SubscriptionConsistent(d)
      && (d.subscription.Some? ==> d.subscription.value == now)
  {
    var data := remote.value;
    var tok := OrNull(token);
    var existing := OrNull(existingToken);
    var updates := TokenUpdates(tok, existing, now);
    var tokens := TokensKept(data.tokens, tok, existing);
    var hasSubscriptions := tok.Some? || |tokens| > 0;
    var marker := if hasSubscriptions then SetSubscription(now) else DeleteSubscription;
    TokenUpdatesEffect(data, tok, existing, now);
    ApplyUpdatesAppend(data, updates, marker);
    var d := ApplyUpdates(data, updates + [marker]);
    assert d.tokens == ApplyUpdates(data, updates).tokens;
    assert |d.tokens| > 0 <==> hasSubscriptions by {
      if tok.Some? {
        assert tok.value in d.tokens;
      } else {
        assert d.tokens == tokens;
      }
    }
  }

  /** Scenario: a first token, then a second one replacing it, leave only the
      second token and a `subscription` marker. */
  lemma ReplaceTokenScenario(d0: UserDoc, t1: Timestamp, t2: Timestamp)
    requires d0.tokens == map[]
    ensures var r1 := UpdateSubscription(true, Some(d0), Some("tokA"), None, t1, true);
      r1.Committed? &&
      var r2 := UpdateSubscription(true, Some(r1.doc), Some("tokB"), Some("tokA"), t2, true);
      r2.Committed? && r2.doc.tokens == map["tokB" := t2] && r2.doc.subscription == Some(t2)
  {
    var r1 := UpdateSubscription(true, Some(d0), Some("tokA"), None, t1, true);
    CommittedTokens(true, Some(d0), Some("tokA"), None, t1, true);
    var r2 := UpdateSubscription(true, Some(r1.doc), Some("tokB"), Some("tokA"), t2, true);
    CommittedTokens(true, Some(r1.doc), Some("tokB"), Some("tokA"), t2, true);
    assert r1.doc.tokens.Keys == {"tokA"};
    assert r2.doc.tokens.Keys == {"tokB"};
  }

  /** Scenario: removing the only token empties `tokens` and deletes the
      `subscription` marker. */
  lemma RemoveLastTokenScenario(d0: UserDoc, now: Timestamp)
    requires d0.tokens.Keys == {"tokB"}
    ensures var r := UpdateSubscription(true, Some(d0), None, Some("tokB"), now, true);
      r.Committed? && r.doc.tokens == map[] && r.doc.subscription.None?
  {
    CommittedTokens(true, Some(d0), None, Some("tokB"), now, true);
    var r := UpdateSubscription(true, Some(d0), None, Some("tokB"), now, true);
    assert r.doc.tokens.Keys == {};
  }
}
