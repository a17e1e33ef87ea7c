/** The list logic of src/site/_includes/components/RelatedContent.js: the
    paths a guide belongs to, then neighbouring guides from each of its topics,
    capped at three recommendations. Rendering the cards is not modelled. */
module RelatedContent {
  import opened Js
  import opened PostToPathMap

  /** `{type: 'path', data: path}` or `{type: 'topic', data: slug}`. */
  datatype Recommendation = PathRec(path: Path) | TopicRec(slug: string)

  /** What the exported function returns: the back-to-blog navigation for a
      guide in no path, or the recommendations it renders. */
  datatype Related = BackToBlog(back: string, backLabel: string) | Recommendations(recs: seq<Recommendation>)

  /** The back link of the navigation shown for a guide in no path. */
  const BackHref: string := "/blog"
  const BackLabel: string := "Return to all articles"

  /** How many neighbours one topic contributes at most (`max`). */
  const MaxPerTopic: nat := 2

  /** How many recommendations are rendered at most. */
  const MaxRecommendations: nat := 3

  /** `filteredItems` after `filteredItems.splice(idx, 1)`. */
  function Remaining(items: seq<string>, slug: string): (r: seq<string>)
    ensures slug in items ==> |r| == |items| - 1
  {
    SpliceRest(items, IndexOf(items, slug), 1)
  }

  /** What one topic with items `items` adds for `slug`: all remaining items
      when at most two remain, and otherwise a window of two of them — the
      first two when `slug` came first, the last two when it came last (or
      was absent), and the items either side of it otherwise. */
  function TopicPicks(items: seq<string>, slug: string): (r: seq<string>)
    ensures |r| <= MaxPerTopic
    ensures forall k :: 0 <= k < |r| ==> r[k] in Remaining(items, slug)
  {
    var rest := Remaining(items, slug);
    if |rest| <= MaxPerTopic then rest
    else
      var idx := IndexOf(items, slug);
      var w := if idx == 0 then 0
               else if idx == |items| - 1 || idx == -1 then |rest| - MaxPerTopic
               else idx - 1;
      rest[w..w + MaxPerTopic]
  }

  /** `recommendPaths(paths)`, declaratively. */
  function PathRecs(paths: seq<Path>): seq<Recommendation> {
    seq(|paths|, i requires 0 <= i < |paths| => PathRec(paths[i]))
  }

  /** `recommendTopics(topics, slug)`, declaratively: each topic's picks, in
      topic order. */
  function TopicRecs(topics: seq<Topic>, slug: string): seq<Recommendation> {
    if topics == [] then []
    else
      var last := topics[|topics| - 1];
      var picks := TopicPicks(Items(last), slug);
      TopicRecs(topics[..|topics| - 1], slug) + seq(|picks|, k requires 0 <= k < |picks| => TopicRec(picks[k]))
  }

  /** `output.splice(0, 3)`: the first three recommendations. */
  function Cap(output: seq<Recommendation>): (r: seq<Recommendation>)
    ensures |r| == (if |output| < MaxRecommendations then |output| else MaxRecommendations)
    ensures r == output[..|r|]
  {
    SpliceRemoved(output, 0, MaxRecommendations)
  }

  /** A topic whose only item is the guide itself contributes nothing. */
  lemma LoneItemContributesNothing(slug: string)
    ensures TopicPicks([slug], slug) == []
  {
  }

  /** With at most two other items, all of them are added, in order. */
  lemma ShortTopicContributesAllOthers(items: seq<string>, slug: string)
    requires slug in items && |items| <= MaxPerTopic + 1
    ensures var idx := IndexOf(items, slug);
      TopicPicks(items, slug) == items[..idx] + items[idx + 1..]
  {
  }

  /** A guide first in a longer topic gets the next two items. */
  lemma FirstGetsNextTwo(items: seq<string>, slug: string)
    requires |items| > MaxPerTopic + 1 && items[0] == slug
    ensures TopicPicks(items, slug) == items[1..3]
  {
  }

  /** A guide last in a longer topic (and not earlier in it) gets the two
      items before it. */
  lemma LastGetsPreviousTwo(items: seq<string>, slug: string)
    requires |items| > MaxPerTopic + 1 && IndexOf(items, slug) == |items| - 1
    ensures TopicPicks(items, slug) == items[|items| - 3..|items| - 1]
  {
  }

  /** A guide in the middle of a longer topic gets its two neighbours. */
  lemma MiddleGetsNeighbours(items: seq<string>, slug: string)
    requires |items| > MaxPerTopic + 1
    requires 0 < IndexOf(items, slug) < |items| - 1
    ensures var idx := IndexOf(items, slug);
      TopicPicks(items, slug) == [items[idx - 1], items[idx + 1]]
  {
    var idx := IndexOf(items, slug);
    var filtered := Remaining(items, slug);
    assert filtered == items[..idx] + items[idx + 1..];
    assert filtered[idx - 1] == items[idx - 1] && filtered[idx] == items[idx + 1];
  }

  /** A guide listed once in a topic is never recommended from that topic. */
  lemma {:induction false} NotRecommendedFromOwnTopic(items: seq<string>, slug: string)
    requires multiset(items)[slug] == 1
    ensures slug !in TopicPicks(items, slug)
  {
    var idx := IndexOf(items, slug);
    var filtered := Remaining(items, slug);
    assert filtered == items[..idx] + items[idx + 1..];
    assert items == items[..idx] + [slug] + items[idx + 1..];
    assert multiset(filtered)[slug] == 0;
  }

  lemma TopicRecsSnoc(topics: seq<Topic>, slug: string, i: nat)
    requires i < |topics|
    ensures var picks := TopicPicks(Items(topics[i]), slug);
      TopicRecs(topics[..i + 1], slug) ==
        TopicRecs(topics[..i], slug) + seq(|picks|, k requires 0 <= k < |picks| => TopicRec(picks[k]))
  {
    assert topics[..i + 1][..i] == topics[..i];
  }

  /** Topic recommendations are all topic items, at most two per topic. */
  lemma {:induction false} TopicRecsShape(topics: seq<Topic>, slug: string)
    ensures |TopicRecs(topics, slug)| <= MaxPerTopic * |topics|
    ensures forall k :: 0 <= k < |TopicRecs(topics, slug)| ==> TopicRecs(topics, slug)[k].TopicRec?
  {
    if topics != [] {
      TopicRecsShape(topics[..|topics| - 1], slug);
    }
  }

  /** `recommendPaths(paths)`: one path recommendation per path, in order. */
  method RecommendPaths(paths: seq<Path>) returns (recommendations: seq<Recommendation>)
    ensures recommendations == PathRecs(paths)
  {
    recommendations := [];
    var i := 0;
    while i < |paths|
      invariant 0 <= i <= |paths|
      invariant recommendations == PathRecs(paths[..i])
    {
      recommendations := recommendations + [PathRec(paths[i])];
      i := i + 1;
    }
    assert paths[..i] == paths;
  }

  /** The callback `recommendTopics` runs for one topic: copy the topic's
      items, splice `slug` out of the copy, then splice the neighbours to add
      out of what remains. */
  method TopicNeighbours(pathItems: seq<string>, slug: string) returns (added: seq<string>)
    ensures added == TopicPicks(pathItems, slug)
  {
    var idx := IndexOf(pathItems, slug);
    var isFirst := idx == 0;
    var isLast := idx == |pathItems| - 1;
    var filteredItems := new JsArray(pathItems);
    var _ := filteredItems.Splice(idx, 1);
    added := [];
    if |filteredItems.elements| == 0 {
      return;
    }
    if |filteredItems.elements| <= MaxPerTopic {
      added := filteredItems.elements;
      return;
    }
    if isFirst {
      added := filteredItems.Splice(0, MaxPerTopic);
      return;
    }
    if isLast {
      added := filteredItems.Splice(-(MaxPerTopic as int), MaxPerTopic);
      return;
    }
    added := filteredItems.Splice(idx - 1, MaxPerTopic);
  }

  /** `addToRecommendations(items)`: push a topic recommendation per item. */
  method AddToRecommendations(recommendations: seq<Recommendation>, items: seq<string>)
    returns (recommendations': seq<Recommendation>)
    ensures recommendations' == recommendations + seq(|items|, k requires 0 <= k < |items| => TopicRec(items[k]))
  {
    recommendations' := recommendations;
    var k := 0;
    while k < |items|
      invariant 0 <= k <= |items|
      invariant recommendations' == recommendations + seq(k, j requires 0 <= j < k => TopicRec(items[j]))
    {
      recommendations' := recommendations' + [TopicRec(items[k])];
      k := k + 1;
    }
  }

  /** `recommendTopics(topics, slug)`: every topic's `pathItems` must be an
      array, as `indexOf` is called on it. */
  method RecommendTopics(topics: seq<Topic>, slug: string) returns (recommendations: seq<Recommendation>)
    requires forall t :: t in topics ==> t.pathItems.Some?
    ensures recommendations == TopicRecs(topics, slug)
  {
    recommendations := [];
    var i := 0;
    while i < |topics|
      invariant 0 <= i <= |topics|
      invariant recommendations == TopicRecs(topics[..i], slug)
    {
      var added := TopicNeighbours(topics[i].pathItems.value, slug);
      recommendations := AddToRecommendations(recommendations, added);
      TopicRecsSnoc(topics, slug, i);
      i := i + 1;
    }
    assert topics[..i] == topics;
  }

  /** The exported function, given the index it reads. */
  method RelatedContentFor(postToPathMap: map<string, Entry>, slug: string) returns (r: Related)
    requires slug in postToPathMap ==> forall t :: t in postToPathMap[slug].topics ==> t.pathItems.Some?
    ensures slug !in postToPathMap <==> r.BackToBlog?
    ensures r.BackToBlog? ==> r == BackToBlog(BackHref, BackLabel)
    ensures slug in postToPathMap ==>
      r == Recommendations(Cap(PathRecs(postToPathMap[slug].paths) + TopicRecs(postToPathMap[slug].topics, slug)))
  {
    if slug !in postToPathMap {
      return BackToBlog(BackHref, BackLabel);
    }
    var result := postToPathMap[slug];
    var recommendedPaths := RecommendPaths(result.paths);
    var recommendedTopics := RecommendTopics(result.topics, slug);
    var output := recommendedPaths + recommendedTopics;
    output := SpliceRemoved(output, 0, MaxRecommendations);
    r := Recommendations(output);
  }

  /** The rendered list is at most three long, takes the paths first and
      then topic neighbours, and is the start of the full list. */
  lemma {:induction false} RecommendationsShape(e: Entry, slug: string)
    ensures var full := PathRecs(e.paths) + TopicRecs(e.topics, slug);
      var recs := Cap(full);
      && |recs| == (if |full| < MaxRecommendations then |full| else MaxRecommendations)
      && recs == full[..|recs|]
      && (forall i :: 0 <= i < |recs| && i < |e.paths| ==> recs[i] == PathRec(e.paths[i]))
      && (forall i :: 0 <= i < |recs| && |e.paths| <= i ==> recs[i].TopicRec?)
  {
    var full := PathRecs(e.paths) + TopicRecs(e.topics, slug);
    var recs := Cap(full);
    TopicRecsShape(e.topics, slug);
    forall i | 0 <= i < |recs| && i < |e.paths|
      ensures recs[i] == PathRec(e.paths[i])
    {
      assert recs[i] == full[i] == PathRecs(e.paths)[i];
    }
    forall i | 0 <= i < |recs| && |e.paths| <= i
      ensures recs[i].TopicRec?
    {
      assert recs[i] == full[i] == TopicRecs(e.topics, slug)[i - |e.paths|];
    }
  }

  /** A guide that is a topic item of every topic in its entry is never
      recommended to itself when each topic lists it once. */
  lemma {:induction false} NeverRecommendsItself(topics: seq<Topic>, slug: string)
    requires forall t :: t in topics ==> multiset(Items(t))[slug] == 1
    ensures TopicRec(slug) !in TopicRecs(topics, slug)
  {
    if topics != [] {
      var last := topics[|topics| - 1];
      var picks := TopicPicks(Items(last), slug);
      NeverRecommendsItself(topics[..|topics| - 1], slug);
      NotRecommendedFromOwnTopic(Items(last), slug);
      var tail := seq(|picks|, k requires 0 <= k < |picks| => TopicRec(picks[k]));
      assert TopicRec(slug) !in tail;
    }
  }

  /** The index built by the site satisfies the lookup's requirement: every
      topic in an entry has `pathItems`, and lists the entry's slug. */
  lemma IndexedTopicsListSlug(paths: seq<Path>, slug: string)
    requires slug in ReverseIndex(Occurrences(paths))
    ensures forall t :: t in ReverseIndex(Occurrences(paths))[slug].topics ==>
      t.pathItems.Some? && slug in t.pathItems.value
  {
    PostToPathMapEntry(paths, slug);
  }
}
