/** src/site/_utils/post-to-path-map.js: the reverse index from each guide's
    slug to the (path, topic) pairs that list it, in the order the paths,
    their topics and their items are visited. */
module PostToPathMap {
  import opened Js

  /** A topic of a learning path; `pathItems` may be missing. */
  datatype Topic = Topic(title: string, pathItems: Option<seq<string>>)

  /** A learning path (or framework or audit collection) and its topics. */
  datatype Path = Path(title: string, topics: seq<Topic>)

  /** The index's value for one slug: parallel lists of paths and topics. */
  datatype Entry = Entry(paths: seq<Path>, topics: seq<Topic>)

  /** One listing of a slug: by `topic`, a topic of `path`. */
  datatype Occurrence = Occurrence(path: Path, topic: Topic, slug: string)

  /** `topic.pathItems || []`. */
  function Items(t: Topic): (items: seq<string>)
    ensures t.pathItems.None? ==> items == []
    ensures t.pathItems.Some? ==> items == t.pathItems.value
  {
    if t.pathItems.Some? then t.pathItems.value else []
  }

  /** The listings made by the items `slugs` of topic `t` of path `p`. */
  function SlugOccurrences(p: Path, t: Topic, slugs: seq<string>): (os: seq<Occurrence>)
    ensures |os| == |slugs|
    ensures forall k :: 0 <= k < |slugs| ==> os[k] == Occurrence(p, t, slugs[k])
  {
    seq(|slugs|, k requires 0 <= k < |slugs| => Occurrence(p, t, slugs[k]))
  }

  /** The listings made by `topics` of path `p`, in order. */
  function TopicOccurrences(p: Path, topics: seq<Topic>): seq<Occurrence> {
    if topics == [] then []
    else
      var last := topics[|topics| - 1];
      TopicOccurrences(p, topics[..|topics| - 1]) + SlugOccurrences(p, last, Items(last))
  }

  /** Every listing made by `paths`, in traversal order. */
  function Occurrences(paths: seq<Path>): seq<Occurrence> {
    if paths == [] then []
    else
      var last := paths[|paths| - 1];
      Occurrences(paths[..|paths| - 1]) + TopicOccurrences(last, last.topics)
  }

  /** The listings of `slug` among `occs`, in order. */
  function Matching(occs: seq<Occurrence>, slug: string): seq<Occurrence> {
    if occs == [] then []
    else
      var last := occs[|occs| - 1];
      Matching(occs[..|occs| - 1], slug) + (if last.slug == slug then [last] else [])
  }

  /** The parallel lists for a run of listings. */
  function EntryOf(ms: seq<Occurrence>): (e: Entry)
    ensures |e.paths| == |ms| && |e.topics| == |ms|
    ensures forall i :: 0 <= i < |ms| ==> e.paths[i] == ms[i].path && e.topics[i] == ms[i].topic
  {
    Entry(seq(|ms|, i requires 0 <= i < |ms| => ms[i].path),
          seq(|ms|, i requires 0 <= i < |ms| => ms[i].topic))
  }

  function SlugSeq(occs: seq<Occurrence>): (ss: seq<string>)
    ensures |ss| == |occs| && forall i :: 0 <= i < |occs| ==> ss[i] == occs[i].slug
  {
    seq(|occs|, i requires 0 <= i < |occs| => occs[i].slug)
  }

  /** The reverse index, declaratively: a key for every listed slug, whose
      entry holds that slug's listings in order. */
  function ReverseIndex(occs: seq<Occurrence>): map<string, Entry> {
    map s | s in SlugSeq(occs) :: EntryOf(Matching(occs, s))
  }

  /** Well-formed index: every entry has at least one path and one topic. */
  predicate NonEmptyEntries(m: map<string, Entry>) {
    forall s :: s in m ==> |m[s].paths| > 0 && |m[s].topics| > 0
  }

  lemma {:induction false} MatchingEmpty(occs: seq<Occurrence>, slug: string)
    ensures Matching(occs, slug) == [] <==> slug !in SlugSeq(occs)
  {
    if occs != [] {
      var prefix := occs[..|occs| - 1];
      MatchingEmpty(prefix, slug);
      assert SlugSeq(occs) == SlugSeq(prefix) + [occs[|occs| - 1].slug];
    }
  }

  lemma EntryOfSnoc(ms: seq<Occurrence>, o: Occurrence)
    ensures EntryOf(ms + [o]) == Entry(EntryOf(ms).paths + [o.path], EntryOf(ms).topics + [o.topic])
  {
  }

  /** Appending one listing updates the index as the loop body does: push onto
      the slug's lists when the slug is already a key, else add a new key. */
  lemma ReverseIndexAppend(occs: seq<Occurrence>, o: Occurrence)
    ensures var m := ReverseIndex(occs);
      ReverseIndex(occs + [o]) ==
        if o.slug in m then m[o.slug := Entry(m[o.slug].paths + [o.path], m[o.slug].topics + [o.topic])]
        else m[o.slug := Entry([o.path], [o.topic])]
  {
    var m := ReverseIndex(occs);
    var occs' := occs + [o];
    assert occs'[..|occs'| - 1] == occs;
    assert SlugSeq(occs') == SlugSeq(occs) + [o.slug];
    var expected :=
      if o.slug in m then m[o.slug := Entry(m[o.slug].paths + [o.path], m[o.slug].topics + [o.topic])]
      else m[o.slug := Entry([o.path], [o.topic])];
    forall s | s in SlugSeq(occs')
      ensures EntryOf(Matching(occs', s)) == expected[s]
    {
      assert Matching(occs', s) == Matching(occs, s) + (if o.slug == s then [o] else []);
      if s == o.slug {
        EntryOfSnoc(Matching(occs, s), o);
        if o.slug !in m {
          MatchingEmpty(occs, s);
        }
      }
    }
    assert ReverseIndex(occs').Keys == expected.Keys;
  }

  lemma SlugOccurrencesSnoc(p: Path, t: Topic, items: seq<string>, k: nat)
    requires k < |items|
    ensures SlugOccurrences(p, t, items[..k + 1]) == SlugOccurrences(p, t, items[..k]) + [Occurrence(p, t, items[k])]
  {
  }

  lemma TopicOccurrencesSnoc(p: Path, topics: seq<Topic>, j: nat)
    requires j < |topics|
    ensures TopicOccurrences(p, topics[..j + 1]) ==
            TopicOccurrences(p, topics[..j]) + SlugOccurrences(p, topics[j], Items(topics[j]))
  {
    assert topics[..j + 1][..j] == topics[..j];
  }

  lemma OccurrencesSnoc(paths: seq<Path>, i: nat)
    requires i < |paths|
    ensures Occurrences(paths[..i + 1]) == Occurrences(paths[..i]) + TopicOccurrences(paths[i], paths[i].topics)
  {
    assert paths[..i + 1][..i] == paths[..i];
  }

  /** The listings of one slug are listings from `occs`, all of that slug, and
      there are as many as `occs` lists the slug. */
  lemma {:induction false} MatchingCount(occs: seq<Occurrence>, slug: string)
    ensures |Matching(occs, slug)| == multiset(SlugSeq(occs))[slug]
    ensures forall x :: x in Matching(occs, slug) ==> x in occs && x.slug == slug
  {
    if occs != [] {
      var prefix := occs[..|occs| - 1];
      MatchingCount(prefix, slug);
      assert SlugSeq(occs) == SlugSeq(prefix) + [occs[|occs| - 1].slug];
      assert occs == prefix + [occs[|occs| - 1]];
    }
  }

  /** `indexOf` is unchanged by appending to a list that already holds `x`. */
  lemma {:induction false} IndexOfSnoc(xs: seq<string>, y: string, x: string)
    requires x in xs
    ensures IndexOf(xs + [y], x) == IndexOf(xs, x)
  {
    var ys := xs + [y];
    if xs[0] != x {
      assert ys[1..] == xs[1..] + [y];
      IndexOfSnoc(xs[1..], y, x);
    }
  }

  /** The first listing of a slug is the first listing of it in `occs`. */
  lemma {:induction false} MatchingFirst(occs: seq<Occurrence>, slug: string)
    requires slug in SlugSeq(occs)
    ensures |Matching(occs, slug)| > 0
    ensures Matching(occs, slug)[0] == occs[IndexOf(SlugSeq(occs), slug)]
  {
    var prefix := occs[..|occs| - 1];
    var last := occs[|occs| - 1];
    assert SlugSeq(occs) == SlugSeq(prefix) + [last.slug];
    if slug in SlugSeq(prefix) {
      MatchingFirst(prefix, slug);
      IndexOfSnoc(SlugSeq(prefix), last.slug, slug);
    } else {
      MatchingEmpty(prefix, slug);
      assert IndexOf(SlugSeq(occs), slug) == |occs| - 1;
    }
  }

  lemma SlugOccurrencesMembership(p: Path, t: Topic, slugs: seq<string>, o: Occurrence)
    ensures o in SlugOccurrences(p, t, slugs) <==> o.path == p && o.topic == t && o.slug in slugs
  {
    if o.path == p && o.topic == t && o.slug in slugs {
      var k :| 0 <= k < |slugs| && slugs[k] == o.slug;
      assert SlugOccurrences(p, t, slugs)[k] == o;
    }
  }

  lemma {:induction false} TopicOccurrencesMembership(p: Path, topics: seq<Topic>, o: Occurrence)
    ensures o in TopicOccurrences(p, topics) <==> o.path == p && o.topic in topics && o.slug in Items(o.topic)
  {
    if topics != [] {
      var prefix := topics[..|topics| - 1];
      var last := topics[|topics| - 1];
      TopicOccurrencesMembership(p, prefix, o);
      SlugOccurrencesMembership(p, last, Items(last), o);
      assert topics == prefix + [last];
    }
  }

  /** A listing is made by the traversal exactly when its path is one of
      `paths`, its topic is a topic of that path and its slug is an item of
      that topic. */
  lemma {:induction false} OccurrencesMembership(paths: seq<Path>, o: Occurrence)
    ensures o in Occurrences(paths) <==> o.path in paths && o.topic in o.path.topics && o.slug in Items(o.topic)
  {
    if paths != [] {
      var prefix := paths[..|paths| - 1];
      var last := paths[|paths| - 1];
      OccurrencesMembership(prefix, o);
      TopicOccurrencesMembership(last, last.topics, o);
      assert paths == prefix + [last];
    }
  }

  /** The index has a key for a slug exactly when some topic of some path
      lists it; a topic without `pathItems` lists nothing. */
  lemma PostToPathMapKeys(paths: seq<Path>, slug: string)
    ensures slug in ReverseIndex(Occurrences(paths)) <==>
      exists p, t :: p in paths && t in p.topics && slug in Items(t)
  {
    var os := Occurrences(paths);
    if slug in ReverseIndex(os) {
      var k :| 0 <= k < |os| && SlugSeq(os)[k] == slug;
      OccurrencesMembership(paths, os[k]);
    }
    if exists p, t :: p in paths && t in p.topics && slug in Items(t) {
      var p, t :| p in paths && t in p.topics && slug in Items(t);
      OccurrencesMembership(paths, Occurrence(p, t, slug));
      var k :| 0 <= k < |os| && os[k] == Occurrence(p, t, slug);
      assert SlugSeq(os)[k] == slug;
    }
  }

  /** Each entry holds parallel lists with one element per listing of the
      slug, each topic a topic of its path that lists the slug, and the first
      listing in traversal order at index 0. */
  lemma PostToPathMapEntry(paths: seq<Path>, slug: string)
    requires slug in ReverseIndex(Occurrences(paths))
    ensures var os := Occurrences(paths);
      var e := ReverseIndex(os)[slug];
      && |e.paths| == |e.topics| == multiset(SlugSeq(os))[slug] > 0
      && (forall i :: 0 <= i < |e.paths| ==>
            e.paths[i] in paths && e.topics[i] in e.paths[i].topics && slug in Items(e.topics[i]))
      && e.paths[0] == os[IndexOf(SlugSeq(os), slug)].path
      && e.topics[0] == os[IndexOf(SlugSeq(os), slug)].topic
  {
    var os := Occurrences(paths);
    var ms := Matching(os, slug);
    MatchingCount(os, slug);
    MatchingFirst(os, slug);
    forall i | 0 <= i < |ms|
      ensures ms[i].path in paths && ms[i].topic in ms[i].path.topics && slug in Items(ms[i].topic)
    {
      assert ms[i] in ms;
      OccurrencesMembership(paths, ms[i]);
    }
  }

  /** Every entry of the index has at least one path and one topic. */
  lemma ReverseIndexNonEmpty(occs: seq<Occurrence>)
    ensures NonEmptyEntries(ReverseIndex(occs))
  {
    forall s | s in ReverseIndex(occs)
      ensures |Matching(occs, s)| > 0
    {
      MatchingEmpty(occs, s);
    }
  }

  /** The innermost callback, for every item of one topic: push the (path,
      topic) pair onto the slug's lists, or create the slug's entry. */
  method IndexTopicItems(m: map<string, Entry>, ghost done: seq<Occurrence>, path: Path, topic: Topic)
    returns (postToPathMap: map<string, Entry>)
    requires m == ReverseIndex(done)
    ensures postToPathMap == ReverseIndex(done + SlugOccurrences(path, topic, Items(topic)))
  {
    postToPathMap := m;
    var items := Items(topic);
    var k := 0;
    assert done + SlugOccurrences(path, topic, items[..0]) == done;
    while k < |items|
      invariant 0 <= k <= |items|
      invariant postToPathMap == ReverseIndex(done + SlugOccurrences(path, topic, items[..k]))
    {
      var slug := items[k];
      ReverseIndexAppend(done + SlugOccurrences(path, topic, items[..k]), Occurrence(path, topic, slug));
      if slug in postToPathMap {
        var post := postToPathMap[slug];
        postToPathMap := postToPathMap[slug := Entry(post.paths + [path], post.topics + [topic])];
      } else {
        postToPathMap := postToPathMap[slug := Entry([path], [topic])];
      }
      SlugOccurrencesSnoc(path, topic, items, k);
      assert done + SlugOccurrences(path, topic, items[..k + 1]) ==
             (done + SlugOccurrences(path, topic, items[..k])) + [Occurrence(path, topic, slug)];
      k := k + 1;
    }
    assert items[..k] == items;
  }

  /** The middle callback, for every topic of one path. */
  method IndexPathTopics(m: map<string, Entry>, ghost done: seq<Occurrence>, path: Path)
    returns (postToPathMap: map<string, Entry>)
    requires m == ReverseIndex(done)
    ensures postToPathMap == ReverseIndex(done + TopicOccurrences(path, path.topics))
  {
    postToPathMap := m;
    var j := 0;
    assert done + TopicOccurrences(path, path.topics[..0]) == done;
    while j < |path.topics|
      invariant 0 <= j <= |path.topics|
      invariant postToPathMap == ReverseIndex(done + TopicOccurrences(path, path.topics[..j]))
    {
      var topic := path.topics[j];
      postToPathMap := IndexTopicItems(postToPathMap, done + TopicOccurrences(path, path.topics[..j]), path, topic);
      TopicOccurrencesSnoc(path, path.topics, j);
      assert done + TopicOccurrences(path, path.topics[..j + 1]) ==
             (done + TopicOccurrences(path, path.topics[..j])) + SlugOccurrences(path, topic, Items(topic));
      j := j + 1;
    }
    assert path.topics[..j] == path.topics;
  }

  /** The module's outer loop over paths, then frameworks, then audits. */
  method BuildPostToPathMap(learnPaths: seq<Path>, frameworks: seq<Path>, audits: seq<Path>)
    returns (postToPathMap: map<string, Entry>)
    ensures postToPathMap == ReverseIndex(Occurrences(learnPaths + frameworks + audits))
  {
    var paths := learnPaths + frameworks + audits;
    postToPathMap := map[];
    var i := 0;
    while i < |paths|
      invariant 0 <= i <= |paths|
      invariant postToPathMap == ReverseIndex(Occurrences(paths[..i]))
    {
      postToPathMap := IndexPathTopics(postToPathMap, Occurrences(paths[..i]), paths[i]);
      OccurrencesSnoc(paths, i);
      i := i + 1;
    }
    assert paths[..i] == paths;
  }
}
