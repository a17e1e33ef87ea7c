/** src/site/_filters/posts-lighthouse-json.js: the JSON object that links each
    post to its Lighthouse audits and to the first path and topic that list it. */
module PostsLighthouseJson {
  import opened Js
  import opened PostToPathMap

  /** A front-matter value as the filter sees it: missing, a string, or an
      array of values. */
  datatype FrontMatter = Undefined | Str(s: string) | Arr(items: seq<FrontMatter>)

  /** The fields of `post.data` the filter reads. */
  datatype PostData = PostData(title: FrontMatter, webLighthouse: FrontMatter)

  /** A collection item: its file slug, its URL and its data. */
  datatype Post = Post(fileSlug: string, url: string, data: PostData)

  /** One element of `guides`. */
  datatype Guide = Guide(path: string, topic: string, id: string, lighthouse: seq<FrontMatter>,
                         title: FrontMatter, url: string)

  /** The filter either throws or returns `{guides}`. */
  datatype Outcome = Threw(message: string) | Guides(guides: seq<Guide>)

  const NoPostsMessage: string := "No posts were passed to the filter!"

  /** `toArray(raw)`: an array is kept, anything else is wrapped. */
  function ToArray(raw: FrontMatter): (r: seq<FrontMatter>)
    ensures raw.Arr? ==> r == raw.items
    ensures !raw.Arr? ==> |r| == 1 && r[0] == raw
  {
    if raw.Arr? then raw.items else [raw]
  }

  /** The guide built for one post. `stripLanguage` is another filter of the
      site and is taken as a parameter. */
  function GuideFor(post: Post, postToPathMap: map<string, Entry>, stripLanguage: string -> string): (g: Guide)
    requires NonEmptyEntries(postToPathMap)
    ensures g.id == post.fileSlug && g.title == post.data.title && g.url == stripLanguage(post.url)
    ensures g.lighthouse == ToArray(post.data.webLighthouse)
    ensures post.fileSlug !in postToPathMap ==> g.path == "" && g.topic == ""
    ensures post.fileSlug in postToPathMap ==>
      g.path == postToPathMap[post.fileSlug].paths[0].title &&
      g.topic == postToPathMap[post.fileSlug].topics[0].title
  {
    var guide := Guide("", "", post.fileSlug, ToArray(post.data.webLighthouse), post.data.title,
                       stripLanguage(post.url));
    if post.fileSlug !in postToPathMap then guide
    else
      var result := postToPathMap[post.fileSlug];
      guide.(path := result.paths[0].title, topic := result.topics[0].title)
  }

  /** The exported filter; `None` stands for a missing `posts` argument. */
  function PostsToGuides(posts: Option<seq<Post>>, postToPathMap: map<string, Entry>,
                         stripLanguage: string -> string): (r: Outcome)
    requires NonEmptyEntries(postToPathMap)
    ensures posts.None? <==> r.Threw?
    ensures r.Threw? ==> r.message == NoPostsMessage
    ensures r.Guides? ==> |r.guides| == |posts.value|
    ensures r.Guides? ==> forall i :: 0 <= i < |r.guides| ==>
      r.guides[i].id == posts.value[i].fileSlug && r.guides[i] == GuideFor(posts.value[i], postToPathMap, stripLanguage)
  {
    if posts.None? then Threw(NoPostsMessage)
    else
      var ps := posts.value;
      Guides(seq(|ps|, i requires 0 <= i < |ps| => GuideFor(ps[i], postToPathMap, stripLanguage)))
  }

  /** Against the index the site builds, a post listed by some topic gets the
      titles of the first path and topic that list it in traversal order, and
      a post listed nowhere gets empty ones. */
  lemma GuideUsesFirstListing(paths: seq<Path>, post: Post, stripLanguage: string -> string)
    requires NonEmptyEntries(ReverseIndex(Occurrences(paths)))
    ensures var os := Occurrences(paths);
      var g := GuideFor(post, ReverseIndex(os), stripLanguage);
      && ((exists p, t :: p in paths && t in p.topics && post.fileSlug in Items(t)) <==> post.fileSlug in SlugSeq(os))
      && (post.fileSlug in SlugSeq(os) ==>
            g.path == os[IndexOf(SlugSeq(os), post.fileSlug)].path.title &&
            g.topic == os[IndexOf(SlugSeq(os), post.fileSlug)].topic.title)
      && (post.fileSlug !in SlugSeq(os) ==> g.path == "" && g.topic == "")
  {
    PostToPathMapKeys(paths, post.fileSlug);
    if post.fileSlug in SlugSeq(Occurrences(paths)) {
      PostToPathMapEntry(paths, post.fileSlug);
    }
  }

  /** Every guide's `lighthouse` is a list holding the post's audits: the
      post's array itself, or its single value. */
  lemma LighthouseIsAlwaysAList(posts: seq<Post>, postToPathMap: map<string, Entry>, stripLanguage: string -> string)
    requires NonEmptyEntries(postToPathMap)
    ensures var r := PostsToGuides(Some(posts), postToPathMap, stripLanguage);
      r.Guides? && forall i :: 0 <= i < |posts| ==>
        var raw := posts[i].data.webLighthouse;
        (raw.Arr? ==> r.guides[i].lighthouse == raw.items) &&
        (!raw.Arr? ==> r.guides[i].lighthouse == [raw])
  {
  }
}
