/** The stored list of posts the blog editor rewrites: update-by-id on save and
    filter-by-id on delete. The route id is the result of `parseInt(id)`, with
    `None` standing for `NaN`, which equals no stored id. */
module BlogStore {
  import opened Wrappers
  import opened BlogForm

  datatype Post = Post(id: int, createdAt: string, updatedAt: string, data: BlogData)

  predicate Matches(p: Post, routeId: Option<int>) {
    routeId.Some? && p.id == routeId.value
  }

  /** `{ ...blog, ...blogData, status, updatedAt }`: the form replaces every post
      field, the requested status and the timestamp override, and the id and
      creation time stay. */
  function Merge(p: Post, form: BlogData, status: Status, now: string): (q: Post)
    ensures q.id == p.id && q.createdAt == p.createdAt && q.updatedAt == now
    ensures q.data.status == StatusText(status)
    ensures forall f :: f != StatusField ==> Get(q.data, f) == Get(form, f)
  {
    Post(p.id, p.createdAt, now, Set(form, StatusField, StatusText(status)))
  }

  /** The `map` of `handleSave`: every post whose id matches is merged with the
      form, every other post is left as it is, and order and length are kept. */
  function UpdateById(posts: seq<Post>, routeId: Option<int>, form: BlogData, status: Status, now: string)
    : (r: seq<Post>)
    ensures |r| == |posts|
    ensures forall i :: 0 <= i < |posts| ==>
      r[i] == if Matches(posts[i], routeId) then Merge(posts[i], form, status, now) else posts[i]
  {
    seq(|posts|, i requires 0 <= i < |posts| =>
      if Matches(posts[i], routeId) then Merge(posts[i], form, status, now) else posts[i])
  }

  function Ids(posts: seq<Post>): (ids: seq<int>)
    ensures |ids| == |posts|
    ensures forall i :: 0 <= i < |posts| ==> ids[i] == posts[i].id
  {
    seq(|posts|, i requires 0 <= i < |posts| => posts[i].id)
  }

  /** Saving never changes which ids are stored, or their order. */
  lemma UpdateKeepsIds(posts: seq<Post>, routeId: Option<int>, form: BlogData, status: Status, now: string)
    ensures Ids(UpdateById(posts, routeId, form, status, now)) == Ids(posts)
  {
  }

  /** With no post carrying the route id (a non-numeric id included) the list is unchanged. */
  lemma UpdateWithoutMatch(posts: seq<Post>, routeId: Option<int>, form: BlogData, status: Status, now: string)
    requires forall i :: 0 <= i < |posts| ==> !Matches(posts[i], routeId)
    ensures UpdateById(posts, routeId, form, status, now) == posts
  {
  }

  /** Saving the same form twice with the same status and time changes nothing more. */
  lemma UpdateIdempotent(posts: seq<Post>, routeId: Option<int>, form: BlogData, status: Status, now: string)
    ensures var once := UpdateById(posts, routeId, form, status, now);
            UpdateById(once, routeId, form, status, now) == once
  {
    var once := UpdateById(posts, routeId, form, status, now);
    var twice := UpdateById(once, routeId, form, status, now);
    forall i | 0 <= i < |posts| ensures twice[i] == once[i] {
      if Matches(posts[i], routeId) {
        assert Matches(once[i], routeId);
      }
    }
  }

  /** The `filter` of `handleDelete`: the posts whose id differs, in order. */
  function RemoveById(posts: seq<Post>, routeId: Option<int>): (r: seq<Post>)
    ensures |r| <= |posts|
    ensures forall i :: 0 <= i < |r| ==> !Matches(r[i], routeId) && r[i] in posts
    ensures forall i :: 0 <= i < |posts| && !Matches(posts[i], routeId) ==> posts[i] in r
  {
    if posts == [] then []
    else if Matches(posts[0], routeId) then RemoveById(posts[1..], routeId)
    else [posts[0]] + RemoveById(posts[1..], routeId)
  }

  /** The number of posts with the route id. */
  function MatchCount(posts: seq<Post>, routeId: Option<int>): nat {
    if posts == [] then 0 else (if Matches(posts[0], routeId) then 1 else 0) + MatchCount(posts[1..], routeId)
  }

  /** Deleting drops exactly the matching posts. */
  lemma {:induction false} RemoveCount(posts: seq<Post>, routeId: Option<int>)
    ensures |RemoveById(posts, routeId)| + MatchCount(posts, routeId) == |posts|
  {
    if posts != [] {
      RemoveCount(posts[1..], routeId);
    }
  }

  /** Deleting works piecewise, so posts keep their relative order. */
  lemma {:induction false} RemoveAppend(a: seq<Post>, b: seq<Post>, routeId: Option<int>)
    ensures RemoveById(a + b, routeId) == RemoveById(a, routeId) + RemoveById(b, routeId)
  {
    if a != [] {
      RemoveAppend(a[1..], b, routeId);
      assert (a + b)[1..] == a[1..] + b;
    } else {
      assert a + b == b;
    }
  }

  /** With no post carrying the route id the list is unchanged. */
  lemma {:induction false} RemoveWithoutMatch(posts: seq<Post>, routeId: Option<int>)
    requires forall i :: 0 <= i < |posts| ==> !Matches(posts[i], routeId)
    ensures RemoveById(posts, routeId) == posts
  {
    if posts != [] {
      RemoveWithoutMatch(posts[1..], routeId);
    }
  }

  /** Deleting twice is deleting once. */
  lemma RemoveIdempotent(posts: seq<Post>, routeId: Option<int>)
    ensures RemoveById(RemoveById(posts, routeId), routeId) == RemoveById(posts, routeId)
  {
    RemoveWithoutMatch(RemoveById(posts, routeId), routeId);
  }

  /** The stored `blogs` list. */
  class PostStore {
    var posts: seq<Post>

    constructor(initial: seq<Post>)
      ensures posts == initial
    {
      posts := initial;
    }

    method Update(routeId: Option<int>, form: BlogData, status: Status, now: string)
      modifies this
      ensures posts == UpdateById(old(posts), routeId, form, status, now)
    {
      posts := UpdateById(posts, routeId, form, status, now);
    }

    method Delete(routeId: Option<int>)
      modifies this
      ensures posts == RemoveById(old(posts), routeId)
    {
      posts := RemoveById(posts, routeId);
    }
  }
}
