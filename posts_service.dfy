/** The collection logic of the sample-data HTTP service: the seeded `posts` array,
    `GET /api/posts` (filter by `userId`, truncate to `limit`), `GET /api/posts/:id`
    and `POST /api/posts`. Query and body values arrive already parsed. */
module PostsService {
  import opened Common

  const NotFoundError: string := "投稿が見つかりません"
  const MissingFieldsError: string := "タイトルと本文は必須です"

  /** A JSON reply: a status code with a payload, or a status code with `{ error }`. */
  datatype Response<T> = Json(status: nat, value: T) | ErrorJson(status: nat, error: string)

  /** The six seeded posts; all belong to user 1. */
  const SeedPosts: seq<Post> := [
    Post(1, "Vue 3 バックグラウンド処理の学習",
         "Vue 3における非同期処理、タイマー処理、API通信、状態管理、Web Workerについて学習します。", 1),
    Post(2, "非同期処理（async/await）",
         "JavaScriptの非同期処理について理解し、Vue 3でどのように活用するかを学びます。", 1),
    Post(3, "タイマー処理（setTimeout / setInterval）",
         "定期的な処理や遅延処理を実装する方法について学習します。", 1),
    Post(4, "API 通信（axios）",
         "外部APIとの通信方法とエラーハンドリングについて学びます。", 1),
    Post(5, "状態管理（Pinia）",
         "Vue 3の推奨状態管理ライブラリであるPiniaの使用方法を学習します。", 1),
    Post(6, "Web Worker",
         "UIとは別スレッドで重い処理を実行するWeb Workerの活用方法を学びます。", 1)
  ]

  /** Post number `i` (from 0) has id `i + 1`. */
  predicate SequentialIds(ps: seq<Post>)
  {
    forall i :: 0 <= i < |ps| ==> ps[i].id == i + 1
  }

  /** `posts.filter(post => post.userId === userId)`. */
  function FilterByUser(ps: seq<Post>, userId: int): (r: seq<Post>)
    ensures |r| <= |ps|
  {
    if ps == [] then []
    else if ps[0].userId == userId then [ps[0]] + FilterByUser(ps[1..], userId)
    else FilterByUser(ps[1..], userId)
  }

  /** `posts.find(p => p.id === id)`: the first post with that id, if any. */
  function FindPost(ps: seq<Post>, id: int): (r: Option<Post>)
    ensures r.None? <==> forall i :: 0 <= i < |ps| ==> ps[i].id != id
    ensures r.Some? ==> exists k :: 0 <= k < |ps| && ps[k] == r.value && r.value.id == id &&
                                    forall i :: 0 <= i < k ==> ps[i].id != id
  {
    if ps == [] then None
    else if ps[0].id == id then Some(ps[0])
    else
      var r := FindPost(ps[1..], id);
      if r.Some? then
        ghost var k :| 0 <= k < |ps[1..]| && ps[1..][k] == r.value && r.value.id == id &&
                       forall i :: 0 <= i < k ==> ps[1..][i].id != id;
        assert ps[k + 1] == r.value && forall i :: 0 <= i < k + 1 ==> ps[i].id != id;
        r
      else r
  }

  /** JavaScript truthiness of a string field: present and not empty. */
  predicate Truthy(s: Option<string>)
  {
    s.Some? && s.value != ""
  }

  /** `userId || 1` for a numeric field: a missing or zero user id becomes 1. */
  function DefaultUser(userId: Option<int>): int
  {
    if userId.Some? && userId.value != 0 then userId.value else 1
  }

  /** A post survives the filter exactly when it is in the input and its user matches. */
  lemma {:induction false} FilterMembership(ps: seq<Post>, userId: int, p: Post)
    ensures p in FilterByUser(ps, userId) <==> p in ps && p.userId == userId
  {
    if ps != [] {
      FilterMembership(ps[1..], userId, p);
      assert ps == [ps[0]] + ps[1..];
    }
  }

  /** Filtering keeps order: it distributes over concatenation. */
  lemma {:induction false} FilterConcat(a: seq<Post>, b: seq<Post>, userId: int)
    ensures FilterByUser(a + b, userId) == FilterByUser(a, userId) + FilterByUser(b, userId)
  {
    if a != [] {
      FilterConcat(a[1..], b, userId);
      assert (a + b)[0] == a[0];
      assert (a + b)[1..] == a[1..] + b;
    } else {
      assert a + b == b;
    }
  }

  /** Filtering a single post keeps it exactly when its user matches. */
  lemma FilterSingle(p: Post, userId: int)
    ensures FilterByUser([p], userId) == if p.userId == userId then [p] else []
  {
  }

  /** Filtering whose every post matches returns the posts unchanged. */
  lemma {:induction false} FilterAllMatch(ps: seq<Post>, userId: int)
    requires forall i :: 0 <= i < |ps| ==> ps[i].userId == userId
    ensures FilterByUser(ps, userId) == ps
  {
    if ps != [] {
      FilterAllMatch(ps[1..], userId);
    }
  }

  /** Under sequential ids, the lookup by id is indexing: post `id` sits at `id - 1`. */
  lemma FindPostSequential(ps: seq<Post>, id: int)
    requires SequentialIds(ps)
    ensures FindPost(ps, id) == if 1 <= id <= |ps| then Some(ps[id - 1]) else None
  {
    if 1 <= id <= |ps| {
      assert ps[id - 1].id == id;
    }
  }

  /** Sequential ids are unique. */
  lemma SequentialIdsUnique(ps: seq<Post>, i: nat, j: nat)
    requires SequentialIds(ps) && i < |ps| && j < |ps| && ps[i].id == ps[j].id
    ensures i == j
  {
  }

  lemma SeedSequential()
    ensures SequentialIds(SeedPosts)
  {
    forall i | 0 <= i < |SeedPosts|
      ensures SeedPosts[i].id == i + 1
    {
    }
  }

  /** The service with its module-level `posts` array. */
  class PostsServer {
    var posts: seq<Post>

    ghost predicate Valid()
      reads this
    {
      SequentialIds(posts)
    }

    constructor ()
      ensures posts == SeedPosts && Valid()
    {
      posts := SeedPosts;
      SeedSequential();
    }

    /** `GET /api/posts`; the stored array is only read. */
    method ListPosts(limit: Option<nat>, userId: Option<int>) returns (r: seq<Post>)
      ensures var filtered := if userId.Some? then FilterByUser(posts, userId.value) else posts;
        && |r| == (if limit.Some? then Min(limit.value, |filtered|) else |filtered|)
        && forall i :: 0 <= i < |r| ==> r[i] == filtered[i]
      ensures userId.Some? ==> forall p :: p in r ==> p in posts && p.userId == userId.value
      ensures userId.None? && limit.None? ==> r == posts
    {
      var filteredPosts := posts;
      if userId.Some? {
        filteredPosts := FilterByUser(filteredPosts, userId.value);
        forall p | p in filteredPosts
          ensures p in posts && p.userId == userId.value
        {
          FilterMembership(posts, userId.value, p);
        }
      }
      if limit.Some? {
        filteredPosts := filteredPosts[..Min(limit.value, |filteredPosts|)];
      }
      r := filteredPosts;
    }

    /** `GET /api/posts/:id`: the first post with that id, or 404. */
    method GetPost(id: int) returns (r: Response<Post>)
      ensures r.ErrorJson? <==> forall i :: 0 <= i < |posts| ==> posts[i].id != id
      ensures r.ErrorJson? ==> r == ErrorJson(404, NotFoundError)
      ensures r.Json? ==> r.status == 200 && r.value.id == id && r.value in posts
      ensures r.Json? ==> FindPost(posts, id) == Some(r.value)
      ensures Valid() ==> (r.Json? <==> 1 <= id <= |posts|) && (r.Json? ==> r.value == posts[id - 1])
    {
      if Valid() {
        FindPostSequential(posts, id);
      }
      var post := FindPost(posts, id);
      if post.None? {
        return ErrorJson(404, NotFoundError);
      }
      r := Json(200, post.value);
    }

    /** `POST /api/posts`: 400 when `title` or `body` is missing or empty, otherwise
        the new post is appended with the next sequential id and returned with 201. */
    method CreatePost(title: Option<string>, body: Option<string>, userId: Option<int>) returns (r: Response<Post>)
      modifies this
      ensures !(Truthy(title) && Truthy(body)) ==> r == ErrorJson(400, MissingFieldsError) && posts == old(posts)
      ensures Truthy(title) && Truthy(body) ==>
        var p := Post(|old(posts)| + 1, title.value, body.value, DefaultUser(userId));
        r == Json(201, p) && posts == old(posts) + [p]
      ensures old(Valid()) ==> Valid()
    {
      if !Truthy(title) || !Truthy(body) {
        return ErrorJson(400, MissingFieldsError);
      }
      var newPost := Post(|posts| + 1, title.value, body.value, DefaultUser(userId));
      posts := posts + [newPost];
      r := Json(201, newPost);
    }
  }
}
