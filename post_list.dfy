/** Posts and the list operations the post controllers apply to their
    in-memory list: `find`, `findIndex` and `filter` by id. */
module PostList {
  import opened Maybe

  /** A blog post; `updatedDate` is the optional `updated_date`. */
  datatype Post = Post(id: string, title: string, tags: seq<string>, date: string,
                       updatedDate: Option<string>, author: string, content: string)

  /** The one post both controllers start with. */
  const Seed: Post := Post("p1", "포스트 1", ["tag1", "tag2"], "2023-12-24", Some("2023-12-24"),
                           "stella", "포스트 1 내용")

  /** `posts.findIndex(item => item.id === id)`: the first index holding that
      id, or -1 when there is none. */
  function FindIndex(posts: seq<Post>, id: string): (r: int)
    ensures -1 <= r < |posts|
    ensures r == -1 <==> forall k :: 0 <= k < |posts| ==> posts[k].id != id
    ensures r >= 0 ==> posts[r].id == id && forall k :: 0 <= k < r ==> posts[k].id != id
    decreases |posts|
  {
    if |posts| == 0 then -1
    else if posts[0].id == id then 0
    else
      var r := FindIndex(posts[1..], id);
      if r == -1 then -1 else r + 1
  }

  /** `posts.find(item => item.id === id)`, with `None` for `undefined`. */
  function Find(posts: seq<Post>, id: string): Option<Post>
    decreases |posts|
  {
    if |posts| == 0 then None
    else if posts[0].id == id then Some(posts[0])
    else Find(posts[1..], id)
  }

  /** `find` and `findIndex` agree: `find` returns the element at the index
      `findIndex` reports. */
  lemma {:induction false} FindAtFindIndex(posts: seq<Post>, id: string)
    ensures var i := FindIndex(posts, id);
      Find(posts, id) == if i == -1 then None else Some(posts[i])
    decreases |posts|
  {
    if |posts| > 0 && posts[0].id != id {
      FindAtFindIndex(posts[1..], id);
    }
  }

  /** `posts.filter(item => item.id !== id)`. */
  function Without(posts: seq<Post>, id: string): (r: seq<Post>)
    ensures forall p :: p in r <==> p in posts && p.id != id
    ensures |r| <= |posts|
    decreases |posts|
  {
    if |posts| == 0 then []
    else if posts[0].id != id then [posts[0]] + Without(posts[1..], id)
    else Without(posts[1..], id)
  }

  /** Filtering a list in which no post has the id changes nothing. */
  lemma {:induction false} WithoutAbsent(posts: seq<Post>, id: string)
    requires forall k :: 0 <= k < |posts| ==> posts[k].id != id
    ensures Without(posts, id) == posts
    decreases |posts|
  {
    if |posts| > 0 {
      WithoutAbsent(posts[1..], id);
      assert [posts[0]] + posts[1..] == posts;
    }
  }

  /** Filtering twice by the same id is filtering once. */
  lemma WithoutIdempotent(posts: seq<Post>, id: string)
    ensures Without(Without(posts, id), id) == Without(posts, id)
  {
    var once := Without(posts, id);
    forall k | 0 <= k < |once| ensures once[k].id != id {
      assert once[k] in once;
    }
    WithoutAbsent(once, id);
  }

  /** Filtering works piecewise over a concatenation, so the surviving posts
      keep their relative order. */
  lemma {:induction false} WithoutAppend(a: seq<Post>, b: seq<Post>, id: string)
    ensures Without(a + b, id) == Without(a, id) + Without(b, id)
    decreases |a|
  {
    if |a| == 0 {
      assert a + b == b;
    } else {
      var ab := a + b;
      assert ab[0] == a[0] && ab[1..] == a[1..] + b;
      WithoutAppend(a[1..], b, id);
      if a[0].id != id {
        calc {
          Without(ab, id);
          [a[0]] + Without(a[1..] + b, id);
          [a[0]] + (Without(a[1..], id) + Without(b, id));
          ([a[0]] + Without(a[1..], id)) + Without(b, id);
        }
      }
    }
  }

  /** Filtering keeps exactly the posts with another id, in order: each
      surviving post is its own singleton and each removed post vanishes. */
  lemma WithoutSingleton(p: Post, id: string)
    ensures Without([p], id) == if p.id == id then [] else [p]
  {
    assert [p][1..] == [];
  }

  /** After filtering, looking the id up finds nothing. */
  lemma FindIndexAfterWithout(posts: seq<Post>, id: string)
    ensures FindIndex(Without(posts, id), id) == -1
  {
    var r := Without(posts, id);
    forall k | 0 <= k < |r| ensures r[k].id != id {
      assert r[k] in r;
    }
  }

  /** A post appended with an id no earlier post has is found at the end. */
  lemma FindIndexAfterAppend(posts: seq<Post>, p: Post)
    requires FindIndex(posts, p.id) == -1
    ensures FindIndex(posts + [p], p.id) == |posts|
  {
    var s := posts + [p];
    assert s[|posts|].id == p.id;
    forall k | 0 <= k < |posts| ensures s[k].id != p.id {
      assert s[k] == posts[k];
    }
  }

  /** Replacing the first post with an id by a post with the same id keeps
      it the first: a later lookup finds the replacement at the same index. */
  lemma FindIndexAfterReplace(posts: seq<Post>, id: string, q: Post)
    requires FindIndex(posts, id) >= 0 && q.id == id
    ensures var i := FindIndex(posts, id);
      FindIndex(posts[i := q], id) == i && Find(posts[i := q], id) == Some(q)
  {
    var i := FindIndex(posts, id);
    var s := posts[i := q];
    forall k | 0 <= k < i ensures s[k].id != id {
      assert s[k] == posts[k];
    }
    assert s[i].id == id;
    FindAtFindIndex(s, id);
  }
}
