/** The older JavaScript post controllers over their own module-level list
    `DUMMY_POSTS`. They differ from the TypeScript ones in two places:
    `createPosts` validates nothing, and `updatePost` assigns only the title
    and the content. */
module LegacyPosts {
  import opened Maybe
  import opened Http
  import opened PostList

  const NotFoundMessage: string := "게시글을 찾을 수 없습니다."
  const DeletedMessage: string := "게시글이 삭제되었습니다."

  /** The object `{ ...found }` of `updatePost` as the title and the content
      are assigned to it; the copy of `undefined` starts as `{}`. */
  datatype Edited = Whole(post: Post) | Fragment(title: Option<string>, content: Option<string>)
  {
    function SetTitle(title: string): Edited
    {
      match this
      case Whole(p) => Whole(p.(title := title))
      case Fragment(_, c) => Fragment(Some(title), c)
    }

    function SetContent(content: string): Edited
    {
      match this
      case Whole(p) => Whole(p.(content := content))
      case Fragment(t, _) => Fragment(t, Some(content))
    }
  }

  /** `{ ...found }`. */
  function Spread(found: Option<Post>): Edited
  {
    match found
    case Some(p) => Whole(p)
    case None => Fragment(None, None)
  }

  class LegacyPostsController {
    /** `DUMMY_POSTS`. */
    var posts: seq<Post>

    constructor ()
      ensures posts == [Seed]
    {
      posts := [Seed];
    }

    /** `getPosts`: the whole list. */
    method GetPosts() returns (r: Handled<seq<Post>>)
      ensures r == Sent(200, posts)
    {
      r := Sent(200, posts);
    }

    /** `getPostById`: the first post with the id, or 404. */
    method GetPostById(postId: string) returns (r: Handled<Post>)
      ensures r.Sent? <==> exists k :: 0 <= k < |posts| && posts[k].id == postId
      ensures r.Sent? ==> r.status == 200 && r.body == posts[FindIndex(posts, postId)]
      ensures r.Failed? ==> r.error == HttpError(NotFoundMessage, 404)
    {
      var post := Find(posts, postId);
      FindAtFindIndex(posts, postId);
      if post.None? {
        return Fail(NotFoundMessage, 404);
      }
      r := Sent(200, post.value);
    }

    /** `createPosts`: no validation, every call appends one post; `newId`
        is the id generated for it. */
    method CreatePosts(newId: string, title: string, tags: seq<string>, date: string,
                       author: string, content: string) returns (r: Handled<Post>)
      modifies this
      ensures r == Sent(201, Post(newId, title, tags, date, None, author, content))
      ensures posts == old(posts) + [r.body]
    {
      var created := Post(newId, title, tags, date, None, author, content);
      posts := posts + [created];
      r := Sent(201, created);
    }

    /** `updatePost`: title and content from the body, everything else kept.
        There is no "not found" check; for an unknown id `findIndex` gives -1,
        and assigning to index -1 of a JavaScript array adds no element. */
    method UpdatePost(postId: string, title: string, content: string) returns (r: Handled<Edited>)
      modifies this
      ensures r.Sent? && r.status == 200
      ensures |posts| == |old(posts)|
      ensures var i := FindIndex(old(posts), postId);
        if i == -1 then
          posts == old(posts) && r.body == Fragment(Some(title), Some(content))
        else
          && posts == old(posts)[i := old(posts)[i].(title := title, content := content)]
          && r.body == Whole(posts[i])
    {
      var updated := Spread(Find(posts, postId));
      var postsIndex := FindIndex(posts, postId);
      FindAtFindIndex(posts, postId);
      updated := updated.SetTitle(title);
      updated := updated.SetContent(content);
      if postsIndex >= 0 {
        posts := posts[postsIndex := updated.post];
      }
      r := Sent(200, updated);
    }

    /** `deletePost`: drops every post with the id and always answers 200. */
    method DeletePost(postId: string) returns (r: Handled<string>)
      modifies this
      ensures r == Sent(200, DeletedMessage)
      ensures posts == Without(old(posts), postId)
    {
      posts := Without(posts, postId);
      r := Sent(200, DeletedMessage);
    }
  }

  /** Updating a stored post twice leaves the second edit in place at the
      same index, and a lookup finds it. */
  method UpdateTwice(c: LegacyPostsController, postId: string, t1: string, c1: string, t2: string, c2: string)
    requires FindIndex(c.posts, postId) >= 0
    modifies c
    ensures var i := FindIndex(old(c.posts), postId);
      c.posts == old(c.posts)[i := old(c.posts)[i].(title := t2, content := c2)]
  {
    var i := FindIndex(c.posts, postId);
    var first := c.UpdatePost(postId, t1, c1);
    FindIndexAfterReplace(old(c.posts), postId, c.posts[i]);
    var second := c.UpdatePost(postId, t2, c2);
  }
}
