/** The TypeScript post controllers over their module-level list
    `DUMMY_POSTS`, which lives as long as the server process. */
module Posts {
  import opened Maybe
  import opened Http
  import opened PostList

  const NotFoundMessage: string := "게시글을 찾을 수 없습니다."
  const InvalidInputMessage: string := "유효하지 않은 입력입니다."
  const DeletedMessage: string := "게시글이 삭제되었습니다."

  /** The object `{ ...found }` of `updatePost` as the body's fields are
      assigned to it. Spreading a found post copies all of its fields;
      spreading `undefined` gives `{}`, which then holds only the fields
      assigned afterwards. */
  datatype Edited = Whole(post: Post) | Fragment(title: Option<string>, content: Option<string>, tags: Option<seq<string>>)
  {
    function SetTitle(title: string): Edited
    {
      match this
      case Whole(p) => Whole(p.(title := title))
      case Fragment(_, c, t) => Fragment(Some(title), c, t)
    }

    function SetContent(content: string): Edited
    {
      match this
      case Whole(p) => Whole(p.(content := content))
      case Fragment(ti, _, t) => Fragment(ti, Some(content), t)
    }

    function SetTags(tags: seq<string>): Edited
    {
      match this
      case Whole(p) => Whole(p.(tags := tags))
      case Fragment(ti, c, _) => Fragment(ti, c, Some(tags))
    }
  }

  /** `{ ...found }`. */
  function Spread(found: Option<Post>): Edited
  {
    match found
    case Some(p) => Whole(p)
    case None => Fragment(None, None, None)
  }

  class PostsController {
    /** `DUMMY_POSTS`. */
    var posts: seq<Post>

    constructor ()
      ensures posts == [Seed]
    {
      posts := [Seed];
    }

    /** `getPosts`: the whole list. */
    method GetPosts() returns (r: Handled<seq<Post>>)
      ensures r == Sent(200, posts)
    {
      r := Sent(200, posts);
    }

    /** `getPostById`: the first post with the id, or 404. */
    method GetPostById(postId: string) returns (r: Handled<Post>)
      ensures r.Sent? <==> exists k :: 0 <= k < |posts| && posts[k].id == postId
      ensures r.Sent? ==> r.status == 200 && r.body == posts[FindIndex(posts, postId)]
      ensures r.Failed? ==> r.error == HttpError(NotFoundMessage, 404)
    {
      var post := Find(posts, postId);
      FindAtFindIndex(posts, postId);
      if post.None? {
        return Fail(NotFoundMessage, 404);
      }
      r := Sent(200, post.value);
    }

    /** `createPosts`: `valid` is whether the request passed validation and
        `newId` the id generated for the post. */
    method CreatePosts(valid: bool, newId: string, title: string, tags: seq<string>, date: string,
                       author: string, content: string) returns (r: Handled<Post>)
      modifies this
      ensures !valid ==> r == Fail(InvalidInputMessage, 422) && posts == old(posts)
      ensures valid ==>
        && r == Sent(201, Post(newId, title, tags, date, None, author, content))
        && posts == old(posts) + [r.body]
    {
      if !valid {
        return Fail(InvalidInputMessage, 422);
      }
      var created := Post(newId, title, tags, date, None, author, content);
      posts := posts + [created];
      r := Sent(201, created);
    }

    /** `updatePost`. The "not found" check tests the spread copy, which is
        an object and so always truthy: the handler never answers 404. For
        an unknown id `findIndex` gives -1, and assigning to index -1 of a
        JavaScript array adds no element. */
    method UpdatePost(postId: string, title: string, content: string, tags: seq<string>)
      returns (r: Handled<Edited>)
      modifies this
      ensures r.Sent? && r.status == 200
      ensures |posts| == |old(posts)|
      ensures var i := FindIndex(old(posts), postId);
        if i == -1 then
          posts == old(posts) && r.body == Fragment(Some(title), Some(content), Some(tags))
        else
          && posts == old(posts)[i := old(posts)[i].(title := title, content := content, tags := tags)]
          && r.body == Whole(posts[i])
    {
      var updated := Spread(Find(posts, postId));
      var postsIndex := FindIndex(posts, postId);
      FindAtFindIndex(posts, postId);
      updated := updated.SetTitle(title);
      updated := updated.SetContent(content);
      updated := updated.SetTags(tags);
      if postsIndex >= 0 {
        posts := posts[postsIndex := updated.post];
      }
      r := Sent(200, updated);
    }

    /** `deletePost`: drops every post with the id and always answers 200. */
    method DeletePost(postId: string) returns (r: Handled<string>)
      modifies this
      ensures r == Sent(200, DeletedMessage)
      ensures posts == Without(old(posts), postId)
    {
      posts := Without(posts, postId);
      r := Sent(200, DeletedMessage);
    }
  }

  /** Deleting, then deleting the same id again, leaves the list of a single delete. */
  method DeleteTwice(c: PostsController, postId: string)
    modifies c
    ensures c.posts == Without(old(c.posts), postId)
  {
    var _ := c.DeletePost(postId);
    var _ := c.DeletePost(postId);
    WithoutIdempotent(old(c.posts), postId);
  }

  /** A post created with an id no post has is what a later lookup finds,
      and after a delete of that id nothing is found. */
  method CreateFindDelete(c: PostsController, newId: string, title: string, tags: seq<string>,
                          date: string, author: string, content: string)
    returns (found: Handled<Post>, gone: Handled<Post>)
    requires FindIndex(c.posts, newId) == -1
    modifies c
    ensures found == Sent(200, Post(newId, title, tags, date, None, author, content))
    ensures gone == Fail(NotFoundMessage, 404)
    ensures c.posts == Without(old(c.posts) + [found.body], newId)
  {
    var created := c.CreatePosts(true, newId, title, tags, date, author, content);
    FindIndexAfterAppend(old(c.posts), created.body);
    found := c.GetPostById(newId);
    var before := c.posts;
    var _ := c.DeletePost(newId);
    FindIndexAfterWithout(before, newId);
    gone := c.GetPostById(newId);
  }
}
