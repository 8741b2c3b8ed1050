/** CommunityService: the service object whose calls look a record up, gate it on
    ownership and then write one of its two stores in place. Each mutating method is
    proved against the function of the same name in CommunitySpec, except UpdateReply and
    DeleteReply, which share the comment store and lookup and are proved against
    UpdateComment and DeleteComment. */
module Community {
  import opened CommunityTypes
  import Spec = CommunitySpec

  class CommunityService {
    var posts: map<int, Post>
    var comments: map<int, Comment>
    /** The id the database hands to the next created post. */
    var nextPostId: int

    function State(): Store
      reads this
    {
      Store(posts, comments, nextPostId)
    }

    ghost predicate Valid()
      reads this
    {
      CommunityTypes.Valid(State())
    }

    /** A service over stores already holding `s`. */
    constructor (s: Store)
      requires CommunityTypes.Valid(s)
      ensures Valid() && State() == s
    {
      posts, comments, nextPostId := s.posts, s.comments, s.nextPostId;
    }

    method CreatePost(dto: CreatePostDto, userId: int)
      requires Valid()
      modifies this
      ensures Valid()
      ensures State() == Spec.CreatePost(old(State()), dto, userId).after
    {
      posts := posts[nextPostId := Spec.NewPost(dto, userId)];
      nextPostId := nextPostId + 1;
    }

    method UpdatePost(postId: int, dto: UpdatePostDto, userId: int) returns (r: Status)
      requires Valid()
      modifies this
      ensures Valid()
      ensures r == Spec.UpdatePost(old(State()), postId, dto, userId).status
      ensures State() == Spec.UpdatePost(old(State()), postId, dto, userId).after
    {
      var post :- FindPostById(postId);
      var _ :- Spec.CheckOwnership(userId, post.ownerId);
      posts := posts[postId := Spec.EditPost(post, dto)];
      r := Ok(());
    }

    method DeletePost(postId: int, userId: int) returns (r: Status)
      requires Valid()
      modifies this
      ensures Valid()
      ensures r == Spec.DeletePost(old(State()), postId, userId).status
      ensures State() == Spec.DeletePost(old(State()), postId, userId).after
    {
      var post :- FindPostById(postId);
      var _ :- Spec.CheckOwnership(userId, post.ownerId);
      posts := posts - {postId};
      r := Ok(());
    }

    /** findPostById: the stored post, or NotFound; reads only. */
    method FindPostById(postId: int) returns (r: Result<Post>)
      ensures r.Ok? <==> postId in posts
      ensures r.Ok? ==> r.value == posts[postId]
      ensures r.Err? ==> r.error == NotFound
    {
      if postId !in posts {
        return Err(NotFound);
      }
      return Ok(posts[postId]);
    }

    method IncrementViewCount(postId: int)
      requires Valid()
      modifies this
      ensures Valid()
      ensures State() == Spec.IncrementViewCount(old(State()), postId).after
    {
      if postId in posts {
        var p := posts[postId];
        posts := posts[postId := p.(viewCount := p.viewCount + 1)];
      }
    }

    method UpdateComment(commentId: int, dto: UpdateCommentDto, userId: int) returns (r: Status)
      requires Valid()
      modifies this
      ensures Valid()
      ensures r == Spec.UpdateComment(old(State()), commentId, dto, userId).status
      ensures State() == Spec.UpdateComment(old(State()), commentId, dto, userId).after
    {
      var comment :- FindCommentById(commentId);
      var _ :- Spec.CheckOwnership(userId, comment.ownerId);
      comments := comments[commentId := Spec.EditComment(comment, dto)];
      r := Ok(());
    }

    method DeleteComment(commentId: int, userId: int) returns (r: Status)
      requires Valid()
      modifies this
      ensures Valid()
      ensures r == Spec.DeleteComment(old(State()), commentId, userId).status
      ensures State() == Spec.DeleteComment(old(State()), commentId, userId).after
    {
      var comment :- FindCommentById(commentId);
      var _ :- Spec.CheckOwnership(userId, comment.ownerId);
      comments := comments - {commentId};
      r := Ok(());
    }

    /** updateReply: the comment lookup and the comment store; the target's parent is
        not inspected. */
    method UpdateReply(replyId: int, dto: UpdateCommentDto, userId: int) returns (r: Status)
      requires Valid()
      modifies this
      ensures Valid()
      ensures r == Spec.UpdateComment(old(State()), replyId, dto, userId).status
      ensures State() == Spec.UpdateComment(old(State()), replyId, dto, userId).after
    {
      var reply :- FindCommentById(replyId);
      var _ :- Spec.CheckOwnership(userId, reply.ownerId);
      comments := comments[replyId := Spec.EditComment(reply, dto)];
      r := Ok(());
    }

    /** deleteReply: the comment lookup and the comment store; the target's parent is
        not inspected. */
    method DeleteReply(replyId: int, userId: int) returns (r: Status)
      requires Valid()
      modifies this
      ensures Valid()
      ensures r == Spec.DeleteComment(old(State()), replyId, userId).status
      ensures State() == Spec.DeleteComment(old(State()), replyId, userId).after
    {
      var reply :- FindCommentById(replyId);
      var _ :- Spec.CheckOwnership(userId, reply.ownerId);
      comments := comments - {replyId};
      r := Ok(());
    }

    /** findCommentById: the stored comment or reply, or NotFound; reads only. */
    method FindCommentById(commentId: int) returns (r: Result<Comment>)
      ensures r.Ok? <==> commentId in comments
      ensures r.Ok? ==> r.value == comments[commentId]
      ensures r.Err? ==> r.error == NotFound
    {
      if commentId !in comments {
        return Err(NotFound);
      }
      return Ok(comments[commentId]);
    }
  }
}
