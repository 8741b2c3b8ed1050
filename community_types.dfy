/** Entities, request bodies and the error vocabulary of the community service
    (server/src/modules/community/community.service.ts). */
module CommunityTypes {

  datatype Option<T> = None | Some(value: T) {
    /** The carried value, or `default` when absent. */
    function GetOr(default: T): T
    {
      match this
      case Some(v) => v
      case None => default
    }
  }

  /** The two exceptions the service throws before touching a store:
      NotFoundException from the lookups and the HTTP 403 from the ownership gate. */
  datatype Error = NotFound | Forbidden

  /** A value or the exception that replaced it. The three members below make the type
      usable with `:-`, which plays the role of a thrown exception: the first failure
      ends the operation and is passed to the caller. */
  datatype Result<T> = Ok(value: T) | Err(error: Error) {
    predicate IsFailure() { Err? }

    function PropagateFailure<U>(): Result<U>
      requires Err?
    {
      Err(error)
    }

    function Extract(): T
      requires Ok?
    {
      value
    }
  }

  /** What a `Promise<void>` operation settles to: it resolves, or it rejects. */
  type Status = Result<()>

  /** A community post. `ownerId` is `post.user.id`. */
  datatype Post = Post(ownerId: int, category: string, title: string, body: string, viewCount: nat)

  /** A comment. A reply is a comment whose `parentId` names another comment;
      both live in one store and are found by one lookup. */
  datatype Comment = Comment(ownerId: int, postId: int, parentId: Option<int>, content: string)

  /** CreateCommunityDto as it arrives. `userId` is whatever the body smuggles in under
      that key; the service overrides it with the authenticated user. */
  datatype CreatePostDto = CreatePostDto(category: string, title: string, body: string, userId: Option<int>)

  /** UpdateCommunityDto: every editable field is optional; an absent one is left as stored. */
  datatype UpdatePostDto = UpdatePostDto(category: Option<string>, title: Option<string>, body: Option<string>)

  /** UpdateCommentDto, shared by comments and replies. */
  datatype UpdateCommentDto = UpdateCommentDto(content: string)

  /** The two stores the service works on, plus the database's auto-increment
      counter for post ids. */
  datatype Store = Store(posts: map<int, Post>, comments: map<int, Comment>, nextPostId: int)

  /** Every stored post id was handed out by the counter. */
  ghost predicate Valid(s: Store)
  {
    forall id :: id in s.posts ==> id < s.nextPostId
  }

  /** The outcome of one service call: how it settled and the stores afterwards. */
  datatype Effect = Effect(status: Status, after: Store)
}
