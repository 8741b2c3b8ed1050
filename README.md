# Community service: ownership-gated posts, comments and replies

This project models the community service of the NUDDUCK interview-preparation server
(`server/src/modules/community/community.service.ts`): the service that creates, edits, deletes and counts views of community posts,
edits and deletes comments and replies, and turns comment rows into response bodies.

The service keeps two stores, posts and comments. Every post and every comment has an
owner id, and a post also has a view count. Every update or delete runs in a fixed order:

1. It looks the record up by id. If the record is absent, it fails with **NotFound**.
2. It compares the acting user id with the stored owner id. If they differ, it fails with
   **Forbidden**.
3. Only then does it ask the repository to write.

Replies live in the comment store and are found by the comment lookup. So the reply
update and delete do not check that their target has a parent.

The model has four parts:

- `CommunityTypes` (community_types.dfy) holds the entities, the request bodies and the
  errors. A `Result` type carries the thrown exception and works with `:-`, which ends
  an operation at its first failure as a thrown exception does.
- `CommunitySpec` (community_spec.dfy) has one function per service operation over a
  `Store` value. Each function's contract states the gate and what the call changes.
  `Step` and `Run` replay any sequence of calls. The lemmas prove that only a record's
  owner can change or remove it, and that views are counted exactly.
- `Community.CommunityService` (community_service.dfy) is the service object. It holds
  the two stores as `map` fields, which its methods update in place. Each mutating method
  is proved to end in the state and status that a `CommunitySpec` function gives: the one
  of the same name, except that `UpdateReply` and `DeleteReply` are proved against
  `UpdateComment` and `DeleteComment`, because replies share the comment store and lookup.
- `CommentResponses` (comment_responses.dfy) maps repository rows to response bodies,
  one per row and in order.

The repositories' code is not part of this model. Their writes are modelled as plain map
operations, and these are assumptions:

- Updating a post overwrites the editable fields the request supplies (category, title,
  body). The owner and the view count are not editable.
- An update request that supplies none of these fields succeeds and changes nothing. The
  repository's `updatePost` (:58) is not part of this model; if it passed an empty set of
  values to the database, the call would fail with a server error instead.
- Updating a comment or reply overwrites its content.
- A delete removes exactly one key. No cascade to comments is modelled.
- A view increment adds 1 to one post's counter. On a post id with no row it changes
  nothing and throws nothing, because the service does no lookup first.
- A new post gets the id of the database's auto-increment counter and a view count of 0.
- Every lookup returns its record with the owning user loaded, so reading the owner id
  always succeeds. The post lookup (:80) is a plain `findOne` that asks for no relation,
  so `.user.id` at :57 and :64 works only if the post entity declares `user` as eagerly
  loaded. The comment lookup (:148) calls the comment repository's own `findCommentById`,
  so `.user.id` at :100, :107, :119 and :126 depends on that method loading `user`.
  Neither the entity nor that method is part of this model. If the relation were missing,
  those reads would throw a server error, where the model gives success or Forbidden.
- `new CommentResponseDto(row)` (:135) copies every column of the row into the response.
  The DTO's constructor is not part of this model. The modelled fields are those of the
  client's comment type (client/src/types/commets-type.ts:8-19), without the timestamps.

## Model

| member | source | states |
|---|---|---|
| CommunitySpec.CheckOwnership | server/src/modules/community/community.service.ts:156-160 | Forbidden exactly when the acting user differs from the owner; otherwise success with no effect |
| CommunitySpec.FindById | server/src/modules/community/community.service.ts:79-85 | The lookup succeeds exactly when the id is stored, and then returns that record; otherwise NotFound. The same lookup serves comments (:147-153) |
| CommunitySpec.PostAccess | server/src/modules/community/community.service.ts:55-66 | The gate before a post write: NotFound iff the post is absent, Forbidden iff it is present and owned by someone else, success iff it is present and owned by the actor |
| CommunitySpec.CommentAccess | server/src/modules/community/community.service.ts:98-128 | The same gate for comments and replies, through the one comment lookup |
| CommunitySpec.NewPost | server/src/modules/community/community.service.ts:50-52 | The created post's owner is the acting user, whatever userId the request body carried; its fields come from the body and its view count starts at 0 |
| CommunitySpec.EditPost | server/src/modules/community/community.service.ts:58 | A post edit keeps owner and view count. Each of category, title and body takes the supplied value, or keeps the old one when none is supplied; an empty edit changes nothing |
| CommunitySpec.EditComment | server/src/modules/community/community.service.ts:101 | A comment edit keeps owner, post and parent and sets the new content |
| CommunitySpec.CreatePost | server/src/modules/community/community.service.ts:50-52 | createPost always succeeds. It stores under a fresh id exactly the post the request body describes, owned by the actor and with 0 views, adds exactly that key, leaves every other post and all comments alone, and keeps ids below the counter |
| CommunitySpec.UpdatePost | server/src/modules/community/community.service.ts:55-59 | updatePost settles as the gate says. On failure both stores are unchanged. On success only the target post changes, to its edited form |
| CommunitySpec.DeletePost | server/src/modules/community/community.service.ts:62-66 | deletePost settles as the gate says. On failure nothing changes. On success exactly that post id is removed, and every other post and every comment is unchanged |
| CommunitySpec.IncrementViewCount | server/src/modules/community/community.service.ts:88-90 | The view increment never fails and has no ownership gate. It raises the target's view count by exactly 1 and leaves its other fields, every other post and all comments unchanged. On a missing post nothing changes |
| CommunitySpec.UpdateComment | server/src/modules/community/community.service.ts:98-102 | updateComment (and updateReply) settles as the comment gate says. On failure nothing changes. On success only that comment changes, to its edited form |
| CommunitySpec.DeleteComment | server/src/modules/community/community.service.ts:105-109 | deleteComment (and deleteReply) settles as the comment gate says. On failure nothing changes. On success exactly that comment id is removed |
| CommunitySpec.Step | server/src/modules/community/community.service.ts:50-128 | Any rejected call leaves the stores as they were, and every call keeps post ids below the id counter |
| CommunitySpec.Run | server/src/modules/community/community.service.ts:50-128 | Any sequence of calls keeps post ids below the id counter |
| CommunitySpec.StepKeepsPost | server/src/modules/community/community.service.ts:55-90 | One call that is not the owner's update or delete of a post keeps that post, adding 1 to its views exactly when the call is a view of it |
| CommunitySpec.OnlyOwnerChangesPost | server/src/modules/community/community.service.ts:55-90 | Across any call sequence without an update or delete of the post by its owner, the post survives with owner, category, title and body intact. Its view count grows by exactly the number of views in the sequence |
| CommunitySpec.StepKeepsComment | server/src/modules/community/community.service.ts:98-128 | One call that is not the owner's update or delete of a comment, on either path, keeps that comment unchanged |
| CommunitySpec.OnlyOwnerChangesComment | server/src/modules/community/community.service.ts:98-128 | Across any call sequence without an update or delete of the comment by its owner, the comment or reply is still stored, unchanged |
| CommunitySpec.ReplyPathAcceptsTopLevelComment | server/src/modules/community/community.service.ts:117-128 | The reply path does not check for a parent. Its owner can edit or delete a top-level comment through it, with the same result as the comment path gives |
| CommunitySpec.CreatorAloneEditsNewPost | server/src/modules/community/community.service.ts:50-59 | After user A creates a post, user B's update of it is Forbidden and changes nothing. A's update succeeds and sets the new title |
| Community.CommunityService.constructor | server/src/modules/community/community.service.ts:38-45 | The service starts over the given stores |
| Community.CommunityService.CreatePost | server/src/modules/community/community.service.ts:50-52 | Ends in the state that CommunitySpec.CreatePost gives |
| Community.CommunityService.UpdatePost | server/src/modules/community/community.service.ts:55-59 | Looks up, gates, then writes. Status and new state are those of CommunitySpec.UpdatePost |
| Community.CommunityService.DeletePost | server/src/modules/community/community.service.ts:62-66 | Looks up, gates, then removes. Status and new state are those of CommunitySpec.DeletePost |
| Community.CommunityService.FindPostById | server/src/modules/community/community.service.ts:79-85 | Returns the stored post exactly when the id is present; otherwise NotFound. Changes nothing |
| Community.CommunityService.IncrementViewCount | server/src/modules/community/community.service.ts:88-90 | Ends in the state that CommunitySpec.IncrementViewCount gives |
| Community.CommunityService.UpdateComment | server/src/modules/community/community.service.ts:98-102 | Status and new state are those of CommunitySpec.UpdateComment |
| Community.CommunityService.DeleteComment | server/src/modules/community/community.service.ts:105-109 | Status and new state are those of CommunitySpec.DeleteComment |
| Community.CommunityService.UpdateReply | server/src/modules/community/community.service.ts:117-121 | Same lookup, gate and store as the comment update. Status and new state are those of CommunitySpec.UpdateComment |
| Community.CommunityService.DeleteReply | server/src/modules/community/community.service.ts:124-128 | Same lookup, gate and store as the comment delete. Status and new state are those of CommunitySpec.DeleteComment |
| Community.CommunityService.FindCommentById | server/src/modules/community/community.service.ts:147-153 | Returns the stored comment or reply exactly when the id is present; otherwise NotFound. Changes nothing |
| CommentResponses.ToResponse | server/src/modules/community/community.service.ts:135 | A response body loses nothing of its row: the row can be read back from it |
| CommentResponses.Responses | server/src/modules/community/community.service.ts:135 | Mapping rows gives exactly one response per row, in the same order and of the same length |
| CommentResponses.GetCommentsWithReplies | server/src/modules/community/community.service.ts:131-136 | One response per repository row, same length and order; each response carries its row in full (id, post, content, parent, author, reply count) |
| CommentResponses.GetRepliesByCommentId | server/src/modules/community/community.service.ts:139-144 | One response per repository row, same length and order; each response carries its row in full (id, post, content, parent, author, reply count) |
| CommentResponses.ResponsesOfJoinedPages | server/src/modules/community/community.service.ts:131-144 | Mapping two consecutive pages separately gives the same as mapping them joined |
| CommentResponses.ResponsesKeepParents | server/src/modules/community/community.service.ts:131-144 | If every row of a page has the same parent (none for top-level comments), so does every response |

## Left out

- findAll and findByCategory (:69-76) only return what the post repository computes. Paging and counting happen in repository code that is not part of this model.
- createComment and createReply (:93-95, :112-114) only pass their arguments and a transactional EntityManager to the comment repository. How that repository stores the row, and how createReply finds the reply's post, is not part of this model. So the model starts from a given comment store instead.
- The repository queries behind getCommentsWithReplies and getRepliesByCommentId (filtering by post or parent, limit and offset, reply counting) are not part of this model. The rows they return are a parameter. So "only top-level comments at this level" is proved only for pages whose rows are top-level (ResponsesKeepParents).
- Timestamps (createdAt, updatedAt) are set by the database clock and are not modelled.
- async/await, concurrency, and the atomicity of the database's view increment are not modelled. Calls are modelled one after another, so N views add exactly N (OnlyOwnerChangesPost), but lost updates under concurrency are not modelled.
- How exceptions map to HTTP statuses and messages, SERVER_ERROR_MSG (unused by these methods), and the injected user repository (unused) are left out.
- Ids are modelled as unbounded integers. JavaScript `number` precision limits are not modelled.
- Whether deleting a post or a comment cascades to its comments or replies depends on database schema that is not part of this model. The model removes exactly one key.
- The server error that reading `.user.id` would raise if a lookup returned a record without its owner loaded is not modelled. The model assumes the relation is always loaded (see the assumptions above).
