/** The read side of the comment API: the rows the comment repository returns for a
    page of top-level comments or of replies, turned one by one into response bodies. */
module CommentResponses {
  import opened CommunityTypes

  /** The author columns joined onto a comment row. */
  datatype Author = Author(userId: int, nickname: string, imageUrl: string)

  /** A comment row with its author and its reply count, as the repository returns it. */
  datatype CommentRow = CommentRow(commentId: int, postId: int, content: string,
                                   parentId: Option<int>, author: Author, replyCount: nat)

  /** CommentResponseDto: the row flattened for the client. */
  datatype CommentResponse = CommentResponse(commentId: int, postId: int, content: string,
                                             parentId: Option<int>, userId: int,
                                             nickname: string, imageUrl: string, replyCount: nat)

  /** The row a response was built from. */
  function RowOf(d: CommentResponse): CommentRow
  {
    CommentRow(d.commentId, d.postId, d.content, d.parentId,
               Author(d.userId, d.nickname, d.imageUrl), d.replyCount)
  }

  /** `new CommentResponseDto(row)`: nothing of the row is lost. */
  function ToResponse(row: CommentRow): (d: CommentResponse)
    ensures RowOf(d) == row
  {
    CommentResponse(row.commentId, row.postId, row.content, row.parentId,
                    row.author.userId, row.author.nickname, row.author.imageUrl, row.replyCount)
  }

  /** `rows.map(row => new CommentResponseDto(row))`: one response per row, in order. */
  function Responses(rows: seq<CommentRow>): (r: seq<CommentResponse>)
    ensures |r| == |rows|
    ensures forall i :: 0 <= i < |rows| ==> RowOf(r[i]) == rows[i]
    decreases |rows|
  {
    if rows == [] then [] else [ToResponse(rows[0])] + Responses(rows[1..])
  }

  /** getCommentsWithReplies over the rows findCommentsWithReplyCount returned. */
  function GetCommentsWithReplies(rows: seq<CommentRow>): (r: seq<CommentResponse>)
    ensures |r| == |rows|
    ensures forall i :: 0 <= i < |rows| ==> RowOf(r[i]) == rows[i]
  {
    Responses(rows)
  }

  /** getRepliesByCommentId over the rows findRepliesByCommentId returned. */
  function GetRepliesByCommentId(rows: seq<CommentRow>): (r: seq<CommentResponse>)
    ensures |r| == |rows|
    ensures forall i :: 0 <= i < |rows| ==> RowOf(r[i]) == rows[i]
  {
    Responses(rows)
  }

  /** Building responses page by page gives what building them for the pages joined
      together gives. */
  lemma ResponsesOfJoinedPages(a: seq<CommentRow>, b: seq<CommentRow>)
    ensures Responses(a + b) == Responses(a) + Responses(b)
  {
  }

  /** A page whose rows are all top-level comments yields only top-level responses, and a
      page of replies to one comment yields only replies to that comment. */
  lemma ResponsesKeepParents(rows: seq<CommentRow>, parent: Option<int>)
    requires forall i :: 0 <= i < |rows| ==> rows[i].parentId == parent
    ensures forall d :: d in Responses(rows) ==> d.parentId == parent
  {
  }
}
