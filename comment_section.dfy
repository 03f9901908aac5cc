/**
 * The comment section of a post: it holds the flat comment list, the draft of
 * a new top-level comment, the reply being composed and the expanded-id set,
 * and it rebuilds the comment forest from the flat list.
 *
 * Posting is asynchronous, so each handler is split in two: `Begin…` runs up
 * to the `postComment` call and returns the request it sends (None when it
 * sends none); `Finish…` runs when the call and the re-fetch after it have
 * settled, given what became of them.
 */
module CommentSection {
  import opened Wrappers
  import opened JsText
  import opened Actions
  import opened CommentForest
  import opened Expansion

  /** What became of a `postComment` call: it threw (the call or the re-fetch after it), or it
      succeeded and `getComments` returned the given list (None for a null result). */
  datatype PostOutcome = Failed | Posted(fetched: Option<seq<Comment>>)

  class Section {
    const postId: string
    const expanded: ExpansionSet
    var loading: bool
    var allComments: seq<Comment>
    var newComment: string
    var postingComment: bool
    var postingReply: bool
    var replyingTo: Option<string>
    var replyContent: string

    constructor (postId: string)
      ensures this.postId == postId && fresh(expanded) && expanded.ids == {}
      ensures loading && allComments == [] && newComment == "" && !postingComment
      ensures !postingReply && replyingTo == None && replyContent == ""
    {
      this.postId := postId;
      expanded := new ExpansionSet();
      loading := true;
      allComments := [];
      newComment := "";
      postingComment := false;
      postingReply := false;
      replyingTo := None;
      replyContent := "";
    }

    /** `fetchComments`: install the fetched list, or [] when the result is null, and stop loading. */
    method FetchComments(fetched: Option<seq<Comment>>)
      modifies this`allComments, this`loading
      ensures allComments == fetched.GetOr([]) && !loading
    {
      allComments := fetched.GetOr([]);
      loading := false;
    }

    /** The memoised forest of the current flat list. */
    method Comments() returns (roots: seq<Node>, ghost nodes: seq<Node>)
      requires DistinctIds(allComments)
      ensures |nodes| == |allComments|
      ensures forall i :: 0 <= i < |nodes| ==> fresh(nodes[i]) && nodes[i].record == allComments[i]
      ensures roots == Select(nodes, RootsUpTo(allComments, |allComments|))
      ensures forall i {:trigger nodes[i].children} :: 0 <= i < |allComments| ==>
        nodes[i].children == Select(nodes, ChildrenUpTo(allComments, |allComments|, allComments[i].id))
    {
      roots, nodes := BuildForest(allComments);
    }

    method EditNewComment(text: string)
      modifies this`newComment
      ensures newComment == text
    {
      newComment := text;
    }

    method EditReply(text: string)
      modifies this`replyContent
      ensures replyContent == text
    {
      replyContent := text;
    }

    /** The Reply button of a comment opens the reply form under it. */
    method StartReply(commentId: string)
      modifies this`replyingTo
      ensures replyingTo == Some(commentId)
    {
      replyingTo := Some(commentId);
    }

    /** The Cancel button of the reply form. */
    method CancelReply()
      modifies this`replyingTo, this`replyContent
      ensures replyingTo == None && replyContent == ""
    {
      replyingTo := None;
      replyContent := "";
    }

    /** `handlePostComment` up to the call: a blank draft sends nothing and changes nothing. */
    method BeginPostComment() returns (request: Option<PostCommentRequest>)
      modifies this`postingComment
      ensures IsBlank(newComment) ==> request == None && postingComment == old(postingComment)
      ensures !IsBlank(newComment) ==> request == Some(PostCommentRequest(postId, newComment, None)) && postingComment
    {
      if IsBlank(newComment) {
        return None;
      }
      postingComment := true;
      request := Some(PostCommentRequest(postId, newComment, None));
    }

    /** `handlePostComment` after the call: the posting flag drops either way and the draft is kept either way. */
    method FinishPostComment(outcome: PostOutcome)
      modifies this`allComments, this`loading, this`postingComment
      ensures !postingComment
      ensures outcome.Posted? ==> allComments == outcome.fetched.GetOr([]) && !loading
      ensures outcome.Failed? ==> allComments == old(allComments) && loading == old(loading)
    {
      if outcome.Posted? {
        FetchComments(outcome.fetched);
      }
      postingComment := false;
    }

    /** `handleSubmitReply` up to the call: a blank reply sends nothing and changes nothing. */
    method BeginSubmitReply() returns (request: Option<PostCommentRequest>)
      modifies this`postingReply
      ensures IsBlank(replyContent) ==> request == None && postingReply == old(postingReply)
      ensures !IsBlank(replyContent) ==> request == Some(PostCommentRequest(postId, replyContent, replyingTo)) && postingReply
    {
      if IsBlank(replyContent) {
        return None;
      }
      postingReply := true;
      request := Some(PostCommentRequest(postId, replyContent, replyingTo));
    }

    /** `handleSubmitReply` after the call: whether it succeeded or not, the reply form closes and its draft is cleared. */
    method FinishSubmitReply(outcome: PostOutcome)
      modifies this`allComments, this`loading, this`replyingTo, this`postingReply, this`replyContent
      ensures replyingTo == None && !postingReply && replyContent == ""
      ensures outcome.Posted? ==> allComments == outcome.fetched.GetOr([]) && !loading
      ensures outcome.Failed? ==> allComments == old(allComments) && loading == old(loading)
    {
      if outcome.Posted? {
        FetchComments(outcome.fetched);
      }
      replyingTo := None;
      postingReply := false;
      replyContent := "";
    }

    /** The section's `toggleCollapse`. */
    method ToggleCollapse(commentId: string)
      modifies expanded
      ensures expanded.ids == Toggled(old(expanded.ids), commentId)
    {
      var next := expanded.ids;
      if commentId in next {
        next := next - {commentId};
      } else {
        next := next + {commentId};
      }
      expanded.ids := next;
    }
  }
}
