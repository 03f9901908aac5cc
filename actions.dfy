/**
 * The requests the components hand to the server actions `postComment`,
 * `updateComment` and `updateName`. The actions themselves run on the server
 * and are not modelled: a component method returns the request it sends
 * (None when it sends none), and a later method receives whether it succeeded.
 */
module Actions {
  import opened Wrappers

  datatype PostCommentRequest = PostCommentRequest(postId: string, content: string, parentId: Option<string>)

  datatype UpdateCommentRequest = UpdateCommentRequest(commentId: string, content: string)

  datatype UpdateNameRequest = UpdateNameRequest(name: string)
}
