/**
 * One comment of the thread as the comment item shows it: whether the signed-in
 * user may edit or delete it, its expand and collapse buttons (which change the
 * expanded-id set it is given by the component that renders it), its reply form, and which
 * child items it renders.
 */
module CommentItem {
  import opened Wrappers
  import opened JsText
  import opened Actions
  import opened CommentForest
  import opened Expansion

  /** A JavaScript value read through optional chaining: `undefined`, `null`, or a string. */
  datatype JsValue = Undefined | Null | Str(s: string)

  /** The post the item belongs to, as the item receives it (`post?: any`). */
  datatype Post = Post(id: string, author: Option<Author>)

  /** The session's user; NextAuth leaves its email absent, null or a string. */
  datatype SessionUser = SessionUser(email: JsValue)

  datatype Session = Session(user: Option<SessionUser>)

  /** A nullable database email read as a JavaScript value: never undefined. */
  function NullableEmail(email: Option<string>): (r: JsValue)
    ensures !r.Undefined?
    ensures r.Str? <==> email.Some?
    ensures r.Str? ==> email == Some(r.s)
  {
    if email.Some? then Str(email.value) else Null
  }

  /** `session?.user?.email`: undefined when there is no session or no user, else the user's email as given. */
  function SessionEmail(session: Option<Session>): (r: JsValue)
    ensures session.None? || session.value.user.None? ==> r.Undefined?
    ensures session.Some? && session.value.user.Some? ==> r == session.value.user.value.email
  {
    if session.None? || session.value.user.None? then Undefined else session.value.user.value.email
  }

  /** `post?.author?.email`: undefined exactly when the post or its author is missing. */
  function PostAuthorEmail(post: Option<Post>): (r: JsValue)
    ensures r.Undefined? <==> post.None? || post.value.author.None?
    ensures r.Str? ==> post.value.author.value.email == Some(r.s)
    ensures r.Null? ==> post.value.author.value.email.None?
  {
    if post.None? || post.value.author.None? then Undefined else NullableEmail(post.value.author.value.email)
  }

  /**
   * `allowActions`: the comment author's email or the post author's email is
   * `===` the session's email. For a signed-in user with an email, that is the
   * user's own comments and every comment on the user's own posts; with the
   * session email absent, only when the post or its author is missing; with
   * it null, when either stored email is null.
   */
  function AllowActions(comment: Comment, post: Option<Post>, session: Option<Session>): (r: bool)
    ensures SessionEmail(session).Str? ==>
      (r <==> comment.author.email == Some(SessionEmail(session).s)
              || (post.Some? && post.value.author.Some? && post.value.author.value.email == Some(SessionEmail(session).s)))
    ensures SessionEmail(session).Undefined? ==> (r <==> post.None? || post.value.author.None?)
    ensures SessionEmail(session).Null? ==>
      (r <==> comment.author.email.None? || (post.Some? && post.value.author.Some? && post.value.author.value.email.None?))
  {
    NullableEmail(comment.author.email) == SessionEmail(session) || PostAuthorEmail(post) == SessionEmail(session)
  }

  /** Absent compares equal to absent: with no post and no session email, the controls show. */
  lemma AllowActionsBothAbsent(comment: Comment, session: Option<Session>)
    requires SessionEmail(session) == Undefined
    ensures AllowActions(comment, None, session)
  {
  }

  /** Null and absent differ: an author without email does not match a session without email. */
  lemma AllowActionsNullIsNotAbsent(comment: Comment, post: Post)
    requires comment.author.email == None && post.author.Some? && post.author.value.email.Some?
    ensures !AllowActions(comment, Some(post), None)
  {
  }

  /** What an item passes to each child item it renders. */
  datatype ChildProps = ChildProps(node: Node, depth: nat, hasChildren: bool)

  class Item {
    const node: Node
    const depth: nat
    const hasChildren: bool
    const session: Option<Session>
    const post: Option<Post>
    const expansion: ExpansionSet
    var replying: bool
    var postingReply: bool
    var replyContent: string

    constructor (node: Node, depth: nat, hasChildren: bool, session: Option<Session>, post: Option<Post>, expansion: ExpansionSet)
      ensures this.node == node && this.depth == depth && this.hasChildren == hasChildren
      ensures this.session == session && this.post == post && this.expansion == expansion
      ensures !replying && !postingReply && replyContent == ""
    {
      this.node := node;
      this.depth := depth;
      this.hasChildren := hasChildren;
      this.session := session;
      this.post := post;
      this.expansion := expansion;
      replying := false;
      postingReply := false;
      replyContent := "";
    }

    function Id(): string {
      node.record.id
    }

    method Expand()
      modifies expansion
      ensures expansion.ids == Expanded(old(expansion.ids), Id())
    {
      var next := expansion.ids;
      next := next + {Id()};
      expansion.ids := next;
    }

    method Collapse()
      modifies expansion
      ensures expansion.ids == Collapsed(old(expansion.ids), Id())
    {
      var next := expansion.ids;
      next := next - {Id()};
      expansion.ids := next;
    }

    method ToggleCollapse()
      modifies expansion
      ensures expansion.ids == Toggled(old(expansion.ids), Id())
      ensures (Id() in expansion.ids) <==> old(Id() !in expansion.ids)
    {
      if Id() in expansion.ids {
        Collapse();
      } else {
        Expand();
      }
    }

    /** The Reply button opens the reply form and expands the comment, so a posted reply will show. */
    method PressReply()
      modifies this`replying, expansion
      ensures replying && Id() in expansion.ids
      ensures expansion.ids == Expanded(old(expansion.ids), Id())
    {
      replying := true;
      Expand();
    }

    method EditReply(text: string)
      modifies this`replyContent
      ensures replyContent == text
    {
      replyContent := text;
    }

    /** The reply button is disabled while the draft is blank or a reply is in flight. */
    function ReplyDisabled(): (r: bool)
      reads this
      ensures replyContent == "" ==> r
      ensures postingReply ==> r
      ensures !r ==> exists i :: 0 <= i < |replyContent| && !IsWhitespace(replyContent[i])
    {
      BlankIffAllWhitespace(replyContent);
      IsBlank(replyContent) || postingReply
    }

    /**
     * `handlePostReply` up to the call. A blank draft sends nothing; without a
     * post, reading `post.id` throws before the call, which is caught, so it
     * sends nothing either. Otherwise the reply goes under this comment.
     */
    method BeginPostReply() returns (request: Option<PostCommentRequest>)
      modifies this`postingReply
      ensures request.Some? <==> !IsBlank(replyContent) && post.Some?
      ensures request.Some? ==> request.value == PostCommentRequest(post.value.id, replyContent, Some(Id())) && postingReply
      ensures request.None? ==> postingReply == old(postingReply)
      ensures old(!ReplyDisabled()) && post.Some? <==> request.Some? && !old(postingReply)
    {
      if IsBlank(replyContent) {
        return None;
      }
      if post.None? {
        return None;
      }
      postingReply := true;
      request := Some(PostCommentRequest(post.value.id, replyContent, Some(Id())));
    }

    /** `handlePostReply` after the call: success clears the draft and closes the form; failure keeps both. */
    method FinishPostReply(succeeded: bool)
      modifies this`replyContent, this`replying, this`postingReply
      ensures !postingReply
      ensures succeeded ==> replyContent == "" && !replying
      ensures !succeeded ==> replyContent == old(replyContent) && replying == old(replying)
    {
      if succeeded {
        replyContent := "";
        replying := false;
      }
      postingReply := false;
    }

    /** The Cancel button closes the form and clears the draft. */
    method CancelReply()
      modifies this`replying, this`replyContent
      ensures !replying && replyContent == ""
    {
      replying := false;
      replyContent := "";
    }

    /** The child items rendered under this one: all children, one level deeper, but only when the item
        has children and is expanded. */
    function RenderedChildren(): (r: seq<ChildProps>)
      reads this, expansion, node, node.children
      ensures |r| == if hasChildren && Id() in expansion.ids then |node.children| else 0
      ensures forall i :: 0 <= i < |r| ==>
        r[i].node == node.children[i] && r[i].depth == depth + 1 && (r[i].hasChildren <==> node.children[i].children != [])
    {
      if hasChildren && Id() in expansion.ids then
        var kids := node.children;
        seq(|kids|, i requires 0 <= i < |kids| reads kids => ChildProps(kids[i], depth + 1, |kids[i].children| > 0))
      else
        []
    }
  }
}
