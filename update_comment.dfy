/**
 * The edit-comment dialog: whether it is open, the draft text, and whether an
 * update is in flight. Submitting sends `updateComment(commentId, draft)`
 * unless the draft is blank; a success closes the dialog, a failure leaves it
 * as it was.
 */
module UpdateComment {
  import opened Wrappers
  import opened JsText
  import opened Actions

  /** The dialog for a comment "hi" whose draft was cleared to spaces: its button is enabled, and
      pressing it sends nothing. */
  method AsWrittenEnabledButSendsNothing() returns (enabled: bool, request: Option<UpdateCommentRequest>)
    ensures enabled && request.None?
  {
    var d := new Dialog("c", "hi");
    d.EditDraft("  ");
    assert !IsBlank("hi") by {
      assert "hi"[0] == 'h';
    }
    enabled := !d.IsSubmitDisabled();
    request := d.BeginSubmit();
  }

  class Dialog {
    const commentId: string
    const content: string
    var open: bool
    var newContent: string
    var updating: bool

    /** The dialog starts closed, with the draft set to the existing content, or "" when that is falsy. */
    constructor (commentId: string, content: string)
      ensures this.commentId == commentId && this.content == content
      ensures !open && !updating
      ensures newContent == content
    {
      this.commentId := commentId;
      this.content := content;
      open := false;
      newContent := if Truthy(content) then content else "";
      updating := false;
    }

    /** The trigger button, the Cancel button and the dialog's own close control. */
    method SetOpen(b: bool)
      modifies this`open
      ensures open == b
    {
      open := b;
    }

    method EditDraft(text: string)
      modifies this`newContent
      ensures newContent == text
    {
      newContent := text;
    }

    /**
     * The submit button's disabled test as the dialog writes it: it trims the
     * comment's original content, not the draft, so the draft plays no part. A
     * comment stored blank can never be submitted, and any other comment's
     * button is enabled while idle, however blank the draft.
     */
    function IsSubmitDisabled(): (r: bool)
      reads this
      ensures updating || IsBlank(content) ==> r
      ensures !updating && !IsBlank(content) ==> !r
    {
      IsBlank(content) || updating
    }

    /** The submit button's disabled test as intended: on the draft, matching the handler's guard. */
    function IsIntendedSubmitDisabled(): (r: bool)
      reads this
      ensures newContent == "" ==> r
      ensures updating ==> r
      ensures !r ==> exists i :: 0 <= i < |newContent| && !IsWhitespace(newContent[i])
    {
      BlankIffAllWhitespace(newContent);
      IsBlank(newContent) || updating
    }

    /** `handleSubmit` up to the call: a blank draft sends nothing and changes nothing. */
    method BeginSubmit() returns (request: Option<UpdateCommentRequest>)
      modifies this`updating
      ensures request.Some? <==> !IsBlank(newContent)
      ensures request.Some? ==> request.value == UpdateCommentRequest(commentId, newContent) && updating
      ensures request.None? ==> updating == old(updating)
      ensures old(!IsSubmitDisabled()) && old(IsBlank(newContent)) ==> request.None?
      ensures old(!IsIntendedSubmitDisabled()) <==> request.Some? && !old(updating)
    {
      if IsBlank(newContent) {
        return None;
      }
      updating := true;
      request := Some(UpdateCommentRequest(commentId, newContent));
    }

    /** `handleSubmit` after the call: a success closes the dialog, a failure keeps it open with its draft. */
    method FinishSubmit(succeeded: bool)
      modifies this`open, this`updating
      ensures !updating
      ensures succeeded ==> !open
      ensures !succeeded ==> open == old(open)
    {
      if succeeded {
        open := false;
      }
      updating := false;
    }
  }
}
