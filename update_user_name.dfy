/**
 * The edit-name dialog: whether it is open, the typed name, and whether an
 * update is in flight. Submitting sends `updateName(name)` unless the name is
 * blank; a success closes the dialog, a failure leaves it as it was.
 */
module UpdateUserName {
  import opened Wrappers
  import opened JsText
  import opened Actions

  class Dialog {
    var open: bool
    var name: string
    var updating: bool

    /** The dialog starts closed with an empty name. */
    constructor ()
      ensures !open && name == "" && !updating
    {
      open := false;
      name := "";
      updating := false;
    }

    method SetOpen(b: bool)
      modifies this`open
      ensures open == b
    {
      open := b;
    }

    method EditName(text: string)
      modifies this`name
      ensures name == text
    {
      name := text;
    }

    /** The submit button is disabled while the name is blank or an update is in flight. */
    function IsSubmitDisabled(): (r: bool)
      reads this
      ensures name == "" ==> r
      ensures updating ==> r
      ensures !r ==> exists i :: 0 <= i < |name| && !IsWhitespace(name[i])
    {
      BlankIffAllWhitespace(name);
      IsBlank(name) || updating
    }

    /** `handleSubmit` up to the call: a blank name sends nothing and changes nothing. */
    method BeginSubmit() returns (request: Option<UpdateNameRequest>)
      modifies this`updating
      ensures request.Some? <==> !IsBlank(name)
      ensures request.Some? ==> request.value == UpdateNameRequest(name) && updating
      ensures request.None? ==> updating == old(updating)
      ensures old(!IsSubmitDisabled()) <==> request.Some? && !old(updating)
    {
      if IsBlank(name) {
        return None;
      }
      updating := true;
      request := Some(UpdateNameRequest(name));
    }

    /** `handleSubmit` after the call: a success closes the dialog, a failure keeps it open with the name. */
    method FinishSubmit(succeeded: bool)
      modifies this`open, this`updating
      ensures !updating
      ensures succeeded ==> !open
      ensures !succeeded ==> open == old(open)
    {
      if succeeded {
        open := false;
      }
      updating := false;
    }
  }
}
