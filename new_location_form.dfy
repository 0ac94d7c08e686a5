/** The form that saves the place chosen in the picker for a signed-in user. */
module NewLocationForm {
  import opened Common
  import opened Store
  import opened Http
  import opened ClientTypes

  /** The form's state; `alert` is the last message shown with `alert`. */
  datatype Form = Form(selected: Option<Selection>, loading: bool, saved: seq<Location>, alert: Option<string>)

  const Initial := Form(None, false, [], None)
  const SelectFirst := "Please select a location first."
  const SaveFailed := "Error saving location."

  /** The effect that loads the saved list: only with a session, and only an
      accepted answer (`listing` present) replaces the list. */
  function Load(status: SessionStatus, f: Form, listing: Option<seq<Location>>): (r: Form)
    ensures status == Authenticated && listing.Some? ==> r == f.(saved := listing.value)
    ensures status != Authenticated || listing.None? ==> r == f
  {
    if status == Authenticated && listing.Some? then f.(saved := listing.value) else f
  }

  /** The form after `handleAddLocation` and the place it sent, if any. */
  datatype AddOutcome = AddOutcome(form: Form, sent: Option<Selection>)

  /** `reply` is the create answer, or `None` when the request fails; no
      handler catches that failure, so `loading` then stays set. */
  function HandleAdd(f: Form, reply: Option<Response>): (o: AddOutcome)
    requires reply.Some? && reply.value.Ok() && IsJson(reply.value.body) ==> reply.value.body.LocationJson?
    ensures f.selected.None? ==> o == AddOutcome(f.(alert := Some(SelectFirst)), None)
    ensures f.selected.Some? ==> o.sent == f.selected
    ensures f.selected.Some? && reply.None? ==> o.form == f.(loading := true)
    ensures f.selected.Some? && reply.Some? && reply.value.Ok() && IsJson(reply.value.body) ==>
              o.form == f.(loading := false, saved := f.saved + [reply.value.body.location], selected := None)
    ensures f.selected.Some? && reply.Some? && reply.value.Ok() && !IsJson(reply.value.body) ==>
              o.form == f.(loading := false)
    ensures f.selected.Some? && reply.Some? && !reply.value.Ok() ==>
              o.form == f.(loading := false, alert := Some(SaveFailed))
  {
    if f.selected.None? then AddOutcome(f.(alert := Some(SelectFirst)), None)
    else if reply.None? then AddOutcome(f.(loading := true), f.selected)
    else
      var done := f.(loading := false);
      if !reply.value.Ok() then AddOutcome(done.(alert := Some(SaveFailed)), f.selected)
      else if !IsJson(reply.value.body) then AddOutcome(done, f.selected)
      else AddOutcome(done.(saved := f.saved + [reply.value.body.location], selected := None), f.selected)
  }

  /** A refused add keeps both the saved list and the selection, so the same
      place can be sent again. */
  lemma RefusedAddCanBeRetried(f: Form, reply: Option<Response>)
    requires f.selected.Some? && reply.Some? && !reply.value.Ok()
    ensures var after := HandleAdd(f, reply).form;
      after.saved == f.saved && after.selected == f.selected && HandleAdd(after, reply).sent == f.selected
  {
  }
}
