/** Proof of a finished task: a before and an after photo, each filled from the gallery or
    the camera, the comparison shown once both are there, and the guarded submit. */
module ProofSubmission {
  import opened Common
  import opened Records

  /** The two photo slots. */
  datatype Photos = Photos(before: Option<string>, after: Option<string>)

  /** A picker result delivered for the slot named `slot`: a picked image goes to the before
      slot exactly when `slot` is 'before' and to the after slot otherwise (any other name
      included); a cancellation or an error changes nothing. */
  function WithPicked(p: Photos, slot: string, result: PickResult): (r: Photos)
    ensures !result.Picked? ==> r == p
    ensures result.Picked? && slot == "before" ==> r == Photos(Some(result.uri), p.after)
    ensures result.Picked? && slot != "before" ==> r == Photos(p.before, Some(result.uri))
  {
    if !result.Picked? then p
    else if slot == "before" then p.(before := Some(result.uri))
    else p.(after := Some(result.uri))
  }

  /** `handleSubmit`'s guard: both photos are needed. */
  function CanSubmit(p: Photos): (ok: bool)
    ensures ok <==> Present(p.before) && Present(p.after)
  {
    Present(p.before) && Present(p.after)
  }

  /** The comparison section is shown exactly when submitting would not be refused. */
  function ComparisonShown(p: Photos): (shown: bool)
    ensures shown <==> CanSubmit(p)
  {
    Present(p.before) && Present(p.after)
  }

  /** The submit button is disabled while submitting, and says so. */
  function SubmitLabel(isSubmitting: bool): (caption: string)
    ensures caption == "Submitting..." <==> isSubmitting
    ensures caption == "Submit Proof" <==> !isSubmitting
  {
    if isSubmitting then "Submitting..." else "Submit Proof"
  }

  /** Each pick touches one slot only: the slot it does not name keeps its photo. */
  lemma PickKeepsOtherSlot(p: Photos, slot: string, result: PickResult)
    ensures slot == "before" ==> WithPicked(p, slot, result).after == p.after
    ensures slot != "before" ==> WithPicked(p, slot, result).before == p.before
  {
  }

  /** Picking into both slots, in either order, makes the proof submittable. */
  lemma BothSlotsFilled(p: Photos, u1: string, u2: string, other: string)
    requires u1 != "" && u2 != "" && other != "before"
    ensures CanSubmit(WithPicked(WithPicked(p, "before", Picked(u1)), other, Picked(u2)))
    ensures CanSubmit(WithPicked(WithPicked(p, other, Picked(u2)), "before", Picked(u1)))
  {
  }

  /** A later pick into the same slot replaces the earlier one. */
  lemma LaterPickWins(p: Photos, slot: string, u1: string, u2: string)
    ensures WithPicked(WithPicked(p, slot, Picked(u1)), slot, Picked(u2)) == WithPicked(p, slot, Picked(u2))
  {
  }

  /** The screen's state for one task. */
  class ProofSubmissionScreen {
    const task: Task
    var beforePhoto: Option<string>
    var afterPhoto: Option<string>
    var isSubmitting: bool

    function CurrentPhotos(): Photos
      reads this
    {
      Photos(beforePhoto, afterPhoto)
    }

    constructor (t: Task)
      ensures task == t && CurrentPhotos() == Photos(None, None) && !isSubmitting
    {
      task := t;
      beforePhoto, afterPhoto := None, None;
      isSubmitting := false;
    }

    /** `pickImage(type)`. */
    method PickImage(slot: string, result: PickResult)
      modifies this
      ensures CurrentPhotos() == WithPicked(old(CurrentPhotos()), slot, result)
      ensures isSubmitting == old(isSubmitting)
    {
      if result.Picked? {
        if slot == "before" {
          beforePhoto := Some(result.uri);
        } else {
          afterPhoto := Some(result.uri);
        }
      }
    }

    /** `takePhoto(type)`: without camera permission both slots are left alone. */
    method TakePhoto(slot: string, granted: bool, result: PickResult)
      modifies this
      ensures CurrentPhotos() == if granted then WithPicked(old(CurrentPhotos()), slot, result) else old(CurrentPhotos())
      ensures isSubmitting == old(isSubmitting)
    {
      if !granted {
        return;
      }
      PickImage(slot, result);
    }

    /** `handleSubmit`: refused unless both photos are there; otherwise submitting starts. */
    method HandleSubmit() returns (accepted: bool)
      modifies this
      ensures accepted == CanSubmit(old(CurrentPhotos()))
      ensures isSubmitting == (accepted || old(isSubmitting))
      ensures CurrentPhotos() == old(CurrentPhotos())
    {
      if !Present(beforePhoto) || !Present(afterPhoto) {
        return false;
      }
      isSubmitting := true;
      accepted := true;
    }

    /** The submission timer fires: submitting ends, and OK on its alert opens Payment. */
    method CompleteSubmit() returns (next: Nav)
      modifies this
      ensures !isSubmitting && next == Navigate("Payment")
      ensures CurrentPhotos() == old(CurrentPhotos())
    {
      isSubmitting := false;
      next := Navigate("Payment");
    }
  }
}
