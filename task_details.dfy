/** A task's detail page: the status badge, the outfit and gear lists cut from their
    comma-separated strings, and the Apply button with its confirmation and loading flag. */
module TaskDetails {
  import opened Common
  import opened Text
  import opened Records
  import MockData

  /** `getStatusColor`. */
  function StatusColor(status: string): (c: Color)
    ensures status == "active" <==> c == Primary
    ensures status == "upcoming" <==> c == Accent
    ensures status == "completed" <==> c == Success
    ensures c == Gray <==> status !in {"active", "upcoming", "completed"}
  {
    match status
    case "active" => Primary
    case "upcoming" => Accent
    case "completed" => Success
    case _ => Gray
  }

  /** `getStatusText`. */
  function StatusText(status: string): (text: string)
    ensures status == "active" <==> text == "Active"
    ensures status == "upcoming" <==> text == "Upcoming"
    ensures status == "completed" <==> text == "Completed"
    ensures text == "Unknown" <==> status !in {"active", "upcoming", "completed"}
  {
    match status
    case "active" => "Active"
    case "upcoming" => "Upcoming"
    case "completed" => "Completed"
    case _ => "Unknown"
  }

  /** The colour and the text fall back on their defaults for the same statuses. */
  lemma DefaultsAgree(status: string)
    ensures StatusColor(status) == Gray <==> StatusText(status) == "Unknown"
  {
  }

  /** The separator of the outfit and gear strings. */
  const ListSeparator: string := ", "

  /** A comma-separated list cut into its items; `None` when the string is absent, where
      calling `split` on `undefined` throws and the page does not render. */
  function Items(field: Option<string>): (items: Option<seq<string>>)
    ensures items.None? <==> field.None?
    ensures items.Some? ==> |items.value| >= 1 && Join(items.value, ListSeparator) == field.value
    ensures items.Some? ==> forall k :: 0 <= k < |items.value| ==> !Includes(items.value[k], ListSeparator)
  {
    match field
    case None => None
    case Some(s) =>
      JoinSplit(s, ListSeparator);
      SplitPiecesFree(s, ListSeparator);
      Some(Split(s, ListSeparator))
  }

  /** The required outfit, one entry per item, or the throw of an absent outfit. */
  function OutfitItems(t: Task): (items: Option<seq<string>>)
    ensures items.None? <==> t.requiredOutfit.None?
    ensures items.Some? ==> |items.value| >= 1 && Join(items.value, ListSeparator) == t.requiredOutfit.value
  {
    Items(t.requiredOutfit)
  }

  /** The provided gear, one entry per item, or the throw of an absent gear list. */
  function GearItems(t: Task): (items: Option<seq<string>>)
    ensures items.None? <==> t.providedGear.None?
    ensures items.Some? ==> |items.value| >= 1 && Join(items.value, ListSeparator) == t.providedGear.value
  {
    Items(t.providedGear)
  }

  /** No listed item contains the separator, so the list shows each item whole. */
  lemma ItemsAreSeparated(t: Task)
    ensures OutfitItems(t).Some? ==>
              forall k :: 0 <= k < |OutfitItems(t).value| ==> !Includes(OutfitItems(t).value[k], ListSeparator)
    ensures GearItems(t).Some? ==>
              forall k :: 0 <= k < |GearItems(t).value| ==> !Includes(GearItems(t).value[k], ListSeparator)
  {
  }

  /** The shipped active and upcoming tasks render their lists; the shipped completed task,
      which the Completed tab of My Tasks opens, has neither list, so its page throws. */
  lemma ShippedTaskPages()
    ensures forall k :: 0 <= k < |MockData.Tasks| ==>
              OutfitItems(MockData.Tasks[k]).Some? && GearItems(MockData.Tasks[k]).Some?
    ensures OutfitItems(MockData.CompletedTasks[0]).None? && GearItems(MockData.CompletedTasks[0]).None?
  {
  }

  /** The Apply button is disabled while applying and for completed tasks. */
  function ApplyDisabled(isApplying: bool, t: Task): (disabled: bool)
    ensures !disabled <==> !isApplying && t.status != "completed"
  {
    isApplying || t.status == "completed"
  }

  /** The button's text. */
  function ApplyLabel(isApplying: bool): (caption: string)
    ensures caption == "Applying..." <==> isApplying
    ensures caption == "Apply for Task" <==> !isApplying
  {
    if isApplying then "Applying..." else "Apply for Task"
  }

  /** The screen's state for one task. */
  class TaskDetailsScreen {
    const task: Task
    var isApplying: bool

    constructor (t: Task)
      ensures task == t && !isApplying
    {
      task := t;
      isApplying := false;
    }

    /** `handleApply`, given the answer to its confirmation: confirming starts applying,
        cancelling changes nothing. */
    method HandleApply(confirmed: bool)
      modifies this
      ensures isApplying == (confirmed || old(isApplying))
    {
      if confirmed {
        isApplying := true;
      }
    }

    /** The application timer fires: applying ends, and OK on its alert goes back. */
    method CompleteApply() returns (next: Nav)
      modifies this
      ensures !isApplying && next == GoBack
    {
      isApplying := false;
      next := GoBack;
    }
  }
}
