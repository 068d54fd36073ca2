/**
 * One rendered task (client/src/components/task-item.tsx): the pure badge
 * helpers, the update payloads the item sends, and the controller whose
 * `isEditing` and `editData` state the item's handlers change.
 */
module TaskItem {
  import opened Wrappers
  import opened Text
  import opened Schema
  import Sidebar

  /** The inline edit draft: the title and description being typed. */
  datatype EditDraft = EditDraft(title: string, description: string)

  /** A mutation handed to the data-access layer. */
  datatype Mutation = Update(id: int, updates: RawTask) | Delete(id: int)

  const RED_BADGE := "bg-red-100 text-red-800"
  const AMBER_BADGE := "bg-amber-100 text-amber-800"
  const GREEN_BADGE := "bg-green-100 text-green-800"
  const GRAY_BADGE := "bg-gray-100 text-gray-800"

  /** `getPriorityColor`: red, amber and green for the three priorities, gray for any other string. */
  function PriorityColor(priority: string): (badge: string)
    ensures badge == RED_BADGE <==> priority == "high"
    ensures badge == AMBER_BADGE <==> priority == "medium"
    ensures badge == GREEN_BADGE <==> priority == "low"
    ensures badge == GRAY_BADGE <==> priority !in PRIORITY_VALUES
  {
    match priority
    case "high" => RED_BADGE
    case "medium" => AMBER_BADGE
    case "low" => GREEN_BADGE
    case _ => GRAY_BADGE
  }

  /** `getCategoryColor`: purple, blue and green for the three categories, gray for any other string. */
  function CategoryColor(category: string): (dot: string)
    ensures dot == "bg-purple-400" <==> category == "work"
    ensures dot == "bg-blue-400" <==> category == "personal"
    ensures dot == "bg-green-400" <==> category == "health"
    ensures dot == "bg-gray-400" <==> category !in CATEGORY_VALUES
  {
    match category
    case "work" => "bg-purple-400"
    case "personal" => "bg-blue-400"
    case "health" => "bg-green-400"
    case _ => "bg-gray-400"
  }

  /** The item's dot and the sidebar's dot agree on each of the three known categories. */
  lemma CategoryColorMatchesSidebar(i: nat)
    requires i < |Sidebar.CATEGORY_ORDER|
    ensures CategoryColor(Sidebar.CATEGORY_ORDER[i]) == Sidebar.SidebarColor(Sidebar.CATEGORY_ORDER[i])
  {
  }

  /** The priority badge text: the first character upper-cased, the rest as stored. */
  function PriorityLabel(priority: string): (shown: string)
    ensures |shown| == |priority|
    ensures priority == "" ==> shown == ""
    ensures |priority| > 0 ==> shown[0] == UpperChar(priority[0]) && shown[1..] == priority[1..]
  {
    if priority == "" then "" else Upper(priority[..1]) + priority[1..]
  }

  /** The label spells the priority, differing at most in the case of its first letter. */
  lemma PriorityLabelOnlyChangesCase(priority: string)
    ensures Lower(PriorityLabel(priority)) == Lower(priority)
  {
    if priority != "" {
      LowerOfUpperChar(priority[0]);
      assert Lower(PriorityLabel(priority))[0] == Lower(priority)[0];
    }
  }

  /** The three valid priorities are shown as "Low", "Medium" and "High". */
  lemma PriorityLabelsOfValidPriorities()
    ensures PriorityLabel(PriorityName(Low)) == "Low"
    ensures PriorityLabel(PriorityName(Medium)) == "Medium"
    ensures PriorityLabel(PriorityName(High)) == "High"
  {
    assert PriorityName(Low) == "low";
    assert PriorityName(Medium) == "medium";
    assert PriorityName(High) == "high";
  }

  /** A payload with no key at all. */
  const EMPTY_PAYLOAD := RawTask(None, None, None, None, None, None, None, None)

  /** The update `toggleComplete` sends: only `completed`, flipped. */
  function ToggleUpdate(t: Task): (u: RawTask)
    ensures u.completed == Some(!t.completed)
    ensures u.id.None? && u.title.None? && u.description.None? && u.category.None?
    ensures u.priority.None? && u.dueDate.None? && u.createdAt.None?
  {
    EMPTY_PAYLOAD.(completed := Some(!t.completed))
  }

  /** The update `handleEdit` sends: the draft's title and description. */
  function DraftUpdate(d: EditDraft): (u: RawTask)
    ensures u.title == Some(d.title) && u.description == Some(d.description)
    ensures u.id.None? && u.category.None? && u.priority.None? && u.dueDate.None?
    ensures u.completed.None? && u.createdAt.None?
  {
    EMPTY_PAYLOAD.(title := Some(d.title), description := Some(d.description))
  }

  /** The draft a freshly mounted item starts with: the title, and the description or "". */
  function InitialDraft(t: Task): (d: EditDraft)
    ensures d.title == t.title
    ensures d.description == if t.description.Some? then t.description.value else ""
  {
    EditDraft(t.title, t.description.GetOr(""))
  }

  /** The toggle update is always accepted and changes `completed` alone, to its negation. */
  lemma ToggleUpdateFlipsOnlyCompleted(t: Task)
    ensures ParseUpdate(ToggleUpdate(t)).Success?
    ensures ApplyUpdate(t, ParseUpdate(ToggleUpdate(t)).value) == t.(completed := !t.completed)
  {
    assert forall f :: OptionalFieldOk(ToggleUpdate(t), f);
  }

  /** Toggling, then toggling the refreshed row again, restores the original row. */
  lemma ToggleTwiceRestores(t: Task)
    ensures var once := ApplyUpdate(t, ParseUpdate(ToggleUpdate(t)).value);
      && once.completed == !t.completed
      && ApplyUpdate(once, ParseUpdate(ToggleUpdate(once)).value) == t
  {
    ToggleUpdateFlipsOnlyCompleted(t);
    var once := ApplyUpdate(t, ParseUpdate(ToggleUpdate(t)).value);
    ToggleUpdateFlipsOnlyCompleted(once);
  }

  /**
   * The edit update passes `updateTaskSchema` exactly when the draft title
   * is non-empty; when it passes it sets title and description and nothing else.
   */
  lemma DraftUpdateAcceptedIffTitle(t: Task, d: EditDraft)
    ensures ParseUpdate(DraftUpdate(d)).Success? <==> |d.title| >= 1
    ensures ParseUpdate(DraftUpdate(d)).Success? ==>
      ApplyUpdate(t, ParseUpdate(DraftUpdate(d)).value)
        == t.(title := d.title, description := Some(d.description))
  {
    var raw := DraftUpdate(d);
    assert OptionalFieldOk(raw, CategoryField) && OptionalFieldOk(raw, PriorityField);
    assert OptionalFieldOk(raw, TitleField) <==> |d.title| >= 1;
  }

  /**
   * The controller of one rendered task. `task` is the prop; the component
   * never changes it. `sent` records the mutations handed to the data-access
   * layer and `log` the error messages written to the console.
   */
  class Controller {
    const task: Task
    var isEditing: bool
    var editData: EditDraft
    var sent: seq<Mutation>
    var log: seq<string>

    /**
     * Every mutation this item sends targets its own task, and every logged
     * failure belongs to a mutation sent, so there are never more failures
     * than mutations.
     */
    ghost predicate Valid()
      reads this
    {
      && (forall m :: m in sent ==> m.id == task.id)
      && |log| <= |sent|
    }

    /** Mounting: not editing, the draft taken from the task, nothing sent. */
    constructor (t: Task)
      ensures Valid()
      ensures task == t && !isEditing && editData == InitialDraft(t)
      ensures sent == [] && log == []
    {
      task := t;
      isEditing := false;
      editData := InitialDraft(t);
      sent := [];
      log := [];
    }

    /** The edit button opens the dialog; the draft is not re-read from the task. */
    method OpenEditor()
      requires Valid()
      modifies this
      ensures Valid()
      ensures isEditing
      ensures editData == old(editData) && sent == old(sent) && log == old(log)
    {
      isEditing := true;
    }

    /** Typing in the title input. */
    method SetTitle(title: string)
      requires Valid()
      modifies this
      ensures Valid()
      ensures editData == old(editData).(title := title)
      ensures isEditing == old(isEditing) && sent == old(sent) && log == old(log)
    {
      editData := editData.(title := title);
    }

    /** Typing in the description textarea. */
    method SetDescription(description: string)
      requires Valid()
      modifies this
      ensures Valid()
      ensures editData == old(editData).(description := description)
      ensures isEditing == old(isEditing) && sent == old(sent) && log == old(log)
    {
      editData := editData.(description := description);
    }

    /** Cancel (or closing the dialog): leave editing, send nothing, keep the draft as typed. */
    method Cancel()
      requires Valid()
      modifies this
      ensures Valid()
      ensures !isEditing
      ensures editData == old(editData) && sent == old(sent) && log == old(log)
    {
      isEditing := false;
    }

    /**
     * `toggleComplete`: sends the flipped `completed`; `ok` is the outcome of
     * the mutation. A failure is logged; the item's own state never changes.
     */
    method ToggleComplete(ok: bool)
      requires Valid()
      modifies this
      ensures Valid()
      ensures sent == old(sent) + [Update(task.id, ToggleUpdate(task))]
      ensures log == if ok then old(log) else old(log) + ["Failed to toggle task:"]
      ensures isEditing == old(isEditing) && editData == old(editData)
    {
      sent := sent + [Update(task.id, ToggleUpdate(task))];
      if !ok {
        log := log + ["Failed to toggle task:"];
      }
    }

    /**
     * `handleEdit`: sends the draft; leaves editing only when the mutation
     * succeeded, and logs the failure otherwise.
     */
    method SaveEdit(ok: bool)
      requires Valid()
      modifies this
      ensures Valid()
      ensures sent == old(sent) + [Update(task.id, DraftUpdate(old(editData)))]
      ensures isEditing == (old(isEditing) && !ok)
      ensures log == if ok then old(log) else old(log) + ["Failed to update task:"]
      ensures editData == old(editData)
    {
      sent := sent + [Update(task.id, DraftUpdate(editData))];
      if ok {
        isEditing := false;
      } else {
        log := log + ["Failed to update task:"];
      }
    }

    /** `handleDelete`: sends the delete; a failure is logged and nothing else changes. */
    method DeleteTask(ok: bool)
      requires Valid()
      modifies this
      ensures Valid()
      ensures sent == old(sent) + [Delete(task.id)]
      ensures log == if ok then old(log) else old(log) + ["Failed to delete task:"]
      ensures isEditing == old(isEditing) && editData == old(editData)
    {
      sent := sent + [Delete(task.id)];
      if !ok {
        log := log + ["Failed to delete task:"];
      }
    }
  }
}
