/**
 * The derivations of the tasks page (client/src/pages/tasks.tsx): the list
 * shown for a status filter and a search query (`filteredTasks`, lines
 * 17-25) and the summary counts (`stats`, lines 27-31).
 */
module TasksPage {
  import opened Text
  import opened Schema

  /** The status buttons: every task, the unfinished ones, the finished ones. */
  datatype StatusFilter = All | Active | Completed

  /** The summary shown in the sidebar and on the filter buttons. */
  datatype Stats = Stats(total: nat, completed: nat, pending: nat)

  /**
   * The search test: the lower-cased query occurs in the lower-cased title,
   * or in the lower-cased description when the task has one.
   */
  predicate MatchesSearch(t: Task, query: string): (matched: bool)
    ensures query == "" ==> matched
    ensures Contains(Lower(t.title), Lower(query)) ==> matched
    ensures t.description.Some? && Contains(Lower(t.description.value), Lower(query)) ==> matched
    ensures t.description.None? ==> (matched <==> Contains(Lower(t.title), Lower(query)))
  {
    Contains(Lower(t.title), Lower(query)) ||
    (t.description.Some? && Contains(Lower(t.description.value), Lower(query)))
  }

  /** Whether a task stays in the list under `filter` and `query`. */
  predicate Keep(t: Task, filter: StatusFilter, query: string): (kept: bool)
    ensures kept ==> MatchesSearch(t, query)
    ensures filter == Active && kept ==> !t.completed
    ensures filter == Completed && kept ==> t.completed
    ensures MatchesSearch(t, query) && (filter == All || (filter == Active <==> !t.completed)) ==> kept
  {
    match filter
    case All => MatchesSearch(t, query)
    case Active => !t.completed && MatchesSearch(t, query)
    case Completed => t.completed && MatchesSearch(t, query)
  }

  /** `filteredTasks`: the tasks that pass `Keep`, in their original order. */
  function FilterTasks(tasks: seq<Task>, filter: StatusFilter, query: string): (r: seq<Task>)
    ensures |r| <= |tasks|
    ensures forall t :: t in r <==> t in tasks && Keep(t, filter, query)
  {
    if tasks == [] then []
    else
      var rest := FilterTasks(tasks[1..], filter, query);
      if Keep(tasks[0], filter, query) then [tasks[0]] + rest else rest
  }

  /** `idx` picks the elements of `a` out of `b` at strictly increasing positions. */
  ghost predicate EmbedsBy(a: seq<Task>, b: seq<Task>, idx: seq<nat>) {
    && |idx| == |a|
    && (forall k :: 0 <= k < |idx| ==> idx[k] < |b| && a[k] == b[idx[k]])
    && (forall j, k :: 0 <= j < k < |idx| ==> idx[j] < idx[k])
  }

  /** `a` is `b` with some elements dropped and the rest left in order. */
  ghost predicate IsSubsequence(a: seq<Task>, b: seq<Task>) {
    exists idx :: EmbedsBy(a, b, idx)
  }

  /** Shifts every position of an embedding one place to the right. */
  function Shift(idx: seq<nat>): (r: seq<nat>)
    ensures |r| == |idx| && forall k :: 0 <= k < |idx| ==> r[k] == idx[k] + 1
  {
    seq(|idx|, k requires 0 <= k < |idx| => idx[k] + 1)
  }

  /** An embedding into the tail of `b` is an embedding into `b`, one place further on. */
  lemma EmbedsInTail(a: seq<Task>, b: seq<Task>, idx: seq<nat>)
    requires b != [] && EmbedsBy(a, b[1..], idx)
    ensures EmbedsBy(a, b, Shift(idx))
  {
  }

  /** Keeping the head of `b` extends an embedding into the tail by position 0. */
  lemma EmbedsWithHead(a: seq<Task>, b: seq<Task>, idx: seq<nat>)
    requires b != [] && EmbedsBy(a, b[1..], idx)
    ensures EmbedsBy([b[0]] + a, b, [0] + Shift(idx))
  {
    EmbedsInTail(a, b, idx);
    var s := Shift(idx);
    forall k | 0 <= k < |idx| + 1
      ensures ([0] + s)[k] < |b| && ([b[0]] + a)[k] == b[([0] + s)[k]]
    {
      if k > 0 {
        assert ([0] + s)[k] == s[k - 1];
        assert ([b[0]] + a)[k] == a[k - 1];
      }
    }
  }

  /** The filtered list keeps a subset of the tasks and never reorders them. */
  lemma {:induction false} FilterIsSubsequence(tasks: seq<Task>, filter: StatusFilter, query: string)
    ensures IsSubsequence(FilterTasks(tasks, filter, query), tasks)
  {
    var r := FilterTasks(tasks, filter, query);
    if tasks == [] {
      assert EmbedsBy(r, tasks, []);
    } else {
      var rest := FilterTasks(tasks[1..], filter, query);
      FilterIsSubsequence(tasks[1..], filter, query);
      var idx :| EmbedsBy(rest, tasks[1..], idx);
      if Keep(tasks[0], filter, query) {
        EmbedsWithHead(rest, tasks, idx);
        assert EmbedsBy(r, tasks, [0] + Shift(idx));
      } else {
        EmbedsInTail(rest, tasks, idx);
        assert EmbedsBy(r, tasks, Shift(idx));
      }
    }
  }

  /** The empty query matches every task: `"".includes` is true of any string. */
  lemma EmptyQueryMatchesEveryTask(t: Task)
    ensures MatchesSearch(t, "")
  {
    assert Lower("") == "";
    EmptyIsContained(Lower(t.title));
  }

  /**
   * A task whose lower-cased title and lower-cased description (if any) both
   * lack the lower-cased query is in no filtered list.
   */
  lemma SearchMissExcluded(tasks: seq<Task>, filter: StatusFilter, query: string, t: Task)
    requires !Contains(Lower(t.title), Lower(query))
    requires t.description.None? || !Contains(Lower(t.description.value), Lower(query))
    ensures !MatchesSearch(t, query)
    ensures t !in FilterTasks(tasks, filter, query)
  {
  }

  /** With filter "all" and an empty query the list is the whole collection. */
  lemma {:induction false} AllWithEmptyQueryKeepsEverything(tasks: seq<Task>)
    ensures FilterTasks(tasks, All, "") == tasks
  {
    if tasks != [] {
      EmptyQueryMatchesEveryTask(tasks[0]);
      AllWithEmptyQueryKeepsEverything(tasks[1..]);
      assert tasks == [tasks[0]] + tasks[1..];
    }
  }

  /** Searching is blind to case: upper-casing the query gives the same list. */
  lemma {:induction false} SearchIgnoresQueryCase(tasks: seq<Task>, filter: StatusFilter, query: string)
    ensures FilterTasks(tasks, filter, Upper(query)) == FilterTasks(tasks, filter, query)
  {
    LowerOfUpper(query);
    if tasks != [] {
      SearchIgnoresQueryCase(tasks[1..], filter, query);
    }
  }

  /**
   * "active" and "completed" split the "all" list for the same query: as
   * multisets they add up to it, and no task is in both.
   */
  lemma {:induction false} ActiveAndCompletedPartitionAll(tasks: seq<Task>, query: string)
    ensures multiset(FilterTasks(tasks, All, query))
         == multiset(FilterTasks(tasks, Active, query)) + multiset(FilterTasks(tasks, Completed, query))
    ensures forall t :: t in FilterTasks(tasks, Active, query) ==> t !in FilterTasks(tasks, Completed, query)
    ensures |FilterTasks(tasks, All, query)|
         == |FilterTasks(tasks, Active, query)| + |FilterTasks(tasks, Completed, query)|
  {
    if tasks != [] {
      ActiveAndCompletedPartitionAll(tasks[1..], query);
    }
    assert |FilterTasks(tasks, All, query)| == |multiset(FilterTasks(tasks, All, query))|;
  }

  /** How many tasks have `completed == done`. */
  function CountByStatus(tasks: seq<Task>, done: bool): (n: nat)
    ensures n <= |tasks|
  {
    if tasks == [] then 0
    else (if tasks[0].completed == done then 1 else 0) + CountByStatus(tasks[1..], done)
  }

  /** Every task is either completed or pending. */
  lemma {:induction false} StatusCountsCoverAll(tasks: seq<Task>)
    ensures CountByStatus(tasks, true) + CountByStatus(tasks, false) == |tasks|
  {
    if tasks != [] {
      StatusCountsCoverAll(tasks[1..]);
    }
  }

  /** `stats`: the total, completed and pending counts of the whole collection. */
  function ComputeStats(tasks: seq<Task>): (s: Stats)
    ensures s.total == |tasks|
    ensures s.completed + s.pending == s.total
  {
    StatusCountsCoverAll(tasks);
    Stats(|tasks|, CountByStatus(tasks, true), CountByStatus(tasks, false))
  }

  /**
   * The counts on the "Completed" and "Active" buttons are the lengths of
   * the lists those buttons show when the search box is empty.
   */
  lemma {:induction false} StatsMatchFilters(tasks: seq<Task>)
    ensures ComputeStats(tasks).completed == |FilterTasks(tasks, Completed, "")|
    ensures ComputeStats(tasks).pending == |FilterTasks(tasks, Active, "")|
  {
    if tasks != [] {
      EmptyQueryMatchesEveryTask(tasks[0]);
      StatsMatchFilters(tasks[1..]);
    }
  }

  /**
   * An unfinished task titled "Buy milk" is not listed under "completed"
   * for the query "milk", although its title matches.
   */
  lemma CompletedFilterExcludesUnfinishedMatch(t: Task)
    requires t.title == "Buy milk" && !t.completed
    ensures MatchesSearch(t, "milk")
    ensures FilterTasks([t], Completed, "milk") == []
  {
    assert Lower("milk") == "milk";
    assert Lower(t.title) == "buy milk";
    assert OccursAt(Lower(t.title), Lower("milk"), 4);
  }
}
