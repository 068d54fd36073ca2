/**
 * The per-category part of the sidebar (client/src/components/sidebar.tsx):
 * `getCategoryStats` maps the three fixed category names to a count and a
 * colour class.
 */
module Sidebar {
  import opened Schema

  /** The fixed list the sidebar maps over, in display order. */
  const CATEGORY_ORDER: seq<string> := ["work", "personal", "health"]

  /** One line of the category list. */
  datatype CategoryStat = CategoryStat(name: string, count: nat, color: string)

  /** How many tasks have exactly `name` as their category. */
  function CountCategory(tasks: seq<Task>, name: string): (n: nat)
    ensures n <= |tasks|
  {
    if tasks == [] then 0
    else (if tasks[0].category == name then 1 else 0) + CountCategory(tasks[1..], name)
  }

  /** The dot colour: purple for "work", blue for "personal", green for anything else. */
  function SidebarColor(name: string): (color: string)
    ensures color == "bg-purple-400" <==> name == "work"
    ensures color == "bg-blue-400" <==> name == "personal"
    ensures color != "bg-purple-400" && color != "bg-blue-400" ==> color == "bg-green-400"
  {
    if name == "work" then "bg-purple-400"
    else if name == "personal" then "bg-blue-400"
    else "bg-green-400"
  }

  /** `getCategoryStats`: one entry per fixed category, in the fixed order. */
  function CategoryStats(tasks: seq<Task>): (r: seq<CategoryStat>)
    ensures |r| == |CATEGORY_ORDER| == 3
    ensures forall i :: 0 <= i < |r| ==>
      && r[i].name == CATEGORY_ORDER[i]
      && r[i].count == CountCategory(tasks, CATEGORY_ORDER[i])
      && r[i].count <= |tasks|
      && r[i].color == SidebarColor(CATEGORY_ORDER[i])
  {
    seq(|CATEGORY_ORDER|, i requires 0 <= i < |CATEGORY_ORDER| =>
      CategoryStat(CATEGORY_ORDER[i], CountCategory(tasks, CATEGORY_ORDER[i]),
                   SidebarColor(CATEGORY_ORDER[i])))
  }

  /** The categories of the tasks, in order. */
  function Categories(tasks: seq<Task>): (r: seq<string>)
    ensures |r| == |tasks| && forall i :: 0 <= i < |tasks| ==> r[i] == tasks[i].category
  {
    seq(|tasks|, i requires 0 <= i < |tasks| => tasks[i].category)
  }

  /** A category's count is the number of times its name occurs among the tasks' categories. */
  lemma {:induction false} CountIsMultiplicity(tasks: seq<Task>, name: string)
    ensures CountCategory(tasks, name) == multiset(Categories(tasks))[name]
  {
    if tasks != [] {
      CountIsMultiplicity(tasks[1..], name);
      assert Categories(tasks) == [tasks[0].category] + Categories(tasks[1..]);
    }
  }

  /** How many tasks carry one of the three category names. */
  function CountKnown(tasks: seq<Task>): (n: nat)
    ensures n <= |tasks|
  {
    if tasks == [] then 0
    else (if tasks[0].category in CATEGORY_VALUES then 1 else 0) + CountKnown(tasks[1..])
  }

  /**
   * Categories are disjoint, so the three counts never add up to more than
   * the collection; they add up to exactly the tasks with a known category.
   */
  lemma {:induction false} CategoryCountsAddUp(tasks: seq<Task>)
    ensures var s := CategoryStats(tasks);
      s[0].count + s[1].count + s[2].count == CountKnown(tasks) <= |tasks|
  {
    if tasks != [] {
      CategoryCountsAddUp(tasks[1..]);
    }
  }

  /** When every task carries one of the three names the counts add up to the total. */
  lemma {:induction false} KnownCategoriesCountEverything(tasks: seq<Task>)
    requires forall t :: t in tasks ==> t.category in CATEGORY_VALUES
    ensures CountKnown(tasks) == |tasks|
  {
    if tasks != [] {
      assert tasks[0] in tasks;
      KnownCategoriesCountEverything(tasks[1..]);
    }
  }
}
