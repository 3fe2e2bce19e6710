/**
 * The to-do manager (script.js): an ordered task store, a registry of custom list
 * names and the active view, the per-view filter with its search box, and the counts
 * shown in the navigation and the statistics block.
 */
module Todo {
  import opened Wrappers
  import opened Seqs
  import opened JsText

  /**
   * One task record. `dueDate` is JavaScript's nullable due date (no code path sets it,
   * but saved data may carry one); `list` names the view that owns the task.
   * `createdAt` is informational only and is not modelled.
   */
  datatype Task = Task(
    id: int,
    text: string,
    completed: bool,
    important: bool,
    dueDate: Option<int>,
    list: string)

  /** The view the app starts in, and the owner the fallback filter looks for. */
  const MyDay := "myday"

  predicate IsImportant(t: Task) { t.important }
  predicate IsPlanned(t: Task) { t.dueDate.Some? }
  predicate IsCompleted(t: Task) { t.completed }

  /** `t => t.list === name` */
  function InList(name: string): Task -> bool { (t: Task) => t.list == name }
  /** `t => t.list !== name` */
  function NotInList(name: string): Task -> bool { (t: Task) => t.list != name }
  /** `x => x.id !== id` */
  function HasOtherId(id: int): Task -> bool { (t: Task) => t.id != id }
  /** `l => l !== name` */
  function IsOtherName(name: string): string -> bool { (l: string) => l != name }

  /** The built-in views whose filter does not look at a task's `list`. */
  predicate IsSmartFilterView(view: string)
  {
    view == "important" || view == "planned" || view == "assigned" || view == "tasks"
  }

  /**
   * The view part of renderTasks: an order-preserving selection of the store. The four
   * smart views are tested first, then the custom lists; any other name, including
   * "myday" and a view whose list was deleted, shows the tasks owned by "myday".
   */
  function ViewFilter(tasks: seq<Task>, customLists: seq<string>, view: string): (r: seq<Task>)
    ensures IsSubsequence(r, tasks)
    ensures view == "important" ==> forall t :: t in r <==> t in tasks && t.important
    ensures view == "planned" ==> forall t :: t in r <==> t in tasks && t.dueDate.Some?
    ensures view == "assigned" ==> r == []
    ensures view == "tasks" ==> r == tasks
    ensures !IsSmartFilterView(view) && view in customLists ==>
      forall t :: t in r <==> t in tasks && t.list == view
    ensures !IsSmartFilterView(view) && view !in customLists ==>
      forall t :: t in r <==> t in tasks && t.list == MyDay
  {
    if view == "important" then Filter(tasks, IsImportant)
    else if view == "planned" then Filter(tasks, IsPlanned)
    else if view == "assigned" then []
    else if view == "tasks" then SubsequenceOfItself(tasks); tasks
    else if view in customLists then Filter(tasks, InList(view))
    else Filter(tasks, InList(MyDay))
  }

  /** Case-insensitive `includes` of the search term in the task's text. */
  predicate MatchesSearch(t: Task, term: string)
  {
    Includes(ToLower(t.text), ToLower(term))
  }

  function SearchHit(term: string): Task -> bool { (t: Task) => MatchesSearch(t, term) }

  /**
   * The search part of renderTasks: an empty term keeps everything, any other term
   * keeps, in order, the tasks whose lower-cased text contains the lower-cased term.
   */
  function SearchFilter(shown: seq<Task>, term: string): (r: seq<Task>)
    ensures IsSubsequence(r, shown)
    ensures term == "" ==> r == shown
    ensures term != "" ==> forall t :: t in r <==> t in shown && MatchesSearch(t, term)
  {
    if term == "" then SubsequenceOfItself(shown); shown
    else Filter(shown, SearchHit(term))
  }

  /**
   * The sequence renderTasks draws, in store order (not reversed): still an
   * order-preserving selection of the store, and a task is in it exactly when it
   * passes the view filter and the search.
   */
  function VisibleTasks(tasks: seq<Task>, customLists: seq<string>, view: string, term: string): (r: seq<Task>)
    ensures IsSubsequence(r, tasks)
    ensures forall t :: t in r <==> t in ViewFilter(tasks, customLists, view) && (term == "" || MatchesSearch(t, term))
  {
    var byView := ViewFilter(tasks, customLists, view);
    var r := SearchFilter(byView, term);
    SubsequenceTransitive(r, byView, tasks);
    r
  }

  /** The five navigation badges of updateCounts. */
  datatype NavCounts = NavCounts(myday: nat, important: nat, planned: nat, assignedToMe: nat, allTasks: nat)

  /**
   * updateCounts: the "tasks" badge is the store's length, "assigned" is always 0,
   * and every other badge counts a selection of the store.
   */
  function NavigationCounts(tasks: seq<Task>): (c: NavCounts)
    ensures c.allTasks == |tasks| && c.assignedToMe == 0
    ensures c.myday <= c.allTasks && c.important <= c.allTasks && c.planned <= c.allTasks
    ensures c.important == 0 <==> forall t :: t in tasks ==> !t.important
  {
    NavCounts(
      |Filter(tasks, InList(MyDay))|,
      |Filter(tasks, IsImportant)|,
      |Filter(tasks, IsPlanned)|,
      0,
      |tasks|)
  }

  /** The four figures of updateTaskStats. */
  datatype Stats = Stats(total: nat, completed: nat, important: nat, planned: nat)

  function TaskStats(tasks: seq<Task>): (s: Stats)
    ensures s.total == |tasks|
    ensures s.completed <= s.total && s.important <= s.total && s.planned <= s.total
    ensures s.completed == s.total <==> forall t :: t in tasks ==> t.completed
    ensures s.completed == 0 <==> forall t :: t in tasks ==> !t.completed
  {
    var done := Filter(tasks, IsCompleted);
    Stats(|tasks|, |done|, |Filter(tasks, IsImportant)|, |Filter(tasks, IsPlanned)|)
  }

  /** The badge beside a custom list in renderCustomLists. */
  function ListCount(tasks: seq<Task>, name: string): (n: nat)
    ensures n <= |tasks|
    ensures n == 0 <==> forall t :: t in tasks ==> t.list != name
  {
    |Filter(tasks, InList(name))|
  }

  /**
   * The badges renderCustomLists draws when it runs: one per custom list, in list
   * order, each counting the tasks that list owns.
   */
  function ListBadges(tasks: seq<Task>, customLists: seq<string>): (b: seq<nat>)
    ensures |b| == |customLists|
    ensures forall k :: 0 <= k < |customLists| ==> b[k] == ListCount(tasks, customLists[k])
  {
    seq(|customLists|, k requires 0 <= k < |customLists| => ListCount(tasks, customLists[k]))
  }

  /** Every navigation badge equals the size of the view it stands for, before any search. */
  lemma NavCountsMatchViews(tasks: seq<Task>, customLists: seq<string>)
    ensures var c := NavigationCounts(tasks);
      && c.myday == |ViewFilter(tasks, customLists, MyDay)|
      && c.important == |ViewFilter(tasks, customLists, "important")|
      && c.planned == |ViewFilter(tasks, customLists, "planned")|
      && c.assignedToMe == |ViewFilter(tasks, customLists, "assigned")|
      && c.allTasks == |ViewFilter(tasks, customLists, "tasks")|
  {
  }

  /**
   * A custom list's count, as renderCustomLists computes it, equals the size of that
   * list's view, before any search.
   */
  lemma ListCountMatchesView(tasks: seq<Task>, customLists: seq<string>, name: string)
    requires name in customLists && !IsSmartFilterView(name)
    ensures ListCount(tasks, name) == |ViewFilter(tasks, customLists, name)|
  {
  }

  /** Appending a task raises exactly the count of the list that owns it, by one. */
  lemma AddedTaskListCount(tasks: seq<Task>, t: Task, name: string)
    ensures ListCount(tasks + [t], name) == ListCount(tasks, name) + (if t.list == name then 1 else 0)
  {
    FilterAppendOne(tasks, t, InList(name));
  }

  /** Whether a task created in `view` (so owned by `view`) is drawn in that same view. */
  predicate ShownInOwnView(view: string, customLists: seq<string>)
  {
    view == "tasks" || (!IsSmartFilterView(view) && (view in customLists || view == MyDay))
  }

  /**
   * Appending the task handleAddTask creates in `view` extends that view by the task
   * exactly when ShownInOwnView: created in "important", "planned" or "assigned"
   * the task is hidden from the view it was typed into.
   */
  lemma AddedTaskInOwnView(tasks: seq<Task>, customLists: seq<string>, view: string, id: int, text: string)
    ensures var t := Task(id, text, false, false, None, view);
      ViewFilter(tasks + [t], customLists, view)
        == ViewFilter(tasks, customLists, view) + (if ShownInOwnView(view, customLists) then [t] else [])
  {
    var t := Task(id, text, false, false, None, view);
    if view == "important" {
      FilterAppendOne(tasks, t, IsImportant);
    } else if view == "planned" {
      FilterAppendOne(tasks, t, IsPlanned);
    } else if view == "assigned" || view == "tasks" {
    } else if view in customLists {
      FilterAppendOne(tasks, t, InList(view));
    } else {
      FilterAppendOne(tasks, t, InList(MyDay));
    }
  }

  /** A new task raises the total by one and leaves the other figures alone. */
  lemma AddedTaskStats(tasks: seq<Task>, t: Task)
    requires !t.completed && !t.important && t.dueDate.None?
    ensures var before, after := TaskStats(tasks), TaskStats(tasks + [t]);
      after == before.(total := before.total + 1)
  {
    FilterAppendOne(tasks, t, IsCompleted);
    FilterAppendOne(tasks, t, IsImportant);
    FilterAppendOne(tasks, t, IsPlanned);
  }

  /** The store after flipping `completed` on the task at position `i`. */
  function WithCompletedToggled(tasks: seq<Task>, i: nat): (r: seq<Task>)
    requires i < |tasks|
    ensures |r| == |tasks| && r[i].completed == !tasks[i].completed
    ensures r[i].(completed := tasks[i].completed) == tasks[i]
    ensures forall j :: 0 <= j < |tasks| && j != i ==> r[j] == tasks[j]
  {
    tasks[i := tasks[i].(completed := !tasks[i].completed)]
  }

  /** The store after flipping `important` on the task at position `i`. */
  function WithImportantToggled(tasks: seq<Task>, i: nat): (r: seq<Task>)
    requires i < |tasks|
    ensures |r| == |tasks| && r[i].important == !tasks[i].important
    ensures r[i].(important := tasks[i].important) == tasks[i]
    ensures forall j :: 0 <= j < |tasks| && j != i ==> r[j] == tasks[j]
  {
    tasks[i := tasks[i].(important := !tasks[i].important)]
  }

  /** Toggling `completed` moves the completed figure by one and nothing else. */
  lemma ToggleCompletedStats(tasks: seq<Task>, i: nat)
    requires i < |tasks|
    ensures var before, after := TaskStats(tasks), TaskStats(WithCompletedToggled(tasks, i));
      && after == before.(completed := after.completed)
      && after.completed == before.completed + (if tasks[i].completed then -1 else 1)
  {
    var x := tasks[i].(completed := !tasks[i].completed);
    FilterCountUpdate(tasks, i, x, IsCompleted);
    FilterCountUpdate(tasks, i, x, IsImportant);
    FilterCountUpdate(tasks, i, x, IsPlanned);
  }

  /** Toggling `important` moves the important figures by one and nothing else. */
  lemma ToggleImportantStats(tasks: seq<Task>, i: nat)
    requires i < |tasks|
    ensures var before, after := TaskStats(tasks), TaskStats(WithImportantToggled(tasks, i));
      && after == before.(important := after.important)
      && after.important == before.important + (if tasks[i].important then -1 else 1)
    ensures NavigationCounts(WithImportantToggled(tasks, i)).important == TaskStats(WithImportantToggled(tasks, i)).important
  {
    var x := tasks[i].(important := !tasks[i].important);
    FilterCountUpdate(tasks, i, x, IsCompleted);
    FilterCountUpdate(tasks, i, x, IsImportant);
    FilterCountUpdate(tasks, i, x, IsPlanned);
  }

  /**
   * After a custom list is deleted its name owns no task, and a view still set to the
   * deleted name falls back to the "myday" selection.
   */
  lemma DeletedListLeavesNothing(tasks: seq<Task>, customLists: seq<string>, name: string)
    requires !IsSmartFilterView(name)
    ensures var tasks', lists' := Filter(tasks, NotInList(name)), Filter(customLists, IsOtherName(name));
      && name !in lists'
      && ListCount(tasks', name) == 0
      && ViewFilter(tasks', lists', name) == Filter(tasks', InList(MyDay))
  {
  }

  /** The application state: the three globals of script.js. */
  class TodoApp {
    var tasks: seq<Task>
    var customLists: seq<string>
    var currentView: string
    /** The custom-list badges on screen, as renderCustomLists last drew them. */
    var listBadges: seq<nat>

    /** Start-up: whatever was saved, viewed from "myday", with the list badges drawn. */
    constructor (savedTasks: seq<Task>, savedLists: seq<string>)
      ensures tasks == savedTasks && customLists == savedLists && currentView == MyDay
      ensures listBadges == ListBadges(savedTasks, savedLists)
    {
      tasks := savedTasks;
      customLists := savedLists;
      currentView := MyDay;
      listBadges := ListBadges(savedTasks, savedLists);
    }

    /**
     * What a handler re-renders after a mutation: renderTasks() with no search term,
     * which is the active view's selection unnarrowed by the search box.
     */
    function Rendered(): (r: seq<Task>)
      reads this
      ensures r == ViewFilter(tasks, customLists, currentView)
    {
      VisibleTasks(tasks, customLists, currentView, "")
    }

    /**
     * handleAddTask: whitespace-only input is ignored; otherwise one task with the
     * trimmed text, both flags clear, no due date and owned by the current view
     * (whatever it is) is appended.
     */
    method AddTask(input: string, id: int) returns (added: bool)
      modifies this
      ensures added <==> !AllWhitespace(input)
      ensures tasks == if added then old(tasks) + [Task(id, Trim(input), false, false, None, old(currentView))]
                       else old(tasks)
      ensures customLists == old(customLists) && currentView == old(currentView)
      ensures listBadges == old(listBadges)
    {
      var text := Trim(input);
      if text == "" {
        added := false;
        return;
      }
      var newTask := Task(id, text, false, false, None, if currentView == "tasks" then "tasks" else currentView);
      tasks := tasks + [newTask];
      added := true;
    }

    /** The checkbox of the task at position `i`. */
    method ToggleCompleted(i: nat)
      requires i < |tasks|
      modifies this
      ensures tasks == WithCompletedToggled(old(tasks), i)
      ensures customLists == old(customLists) && currentView == old(currentView)
      ensures listBadges == old(listBadges)
    {
      var t := tasks[i];
      tasks := tasks[i := t.(completed := !t.completed)];
    }

    /** The star of the task at position `i`. */
    method ToggleImportant(i: nat)
      requires i < |tasks|
      modifies this
      ensures tasks == WithImportantToggled(old(tasks), i)
      ensures customLists == old(customLists) && currentView == old(currentView)
      ensures listBadges == old(listBadges)
    {
      var t := tasks[i];
      tasks := tasks[i := t.(important := !t.important)];
    }

    /** The delete button: every task carrying `id` goes, the others keep their order. */
    method DeleteTask(id: int)
      modifies this
      ensures tasks == Filter(old(tasks), HasOtherId(id))
      ensures forall t :: t in tasks <==> t in old(tasks) && t.id != id
      ensures customLists == old(customLists) && currentView == old(currentView)
      ensures listBadges == old(listBadges)
    {
      tasks := Filter(tasks, HasOtherId(id));
    }

    /** A navigation click: a link without a view name is ignored. */
    method Navigate(view: string)
      modifies this
      ensures currentView == if view == "" then old(currentView) else view
      ensures tasks == old(tasks) && customLists == old(customLists)
      ensures listBadges == old(listBadges)
    {
      if view == "" {
        return;
      }
      currentView := view;
    }

    /** A click on a custom list in the navigation. */
    method OpenCustomList(name: string)
      requires name in customLists
      modifies this
      ensures currentView == name
      ensures tasks == old(tasks) && customLists == old(customLists)
      ensures listBadges == old(listBadges)
    {
      currentView := name;
    }

    /** The search box: draws a selection of the store and changes nothing. */
    method Search(term: string) returns (shown: seq<Task>)
      ensures shown == VisibleTasks(tasks, customLists, currentView, term)
      ensures forall t :: t in shown ==> t in tasks && (term == "" || MatchesSearch(t, term))
    {
      shown := VisibleTasks(tasks, customLists, currentView, term);
    }

    /**
     * addCustomList: a name already present is ignored; a new one goes at the end and
     * the list badges are redrawn.
     */
    method AddCustomList(name: string)
      modifies this
      ensures customLists == if name in old(customLists) then old(customLists) else old(customLists) + [name]
      ensures listBadges == if name in old(customLists) then old(listBadges) else ListBadges(tasks, customLists)
      ensures NoDuplicates(old(customLists)) ==> NoDuplicates(customLists)
      ensures tasks == old(tasks) && currentView == old(currentView)
    {
      if name !in customLists {
        customLists := customLists + [name];
        listBadges := ListBadges(tasks, customLists);
      }
    }

    /**
     * The "add list" button: a cancelled prompt (`None`) or a blank answer is
     * ignored; otherwise the trimmed answer is added.
     */
    method PromptAddList(answer: Option<string>)
      modifies this
      ensures answer.None? || AllWhitespace(answer.value) ==> customLists == old(customLists)
      ensures answer.Some? && !AllWhitespace(answer.value) ==>
        customLists == if Trim(answer.value) in old(customLists) then old(customLists)
                       else old(customLists) + [Trim(answer.value)]
      ensures listBadges == if customLists == old(customLists) then old(listBadges) else ListBadges(tasks, customLists)
      ensures tasks == old(tasks) && currentView == old(currentView)
    {
      if answer.Some? && Trim(answer.value) != "" {
        AddCustomList(Trim(answer.value));
      }
    }

    /**
     * The remove button of a custom list, once confirmed: its tasks and its name go,
     * everything else stays in order and the list badges are redrawn. The current view
     * is not reset.
     */
    method DeleteCustomList(name: string, confirmed: bool)
      modifies this
      ensures !confirmed ==> tasks == old(tasks) && customLists == old(customLists) && listBadges == old(listBadges)
      ensures confirmed ==> listBadges == ListBadges(tasks, customLists)
      ensures confirmed ==> tasks == Filter(old(tasks), NotInList(name))
      ensures confirmed ==> customLists == Filter(old(customLists), IsOtherName(name))
      ensures confirmed ==> name !in customLists && ListCount(tasks, name) == 0
      ensures NoDuplicates(old(customLists)) ==> NoDuplicates(customLists)
      ensures currentView == old(currentView)
    {
      if confirmed {
        if NoDuplicates(customLists) {
          FilterKeepsNoDuplicates(customLists, IsOtherName(name));
        }
        tasks := Filter(tasks, NotInList(name));
        customLists := Filter(customLists, IsOtherName(name));
        listBadges := ListBadges(tasks, customLists);
      }
    }
  }

  // A session from an empty store, in three steps, one method each: add an already
  // trimmed text such as "Buy milk" in My Day; star it and open Important; add and
  // delete an empty list "Work". Each step starts from the state the previous one
  // leaves.

  /** Step one: the first task typed into My Day is the whole store. */
  method AddToEmptyStore(text: string) returns (app: TodoApp)
    requires !AllWhitespace(text) && Trim(text) == text
    ensures app.tasks == [Task(1, text, false, false, None, MyDay)] && app.currentView == MyDay
  {
    app := new TodoApp([], []);
    var added := app.AddTask(text, 1);
    var milk := Task(1, text, false, false, None, MyDay);
    assert app.tasks == [] + [milk];
    AddedTaskStats([], milk);
    assert TaskStats(app.tasks) == Stats(1, 0, 0, 0);
  }

  /** Step two: starring the task and opening Important draws exactly that task. */
  method StarAndOpenImportant(app: TodoApp, milk: Task)
    requires app.tasks == [milk] && !milk.important
    modifies app
  {
    app.ToggleImportant(0);
    var starred := milk.(important := true);
    assert app.tasks == [starred];
    ToggleImportantStats([milk], 0);
    assert TaskStats(app.tasks).important == 1;
    app.Navigate("important");
    assert [starred][1..] == [];
    assert app.Rendered() == [starred];
  }

  /** Step three: adding and deleting a list that owns nothing leaves the store as it was. */
  method AddAndDeleteEmptyList(app: TodoApp, starred: Task)
    requires app.tasks == [starred] && app.customLists == [] && starred.list == MyDay
    modifies app
  {
    app.AddCustomList("Work");
    assert app.customLists == ["Work"];
    app.DeleteCustomList("Work", true);
    FilterKeepsAll([starred], NotInList("Work"));
    assert app.customLists == [] && app.tasks == [starred];
  }

  /**
   * Adding a task inside an open custom list redraws the tasks and the navigation
   * badges but not the list badges: the badge on screen stays one behind the count
   * renderCustomLists would now draw.
   */
  method AddInCustomListLeavesBadgeBehind(app: TodoApp, name: string, text: string, id: int)
    requires app.customLists == [name] && app.listBadges == ListBadges(app.tasks, app.customLists)
    requires !AllWhitespace(text)
    modifies app
    ensures app.customLists == [name] && |app.listBadges| == 1
    ensures app.listBadges[0] + 1 == ListBadges(app.tasks, app.customLists)[0]
  {
    var before := app.tasks;
    app.OpenCustomList(name);
    var added := app.AddTask(text, id);
    AddedTaskListCount(before, Task(id, Trim(text), false, false, None, name), name);
  }

  /**
   * addCustomList redraws the list navigation but not the task list. With the view still
   * set to a list deleted earlier, the view falls back to the "myday" selection; adding
   * the name again changes what renderTasks() would draw, while the screen keeps the old
   * selection until another handler redraws it.
   */
  method AddListChangesUndrawnView(app: TodoApp, t: Task)
    requires app.currentView == t.list && !IsSmartFilterView(t.list) && t.list != MyDay
    requires app.customLists == [] && app.tasks == [t]
    modifies app
    ensures old(app.Rendered()) == [] && app.Rendered() == [t]
  {
    app.AddCustomList(t.list);
    FilterKeepsAll([t], InList(t.list));
  }
}
