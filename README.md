# Three browser scripts: to-do manager, finance tracker, calculator keypad

This project models the state-and-filter logic of three independent front-end scripts
and proves properties of it in Dafny.

- **To-do manager** (`script.js`). The state is three globals: the ordered task store
  `tasks`, the custom list names `customLists` and the active view `currentView`. The
  handlers add a task, toggle a task's `completed` or `important` flag, delete tasks by
  id, switch views, and add or delete custom lists. Deleting a list also deletes its
  tasks. `renderTasks` selects the tasks of the active view and narrows them by a
  case-insensitive search. `updateCounts`, `updateTaskStats` and the custom-list badges
  drawn by `renderCustomLists` count selections of the store.
- **Finance tracker** (`Yk/pro3/script.js`). The state is the global `transactions`.
  The form appends a validated entry and `deleteTransaction` removes entries by id.
  The category selector has four filter modes. `updateSummary` sums income, expense and
  the total. `renderTransactions` draws the entries newest first, or a placeholder when
  there are none. `formatCurrency` puts the sign in front of the amount.
- **Calculator keypad** (`Yk/pro2/script.js`). The state is the typed expression
  `currentInput`, the flag `resetNext` and the display field. The model covers the
  editing rules of `appendNumber`, `appendOperator`, `clearEntry`/`backspace` and
  `clearDisplay`, `updateDisplay`'s empty-to-`0` rule, and the state change of
  `calculate` once the expression has been evaluated.

Files:

- `seqs.dfy`: JavaScript's `filter` as `Seqs.Filter`, with order preservation
  (`IsSubsequence`), and reversal.
- `jstext.dfy`: `trim` (with ECMAScript's exact whitespace set), `toLowerCase`,
  `includes` and `endsWith`.
- `todo.dfy`, `ledger.dfy`, `calculator.dfy`: one module per script.
- `wrappers.dfy`: `Option`.

Each script's globals become a class (`TodoApp`, `LedgerApp`, `CalculatorApp`). Its
handlers become methods that reassign the fields. The filters, counts and sums that the
handlers and renderers compute become functions, and the lemmas about them state what
each renderer draws when it runs. The custom-list badges on screen are a field of
`TodoApp`, because only some handlers redraw them. Ids (`Date.now()`), the parsed amount, prompt answers,
confirmations and evaluation results are parameters.

The model follows the code, including these behaviours:

- The to-do list is drawn in store order, not reversed (`script.js:169`).
- A new task is owned by `currentView`, whatever the view is. This includes `"tasks"`,
  `"important"`, `"planned"` and `"assigned"`; the conditional at `script.js:92` yields
  `currentView` in both branches. `Todo.AddedTaskInOwnView` proves the consequence: a
  task typed into Important, Planned or Assigned is not shown in that view.
- Toggles act on the task object that was drawn, not on a lookup by id. Deleting by id
  removes every task carrying that id (`script.js:204`).
- Re-renders after a mutation pass no search term (`script.js:97`, `177`), so the list
  drawn after a handler that calls `renderTasks` (every handler except `addCustomList`)
  is `TodoApp.Rendered()`, which ignores the search box.
- `addCustomList` redraws the list navigation but not the task list
  (`script.js:298-303`). A searched list stays on screen, and so does a stale view: with
  the view still set to a list deleted earlier, adding that name again changes
  `TodoApp.Rendered()` while the screen keeps the old `myday` selection
  (`Todo.AddListChangesUndrawnView`).
- The custom-list badges are redrawn only at start-up, by `addCustomList` when it adds
  a name, and after a list is deleted (`script.js:32`, `286`, `302`). Adding, toggling
  or deleting a task redraws the navigation badges but leaves the list badges as they
  were, so after a task is added inside an open custom list its badge shows one less
  than the list holds (`Todo.AddInCustomListLeavesBadgeBehind`).
- Deleting the active custom list does not reset `currentView`. The view then falls back
  to the `"myday"` selection because the name is no longer in `customLists`
  (`Todo.DeletedListLeavesNothing`).
- A list name that clashes with a built-in view is not rejected. The built-in filter
  wins for `important`, `planned`, `assigned` and `tasks`.
- `addCustomList` itself neither trims nor rejects the empty name. Its caller, the
  add-list button, trims and rejects blank answers.

## Model

| member | source | states |
|---|---|---|
| `Seqs.Filter` | script.js:143 | `filter` keeps exactly the elements that pass, as an order-preserving subsequence; it is empty exactly when none pass and keeps its whole input exactly when all pass |
| `Seqs.FilterAppendOne` | script.js:94 | after a `push`, a filter gains the new element exactly when it passes, behind the old survivors |
| `Seqs.FilterCountUpdate` | script.js:177 | replacing one element changes a filter's count by what the old and new values contribute |
| `Seqs.FilterPartition` | Yk/pro3/script.js:93-95 | two filters that share no element hold at most the input between them, and exactly the input when every element passes one |
| `Seqs.FilterKeepsNoDuplicates` | script.js:283 | filtering a duplicate-free name list keeps it duplicate-free |
| `Seqs.Reverse` | Yk/pro3/script.js:30 | `slice().reverse()` has the same length and puts element `k` at position `n-1-k` |
| `JsText.Trim` | script.js:83 | `trim()` cuts a whitespace prefix and a whitespace suffix off its input and leaves a middle that neither starts nor ends with whitespace; it is empty exactly when the input is all whitespace |
| `JsText.TrimIdempotent` | script.js:75-76 | trimming an already trimmed name changes nothing, so `addCustomList` receives a trimmed name |
| `JsText.ToLower` | script.js:159 | lower-casing keeps the length, turns each ASCII letter `A`-`Z` into its lower-case partner, and keeps every other character |
| `JsText.EndsWith` | Yk/pro2/script.js:11 | `endsWith` holds exactly when the suffix fits and matches the input's last characters one by one |
| `JsText.IncludesIff` | script.js:159 | `includes` holds exactly when the needle occurs at some offset of the text |
| `Todo.ViewFilter` | script.js:141-156 | the view filter is an order-preserving selection. `important` keeps the starred tasks, `planned` the tasks with a due date, `assigned` nothing, `tasks` everything, a custom list its own tasks, and any other view the tasks owned by `myday` |
| `Todo.SearchFilter` | script.js:158-160 | an empty term keeps everything; any other term keeps, in order, exactly the tasks whose lower-cased text contains the lower-cased term |
| `Todo.VisibleTasks` | script.js:140-169 | the drawn list is an order-preserving selection of the store, in store order; a task is drawn exactly when it passes the view filter and the search |
| `Todo.NavigationCounts` | script.js:220-226 | the `tasks` badge is the store's length, `assigned` is 0, the other badges are bounded by the total, and the important badge is 0 exactly when nothing is starred |
| `Todo.TaskStats` | script.js:228-232 | total is the store's length; completed, important and planned lie between 0 and the total; completed equals the total exactly when every task is done, and is 0 exactly when none is |
| `Todo.ListCount` | script.js:270 | the count `renderCustomLists` computes for a list is at most the total, and is 0 exactly when no task is owned by that list |
| `Todo.ListBadges` | script.js:253-270 | `renderCustomLists` draws one badge per custom list, in list order, each the count of the tasks that list owns |
| `Todo.NavCountsMatchViews` | script.js:221-225 | each navigation badge equals the length of the view it names, before any search, whatever the custom lists are |
| `Todo.ListCountMatchesView` | script.js:270 | the count `renderCustomLists` computes for a custom list not named like a built-in view equals the length of that list's view, before any search |
| `Todo.AddedTaskListCount` | script.js:94 | a `push` raises the count of exactly the list that owns the new task, by one |
| `Todo.AddedTaskInOwnView` | script.js:85-94 | the new task is appended to the view it was created in exactly when that view is `tasks`, a custom list or `myday`; in `important`, `planned` and `assigned` it stays hidden |
| `Todo.AddedTaskStats` | script.js:85-99 | adding a task raises the total by one and leaves completed, important and planned unchanged |
| `Todo.WithCompletedToggled` | script.js:177 | the checkbox flips `completed` on that one task; length, order and every other field of every task are unchanged |
| `Todo.WithImportantToggled` | script.js:195 | the star flips `important` on that one task; length, order and every other field of every task are unchanged |
| `Todo.ToggleCompletedStats` | script.js:177 | the checkbox moves the completed figure by one in the right direction and leaves the other figures alone |
| `Todo.ToggleImportantStats` | script.js:195 | the star moves the important figure by one in the right direction, leaves the other figures alone, and the important badge agrees with the statistics |
| `Todo.DeletedListLeavesNothing` | script.js:282-283 | after a list is deleted its name is gone, no task is owned by it, and a view still set to it shows the `myday` tasks |
| `Todo.TodoApp.constructor` | script.js:2-32 | start-up takes the saved tasks and lists as they are, opens `myday` and draws the list badges |
| `Todo.TodoApp.Rendered` | script.js:97 | the list a handler redraws after a mutation is the active view's selection, not narrowed by the search box |
| `Todo.TodoApp.AddTask` | script.js:81-94 | whitespace-only input changes nothing; otherwise exactly one task is appended with the trimmed text, both flags clear, no due date and `list` equal to the current view, and earlier tasks and the list badges are untouched |
| `Todo.TodoApp.ToggleCompleted` | script.js:177 | the store becomes the store with that task's `completed` flipped; lists, view and list badges unchanged |
| `Todo.TodoApp.ToggleImportant` | script.js:195 | the store becomes the store with that task's `important` flipped; lists, view and list badges unchanged |
| `Todo.TodoApp.DeleteTask` | script.js:203-204 | every task with the id is removed, the rest keep their order; the list badges are not redrawn |
| `Todo.TodoApp.Navigate` | script.js:102-110 | a link without a view name changes nothing; otherwise it becomes the current view; the list badges are not redrawn |
| `Todo.TodoApp.OpenCustomList` | script.js:259-260 | clicking a custom list makes it the current view; the list badges are not redrawn |
| `Todo.TodoApp.Search` | script.js:136-138 | typing a search term draws the filtered and searched selection and changes no state |
| `Todo.TodoApp.AddCustomList` | script.js:298-303 | a name already present is ignored; a new one is appended at the end and the list badges are redrawn; names stay unique |
| `Todo.TodoApp.PromptAddList` | script.js:73-77 | a cancelled or blank answer is ignored; otherwise the trimmed answer is added like `addCustomList` |
| `Todo.TodoApp.DeleteCustomList` | script.js:279-286 | once confirmed, the list's tasks and its name are removed, survivors keep their order, names stay unique and the list badges are redrawn; the current view is kept |
| `Todo.AddListChangesUndrawnView` | script.js:298-303 | with the view set to a list deleted earlier, adding that name again changes the selection `renderTasks()` would draw from empty to the list's task, though `addCustomList` does not redraw it |
| `Todo.AddInCustomListLeavesBadgeBehind` | script.js:81-99 | after a task is added inside an open custom list, the badge on screen is one less than the count `renderCustomLists` would now draw |
| `Ledger.SumAmounts` | Yk/pro3/script.js:52-53 | the `reduce` sum is non-negative over non-negative amounts and non-positive over non-positive ones |
| `Ledger.SumSplitsBySign` | Yk/pro3/script.js:52-53 | the sum of all amounts is the income sum plus the expense sum; income is never negative and expense never positive |
| `Ledger.Summarize` | Yk/pro3/script.js:51-55 | income is at least 0, expense at most 0, and total = income + expense = the sum of all amounts |
| `Ledger.FilterMode` | Yk/pro3/script.js:88-98 | `All` keeps everything, `Income` the positive amounts, `Expense` the negative ones, any other value the entries of that category; each result is an order-preserving selection |
| `Ledger.IncomeExpensePartition` | Yk/pro3/script.js:93-95 | `Income` and `Expense` share no entry, and together they cover every entry when no amount is zero, which the form guarantees |
| `Ledger.Render` | Yk/pro3/script.js:21-30 | the placeholder is shown exactly when the list is empty; otherwise every entry is drawn, newest first |
| `Ledger.FormatCurrency` | Yk/pro3/script.js:2-4 | the text starts with `-` exactly when the amount is negative, and otherwise `$` comes right before the magnitude |
| `Ledger.SummarySigns` | Yk/pro3/script.js:55-57 | the income and expense figures never show a minus sign; the total does exactly when expenses outweigh income |
| `Ledger.LedgerApp.constructor` | Yk/pro3/script.js:7 | start-up takes the saved transactions as they are |
| `Ledger.LedgerApp.Submit` | Yk/pro3/script.js:61-76 | a blank description, an unparsable amount or a zero amount changes nothing; otherwise exactly one entry with the trimmed description is appended, and the no-zero-amount invariant is kept |
| `Ledger.LedgerApp.Delete` | Yk/pro3/script.js:82-83 | every entry with the id is removed, the rest keep their order, and the no-zero-amount invariant is kept |
| `Ledger.LedgerApp.Refresh` | Yk/pro3/script.js:102-106 | after a change, the summary is recomputed and the list is redrawn in the selector's current mode |
| `Calculator.EndsWithOperator` | Yk/pro2/script.js:19 | the regular expression matches exactly when the input's last character is one of `+-*/.^%` |
| `Calculator.Shown` | Yk/pro2/script.js:26-28 | the display shows `0` for an empty input and the input itself otherwise, never an empty text |
| `Calculator.ShownConfusesOnlyEmptyAndZero` | Yk/pro2/script.js:27 | two different inputs look the same on the display only when they are the empty input and `0` |
| `Calculator.AppendKeepsNoAdjacentDots` | Yk/pro2/script.js:10-12 | appending one character that is not a second `.` keeps the input free of adjacent dots |
| `Calculator.CalculatorApp.constructor` | Yk/pro2/script.js:2-3 | start-up: nothing typed, flag clear, display `0` |
| `Calculator.CalculatorApp.AppendNumber` | Yk/pro2/script.js:5-14 | after a result the input is emptied and the flag cleared first; a `.` after a `.` is rejected; any other argument is appended exactly; single-character keys never create adjacent dots |
| `Calculator.CalculatorApp.AppendOperator` | Yk/pro2/script.js:16-24 | on empty input only `-` is accepted; a trailing operator character is replaced; the result ends with the operator, grows by at most the operator's length, and the flag is unchanged |
| `Calculator.CalculatorApp.ClearDisplay` | Yk/pro2/script.js:30-33 | the input is emptied and the display shows `0` |
| `Calculator.CalculatorApp.ClearEntry` | Yk/pro2/script.js:35-40 | exactly the last character is removed; empty input is left alone |
| `Calculator.CalculatorApp.Backspace` | Yk/pro2/script.js:42-44 | the same as `clearEntry` |
| `Calculator.CalculatorApp.Calculate` | Yk/pro2/script.js:46-61 | empty input or an `undefined` result changes nothing; a value replaces the input and sets the flag; an error empties the input, shows `Error` and sets the flag |

## Left out

- Persistence: `localStorage` reads and writes and the JSON encoding (`saveTasks`,
  `saveCustomLists`, `saveAndRefresh`'s write). This is browser I/O. The constructors
  take the saved state as an arbitrary initial value.
- DOM work. This covers element creation, `innerHTML`, CSS classes, the empty-state
  toggle, the custom-list navigation markup, event wiring, the user and sync buttons and
  the quick-add templates. It is presentation only; rendered output is modelled as the
  drawn sequence.
- `updateCurrentDate`, its `setInterval`, `updatePageTitle`, `Date.now()` and
  `createdAt`. These are clock and display text. Ids are parameters and `createdAt` is
  not a field of `Todo.Task`.
- `prompt`, `confirm` and `alert`. These are dialogs. The prompt's answer and the
  confirmation are parameters of `PromptAddList` and `DeleteCustomList`.
- Task objects are values in the store, and toggles address a task by its position.
  The model does not capture the identity of the object the render closure holds. That
  identity only matters when a stale closure outlives a re-render, which cannot happen
  because every mutation of `tasks` re-renders the task list.
- `JsText.ToLower`: only ASCII `A`-`Z` are lowered, each to its `a`-`z` partner.
  JavaScript's `toLowerCase` also lowers other Unicode letters, so the search is
  modelled as case-insensitive for ASCII letters only.
- `parseFloat`, `isNaN`, `Math.abs(...).toFixed(2)` and floating-point addition. Amounts
  are exact reals; a failed parse is `None`. The digits of `formatCurrency` are a
  parameter; only its sign prefix is modelled.
- `renderTransactions`' category capitalisation and sign class. These are presentation
  only.
- `percentage`, `squareRoot` and the evaluation inside `calculate`. They need `eval`,
  `Math.sqrt` and number-to-string conversion, which are foreign calls and floating
  point. `Calculator.CalculatorApp.Calculate` takes the evaluation result as a
  parameter and models only the state change. `percentage` and `squareRoot` make the same
  state change and are not modelled separately.
