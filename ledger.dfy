/**
 * The finance tracker (Yk/pro3/script.js): a list of signed transactions, the form
 * that appends to it, deletion by id, the four filter modes of the category selector,
 * the income/expense/total summary and the newest-first rendering.
 */
module Ledger {
  import opened Wrappers
  import opened Seqs
  import opened JsText

  /** One entry; `amount` is the parsed number, positive for income, negative for expense. */
  datatype Transaction = Transaction(id: int, desc: string, amount: real, category: string)

  predicate IsIncome(tx: Transaction) { tx.amount > 0.0 }
  predicate IsExpense(tx: Transaction) { tx.amount < 0.0 }

  /** `tx => tx.category === value` */
  function InCategory(value: string): Transaction -> bool { (tx: Transaction) => tx.category == value }
  /** `tx => tx.id !== id` */
  function HasOtherId(id: int): Transaction -> bool { (tx: Transaction) => tx.id != id }

  /** What the form admits: no entry of zero amount. */
  predicate NonZeroAmounts(txs: seq<Transaction>)
  {
    forall i :: 0 <= i < |txs| ==> txs[i].amount != 0.0
  }

  /**
   * `reduce((s, t) => s + t.amount, 0)`: a sum of amounts that are all non-negative
   * is non-negative, and one of amounts that are all non-positive is non-positive.
   */
  function SumAmounts(txs: seq<Transaction>): (r: real)
    ensures (forall i :: 0 <= i < |txs| ==> txs[i].amount >= 0.0) ==> r >= 0.0
    ensures (forall i :: 0 <= i < |txs| ==> txs[i].amount <= 0.0) ==> r <= 0.0
  {
    if txs == [] then 0.0 else SumAmounts(txs[..|txs| - 1]) + txs[|txs| - 1].amount
  }

  lemma {:induction false} SumAmountsAppend(a: seq<Transaction>, b: seq<Transaction>)
    ensures SumAmounts(a + b) == SumAmounts(a) + SumAmounts(b)
    decreases |b|
  {
    if b == [] {
      assert a + b == a;
    } else {
      assert (a + b)[..|a + b| - 1] == a + b[..|b| - 1];
      SumAmountsAppend(a, b[..|b| - 1]);
    }
  }

  /**
   * The whole sum is the sum over the income entries plus the sum over the expense
   * entries (zero amounts add nothing to either side); the first part is never negative
   * and the second never positive.
   */
  lemma {:induction false} SumSplitsBySign(txs: seq<Transaction>)
    ensures SumAmounts(txs) == SumAmounts(Filter(txs, IsIncome)) + SumAmounts(Filter(txs, IsExpense))
    ensures SumAmounts(Filter(txs, IsIncome)) >= 0.0
    ensures SumAmounts(Filter(txs, IsExpense)) <= 0.0
    decreases |txs|
  {
    if txs != [] {
      var init, last := txs[..|txs| - 1], txs[|txs| - 1];
      assert txs == init + [last];
      SumSplitsBySign(init);
      FilterAppendOne(init, last, IsIncome);
      FilterAppendOne(init, last, IsExpense);
      SumAmountsAppend(Filter(init, IsIncome), if IsIncome(last) then [last] else []);
      SumAmountsAppend(Filter(init, IsExpense), if IsExpense(last) then [last] else []);
      assert SumAmounts([last]) == last.amount by {
        assert [last][..0] == [];
      }
    }
  }

  /** The three figures of updateSummary, before formatting. */
  datatype Summary = Summary(income: real, expense: real, total: real)

  /**
   * updateSummary: income sums the positive amounts, expense the negative ones, and
   * the total is their sum, which is the sum of every amount.
   */
  function Summarize(txs: seq<Transaction>): (s: Summary)
    ensures s.income >= 0.0 && s.expense <= 0.0
    ensures s.total == s.income + s.expense == SumAmounts(txs)
    ensures s.income == SumAmounts(Filter(txs, IsIncome))
  {
    SumSplitsBySign(txs);
    var income := SumAmounts(Filter(txs, IsIncome));
    var expense := SumAmounts(Filter(txs, IsExpense));
    Summary(income, expense, income + expense)
  }

  /**
   * The category selector's onchange: "All" keeps everything, "Income" the positive
   * amounts, "Expense" the negative ones, and any other value the entries of that
   * category; each is an order-preserving selection.
   */
  function FilterMode(txs: seq<Transaction>, value: string): (r: seq<Transaction>)
    ensures IsSubsequence(r, txs)
    ensures value == "All" ==> r == txs
    ensures value == "Income" ==> forall tx :: tx in r <==> tx in txs && tx.amount > 0.0
    ensures value == "Expense" ==> forall tx :: tx in r <==> tx in txs && tx.amount < 0.0
    ensures value != "All" && value != "Income" && value != "Expense" ==>
      forall tx :: tx in r <==> tx in txs && tx.category == value
  {
    if value == "All" then SubsequenceOfItself(txs); txs
    else if value == "Income" then Filter(txs, IsIncome)
    else if value == "Expense" then Filter(txs, IsExpense)
    else Filter(txs, InCategory(value))
  }

  /**
   * "Income" and "Expense" never share an entry and never hold more than the ledger;
   * for entries the form admitted they hold exactly the ledger between them.
   */
  lemma IncomeExpensePartition(txs: seq<Transaction>)
    ensures forall tx :: tx in FilterMode(txs, "Income") ==> tx !in FilterMode(txs, "Expense")
    ensures |FilterMode(txs, "Income")| + |FilterMode(txs, "Expense")| <= |txs|
    ensures NonZeroAmounts(txs) ==> |FilterMode(txs, "Income")| + |FilterMode(txs, "Expense")| == |txs|
  {
    FilterPartition(txs, IsIncome, IsExpense);
  }

  /** What renderTransactions draws. */
  datatype Rendering = Placeholder | Entries(shown: seq<Transaction>)

  /**
   * renderTransactions: the placeholder exactly when there is nothing to show,
   * otherwise every entry, newest (last pushed) first.
   */
  function Render(txs: seq<Transaction>): (r: Rendering)
    ensures r.Placeholder? <==> txs == []
    ensures r.Entries? ==> |r.shown| == |txs| && forall k :: 0 <= k < |txs| ==> r.shown[k] == txs[|txs| - 1 - k]
  {
    if |txs| == 0 then Placeholder else Entries(Reverse(txs))
  }

  /**
   * formatCurrency: "-$" in front of the magnitude for a negative amount, "$" otherwise.
   * `fixedMagnitude` stands for `Math.abs(amount).toFixed(2)`.
   */
  function FormatCurrency(amount: real, fixedMagnitude: string): (r: string)
    ensures |r| == |fixedMagnitude| + (if amount < 0.0 then 2 else 1)
    ensures (r[0] == '-') <==> amount < 0.0
    ensures r[|r| - |fixedMagnitude| - 1] == '$' && r[|r| - |fixedMagnitude|..] == fixedMagnitude
  {
    (if amount < 0.0 then "-$" else "$") + fixedMagnitude
  }

  /**
   * The summary figures as displayed: income and the expense magnitude never carry a
   * minus sign; the total does exactly when expenses outweigh income.
   */
  lemma SummarySigns(txs: seq<Transaction>, income: string, expense: string, total: string)
    ensures var s := Summarize(txs);
      && FormatCurrency(s.income, income)[0] == '$'
      && FormatCurrency(-s.expense, expense)[0] == '$'
      && (FormatCurrency(s.total, total)[0] == '-' <==> s.income < -s.expense)
  {
  }

  /** The tracker's state: the global `transactions`. */
  class LedgerApp {
    var transactions: seq<Transaction>

    /** Start-up: whatever was saved. */
    constructor (saved: seq<Transaction>)
      ensures transactions == saved
    {
      transactions := saved;
    }

    /**
     * The form's submit: `amount` is `parseFloat` of the amount field (`None` for NaN).
     * A blank description, an unparsable or a zero amount is refused and changes nothing;
     * otherwise one entry is appended. The form admits no zero amount.
     */
    method Submit(descInput: string, amount: Option<real>, category: string, id: int) returns (accepted: bool)
      modifies this
      ensures accepted <==> !AllWhitespace(descInput) && amount.Some? && amount.value != 0.0
      ensures transactions == if accepted then old(transactions) + [Transaction(id, Trim(descInput), amount.value, category)]
                              else old(transactions)
      ensures NonZeroAmounts(old(transactions)) ==> NonZeroAmounts(transactions)
    {
      var desc := Trim(descInput);
      if desc == "" || amount.None? || amount.value == 0.0 {
        accepted := false;
        return;
      }
      transactions := transactions + [Transaction(id, desc, amount.value, category)];
      accepted := true;
    }

    /** deleteTransaction: every entry with `id` goes, the rest keep their order. */
    method Delete(id: int)
      modifies this
      ensures transactions == Filter(old(transactions), HasOtherId(id))
      ensures forall tx :: tx in transactions <==> tx in old(transactions) && tx.id != id
      ensures NonZeroAmounts(old(transactions)) ==> NonZeroAmounts(transactions)
    {
      transactions := Filter(transactions, HasOtherId(id));
    }

    /** saveAndRefresh: the summary and the list redrawn in the selector's current mode. */
    method Refresh(value: string) returns (summary: Summary, shown: Rendering)
      ensures summary == Summarize(transactions)
      ensures shown == Render(FilterMode(transactions, value))
    {
      summary := Summarize(transactions);
      shown := Render(FilterMode(transactions, value));
    }
  }
}
