/**
 * The "Plot Period" action as a whole: from the record fetched for a period
 * to the figures shown and the flow graph drawn, or to the exception the
 * script would raise on the way.
 *
 * The script evaluates, in order: `total_expense` and `remaining_budget`
 * (which cannot fail), `amount_owed` (KeyError for a non-payer without a
 * dict), the node and index lists (which cannot fail), and `value`, whose
 * even split divides by `len(persons)` before its comprehension looks up
 * each participant's category amounts.
 */
module Report {
  import opened Wrappers
  import opened Sums
  import opened Settlement
  import opened Flow

  /** The exceptions the aggregation can raise. */
  datatype Fault = ZeroDivision | MissingKey(key: string)

  /** What the page shows for a period: the three metrics, the owed table and the flow graph. */
  datatype Summary = Summary(
    totalIncome: int,
    totalExpense: int,
    remainingBudget: int,
    amountOwed: map<string, int>,
    flow: FlowGraph)

  /** The outcome of "Plot Period": no record, an exception, or a drawn summary. */
  datatype PlotOutcome = NoData | Crashed(fault: Fault) | Plotted(summary: Summary)

  /** The first key in `keys`, in order, that `amounts` lacks. */
  function MissingAmountKey(amounts: map<string, int>, keys: seq<string>): (missing: Option<string>)
    ensures missing.None? <==> forall k | k in keys :: k in amounts
    ensures missing.Some? ==> missing.value in keys && missing.value !in amounts
    ensures missing.Some? ==>
      exists i | 0 <= i < |keys| :: keys[i] == missing.value && forall j | 0 <= j < i :: keys[j] in amounts
  {
    if keys == [] then None
    else if keys[0] !in amounts then Some(keys[0])
    else MissingAmountKey(amounts, keys[1..])
  }

  /**
   * The key `person_expenses[p][expense]` raises KeyError on, for the
   * categories in order: `p` itself when it has no dict, else its first
   * missing category.
   */
  function MissingPersonKey(p: string, pe: Expenses): (missing: Option<string>)
    ensures missing.None? <==> p in pe && HasCategories(pe[p])
    ensures missing.Some? ==>
      || (missing.value == p && p !in pe)
      || (p in pe && missing.value in Categories && missing.value !in pe[p])
    ensures missing.Some? && p in pe ==>
      exists i | 0 <= i < |Categories| :: Categories[i] == missing.value && forall j | 0 <= j < i :: Categories[j] in pe[p]
  {
    if p !in pe then Some(p) else MissingAmountKey(pe[p], Categories)
  }

  /** The participant at `i` is the first whose lookups raise, and `missing` is its key. */
  predicate FailsFirstAt(ps: seq<string>, pe: Expenses, i: nat, missing: Option<string>)
    requires i < |ps|
  {
    && (forall j | 0 <= j < i :: MissingPersonKey(ps[j], pe).None?)
    && missing == MissingPersonKey(ps[i], pe)
  }

  /** The first key whose lookup in `[person_expenses[person][expense] for ...]` raises KeyError. */
  function MissingWeightKey(ps: seq<string>, pe: Expenses): (missing: Option<string>)
    ensures missing.None? <==> HasCategoryAmounts(ps, pe)
    ensures missing.Some? ==>
      || (missing.value in ps && missing.value !in pe)
      || (missing.value in Categories && exists p | p in ps :: p in pe && missing.value !in pe[p])
    ensures missing.Some? ==> exists i | 0 <= i < |ps| :: FailsFirstAt(ps, pe, i, missing)
  {
    if ps == [] then None
    else
      HasCategoryAmountsCons(ps, pe);
      assert ps[0] in ps;
      var first := MissingPersonKey(ps[0], pe);
      if first.Some? then
        assert FailsFirstAt(ps, pe, 0, first);
        first
      else
        var rest := MissingWeightKey(ps[1..], pe);
        assert rest.Some? ==> exists i | 0 <= i < |ps| :: FailsFirstAt(ps, pe, i, rest) by {
          if rest.Some? {
            var i :| 0 <= i < |ps[1..]| && FailsFirstAt(ps[1..], pe, i, rest);
            forall j | 0 <= j < i + 1 ensures MissingPersonKey(ps[j], pe).None? {
              if j > 0 {
                assert ps[j] == ps[1..][j - 1];
              }
            }
            assert FailsFirstAt(ps, pe, i + 1, rest);
          }
        }
        assert forall p | p in ps[1..] :: p in ps;
        rest
  }

  /**
   * Lines 129-158 of the page: the figures and the flow graph of one
   * fetched record, or the exception raised computing them.
   */
  ghost function Summarize(r: PeriodRecord): (result: Result<Summary, Fault>)
    ensures result.Success? <==> |r.persons| > 0 && HasCategoryAmounts(r.persons, r.personExpenses)
    ensures result == Failure(ZeroDivision) <==> |r.persons| == 0
    ensures MissingOwedKey(r.persons, r.payer, r.personExpenses).Some? ==>
      result == Failure(MissingKey(MissingOwedKey(r.persons, r.payer, r.personExpenses).value))
    ensures (&& MissingOwedKey(r.persons, r.payer, r.personExpenses).None?
             && |r.persons| > 0
             && MissingWeightKey(r.persons, r.personExpenses).Some?) ==>
      result == Failure(MissingKey(MissingWeightKey(r.persons, r.personExpenses).value))
    ensures result.Failure? && result.error.MissingKey? ==>
      var k := result.error.key;
      || (k in r.persons && k !in r.personExpenses)
      || (k in Categories && exists p | p in r.persons :: p in r.personExpenses && k !in r.personExpenses[p])
  {
    var pe := r.personExpenses;
    var totalExpense := TotalExpense(pe);
    var remainingBudget := r.totalIncome - totalExpense;
    match MissingOwedKey(r.persons, r.payer, pe)
    case Some(k) => Failure(MissingKey(k))
    case None =>
      var amountOwed := AmountOwed(r.persons, r.payer, pe);
      if |r.persons| == 0 then Failure(ZeroDivision)
      else match MissingWeightKey(r.persons, pe)
        case Some(k) => Failure(MissingKey(k))
        case None =>
          var flow := FlowGraph(
            Labels(r.persons),
            Sources(r.persons),
            Targets(r.persons),
            Values(r.totalIncome, r.persons, pe, totalExpense, remainingBudget));
          Success(Summary(r.totalIncome, totalExpense, remainingBudget, amountOwed, flow))
  }

  /** The "Plot Period" branch: a missing record shows "no data"; otherwise the record is summarised. */
  ghost function PlotPeriod(fetched: Option<PeriodRecord>): (outcome: PlotOutcome)
    ensures outcome.NoData? <==> fetched.None?
    ensures outcome.Plotted? <==> fetched.Some? && Summarize(fetched.value).Success?
    ensures outcome.Crashed? ==> fetched.Some? && Summarize(fetched.value) == Failure(outcome.fault)
    ensures outcome.Plotted? ==> outcome.summary == Summarize(fetched.value).value
  {
    match fetched
    case None => NoData
    case Some(r) =>
      match Summarize(r)
      case Failure(f) => Crashed(f)
      case Success(s) => Plotted(s)
  }

  /**
   * What a successful summary shows: income as recorded, the total expense
   * over every dict, a remaining budget that is income less expense (never
   * clamped), an owed table without the payer, and a flow graph whose three
   * edge lists are parallel, whose node indices are in range and whose last
   * two edges carry the total expense and the remaining budget out of the
   * income node.
   */
  lemma SummaryFigures(r: PeriodRecord)
    requires Summarize(r).Success?
    ensures var s, n := Summarize(r).value, |r.persons|;
      && s.totalIncome == r.totalIncome
      && s.totalExpense == TotalExpense(r.personExpenses)
      && s.remainingBudget == s.totalIncome - s.totalExpense
      && (s.remainingBudget < 0 <==> s.totalExpense > s.totalIncome)
      && s.amountOwed.Keys == (set p | p in r.persons && p != r.payer)
      && r.payer !in s.amountOwed
      && (forall p | p in s.amountOwed :: p in r.personExpenses && s.amountOwed[p] == PersonTotal(r.personExpenses[p]))
      && s.flow == FlowGraph(Labels(r.persons), Sources(r.persons), Targets(r.persons),
                             Values(r.totalIncome, r.persons, r.personExpenses, s.totalExpense, s.remainingBudget))
      && |s.flow.nodes| == n + 9
      && |s.flow.sources| == |s.flow.targets| == |s.flow.weights| == n + 6 * n + 2
      && (forall k | 0 <= k < |s.flow.sources| :: s.flow.sources[k] < |s.flow.nodes| && s.flow.targets[k] < |s.flow.nodes|)
      && s.flow.sources[7 * n] == 0 && s.flow.weights[7 * n] == s.totalExpense as real
      && s.flow.sources[7 * n + 1] == 0 && s.flow.weights[7 * n + 1] == s.remainingBudget as real
  {
    var pe := r.personExpenses;
    var totalExpense := TotalExpense(pe);
    ValuesLayout(r.totalIncome, r.persons, pe, totalExpense, r.totalIncome - totalExpense);
  }

  /**
   * With the form's non-negative amounts and its dict of exactly the listed
   * participants, the owed amounts are non-negative and, with the payer's
   * own total, make up the total expense.
   */
  lemma SummaryOwedBalances(r: PeriodRecord)
    requires Summarize(r).Success?
    requires NonNegative(r.personExpenses)
    requires r.personExpenses.Keys == Elements(r.persons) && r.payer in r.persons
    ensures var s := Summarize(r).value;
      && s.totalExpense >= 0
      && (forall p | p in s.amountOwed :: s.amountOwed[p] >= 0)
      && MapSum(s.amountOwed) + PersonTotal(r.personExpenses[r.payer]) == s.totalExpense
  {
    var pe := r.personExpenses;
    forall p | p in pe ensures PersonTotal(pe[p]) >= 0 {
      assert forall c | c in pe[p] :: pe[p][c] >= 0;
    }
    OwedPlusPayerIsTotal(r.persons, r.payer, pe);
  }
}
