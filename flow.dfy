/**
 * The Sankey flow graph of the "Data Visualization" page: a node list
 * `label` and three parallel edge lists `source`, `target` and `value`.
 *
 * Node positions are found with `label.index(...)`, which returns the first
 * occurrence; `IndexOf` models it as written, so a participant named like a
 * category or like another participant is modelled too. The lemmas about
 * where the edges run assume every node label is distinct.
 */
module Flow {
  import opened Sums
  import opened Settlement

  const TotalIncomeLabel: string := "Total Income"
  const TotalExpenseLabel: string := "Total Expense"
  const RemainingBudgetLabel: string := "Remaining Budget"

  /** The `label` list and the `source`, `target` and `value` lists handed to the chart. */
  datatype FlowGraph = FlowGraph(nodes: seq<string>, sources: seq<nat>, targets: seq<nat>, weights: seq<real>)

  /** `list.index(x)`: the position of the first occurrence of `x`. */
  function IndexOf<T(==)>(s: seq<T>, x: T): (i: nat)
    requires x in s
    ensures i < |s| && s[i] == x
    ensures forall j | 0 <= j < i :: s[j] != x
  {
    if s[0] == x then 0 else 1 + IndexOf(s[1..], x)
  }

  /** In a list without repeats, an element's first occurrence is its only one. */
  lemma IndexOfDistinct<T>(s: seq<T>, i: nat)
    requires Distinct(s) && i < |s|
    ensures IndexOf(s, s[i]) == i
  {
  }

  /**
   * Position, within a block of participant-by-category edges, of the edge
   * for participant `i` and category `j`. The layout here and below writes
   * the number of categories, `|Categories|`, as the literal 6.
   */
  function Cell(i: nat, j: nat): nat
  {
    6 * i + j
  }

  /** `label`: the income node, one node per participant, one per category, then the two totals. */
  function Labels(persons: seq<string>): (nodes: seq<string>)
    ensures |nodes| == |persons| + |Categories| + 3
    ensures nodes[0] == TotalIncomeLabel
  {
    [TotalIncomeLabel] + persons + Categories + [TotalExpenseLabel, RemainingBudgetLabel]
  }

  /** Where each node sits in `label`. */
  lemma LabelsLayout(persons: seq<string>)
    ensures var nodes, n := Labels(persons), |persons|;
      && (forall i | 0 <= i < n :: nodes[1 + i] == persons[i])
      && (forall j | 0 <= j < |Categories| :: nodes[1 + n + j] == Categories[j])
      && nodes[n + 7] == TotalExpenseLabel && nodes[n + 8] == RemainingBudgetLabel
  {
  }

  /** Whatever the participants, every category and both totals have a node. */
  lemma LabelsHoldFixedNodes(persons: seq<string>)
    ensures forall c | c in Categories :: c in Labels(persons)
    ensures TotalExpenseLabel in Labels(persons) && RemainingBudgetLabel in Labels(persons)
  {
  }

  /** `[label.index(person) for person in ps for _ in expenses]`. */
  function PersonSources(nodes: seq<string>, ps: seq<string>): (src: seq<nat>)
    requires forall p | p in ps :: p in nodes
    ensures |src| == 6 * |ps|
    ensures forall k | 0 <= k < |src| :: src[k] < |nodes|
    ensures forall i, j | 0 <= i < |ps| && 0 <= j < 6 :: src[Cell(i, j)] == IndexOf(nodes, ps[i])
  {
    if ps == [] then []
    else
      var first, rest := seq(|Categories|, _ => IndexOf(nodes, ps[0])), PersonSources(nodes, ps[1..]);
      var src := first + rest;
      assert forall i, j | 0 <= i < |ps| && 0 <= j < 6 :: src[Cell(i, j)] == IndexOf(nodes, ps[i]) by {
        forall i, j | 0 <= i < |ps| && 0 <= j < 6 ensures src[Cell(i, j)] == IndexOf(nodes, ps[i]) {
          if i == 0 {
            assert src[Cell(0, j)] == first[j];
          } else {
            assert src[Cell(i, j)] == rest[Cell(i - 1, j)] && ps[i] == ps[1..][i - 1];
          }
        }
      }
      src
  }

  /** `[label.index(expense) for _ in range(n) for expense in expenses]`. */
  function CategoryTargets(nodes: seq<string>, n: nat): (tgt: seq<nat>)
    requires forall c | c in Categories :: c in nodes
    ensures |tgt| == 6 * n
    ensures forall k | 0 <= k < |tgt| :: tgt[k] < |nodes|
    ensures forall i, j | 0 <= i < n && 0 <= j < 6 :: tgt[Cell(i, j)] == IndexOf(nodes, Categories[j])
  {
    if n == 0 then []
    else
      var first := seq(|Categories|, j requires 0 <= j < |Categories| => IndexOf(nodes, Categories[j]));
      var rest := CategoryTargets(nodes, n - 1);
      var tgt := first + rest;
      assert forall i, j | 0 <= i < n && 0 <= j < 6 :: tgt[Cell(i, j)] == IndexOf(nodes, Categories[j]) by {
        forall i, j | 0 <= i < n && 0 <= j < 6 ensures tgt[Cell(i, j)] == IndexOf(nodes, Categories[j]) {
          if i == 0 {
            assert tgt[Cell(0, j)] == first[j];
          } else {
            assert tgt[Cell(i, j)] == rest[Cell(i - 1, j)];
          }
        }
      }
      tgt
  }

  /** The `source` list: income to each participant, participant to each category, income to both totals. */
  function Sources(persons: seq<string>): (src: seq<nat>)
    ensures |src| == |persons| + 6 * |persons| + 2
    ensures forall k | 0 <= k < |src| :: src[k] < |Labels(persons)|
    ensures forall i | 0 <= i < |persons| :: src[i] == 0
    ensures src[7 * |persons|] == 0 && src[7 * |persons| + 1] == 0
  {
    seq(|persons|, _ => 0) + PersonSources(Labels(persons), persons) + [0, 0]
  }

  /** The `target` list, parallel to `Sources`. */
  function Targets(persons: seq<string>): (tgt: seq<nat>)
    ensures |tgt| == |persons| + 6 * |persons| + 2
    ensures forall k | 0 <= k < |tgt| :: tgt[k] < |Labels(persons)|
    ensures forall i | 0 <= i < |persons| :: tgt[i] == i + 1
  {
    var n, nodes := |persons|, Labels(persons);
    LabelsHoldFixedNodes(persons);
    var first, middle := seq(n, i => i + 1), CategoryTargets(nodes, n);
    var totals := [IndexOf(nodes, TotalExpenseLabel), IndexOf(nodes, RemainingBudgetLabel)];
    var tgt := first + middle + totals;
    assert forall k | 0 <= k < |tgt| :: tgt[k] < |nodes| by {
      forall k | 0 <= k < |tgt| ensures tgt[k] < |nodes| {
        if k < n {
          assert tgt[k] == first[k];
        } else if k < 7 * n {
          assert tgt[k] == middle[k - n];
        } else {
          assert tgt[k] == totals[k - 7 * n];
        }
      }
    }
    tgt
  }

  /** A participant's dict has all six category amounts. */
  predicate HasCategories(amounts: map<string, int>)
  {
    forall c | c in Categories :: c in amounts
  }

  /** Every participant has all six category amounts, as `person_expenses[person][expense]` needs. */
  predicate HasCategoryAmounts(persons: seq<string>, pe: Expenses)
  {
    forall p | p in persons :: p in pe && HasCategories(pe[p])
  }

  /** Every participant has all categories exactly when the first does and the rest do. */
  lemma HasCategoryAmountsCons(ps: seq<string>, pe: Expenses)
    requires ps != []
    ensures HasCategoryAmounts(ps, pe) <==>
      ps[0] in pe && HasCategories(pe[ps[0]]) && HasCategoryAmounts(ps[1..], pe)
  {
    assert forall p | p in ps :: p == ps[0] || p in ps[1..];
  }

  /** `[person_expenses[person][expense] for person in ps for expense in expenses]`. */
  function CategoryWeights(ps: seq<string>, pe: Expenses): (w: seq<int>)
    requires HasCategoryAmounts(ps, pe)
    ensures |w| == 6 * |ps|
    ensures forall i, j | 0 <= i < |ps| && 0 <= j < 6 :: w[Cell(i, j)] == pe[ps[i]][Categories[j]]
  {
    if ps == [] then []
    else
      HasCategoryAmountsCons(ps, pe);
      var first, rest := Lookups(pe[ps[0]], Categories), CategoryWeights(ps[1..], pe);
      var w := first + rest;
      assert forall i, j | 0 <= i < |ps| && 0 <= j < 6 :: w[Cell(i, j)] == pe[ps[i]][Categories[j]] by {
        forall i, j | 0 <= i < |ps| && 0 <= j < 6 ensures w[Cell(i, j)] == pe[ps[i]][Categories[j]] {
          assert ps[i] in ps && Categories[j] in Categories;
          if i == 0 {
            assert w[Cell(0, j)] == first[j];
          } else {
            assert w[Cell(i, j)] == rest[Cell(i - 1, j)] && ps[i] == ps[1..][i - 1];
          }
        }
      }
      w
  }

  /** `[total_income / len(persons)] * len(persons)`, with exact division. */
  function EvenSplit(totalIncome: int, n: nat): (split: seq<real>)
    requires n > 0
    ensures |split| == n
    ensures forall i | 0 <= i < n :: split[i] == totalIncome as real / n as real
  {
    seq(n, _ => totalIncome as real / n as real)
  }

  /** The integer amounts as chart weights. */
  function AsReals(w: seq<int>): (r: seq<real>)
    ensures |r| == |w|
    ensures forall k | 0 <= k < |w| :: r[k] == w[k] as real
  {
    seq(|w|, k requires 0 <= k < |w| => w[k] as real)
  }

  /**
   * The `value` list, parallel to `Sources`: the income split evenly, the
   * category amounts, then the total expense and the remaining budget.
   */
  function Values(totalIncome: int, persons: seq<string>, pe: Expenses, totalExpense: int, remainingBudget: int)
    : (weights: seq<real>)
    requires |persons| > 0 && HasCategoryAmounts(persons, pe)
    ensures |weights| == |persons| + 6 * |persons| + 2
  {
    EvenSplit(totalIncome, |persons|) + AsReals(CategoryWeights(persons, pe))
      + [totalExpense as real, remainingBudget as real]
  }

  /** The weight of each edge: an equal share of the income, a category amount, or one of the two totals. */
  lemma ValuesLayout(totalIncome: int, persons: seq<string>, pe: Expenses, totalExpense: int, remainingBudget: int)
    requires |persons| > 0 && HasCategoryAmounts(persons, pe)
    ensures var n, weights := |persons|, Values(totalIncome, persons, pe, totalExpense, remainingBudget);
      && (forall i | 0 <= i < n :: weights[i] == totalIncome as real / n as real)
      && (forall i, j | 0 <= i < n && 0 <= j < 6 :: weights[n + Cell(i, j)] == pe[persons[i]][Categories[j]] as real)
      && weights[7 * n] == totalExpense as real
      && weights[7 * n + 1] == remainingBudget as real
  {
  }

  /** Every node label differs from every other: no two participants share a name and none is named like a fixed node. */
  predicate UniqueLabels(persons: seq<string>)
  {
    Distinct(Labels(persons))
  }

  /** With unique labels, the edge for participant i and category j leaves participant i's node. */
  lemma CategoryEdgeSource(persons: seq<string>, i: nat, j: nat)
    requires UniqueLabels(persons)
    requires i < |persons| && j < 6
    ensures Sources(persons)[|persons| + Cell(i, j)] == 1 + i
  {
    var nodes := Labels(persons);
    LabelsLayout(persons);
    IndexOfDistinct(nodes, 1 + i);
    assert Sources(persons)[|persons| + Cell(i, j)] == PersonSources(nodes, persons)[Cell(i, j)];
  }

  /** With unique labels, the edge for participant i and category j enters category j's node. */
  lemma CategoryEdgeTarget(persons: seq<string>, i: nat, j: nat)
    requires UniqueLabels(persons)
    requires i < |persons| && j < 6
    ensures Targets(persons)[|persons| + Cell(i, j)] == 1 + |persons| + j
  {
    var n, nodes := |persons|, Labels(persons);
    LabelsLayout(persons);
    IndexOfDistinct(nodes, 1 + n + j);
    assert Targets(persons)[n + Cell(i, j)] == CategoryTargets(nodes, n)[Cell(i, j)];
  }

  /** With unique labels, the last two edges end at the "Total Expense" and "Remaining Budget" nodes. */
  lemma TotalEdgeEndpoints(persons: seq<string>)
    requires UniqueLabels(persons)
    ensures var n := |persons|;
      Targets(persons)[7 * n] == n + 7 && Targets(persons)[7 * n + 1] == n + 8
  {
    var n, nodes := |persons|, Labels(persons);
    LabelsLayout(persons);
    IndexOfDistinct(nodes, n + 7);
    IndexOfDistinct(nodes, n + 8);
  }

  /** The even-split edges carry the whole income between them. */
  lemma EvenSplitSumsToIncome(totalIncome: int, persons: seq<string>, pe: Expenses, totalExpense: int, remainingBudget: int)
    requires |persons| > 0 && HasCategoryAmounts(persons, pe)
    ensures RealSum(Values(totalIncome, persons, pe, totalExpense, remainingBudget)[..|persons|]) == totalIncome as real
  {
    var n := |persons|;
    var split := Values(totalIncome, persons, pe, totalExpense, remainingBudget)[..n];
    ValuesLayout(totalIncome, persons, pe, totalExpense, remainingBudget);
    RealSumConstant(split, totalIncome as real / n as real);
  }

  /** Participant by participant, the category edges add up to each total less its "extra". */
  lemma {:induction false} CategoryWeightsSum(ps: seq<string>, pe: Expenses)
    requires HasCategoryAmounts(ps, pe)
    requires FormShaped(pe)
    ensures SeqSum(CategoryWeights(ps, pe)) == SeqSum(Lookups(PersonTotals(pe), ps)) - SeqSum(Lookups(Extras(pe), ps))
  {
    if ps != [] {
      var amounts := pe[ps[0]];
      SeqSumAppend(Lookups(amounts, Categories), CategoryWeights(ps[1..], pe));
      PersonTotalSplit(amounts);
      LookupsCons(PersonTotals(pe), ps);
      LookupsCons(Extras(pe), ps);
      CategoryWeightsSum(ps[1..], pe);
    }
  }

  /**
   * The participant-to-category edges together carry the total expense less
   * every "extra" amount: "extra" has no category node.
   */
  lemma CategoryEdgesCarryTotalLessExtra(persons: seq<string>, pe: Expenses)
    requires Distinct(persons) && pe.Keys == Elements(persons)
    requires FormShaped(pe)
    ensures HasCategoryAmounts(persons, pe)
    ensures SeqSum(CategoryWeights(persons, pe)) == TotalExpense(pe) - TotalExtra(pe)
  {
    CategoryWeightsSum(persons, pe);
    LookupsSumIsMapSum(PersonTotals(pe), persons);
    LookupsSumIsMapSum(Extras(pe), persons);
  }
}
