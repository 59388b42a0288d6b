/**
 * The settlement figures of the "Data Visualization" page: total expense,
 * remaining budget and the amount each participant owes the payer.
 *
 * `personExpenses` maps each participant's name to that participant's
 * amounts, keyed by the six fixed categories and by "extra". As in the
 * script, the sums read the dicts as they are: any key present counts.
 */
module Settlement {
  import opened Wrappers
  import opened Sums

  /** The fixed expense categories, in display order. */
  const Categories: seq<string> :=
    ["Accommodation", "Food and Drinks", "Transport", "Entertainment", "Shopping", "Miscellaneous"]

  /** The key of the uncategorised amount in each participant's dict. */
  const ExtraKey: string := "extra"

  type Expenses = map<string, map<string, int>>

  /** The record fetched for one period. */
  datatype PeriodRecord = PeriodRecord(
    totalIncome: int,
    persons: seq<string>,
    payer: string,
    personExpenses: Expenses,
    comment: string)

  /**
   * `sum(person.values())`: everything one participant spent. With
   * non-negative amounts it is non-negative and at least each amount.
   */
  ghost function PersonTotal(amounts: map<string, int>): (total: int)
    ensures (forall c | c in amounts :: amounts[c] >= 0) ==>
      total >= 0 && forall c | c in amounts :: amounts[c] <= total
  {
    MapSum(amounts)
  }

  /** Each participant in `pe` mapped to that participant's total. */
  ghost function PersonTotals(pe: Expenses): (totals: map<string, int>)
    ensures totals.Keys == pe.Keys
    ensures forall p | p in pe :: totals[p] == PersonTotal(pe[p])
  {
    map p | p in pe :: PersonTotal(pe[p])
  }

  /**
   * `total_expense`: the sum over every participant of every amount. With
   * the form's non-negative amounts it is non-negative and no participant
   * spent more than it.
   */
  ghost function TotalExpense(pe: Expenses): (total: int)
    ensures NonNegative(pe) ==> total >= 0 && forall p | p in pe :: PersonTotal(pe[p]) <= total
  {
    var totals := PersonTotals(pe);
    assert NonNegative(pe) ==> forall p | p in totals :: totals[p] >= 0 by {
      if NonNegative(pe) {
        forall p | p in totals ensures totals[p] >= 0 {
          assert forall c | c in pe[p] :: pe[p][c] >= 0;
        }
      }
    }
    MapSum(totals)
  }

  /** Each participant in `pe` mapped to that participant's "extra" amount. */
  ghost function Extras(pe: Expenses): (extras: map<string, int>)
    requires FormShaped(pe)
    ensures extras.Keys == pe.Keys
  {
    map p | p in pe :: pe[p][ExtraKey]
  }

  /** The sum of every participant's "extra" amount. */
  ghost function TotalExtra(pe: Expenses): int
    requires FormShaped(pe)
  {
    MapSum(Extras(pe))
  }

  /** A participant's dict holds exactly the keys the form writes: the six categories and "extra". */
  predicate EntryShaped(amounts: map<string, int>)
  {
    amounts.Keys == Elements(Categories) + {ExtraKey}
  }

  /** Every participant's dict is as the data-entry form writes it. */
  predicate FormShaped(pe: Expenses)
  {
    forall p {:trigger pe[p]} | p in pe :: EntryShaped(pe[p])
  }

  /** All amounts are non-negative, as the form's `min_value=0` guarantees. */
  predicate NonNegative(pe: Expenses)
  {
    forall p, k | p in pe && k in pe[p] :: pe[p][k] >= 0
  }

  /**
   * `amount_owed`: each participant other than the payer mapped to that
   * participant's own total. Every such participant must have a dict;
   * otherwise the script raises KeyError (see `MissingOwedKey`).
   */
  ghost function AmountOwed(persons: seq<string>, payer: string, pe: Expenses): (owed: map<string, int>)
    requires forall p | p in persons && p != payer :: p in pe
    ensures owed.Keys == (set p | p in persons && p != payer)
    ensures payer !in owed
    ensures forall p | p in owed :: p in pe && owed[p] == PersonTotal(pe[p])
  {
    map p | p in persons && p != payer :: PersonTotal(pe[p])
  }

  /** The first participant, in list order, whose `amount_owed` entry raises KeyError. */
  function MissingOwedKey(persons: seq<string>, payer: string, pe: Expenses): (missing: Option<string>)
    ensures missing.None? <==> forall p | p in persons && p != payer :: p in pe
    ensures missing.Some? ==> missing.value in persons && missing.value != payer && missing.value !in pe
    ensures missing.Some? ==>
      exists i | 0 <= i < |persons| ::
        persons[i] == missing.value && forall j | 0 <= j < i :: persons[j] == payer || persons[j] in pe
  {
    if persons == [] then None
    else if persons[0] != payer && persons[0] !in pe then Some(persons[0])
    else MissingOwedKey(persons[1..], payer, pe)
  }

  /** A participant's total is the six category amounts plus the "extra" amount. */
  lemma PersonTotalSplit(amounts: map<string, int>)
    requires EntryShaped(amounts)
    ensures PersonTotal(amounts) == SeqSum(Lookups(amounts, Categories)) + amounts[ExtraKey]
  {
    var keys := Categories + [ExtraKey];
    assert Distinct(keys);
    assert Elements(keys) == Elements(Categories) + {ExtraKey};
    LookupsSumIsMapSum(amounts, keys);
    assert Lookups(amounts, keys) == Lookups(amounts, Categories) + [amounts[ExtraKey]];
    SeqSumAppend(Lookups(amounts, Categories), [amounts[ExtraKey]]);
  }

  /**
   * When the dict's participants are exactly the listed ones and the payer is
   * one of them, the amounts owed plus the payer's own total make up the
   * total expense: nobody's spending is lost or counted twice.
   */
  lemma OwedPlusPayerIsTotal(persons: seq<string>, payer: string, pe: Expenses)
    requires pe.Keys == Elements(persons)
    requires payer in persons
    ensures MapSum(AmountOwed(persons, payer, pe)) + PersonTotal(pe[payer]) == TotalExpense(pe)
  {
    var totals := PersonTotals(pe);
    assert AmountOwed(persons, payer, pe) == totals - {payer};
    MapSumRemove(totals, payer);
  }

  /** The total expense, added participant by participant in list order. */
  lemma TotalExpenseInListOrder(persons: seq<string>, pe: Expenses)
    requires Distinct(persons) && pe.Keys == Elements(persons)
    ensures TotalExpense(pe) == SeqSum(Lookups(PersonTotals(pe), persons))
  {
    LookupsSumIsMapSum(PersonTotals(pe), persons);
  }
}
