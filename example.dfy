/** A worked example: two participants, where "A" paid and "B" owes its own spending. */
module SettlementExample {
  import opened Sums
  import opened Settlement

  /** A participant's dict as the form writes it: six category amounts, then "extra". */
  function Entry(amounts: seq<int>, extra: int): (entry: map<string, int>)
    requires |amounts| == |Categories|
    ensures EntryShaped(entry)
    ensures forall j | 0 <= j < |Categories| :: entry[Categories[j]] == amounts[j]
    ensures entry[ExtraKey] == extra
  {
    map[Categories[0] := amounts[0], Categories[1] := amounts[1], Categories[2] := amounts[2],
        Categories[3] := amounts[3], Categories[4] := amounts[4], Categories[5] := amounts[5],
        ExtraKey := extra]
  }

  /** The sum of one form-shaped dict: its six category amounts and its "extra". */
  lemma EntryTotal(amounts: seq<int>, extra: int, entry: map<string, int>)
    requires |amounts| == |Categories| && entry == Entry(amounts, extra)
    ensures PersonTotal(entry) == SeqSum(amounts) + extra
  {
    PersonTotalSplit(entry);
    assert Lookups(entry, Categories) == amounts;
  }

  /** With two participants "A" (the payer) and "B", "B" owes its own total and the total expense is both totals. */
  lemma TwoPersonSettlement(a: map<string, int>, b: map<string, int>)
    ensures var pe := map["A" := a, "B" := b];
      && AmountOwed(["A", "B"], "A", pe) == map["B" := PersonTotal(b)]
      && TotalExpense(pe) == PersonTotal(a) + PersonTotal(b)
  {
    var persons, pe := ["A", "B"], map["A" := a, "B" := b];
    var owed := AmountOwed(persons, "A", pe);
    assert owed == map["B" := PersonTotal(b)];
    assert Elements(persons) == {"A", "B"} == pe.Keys;
    OwedPlusPayerIsTotal(persons, "A", pe);
    MapSumRemove(owed, "B");
    assert owed - {"B"} == map[];
  }

  /**
   * Income 1000; "A" (the payer) spent 100 on food; "B" spent 50 on food
   * and 20 on transport. The total expense is 170, 830 remains, and "B"
   * owes 70.
   */
  lemma TwoPersonScenario(a: map<string, int>, b: map<string, int>)
    requires a == Entry([0, 100, 0, 0, 0, 0], 0) && b == Entry([0, 50, 20, 0, 0, 0], 0)
    ensures var pe := map["A" := a, "B" := b];
      && TotalExpense(pe) == 170
      && 1000 - TotalExpense(pe) == 830
      && AmountOwed(["A", "B"], "A", pe) == map["B" := 70]
  {
    EntryTotal([0, 100, 0, 0, 0, 0], 0, a);
    EntryTotal([0, 50, 20, 0, 0, 0], 0, b);
    TwoPersonSettlement(a, b);
  }
}
