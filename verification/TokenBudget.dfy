/** Output is cut off once four runes per allowed token have been produced. */
module TokenBudget {
  import opened Text

  /** One budgeted delta: what may pass, the new rune count, and whether the
      budget is now used up. */
  datatype Cut = Cut(out: string, count: int, exhausted: bool)

  function Room(budget: int, count: int): nat
  {
    if 4 * budget > count then 4 * budget - count else 0
  }

  /** A budget of zero or less is no budget. */
  function Spend(budget: int, count: int, delta: string): Cut
  {
    if budget <= 0 then Cut(delta, count + |delta|, false)
    else if |delta| < Room(budget, count) then Cut(delta, count + |delta|, false)
    else Cut(delta[..Room(budget, count)], count + Room(budget, count), true)
  }

  /** The original's rune-counting search for the cut-off point. */
  method ApplyBudget(budget: int, count: nat, delta: string) returns (r: Cut)
    ensures r == Spend(budget, count, delta)
  {
    if budget <= 0 {
      return Cut(delta, count + |delta|, false);
    }
    var newTotal := count + |delta|;
    if newTotal / 4 < budget {
      return Cut(delta, newTotal, false);
    }
    var remaining := budget * 4 - count;
    if remaining <= 0 {
      return Cut("", count, true);
    }
    var seen := 0;
    for i := 0 to |delta|
      invariant seen == i <= remaining
    {
      seen := seen + 1;
      if seen > remaining {
        return Cut(delta[..i], count + remaining, true);
      }
    }
    return Cut(delta, newTotal, newTotal / 4 >= budget);
  }

  /** Budgeting a stream of deltas: all output, the count, and the stop flag. */
  function SpendAll(budget: int, so: Cut, deltas: seq<string>): Cut
    decreases |deltas|
  {
    if deltas == [] then so
    else
      var c := Spend(budget, so.count, deltas[0]);
      SpendAll(budget, Cut(so.out + c.out, c.count, so.exhausted || c.exhausted), deltas[1..])
  }

  function Prefix(s: string, n: int): string
  {
    if 0 <= n < |s| then s[..n] else s
  }

  /** `so` is what budgeting `seen` in any number of pieces leads to. */
  predicate Spent(budget: int, seen: string, so: Cut)
  {
    so.out == Prefix(seen, 4 * budget) && so.count == |so.out| && so.exhausted == (|seen| >= 4 * budget)
  }

  lemma {:induction false} SpendAllIsPrefix(budget: int, seen: string, so: Cut, deltas: seq<string>)
    requires budget > 0 && Spent(budget, seen, so)
    ensures Spent(budget, seen + Concat(deltas), SpendAll(budget, so, deltas))
    decreases |deltas|
  {
    if deltas == [] {
      assert seen + Concat(deltas) == seen;
    } else {
      var d := deltas[0];
      var c := Spend(budget, so.count, d);
      var so1 := Cut(so.out + c.out, c.count, so.exhausted || c.exhausted);
      assert so1.out == Prefix(seen + d, 4 * budget);
      assert seen + Concat(deltas) == (seen + d) + Concat(deltas[1..]);
      SpendAllIsPrefix(budget, seen + d, so1, deltas[1..]);
    }
  }

  /** For every chunking the output is the first `4 * budget` runes of the
      input, and the stop is raised exactly when they have been reached. */
  lemma BudgetIsPrefix(budget: int, deltas: seq<string>)
    requires budget > 0
    ensures var r := SpendAll(budget, Cut("", 0, false), deltas);
            r.out == Prefix(Concat(deltas), 4 * budget) &&
            (r.exhausted <==> |Concat(deltas)| >= 4 * budget)
  {
    assert "" + Concat(deltas) == Concat(deltas);
    SpendAllIsPrefix(budget, "", Cut("", 0, false), deltas);
  }
}
