/**
 * Sums of a weight over the rows of a table. Ledger totals (stock held by orders, money
 * refunded on a payment, money in a payout) are all sums of this one form.
 */
module Sums {

  ghost function Sum<K, V>(rows: map<K, V>, weight: V -> int): int
    decreases rows.Keys
  {
    if rows == map[] then
      0
    else
      var k :| k in rows;
      assert (rows - {k}).Keys < rows.Keys;
      weight(rows[k]) + Sum(rows - {k}, weight)
  }

  // The row a sum starts with does not matter.
  lemma {:induction false} SumTake<K, V>(rows: map<K, V>, weight: V -> int, k: K)
    requires k in rows
    ensures Sum(rows, weight) == weight(rows[k]) + Sum(rows - {k}, weight)
    decreases rows.Keys
  {
    var j :| j in rows && Sum(rows, weight) == weight(rows[j]) + Sum(rows - {j}, weight);
    if j != k {
      assert (rows - {j}).Keys < rows.Keys && (rows - {k}).Keys < rows.Keys;
      SumTake(rows - {j}, weight, k);
      SumTake(rows - {k}, weight, j);
      assert rows - {j} - {k} == rows - {k} - {j};
    }
  }

  lemma SumInsert<K, V>(rows: map<K, V>, weight: V -> int, k: K, row: V)
    requires k !in rows
    ensures Sum(rows[k := row], weight) == Sum(rows, weight) + weight(row)
  {
    SumTake(rows[k := row], weight, k);
    assert rows[k := row] - {k} == rows;
  }

  lemma SumUpdate<K, V>(rows: map<K, V>, weight: V -> int, k: K, row: V)
    requires k in rows
    ensures Sum(rows[k := row], weight) == Sum(rows, weight) - weight(rows[k]) + weight(row)
  {
    SumTake(rows, weight, k);
    SumTake(rows[k := row], weight, k);
    assert rows[k := row] - {k} == rows - {k};
  }

  // Tables with the same keys and the same weight on every row have the same sum.
  lemma {:induction false} SumSame<K, V>(rows: map<K, V>, weight: V -> int, rows': map<K, V>, weight': V -> int)
    requires rows.Keys == rows'.Keys
    requires forall k | k in rows :: weight(rows[k]) == weight'(rows'[k])
    ensures Sum(rows, weight) == Sum(rows', weight')
    decreases rows.Keys
  {
    if rows == map[] {
      assert rows' == map[];
    } else {
      var k :| k in rows;
      assert (rows - {k}).Keys == (rows' - {k}).Keys;
      SumTake(rows, weight, k);
      SumTake(rows', weight', k);
      SumSame(rows - {k}, weight, rows' - {k}, weight');
    }
  }

  lemma {:induction false} SumAtMost<K, V>(rows: map<K, V>, low: V -> int, high: V -> int)
    requires forall k | k in rows :: low(rows[k]) <= high(rows[k])
    ensures Sum(rows, low) <= Sum(rows, high)
    decreases rows.Keys
  {
    if rows != map[] {
      var k :| k in rows;
      SumTake(rows, low, k);
      SumTake(rows, high, k);
      assert (rows - {k}).Keys < rows.Keys;
      SumAtMost(rows - {k}, low, high);
    }
  }

  lemma {:induction false} SumZero<K, V>(rows: map<K, V>, weight: V -> int)
    requires forall k | k in rows :: weight(rows[k]) == 0
    ensures Sum(rows, weight) == 0
    decreases rows.Keys
  {
    if rows != map[] {
      var k :| k in rows;
      SumTake(rows, weight, k);
      assert (rows - {k}).Keys < rows.Keys;
      SumZero(rows - {k}, weight);
    }
  }

  lemma {:induction false} SumScaled<K, V>(rows: map<K, V>, weight: V -> int, scaled: V -> int, factor: int)
    requires forall k | k in rows :: scaled(rows[k]) == factor * weight(rows[k])
    ensures Sum(rows, scaled) == factor * Sum(rows, weight)
    decreases rows.Keys
  {
    if rows != map[] {
      var k :| k in rows;
      SumTake(rows, weight, k);
      SumTake(rows, scaled, k);
      assert (rows - {k}).Keys < rows.Keys;
      SumScaled(rows - {k}, weight, scaled, factor);
      var rest := Sum(rows - {k}, weight);
      assert factor * (weight(rows[k]) + rest) == factor * weight(rows[k]) + factor * rest;
    }
  }

  // A row that weighs something is never more than a sum without negative rows.
  lemma SumAtLeast<K, V>(rows: map<K, V>, weight: V -> int, k: K)
    requires k in rows
    requires forall j | j in rows :: weight(rows[j]) >= 0
    ensures weight(rows[k]) <= Sum(rows, weight)
  {
    SumTake(rows, weight, k);
    SumNonNegative(rows - {k}, weight);
  }

  lemma {:induction false} SumNonNegative<K, V>(rows: map<K, V>, weight: V -> int)
    requires forall k | k in rows :: weight(rows[k]) >= 0
    ensures Sum(rows, weight) >= 0
    decreases rows.Keys
  {
    if rows != map[] {
      var k :| k in rows;
      SumTake(rows, weight, k);
      assert (rows - {k}).Keys < rows.Keys;
      SumNonNegative(rows - {k}, weight);
    }
  }

  /**
   * Every weighing row of `from` is sent by `target` to a row of its own in `to` that weighs at
   * least as much, so the whole of `from` weighs no more than the whole of `to`.
   */
  lemma {:induction false} SumInjects<K, V, L, W>(from: map<K, V>, weight: V -> int, to: map<L, W>, bound: W -> int,
                                                  target: V -> L)
    requires forall k | k in from :: weight(from[k]) >= 0
    requires forall l | l in to :: bound(to[l]) >= 0
    requires forall k | k in from && weight(from[k]) > 0 ::
               target(from[k]) in to && weight(from[k]) <= bound(to[target(from[k])])
    requires forall j, k | j in from && k in from && weight(from[j]) > 0 && weight(from[k]) > 0 &&
                           target(from[j]) == target(from[k]) :: j == k
    ensures Sum(from, weight) <= Sum(to, bound)
    decreases from.Keys
  {
    if from == map[] {
      SumNonNegative(to, bound);
    } else {
      var k :| k in from;
      SumTake(from, weight, k);
      assert (from - {k}).Keys < from.Keys;
      if weight(from[k]) == 0 {
        SumInjects(from - {k}, weight, to, bound, target);
      } else {
        var l := target(from[k]);
        SumTake(to, bound, l);
        SumInjects(from - {k}, weight, to - {l}, bound, target);
      }
    }
  }

  // Rows that weigh nothing may come, and rows may grow lighter; the sum does not grow.
  lemma {:induction false} SumShrinks<K, V>(before: map<K, V>, after: map<K, V>, weight: V -> int)
    requires forall k | k in before :: weight(before[k]) >= 0
    requires forall k | k in after && weight(after[k]) > 0 :: k in before && weight(after[k]) <= weight(before[k])
    requires forall k | k in after :: weight(after[k]) >= 0
    ensures Sum(after, weight) <= Sum(before, weight)
    decreases after.Keys
  {
    if after == map[] {
      SumNonNegative(before, weight);
    } else {
      var k :| k in after;
      assert (after - {k}).Keys < after.Keys;
      SumTake(after, weight, k);
      if k in before {
        SumTake(before, weight, k);
        SumShrinks(before - {k}, after - {k}, weight);
      } else {
        SumShrinks(before, after - {k}, weight);
      }
    }
  }
}
