/** The top-scorers page: each scorer's goal value under JavaScript `||`
    fallbacks, the leaderboard rows in server order, and the summary cards. */
module Goleadores {
  import opened Wrappers
  import Seqs

  /** The fields of a scorer that the page reads. */
  datatype Goleador = Goleador(id: string, totalGoles: Option<int>, goles: Option<int>)

  /** A scorer's goals: `totalGoles`, else `goles`, else 0, where a missing or zero count falls through to the next. */
  function GoalValue(g: Goleador): (v: int)
    ensures g.totalGoles.Some? && g.totalGoles.value != 0 ==> v == g.totalGoles.value
    ensures (g.totalGoles.None? || g.totalGoles.value == 0) && g.goles.Some? ==> v == g.goles.value
    ensures (g.totalGoles.None? || g.totalGoles.value == 0) && g.goles.None? ==> v == 0
  {
    if g.totalGoles.Some? && g.totalGoles.value != 0 then g.totalGoles.value
    else if g.goles.Some? && g.goles.value != 0 then g.goles.value
    else 0
  }

  /** A zero `totalGoles` does not hide the `goles` count. */
  lemma ZeroTotalFallsThrough()
    ensures GoalValue(Goleador("a", Some(0), Some(5))) == 5
    ensures GoalValue(Goleador("b", None, None)) == 0
    ensures GoalValue(Goleador("c", Some(7), Some(5))) == 7
  {
  }

  /** The largest of a non-empty list of values: an upper bound that is attained. */
  function MaxOf(values: seq<int>): (m: int)
    requires |values| > 0
    ensures forall i :: 0 <= i < |values| ==> values[i] <= m
    ensures exists i :: 0 <= i < |values| && values[i] == m
  {
    if |values| == 1 then values[0]
    else
      var rest := MaxOf(values[1..]);
      assert forall i :: 1 <= i < |values| ==> values[i] == values[1..][i - 1];
      if values[0] >= rest then values[0] else rest
  }

  /** The goal value of every scorer, in list order. */
  function GoalValues(gs: seq<Goleador>): (vs: seq<int>)
    ensures |vs| == |gs|
    ensures forall i :: 0 <= i < |gs| ==> vs[i] == GoalValue(gs[i])
  {
    seq(|gs|, i requires 0 <= i < |gs| => GoalValue(gs[i]))
  }

  /** The 'Total de goles' card: the goal values of all scorers added up. */
  function TotalGoals(gs: seq<Goleador>): (t: int)
    ensures gs == [] ==> t == 0
    ensures (forall i :: 0 <= i < |gs| ==> GoalValue(gs[i]) >= 0) ==> t >= 0
  {
    if forall i :: 0 <= i < |gs| ==> GoalValue(gs[i]) >= 0 then
      Seqs.SumByNonNegative(gs, GoalValue);
      Seqs.SumBy(gs, GoalValue)
    else
      Seqs.SumBy(gs, GoalValue)
  }

  /** One scorer contributes its goal value, and the total of two lists is the
      sum of their totals; with the empty case this fixes the total. */
  lemma TotalGoalsSingletonAppend(g: Goleador, a: seq<Goleador>, b: seq<Goleador>)
    ensures TotalGoals([g]) == GoalValue(g)
    ensures TotalGoals(a + b) == TotalGoals(a) + TotalGoals(b)
  {
    assert [g][..0] == [];
    assert Seqs.SumBy([g], GoalValue) == Seqs.SumBy([], GoalValue) + GoalValue(g);
    Seqs.SumByAppend(a, b, GoalValue);
  }

  /** The three cards; `average` is the exact quotient that `toFixed(1)` rounds. */
  datatype ScorerStats = ScorerStats(max: int, total: int, average: real)

  /** The stats block, shown only when the list is non-empty (the guard of the
      block), which is why `Math.max` and the division never see an empty list. */
  function Stats(gs: seq<Goleador>): (r: Option<ScorerStats>)
    ensures r.None? <==> gs == []
    ensures r.Some? ==>
      (forall i :: 0 <= i < |gs| ==> GoalValue(gs[i]) <= r.value.max) &&
      (exists i :: 0 <= i < |gs| && GoalValue(gs[i]) == r.value.max)
    ensures r.Some? ==> r.value.total == TotalGoals(gs)
    ensures r.Some? ==> r.value.average * (|gs| as real) == r.value.total as real
  {
    if gs == [] then None
    else
      var vs := GoalValues(gs);
      var m := MaxOf(vs);
      assert forall i :: 0 <= i < |gs| ==> GoalValue(gs[i]) == vs[i];
      var total := TotalGoals(gs);
      Some(ScorerStats(m, total, total as real / |gs| as real))
  }

  /** The average never exceeds the maximum. */
  lemma {:induction false} AverageAtMostMax(gs: seq<Goleador>)
    requires gs != []
    ensures Stats(gs).value.average <= Stats(gs).value.max as real
  {
    var s := Stats(gs).value;
    AverageAtMostBound(gs, s.max, s.total, s.average);
  }

  /** The same fact for any bound `m` of the goal values and any `q` with `q * n == total`. */
  lemma AverageAtMostBound(gs: seq<Goleador>, m: int, t: int, q: real)
    requires gs != []
    requires forall i :: 0 <= i < |gs| ==> GoalValue(gs[i]) <= m
    requires t == TotalGoals(gs) && q * (|gs| as real) == t as real
    ensures q <= m as real
  {
    Seqs.SumByAtMost(gs, GoalValue, m);
    AverageBound(q, |gs|, t, m);
  }

  /** From `q * n == t <= n * m` with `n` positive, `q <= m`. */
  lemma AverageBound(q: real, n: nat, t: int, m: int)
    requires n > 0 && q * n as real == t as real && t <= n * m
    ensures q <= m as real
  {
    CastProduct(n, m);
    QuotientAtMost(q, n as real, t as real, m as real);
  }

  /** `(n * m) as real == n as real * m as real`. */
  lemma {:induction false} CastProduct(n: nat, m: int)
    ensures (n * m) as real == n as real * m as real
  {
    if n > 0 {
      CastProduct(n - 1, m);
      assert n * m == (n - 1) * m + m;
      assert n as real * m as real == (n - 1) as real * m as real + m as real;
    }
  }

  lemma QuotientAtMost(q: real, n: real, t: real, m: real)
    requires n > 0.0 && q * n == t && t <= n * m
    ensures q <= m
  {
  }

  /** With no negative counts, the maximum is at most the total. */
  lemma {:induction false} MaxAtMostTotal(gs: seq<Goleador>)
    requires gs != []
    requires forall i :: 0 <= i < |gs| ==> GoalValue(gs[i]) >= 0
    ensures Stats(gs).value.max <= Stats(gs).value.total
  {
    var s := Stats(gs).value;
    var k :| 0 <= k < |gs| && GoalValue(gs[k]) == s.max;
    Seqs.SumByAtLeastEach(gs, GoalValue, k);
  }

  /** Three scorers with 5, 3 and 3 goals: maximum 5, total 11, average 11/3. */
  lemma ThreeScorers()
    ensures var gs := [Goleador("a", Some(5), None), Goleador("b", Some(3), None), Goleador("c", None, Some(3))];
      Stats(gs) == Some(ScorerStats(5, 11, 11.0 / 3.0))
  {
    var gs := [Goleador("a", Some(5), None), Goleador("b", Some(3), None), Goleador("c", None, Some(3))];
    assert gs[..2][..1] == [gs[0]];
    assert [gs[0]][..0] == [];
    assert Seqs.SumBy([gs[0]], GoalValue) == 5;
    assert Seqs.SumBy(gs[..2], GoalValue) == 8;
    assert TotalGoals(gs) == 11;
    assert GoalValues(gs) == [5, 3, 3];
  }

  /** The badge colour of a position. */
  datatype Medal = Gold | Silver | Bronze | Plain

  function MedalFor(index: nat): (m: Medal)
    ensures m == Gold <==> index == 0
    ensures m == Silver <==> index == 1
    ensures m == Bronze <==> index == 2
    ensures m == Plain <==> index >= 3
  {
    if index == 0 then Gold else if index == 1 then Silver else if index == 2 then Bronze else Plain
  }

  /** One line of the leaderboard. */
  datatype Row = Row(position: nat, id: string, goals: int, medal: Medal)

  /** The leaderboard rows: one per scorer, in the order the server sent them. */
  function Rows(gs: seq<Goleador>): (rs: seq<Row>)
    ensures |rs| == |gs|
    ensures forall i :: 0 <= i < |rs| ==> rs[i].id == gs[i].id && rs[i].goals == GoalValue(gs[i])
    ensures forall i :: 0 <= i < |rs| ==> rs[i].position == i + 1 && rs[i].medal == MedalFor(i)
  {
    seq(|gs|, i requires 0 <= i < |gs| => Row(i + 1, gs[i].id, GoalValue(gs[i]), MedalFor(i)))
  }

  /** Positions run 1, 2, 3, ... without gaps; at most one row has each of
      the three medals, and the first row of a non-empty board has gold. */
  lemma RowsNumbering(gs: seq<Goleador>)
    ensures forall i, j :: 0 <= i < j < |Rows(gs)| ==> Rows(gs)[i].position < Rows(gs)[j].position
    ensures forall i, j :: 0 <= i < j < |Rows(gs)| && Rows(gs)[i].medal != Plain ==> Rows(gs)[i].medal != Rows(gs)[j].medal
    ensures gs != [] ==> Rows(gs)[0].medal == Gold && Rows(gs)[0].position == 1
  {
  }
}
