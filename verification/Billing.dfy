/** Session billing in exact arithmetic (gateway/dao/AgentTokenUsageDaoOrm.py). */
module Billing {

  const HALF_STEP := 0.0000005

  /** Token counts of one call, or of several calls added up. */
  datatype Tokens = Tokens(input: int, cached: int, nonCached: int, output: int, total: int)

  datatype Row = Row(model: string, tokens: Tokens)

  /** Prices per million tokens. */
  datatype Price = Price(input: real, cachedInput: real, output: real, multiplier: real)

  datatype Cost = Cost(nonCached: real, cached: real, input: real, output: real, total: real)

  datatype Part = NonCachedInput | CachedInput | Input | Output | Total

  function Of(c: Cost, part: Part): real {
    match part
    case NonCachedInput => c.nonCached
    case CachedInput => c.cached
    case Input => c.input
    case Output => c.output
    case Total => c.total
  }

  function Plus(a: Tokens, b: Tokens): Tokens {
    Tokens(a.input + b.input, a.cached + b.cached, a.nonCached + b.nonCached, a.output + b.output, a.total + b.total)
  }

  const NOTHING := Tokens(0, 0, 0, 0, 0)

  function AddCost(a: Cost, b: Cost): Cost {
    Cost(a.nonCached + b.nonCached, a.cached + b.cached, a.input + b.input, a.output + b.output, a.total + b.total)
  }

  const FREE := Cost(0.0, 0.0, 0.0, 0.0, 0.0)

  /** `recordUsage`. */
  function Recorded(model: string, inputTokens: int, outputTokens: int, cachedInputTokens: int): (r: Row)
    ensures Consistent(r.tokens) && r.model == model
    ensures r.tokens.input == inputTokens && r.tokens.output == outputTokens && r.tokens.cached == cachedInputTokens
  {
    var nonCached, total := inputTokens - cachedInputTokens, inputTokens + outputTokens;
    Row(model, Tokens(inputTokens, cachedInputTokens, nonCached, outputTokens, total))
  }

  ghost predicate Consistent(t: Tokens) {
    t.total == t.input + t.output && t.input == t.cached + t.nonCached
  }

  // ---------------------------------------------------------------------------
  // Rounding to six places

  /** The integer nearest to y, the even one when two are equally near. */
  function Nearest(y: real): (n: int)
    ensures n as real - 0.5 <= y <= n as real + 0.5
  {
    var low := y.Floor;
    var rest := y - low as real;
    if rest < 0.5 || (rest == 0.5 && low % 2 == 0) then low else low + 1
  }

  function Round6(x: real): (r: real)
    ensures x - HALF_STEP <= r <= x + HALF_STEP
  {
    Nearest(x * 1000000.0) as real / 1000000.0
  }

  /** The result is a whole number of millionths, the even one when two are equally near. */
  lemma {:induction false} RoundedToMillionths(x: real) returns (n: int)
    ensures Round6(x) == n as real / 1000000.0
    ensures n as real - 0.5 == x * 1000000.0 || n as real + 0.5 == x * 1000000.0 ==> n % 2 == 0
  {
    n := Nearest(x * 1000000.0);
  }

  // ---------------------------------------------------------------------------
  // Costs

  function Charge(tokens: int, price: real, multiplier: real): real {
    tokens as real / 1000000.0 * price * multiplier
  }

  /** The cost before rounding. */
  function ExactCost(p: Price, t: Tokens): Cost {
    var nonCached := Charge(t.nonCached, p.input, p.multiplier);
    var cached := Charge(t.cached, p.cachedInput, p.multiplier);
    var output := Charge(t.output, p.output, p.multiplier);
    var input := nonCached + cached;
    Cost(nonCached, cached, input, output, input + output)
  }

  function Rounded(c: Cost): Cost {
    Cost(Round6(c.nonCached), Round6(c.cached), Round6(c.input), Round6(c.output), Round6(c.total))
  }

  /** `_computeCost`. */
  function ComputeCost(p: Price, t: Tokens): Cost {
    Rounded(ExactCost(p, t))
  }

  /** Prices are per million tokens of their kind, times the multiplier; the sums are of the parts before rounding. */
  lemma {:induction false} MillionTokens(p: Price, input: int, total: int)
    ensures ExactCost(p, Tokens(input, 0, 1000000, 0, total)) ==
            Cost(p.input * p.multiplier, 0.0, p.input * p.multiplier, 0.0, p.input * p.multiplier)
    ensures ExactCost(p, Tokens(input, 1000000, 0, 0, total)) ==
            Cost(0.0, p.cachedInput * p.multiplier, p.cachedInput * p.multiplier, 0.0, p.cachedInput * p.multiplier)
    ensures ExactCost(p, Tokens(input, 0, 0, 1000000, total)) ==
            Cost(0.0, 0.0, 0.0, p.output * p.multiplier, p.output * p.multiplier)
  {
    WholeMillion(p.input, p.multiplier);
    WholeMillion(p.cachedInput, p.multiplier);
    WholeMillion(p.output, p.multiplier);
    NothingCharged(p.input, p.multiplier);
    NothingCharged(p.cachedInput, p.multiplier);
    NothingCharged(p.output, p.multiplier);
  }

  lemma {:induction false} WholeMillion(price: real, multiplier: real)
    ensures Charge(1000000, price, multiplier) == price * multiplier
  {
    assert 1000000 as real / 1000000.0 == 1.0;
    assert 1.0 * price == price;
  }

  lemma {:induction false} ChargeAdds(a: int, b: int, price: real, multiplier: real)
    ensures Charge(a + b, price, multiplier) == Charge(a, price, multiplier) + Charge(b, price, multiplier)
  {
    var x, y := a as real / 1000000.0, b as real / 1000000.0;
    assert (a + b) as real / 1000000.0 == x + y;
    assert (x + y) * price == x * price + y * price;
    assert (x * price + y * price) * multiplier == x * price * multiplier + y * price * multiplier;
  }

  lemma {:induction false} ExactCostAdds(p: Price, a: Tokens, b: Tokens)
    ensures ExactCost(p, Plus(a, b)) == AddCost(ExactCost(p, a), ExactCost(p, b))
  {
    ChargeAdds(a.nonCached, b.nonCached, p.input, p.multiplier);
    ChargeAdds(a.cached, b.cached, p.cachedInput, p.multiplier);
    ChargeAdds(a.output, b.output, p.output, p.multiplier);
  }

  lemma {:induction false} NothingCharged(price: real, multiplier: real)
    ensures Charge(0, price, multiplier) == 0.0
  {
    ChargeAdds(0, 0, price, multiplier);
  }

  lemma {:induction false} NothingIsFree(p: Price)
    ensures ExactCost(p, NOTHING) == FREE
  {
    NothingCharged(p.input, p.multiplier);
    NothingCharged(p.cachedInput, p.multiplier);
    NothingCharged(p.output, p.multiplier);
  }

  // ---------------------------------------------------------------------------
  // Sums over calls and over models

  function SumTokens(rows: seq<Row>): Tokens {
    if rows == [] then NOTHING else Plus(rows[0].tokens, SumTokens(rows[1..]))
  }

  /** One row of the query grouped by model. */
  function ModelTokens(rows: seq<Row>, model: string): Tokens {
    if rows == [] then NOTHING
    else if rows[0].model == model then Plus(rows[0].tokens, ModelTokens(rows[1..], model))
    else ModelTokens(rows[1..], model)
  }

  function SumModelTokens(rows: seq<Row>, models: seq<string>): Tokens {
    if models == [] then NOTHING else Plus(ModelTokens(rows, models[0]), SumModelTokens(rows, models[1..]))
  }

  /** The exact cost of all calls. */
  function ExactCalls(price: string -> Price, rows: seq<Row>): Cost {
    if rows == [] then FREE else AddCost(ExactCost(price(rows[0].model), rows[0].tokens), ExactCalls(price, rows[1..]))
  }

  /** The sum of the costs that `getSessionUsage` lists, one rounding per call. */
  function RoundedCalls(price: string -> Price, rows: seq<Row>): Cost {
    if rows == [] then FREE
    else AddCost(ComputeCost(price(rows[0].model), rows[0].tokens), RoundedCalls(price, rows[1..]))
  }

  function ExactModels(price: string -> Price, rows: seq<Row>, models: seq<string>): Cost {
    if models == [] then FREE
    else AddCost(ExactCost(price(models[0]), ModelTokens(rows, models[0])), ExactModels(price, rows, models[1..]))
  }

  function RoundedModels(price: string -> Price, rows: seq<Row>, models: seq<string>): Cost {
    if models == [] then FREE
    else AddCost(ComputeCost(price(models[0]), ModelTokens(rows, models[0])), RoundedModels(price, rows, models[1..]))
  }

  /** An order in which the grouped query may list the models: each model of the rows once. */
  ghost predicate Groups(rows: seq<Row>, models: seq<string>) {
    && (forall i, j | 0 <= i < j < |models| :: models[i] != models[j])
    && (forall m :: m in models <==> exists i | 0 <= i < |rows| :: rows[i].model == m)
  }

  /** Every field of the totals is the sum over the calls. */
  lemma {:induction false} SumTokensStep(row: Row, rows: seq<Row>)
    ensures SumTokens([]) == Tokens(0, 0, 0, 0, 0)
    ensures var s, t := SumTokens([row] + rows), SumTokens(rows);
            && s.input == row.tokens.input + t.input && s.cached == row.tokens.cached + t.cached
            && s.nonCached == row.tokens.nonCached + t.nonCached && s.output == row.tokens.output + t.output
            && s.total == row.tokens.total + t.total
  {
    assert ([row] + rows)[1..] == rows;
  }

  /** A model's totals are those of its own calls. */
  lemma {:induction false} ModelTokensStep(row: Row, rows: seq<Row>, model: string)
    ensures ModelTokens([], model) == Tokens(0, 0, 0, 0, 0)
    ensures ModelTokens([row] + rows, model) ==
            if row.model == model then SumTokens([row, Row(model, ModelTokens(rows, model))])
            else ModelTokens(rows, model)
  {
    assert ([row] + rows)[1..] == rows;
    var pair := [row, Row(model, ModelTokens(rows, model))];
    assert pair[1..] == [Row(model, ModelTokens(rows, model))] && pair[1..][1..] == [];
    assert SumTokens(pair[1..][1..]) == NOTHING;
  }

  // ---------------------------------------------------------------------------
  // Grouping loses and invents nothing

  lemma {:induction false} OneMoreTokens(row: Row, rows: seq<Row>, models: seq<string>)
    requires forall i, j | 0 <= i < j < |models| :: models[i] != models[j]
    ensures SumModelTokens([row] + rows, models) ==
            if row.model in models then Plus(row.tokens, SumModelTokens(rows, models)) else SumModelTokens(rows, models)
  {
    assert ([row] + rows)[1..] == rows;
    if models != [] {
      OneMoreTokens(row, rows, models[1..]);
    }
  }

  lemma {:induction false} NoRowsNoTokens(models: seq<string>)
    ensures SumModelTokens([], models) == NOTHING
  {
    if models != [] {
      NoRowsNoTokens(models[1..]);
    }
  }

  ghost predicate Covers(rows: seq<Row>, models: seq<string>) {
    && (forall i, j | 0 <= i < j < |models| :: models[i] != models[j])
    && (forall i | 0 <= i < |rows| :: rows[i].model in models)
  }

  lemma {:induction false} GroupingKeepsTokens(rows: seq<Row>, models: seq<string>)
    requires Covers(rows, models)
    ensures SumModelTokens(rows, models) == SumTokens(rows)
  {
    if rows == [] {
      NoRowsNoTokens(models);
    } else {
      assert rows == [rows[0]] + rows[1..];
      OneMoreTokens(rows[0], rows[1..], models);
      GroupingKeepsTokens(rows[1..], models);
    }
  }

  lemma {:induction false} OneMoreCost(price: string -> Price, row: Row, rows: seq<Row>, models: seq<string>)
    requires forall i, j | 0 <= i < j < |models| :: models[i] != models[j]
    ensures var c := ExactModels(price, rows, models);
            ExactModels(price, [row] + rows, models) ==
            if row.model in models then AddCost(ExactCost(price(row.model), row.tokens), c) else c
  {
    assert ([row] + rows)[1..] == rows;
    if models != [] {
      OneMoreCost(price, row, rows, models[1..]);
      if row.model == models[0] {
        ExactCostAdds(price(row.model), row.tokens, ModelTokens(rows, row.model));
      }
    }
  }

  lemma {:induction false} NoRowsNoCost(price: string -> Price, models: seq<string>)
    ensures ExactModels(price, [], models) == FREE
  {
    if models != [] {
      NothingIsFree(price(models[0]));
      NoRowsNoCost(price, models[1..]);
    }
  }

  lemma {:induction false} NoRowsNoCharge(price: string -> Price, models: seq<string>)
    ensures RoundedModels(price, [], models) == FREE
  {
    if models != [] {
      NothingIsFree(price(models[0]));
      NoRowsNoCharge(price, models[1..]);
    }
  }

  /** Before rounding, charging each model's total is charging every call. */
  lemma {:induction false} GroupingKeepsCost(price: string -> Price, rows: seq<Row>, models: seq<string>)
    requires Covers(rows, models)
    ensures ExactModels(price, rows, models) == ExactCalls(price, rows)
  {
    if rows == [] {
      NoRowsNoCost(price, models);
    } else {
      assert rows == [rows[0]] + rows[1..];
      OneMoreCost(price, rows[0], rows[1..], models);
      GroupingKeepsCost(price, rows[1..], models);
    }
  }

  /** What holds of every recorded call holds of the session's totals. */
  lemma {:induction false} TotalsConsistent(rows: seq<Row>)
    requires forall i | 0 <= i < |rows| :: Consistent(rows[i].tokens)
    ensures Consistent(SumTokens(rows))
  {
    if rows != [] {
      TotalsConsistent(rows[1..]);
    }
  }

  // ---------------------------------------------------------------------------
  // Rounding error

  ghost predicate Within(a: Cost, b: Cost, steps: nat) {
    forall part :: -(steps as real * HALF_STEP) <= Of(a, part) - Of(b, part) <= steps as real * HALF_STEP
  }

  lemma {:induction false} WithinAdd(a: Cost, b: Cost, m: nat, c: Cost, d: Cost, n: nat)
    requires Within(a, b, m) && Within(c, d, n)
    ensures Within(AddCost(a, c), AddCost(b, d), m + n)
  {
    assert (m + n) as real * HALF_STEP == m as real * HALF_STEP + n as real * HALF_STEP;
    var bound := (m + n) as real * HALF_STEP;
    forall part ensures -bound <= Of(AddCost(a, c), part) - Of(AddCost(b, d), part) <= bound {
      assert Of(AddCost(a, c), part) == Of(a, part) + Of(c, part);
      assert Of(AddCost(b, d), part) == Of(b, part) + Of(d, part);
    }
  }

  lemma {:induction false} RoundedWithin(c: Cost)
    ensures Within(Rounded(c), c, 1) && Within(c, Rounded(c), 1)
  {
  }

  lemma {:induction false} CallsError(price: string -> Price, rows: seq<Row>)
    ensures Within(ExactCalls(price, rows), RoundedCalls(price, rows), |rows|)
  {
    if rows != [] {
      var c := ExactCost(price(rows[0].model), rows[0].tokens);
      RoundedWithin(c);
      CallsError(price, rows[1..]);
      WithinAdd(c, Rounded(c), 1, ExactCalls(price, rows[1..]), RoundedCalls(price, rows[1..]), |rows| - 1);
    }
  }

  lemma {:induction false} ModelsError(price: string -> Price, rows: seq<Row>, models: seq<string>)
    ensures Within(RoundedModels(price, rows, models), ExactModels(price, rows, models), |models|)
  {
    if models != [] {
      var c := ExactCost(price(models[0]), ModelTokens(rows, models[0]));
      RoundedWithin(c);
      ModelsError(price, rows, models[1..]);
      WithinAdd(Rounded(c), c, 1,
                RoundedModels(price, rows, models[1..]), ExactModels(price, rows, models[1..]), |models| - 1);
    }
  }

  lemma {:induction false} WithinChain(a: Cost, b: Cost, m: nat, c: Cost, n: nat)
    requires Within(a, b, m) && Within(b, c, n)
    ensures Within(a, c, m + n)
  {
    assert (m + n) as real * HALF_STEP == m as real * HALF_STEP + n as real * HALF_STEP;
  }

  /** Every billed part is within half a step per call, per model and once more of the sum of the listed costs. */
  lemma {:induction false} BilledNearCalls(price: string -> Price, rows: seq<Row>, models: seq<string>)
    requires Covers(rows, models)
    ensures Within(Rounded(RoundedModels(price, rows, models)), RoundedCalls(price, rows), 1 + |models| + |rows|)
  {
    var sum := RoundedModels(price, rows, models);
    RoundedWithin(sum);
    ModelsError(price, rows, models);
    GroupingKeepsCost(price, rows, models);
    CallsError(price, rows);
    WithinChain(Rounded(sum), sum, 1, ExactCalls(price, rows), |models|);
    WithinChain(Rounded(sum), ExactCalls(price, rows), 1 + |models|, RoundedCalls(price, rows), |rows|);
  }

  // ---------------------------------------------------------------------------
  // The loops

  datatype Bill = Bill(tokens: Tokens, cost: Cost, calls: nat)

  /** `getSessionUsage`: one rounded cost per call, in order. */
  method SessionUsage(price: string -> Price, rows: seq<Row>) returns (costs: seq<Cost>)
    ensures Listed(price, rows, costs) && AddUp(costs) == RoundedCalls(price, rows)
  {
    costs := [];
    for i := 0 to |rows|
      invariant |costs| == i
      invariant forall k | 0 <= k < i :: costs[k] == ComputeCost(price(rows[k].model), rows[k].tokens)
    {
      costs := costs + [ComputeCost(price(rows[i].model), rows[i].tokens)];
    }
    ListedAddUp(price, rows, costs);
  }

  ghost predicate Listed(price: string -> Price, rows: seq<Row>, costs: seq<Cost>) {
    && |costs| == |rows|
    && forall k | 0 <= k < |rows| :: costs[k] == ComputeCost(price(rows[k].model), rows[k].tokens)
  }

  function AddUp(costs: seq<Cost>): Cost {
    if costs == [] then FREE else AddCost(costs[0], AddUp(costs[1..]))
  }

  lemma {:induction false} ListedAddUp(price: string -> Price, rows: seq<Row>, costs: seq<Cost>)
    requires Listed(price, rows, costs)
    ensures AddUp(costs) == RoundedCalls(price, rows)
  {
    if rows != [] {
      ListedAddUp(price, rows[1..], costs[1..]);
    }
  }

  /** The loop over the grouped rows. */
  method ChargeModels(price: string -> Price, rows: seq<Row>, models: seq<string>) returns (sum: Cost)
    ensures sum == RoundedModels(price, rows, models)
  {
    sum := FREE;
    for i := 0 to |models|
      invariant RoundedModels(price, rows, models) == AddCost(sum, RoundedModels(price, rows, models[i..]))
    {
      sum := AddCost(sum, ComputeCost(price(models[i]), ModelTokens(rows, models[i])));
      assert models[i..][1..] == models[i + 1..];
    }
  }

  lemma {:induction false} NoRowsBill(price: string -> Price, models: seq<string>)
    ensures Rounded(RoundedModels(price, [], models)) == FREE
  {
    NoRowsNoCharge(price, models);
  }

  /** `getSessionBilling`: exact token totals, and costs close to those listed per call. */
  method SessionBilling(price: string -> Price, rows: seq<Row>, models: seq<string>) returns (bill: Bill)
    requires Groups(rows, models)
    ensures bill.calls == |rows| && bill.tokens == SumTokens(rows) && bill.tokens == SumModelTokens(rows, models)
    ensures bill.cost == Rounded(RoundedModels(price, rows, models))
    ensures Within(bill.cost, RoundedCalls(price, rows), 1 + |models| + |rows|)
  {
    GroupingKeepsTokens(rows, models);
    BilledNearCalls(price, rows, models);
    if rows == [] {
      NoRowsBill(price, models);
      return Bill(NOTHING, FREE, 0);
    }
    var sum := ChargeModels(price, rows, models);
    bill := Bill(SumTokens(rows), Rounded(sum), |rows|);
  }
}
