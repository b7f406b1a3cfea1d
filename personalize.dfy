/** Personalized actions (app/reco/personalize.py): every recommendation is turned into a
    suggested quantity against the portfolio. A BUY spends up to a multiple of 5% of the total
    portfolio value, capped by the cash; a SELL sells the whole holding, half or a quarter; a
    HOLD is reported with quantity 0. */
module Personalize {
  import opened Wrappers
  import opened Numeric
  import opened Text
  import opened RecoModels
  import opened Engine
  import opened Service

  /** A key of the portfolio file: missing, a JSON null (which the portfolio's own save writes
      for an unset optional field), or a value. */
  datatype Field<T> = Missing | Null | Value(v: T)

  /** `d.get(key, default)`: the default for a missing key, None for a null. */
  function Get<T>(f: Field<T>, default: T): Option<T> {
    match f
    case Missing => Some(default)
    case Null => None
    case Value(x) => Some(x)
  }

  /** A position of the portfolio file as the function reads it; a symbol of None is a missing
      or null key. */
  datatype PositionRow = PositionRow(
    symbol: Option<string>, qty: Field<int>, quantity: Field<int>, currentValue: Field<real>)

  /** The portfolio file: the cash and the positions list. */
  datatype PortfolioData = PortfolioData(cash: Field<real>, positions: seq<PositionRow>)

  /** One element of the returned list. */
  datatype ActionEntry = ActionEntry(
    symbol: string, price: real, action: Action, score: real, reasons: seq<Reason>,
    sizingHint: Option<string>, confidence: Confidence, qtySuggested: int, cashImpact: real,
    currentPosition: Option<int>, currentValue: real)

  /** The value of a position: 0 when the key is missing, None when it is null. */
  function ValueOf(pos: PositionRow): Option<real> {
    Get(pos.currentValue, 0.0)
  }

  /** The sum over the positions, which raises (None) as soon as one value is null. */
  function PositionsValue(ps: seq<PositionRow>): Option<real>
    decreases |ps|
  {
    if ps == [] then Some(0.0)
    else
      var front := PositionsValue(ps[..|ps| - 1]);
      var last := ValueOf(ps[|ps| - 1]);
      if front.Some? && last.Some? then Some(front.value + last.value) else None
  }

  /** The sum fails exactly when some value is null, and non-negative values sum to a
      non-negative total. */
  lemma {:induction false} PositionsValueFacts(ps: seq<PositionRow>)
    ensures PositionsValue(ps).None? <==> exists i :: 0 <= i < |ps| && ps[i].currentValue.Null?
    ensures PositionsValue(ps).Some? && (forall i :: 0 <= i < |ps| && ps[i].currentValue.Value? ==> ps[i].currentValue.v >= 0.0)
            ==> PositionsValue(ps).value >= 0.0
    decreases |ps|
  {
    if ps != [] {
      var front := ps[..|ps| - 1];
      assert forall i :: 0 <= i < |front| ==> front[i] == ps[i];
      PositionsValueFacts(front);
      if PositionsValue(ps).None? && ValueOf(ps[|ps| - 1]).Some? {
        var i :| 0 <= i < |front| && front[i].currentValue.Null?;
        assert ps[i].currentValue.Null?;
      }
    }
  }

  /** calculate_portfolio_value: the cash (0 when missing) plus the value of every position; it
      raises (None) when the cash or a position's value is null. */
  function PortfolioValue(p: PortfolioData): (r: Option<real>)
    ensures r.None? <==> p.cash.Null? || exists i :: 0 <= i < |p.positions| && p.positions[i].currentValue.Null?
    ensures r.Some? && (forall i :: 0 <= i < |p.positions| && p.positions[i].currentValue.Value? ==> p.positions[i].currentValue.v >= 0.0)
            ==> r.value >= Get(p.cash, 0.0).GetOr(0.0)
  {
    PositionsValueFacts(p.positions);
    var cash := Get(p.cash, 0.0);
    var pv := PositionsValue(p.positions);
    if cash.Some? && pv.Some? then Some(cash.value + pv.value) else None
  }

  /** Adding a position adds its value, or makes the total raise when that value is null. */
  lemma PortfolioValueAppend(cash: Field<real>, ps: seq<PositionRow>, pos: PositionRow)
    ensures var before := PortfolioValue(PortfolioData(cash, ps));
            PortfolioValue(PortfolioData(cash, ps + [pos]))
            == if before.Some? && ValueOf(pos).Some? then Some(before.value + ValueOf(pos).value) else None
  {
    assert (ps + [pos])[..|ps|] == ps;
  }

  /** positions_map: positions keyed by symbol, a later position replacing an earlier one with
      the same symbol. A position without a symbol is keyed by None, which no recommendation
      symbol matches, so it is left out of the map. */
  function PositionsMap(ps: seq<PositionRow>): (m: map<string, PositionRow>)
    ensures forall s :: s in m <==> exists i :: 0 <= i < |ps| && ps[i].symbol == Some(s)
    decreases |ps|
  {
    if ps == [] then map[]
    else
      var front := ps[..|ps| - 1];
      var m0 := PositionsMap(front);
      var last := ps[|ps| - 1];
      assert forall i :: 0 <= i < |front| ==> front[i] == ps[i];
      if last.symbol.Some? then m0[last.symbol.value := last] else m0
  }

  /** The position found for a symbol is the last one in the list that carries it. */
  lemma {:induction false} PositionsMapLastWins(ps: seq<PositionRow>, s: string, i: int)
    requires 0 <= i < |ps| && ps[i].symbol == Some(s)
    requires forall j :: i < j < |ps| ==> ps[j].symbol != Some(s)
    ensures s in PositionsMap(ps) && PositionsMap(ps)[s] == ps[i]
    decreases |ps|
  {
    if i < |ps| - 1 {
      var front := ps[..|ps| - 1];
      assert front[i] == ps[i];
      PositionsMapLastWins(front, s, i);
    }
  }

  /** The held quantity `qty or quantity`: `qty` when it is a non-zero number, otherwise
      `quantity` (0 when missing); None when that is null. */
  function Holding(pos: PositionRow): (h: Option<int>)
    ensures h.None? <==> !(pos.qty.Value? && pos.qty.v != 0) && pos.quantity.Null?
    ensures pos.qty.Value? && pos.qty.v != 0 ==> h == Some(pos.qty.v)
  {
    var q := Get(pos.qty, 0);
    if q.Some? && q.value != 0 then q else Get(pos.quantity, 0)
  }

  /** The budget of a BUY: twice the base share for a hint that starts with "Увеличить" and
      mentions "2×", one and a half times for any other such hint, the base share otherwise;
      never more than the cash. */
  function BuyBudget(hint: string, base: real, cash: real): (b: real)
    ensures b <= cash
    ensures b == cash || b == base || b == base * 2.0 || b == base * 1.5
  {
    if StartsWith(hint, "Увеличить") then
      if Contains(hint, "2×") then Min(base * 2.0, cash) else Min(base * 1.5, cash)
    else Min(base, cash)
  }

  function Min(a: real, b: real): real {
    if a <= b then a else b
  }

  /** The quantity of a SELL of a positive holding: all of it when the hint says "полностью",
      half when it says "50%", a quarter otherwise; at least one share. */
  function SellQty(hint: string, held: int): (q: int)
    requires held > 0
    ensures 1 <= q <= held
    ensures Contains(hint, "полностью") ==> q == held
  {
    if Contains(hint, "полностью") then held
    else if Contains(hint, "50%") then MaxInt(1, held / 2)
    else MaxInt(1, held / 4)
  }

  function MaxInt(a: int, b: int): int {
    if a >= b then a else b
  }

  /** The number of shares a budget pays for: the largest whole number whose cost fits, so what
      is left over is less than one share's price. */
  function BuyQty(budget: real, price: real): (q: int)
    requires price > 0.0
    ensures Cost(q, price) <= budget < Cost(q, price) + price
  {
    FloorDivBounds(budget, price);
    (budget / price).Floor
  }

  lemma FloorDivBounds(b: real, p: real)
    requires p > 0.0
    ensures Cost((b / p).Floor, p) <= b < Cost((b / p).Floor, p) + p
  {
    var q := (b / p).Floor;
    AboveMultiple(b / p, q as real, p, b);
    BelowNextMultiple(b / p, q as real, p, b);
  }

  lemma AboveMultiple(y: real, r: real, p: real, b: real)
    requires p > 0.0 && r <= y && y * p == b
    ensures r * p <= b
  {
    assert (y - r) * p >= 0.0;
  }

  lemma BelowNextMultiple(y: real, r: real, p: real, b: real)
    requires p > 0.0 && y < r + 1.0 && y * p == b
    ensures b < r * p + p
  {
    var d := r + 1.0 - y;
    assert d * p > 0.0;
    assert d * p == r * p + p - y * p;
  }

  /** The money value of q shares at a price. */
  function Cost(q: int, price: real): real {
    q as real * price
  }

  /** What one recommendation turns into: nothing, an entry, or a failure that ends the whole
      run: a BUY, or a SELL of a holding, whose sizing hint is null; a SELL whose holding is
      null (`None > 0`); an entry whose position value is null (`round(None, 2)`). */
  datatype Outcome = Skip | Emit(entry: ActionEntry) | Fail

  /** The entry for an item with the computed quantity and cash effect. */
  function EntryOf(it: RecoItem, qty: int, impact: real, held: Option<int>, value: real): ActionEntry {
    ActionEntry(it.symbol, it.price, it.action, it.score, it.reasons, it.sizingHint, it.confidence,
                qty, Round2(impact), held, Round2(value))
  }

  /** Appending the entry, which rounds the position value and so fails on a null one. */
  function Emitted(it: RecoItem, qty: int, impact: real, held: Option<int>, value: Option<real>): Outcome {
    if value.None? then Fail else Emit(EntryOf(it, qty, impact, held, value.value))
  }

  /** The loop body for one recommendation, given the base share (5% of the total value), the
      cash and the positions map. */
  function StepOf(it: RecoItem, base: real, cash: real, m: map<string, PositionRow>): Outcome {
    if it.price <= 0.0 then Skip
    else
      var held := if it.symbol in m then Holding(m[it.symbol]) else Some(0);
      var value := if it.symbol in m then ValueOf(m[it.symbol]) else Some(0.0);
      match it.action
      case Buy =>
        if it.sizingHint.None? then Fail
        else
          var q := BuyQty(BuyBudget(it.sizingHint.value, base, cash), it.price);
          if q > 0 then Emitted(it, q, -Cost(q, it.price), held, value) else Skip
      case Sell =>
        if held.None? then Fail
        else if held.value <= 0 then Skip
        else if it.sizingHint.None? then Fail
        else
          var q := SellQty(it.sizingHint.value, held.value);
          Emitted(it, q, Cost(q, it.price), held, value)
      case Hold => Emitted(it, 0, 0.0, held, value)
  }

  /** The entries of the first items, or None once a failure has occurred. */
  function Run(recos: seq<RecoItem>, base: real, cash: real, m: map<string, PositionRow>)
    : Option<seq<ActionEntry>>
    decreases |recos|
  {
    if recos == [] then Some([])
    else
      match Run(recos[..|recos| - 1], base, cash, m)
      case None => None
      case Some(acc) =>
        match StepOf(recos[|recos| - 1], base, cash, m)
        case Skip => Some(acc)
        case Emit(e) => Some(acc + [e])
        case Fail => None
  }

  /** One more recommendation extends the run by its own outcome. */
  lemma RunAppend(recos: seq<RecoItem>, x: RecoItem, base: real, cash: real, m: map<string, PositionRow>)
    ensures Run(recos + [x], base, cash, m)
            == match Run(recos, base, cash, m)
               case None => None
               case Some(acc) =>
                 match StepOf(x, base, cash, m)
                 case Skip => Some(acc)
                 case Emit(e) => Some(acc + [e])
                 case Fail => None
  {
    assert (recos + [x])[..|recos|] == recos;
  }

  /** get_personalized_actions on a portfolio and the service's recommendations: the entries of
      every item, or [] when the portfolio value or any item fails. */
  function Personalized(p: PortfolioData, recos: seq<RecoItem>): seq<ActionEntry> {
    var total := PortfolioValue(p);
    if total.None? then []
    else Run(recos, 0.05 * total.value, Get(p.cash, 0.0).GetOr(0.0), PositionsMap(p.positions)).GetOr([])
  }

  /** get_personalized_actions, with the portfolio file and the recommendation list as inputs. */
  method GetPersonalizedActions(p: PortfolioData, recos: seq<RecoItem>) returns (actions: seq<ActionEntry>)
    ensures actions == Personalized(p, recos)
    ensures forall e :: e in actions ==>
              (e.action == Buy ==> e.qtySuggested >= 1 && Cost(e.qtySuggested, e.price) <= Get(p.cash, 0.0).GetOr(0.0))
              && (e.action == Sell ==> e.currentPosition.Some? && 1 <= e.qtySuggested <= e.currentPosition.value)
  {
    var total := PortfolioValue(p);
    if total.None? {
      return [];
    }
    var cash := Get(p.cash, 0.0).GetOr(0.0);
    var base := 0.05 * total.value;
    var m := PositionsMap(p.positions);
    actions := [];
    var i := 0;
    while i < |recos|
      invariant 0 <= i <= |recos|
      invariant Run(recos[..i], base, cash, m) == Some(actions)
    {
      assert recos[..i + 1][..i] == recos[..i];
      var o := StepOf(recos[i], base, cash, m);
      if o.Fail? {
        assert Run(recos, base, cash, m) == None by {
          RunFailStays(recos, i + 1, base, cash, m);
        }
        return [];
      }
      if o.Emit? {
        actions := actions + [o.entry];
      }
      i := i + 1;
    }
    assert recos[..i] == recos;
    PersonalizedBounds(p, recos);
  }

  /** Once a prefix fails, the whole run fails. */
  lemma {:induction false} RunFailStays(recos: seq<RecoItem>, k: nat, base: real, cash: real, m: map<string, PositionRow>)
    requires k <= |recos| && Run(recos[..k], base, cash, m) == None
    ensures Run(recos, base, cash, m) == None
    decreases |recos| - k
  {
    if k == |recos| {
      assert recos[..k] == recos;
    } else {
      assert recos[..k + 1][..k] == recos[..k];
      RunFailStays(recos, k + 1, base, cash, m);
    }
  }

  /** A suggested BUY buys at least one share and never costs more than the cash; its cash
      effect is the rounded negative cost. */
  lemma BuyWithinCash(it: RecoItem, base: real, cash: real, m: map<string, PositionRow>)
    requires it.action == Buy && StepOf(it, base, cash, m).Emit?
    ensures var e := StepOf(it, base, cash, m).entry;
            e.qtySuggested >= 1 && Cost(e.qtySuggested, it.price) <= cash
            && e.cashImpact == Round2(-Cost(e.qtySuggested, it.price))
  {
    var held := if it.symbol in m then Holding(m[it.symbol]) else Some(0);
    var value := if it.symbol in m then ValueOf(m[it.symbol]) else Some(0.0);
    var q := BuyQty(BuyBudget(it.sizingHint.value, base, cash), it.price);
    assert StepOf(it, base, cash, m) == Emit(EntryOf(it, q, -Cost(q, it.price), held, value.value));
  }

  /** The whole result keeps the two limits: every BUY buys at least one share and costs no more
      than the cash, and every SELL sells between one share and the (non-null) holding. */
  lemma {:induction false} RunBounds(recos: seq<RecoItem>, base: real, cash: real, m: map<string, PositionRow>)
    requires Run(recos, base, cash, m).Some?
    ensures forall e :: e in Run(recos, base, cash, m).value ==>
              (e.action == Buy ==> e.qtySuggested >= 1 && Cost(e.qtySuggested, e.price) <= cash)
              && (e.action == Sell ==> e.currentPosition.Some? && 1 <= e.qtySuggested <= e.currentPosition.value)
    decreases |recos|
  {
    if recos != [] {
      var front, x := recos[..|recos| - 1], recos[|recos| - 1];
      RunBounds(front, base, cash, m);
      var step := StepOf(x, base, cash, m);
      if step.Emit? {
        assert step.entry.action == x.action && step.entry.price == x.price;
        if x.action == Buy {
          BuyWithinCash(x, base, cash, m);
        } else if x.action == Sell {
          SellWithinHolding(x, base, cash, m);
        }
      }
    }
  }

  /** get_personalized_actions never proposes a BUY costing more than the cash, nor a SELL
      larger than the holding. */
  lemma PersonalizedBounds(p: PortfolioData, recos: seq<RecoItem>)
    ensures forall e :: e in Personalized(p, recos) ==>
              (e.action == Buy ==> e.qtySuggested >= 1 && Cost(e.qtySuggested, e.price) <= Get(p.cash, 0.0).GetOr(0.0))
              && (e.action == Sell ==> e.currentPosition.Some? && 1 <= e.qtySuggested <= e.currentPosition.value)
  {
    var total := PortfolioValue(p);
    if total.Some? {
      var r := Run(recos, 0.05 * total.value, Get(p.cash, 0.0).GetOr(0.0), PositionsMap(p.positions));
      if r.Some? {
        RunBounds(recos, 0.05 * total.value, Get(p.cash, 0.0).GetOr(0.0), PositionsMap(p.positions));
      }
    }
  }

  /** A suggested SELL sells between one share and the whole holding; a holding of zero or less
      is never sold. */
  lemma SellWithinHolding(it: RecoItem, base: real, cash: real, m: map<string, PositionRow>)
    requires it.action == Sell && StepOf(it, base, cash, m).Emit?
    ensures var e := StepOf(it, base, cash, m).entry;
            e.currentPosition.Some? && e.currentPosition.value > 0 && 1 <= e.qtySuggested <= e.currentPosition.value
            && e.cashImpact == Round2(Cost(e.qtySuggested, it.price))
  {
    var held := if it.symbol in m then Holding(m[it.symbol]) else Some(0);
    var value := if it.symbol in m then ValueOf(m[it.symbol]) else Some(0.0);
    var q := SellQty(it.sizingHint.value, held.value);
    assert StepOf(it, base, cash, m) == Emit(EntryOf(it, q, Cost(q, it.price), held, value.value));
  }

  /** Every HOLD with a positive price (and a position value that is not null) is reported,
      with nothing to trade. */
  lemma HoldReported(it: RecoItem, base: real, cash: real, m: map<string, PositionRow>)
    requires it.action == Hold && it.price > 0.0
    requires it.symbol in m ==> !m[it.symbol].currentValue.Null?
    ensures StepOf(it, base, cash, m).Emit?
    ensures StepOf(it, base, cash, m).entry.qtySuggested == 0
    ensures StepOf(it, base, cash, m).entry.cashImpact == 0.0
  {
    Round2Exact(0);
  }

  /** Items without a positive price are skipped. */
  lemma NoPriceSkipped(it: RecoItem, base: real, cash: real, m: map<string, PositionRow>)
    requires it.price <= 0.0
    ensures StepOf(it, base, cash, m) == Skip
  {
  }

  /** The service's BUY hints: "2×" doubles the base share, "1.5×" multiplies it by one and a
      half, the base hint keeps it. */
  lemma BuyBudgetOfHints(base: real, cash: real)
    ensures BuyBudget(HintDouble, base, cash) == Min(base * 2.0, cash)
    ensures BuyBudget(HintOneAndHalf, base, cash) == Min(base * 1.5, cash)
    ensures BuyBudget(HintBase, base, cash) == Min(base, cash)
  {
    assert StartsWith(HintDouble, "Увеличить");
    assert OccursAt(HintDouble, "2×", 21);
    ContainsAt(HintDouble, "2×", 21);
    assert StartsWith(HintOneAndHalf, "Увеличить");
    ContainedChars(HintOneAndHalf, "2×", 0);
    assert '2' !in HintOneAndHalf;
    assert HintBase[0] != "Увеличить"[0];
  }

  /** The service's SELL hints: close sells everything, "50%" half, "25%" a quarter. */
  lemma SellQtyOfHints(held: int)
    requires held > 0
    ensures SellQty(HintClose, held) == held
    ensures SellQty(HintHalf, held) == MaxInt(1, held / 2)
    ensures SellQty(HintQuarter, held) == MaxInt(1, held / 4)
  {
    assert OccursAt(HintClose, "полностью", 16);
    ContainsAt(HintClose, "полностью", 16);
    ContainedChars(HintHalf, "полностью", 2);
    assert 'л' !in HintHalf;
    assert OccursAt(HintHalf, "50%", 21);
    ContainsAt(HintHalf, "50%", 21);
    ContainedChars(HintQuarter, "полностью", 2);
    ContainedChars(HintQuarter, "50%", 1);
    assert 'л' !in HintQuarter && '0' !in HintQuarter;
  }

  /** Each BUY sizes against the whole cash, not the cash left after earlier BUYs: with 10.0 in
      cash, two BUYs at price 10.0 are each suggested one share, 20.0 together. */
  lemma BuysNotCumulative()
    ensures var it := RecoItem("AAA", 10.0, None, Buy, 3.0, [], Some(HintBase), Medium);
            var held := PositionRow(Some("BBB"), Value(1), Missing, Value(390.0));
            var r := Personalized(PortfolioData(Value(10.0), [held]), [it, it]);
            |r| == 2 && r[0].qtySuggested == 1 && r[1].qtySuggested == 1
  {
    var it := RecoItem("AAA", 10.0, None, Buy, 3.0, [], Some(HintBase), Medium);
    var held := PositionRow(Some("BBB"), Value(1), Missing, Value(390.0));
    var p := PortfolioData(Value(10.0), [held]);
    assert [held][..0] == [];
    assert PositionsValue([held]) == Some(390.0);
    assert PortfolioValue(p) == Some(400.0);
    BuyBudgetOfHints(20.0, 10.0);
    assert BuyQty(10.0, 10.0) == 1;
    var m := PositionsMap(p.positions);
    assert "AAA" !in m;
    var e := EntryOf(it, 1, -Cost(1, 10.0), Some(0), 0.0);
    assert StepOf(it, 0.05 * 400.0, 10.0, m) == Emit(e);
    RunAppend([], it, 0.05 * 400.0, 10.0, m);
    assert [] + [it] == [it] && [] + [e] == [e];
    RunAppend([it], it, 0.05 * 400.0, 10.0, m);
    assert [it] + [it] == [it, it] && [e] + [e] == [e, e];
  }

  /** A null position value makes the portfolio total raise, so the whole result is []. */
  lemma NullValueGivesNothing(p: PortfolioData, recos: seq<RecoItem>, i: int)
    requires 0 <= i < |p.positions| && p.positions[i].currentValue.Null?
    ensures Personalized(p, recos) == []
  {
    assert PortfolioValue(p).None?;
  }

  /** A SELL of a held symbol whose `qty or quantity` is null raises at `None > 0`. */
  lemma NullHoldingSellFails(it: RecoItem, base: real, cash: real, m: map<string, PositionRow>)
    requires it.action == Sell && it.price > 0.0 && it.symbol in m
    requires !(m[it.symbol].qty.Value? && m[it.symbol].qty.v != 0) && m[it.symbol].quantity.Null?
    ensures StepOf(it, base, cash, m) == Fail
  {
    assert Holding(m[it.symbol]).None?;
  }

  /** With 1000.0 in cash and a position {symbol "SBER", qty 10, current_value null}, a HOLD
      recommendation gives [], not a HOLD entry. */
  lemma NullValueExample()
    ensures var pos := PositionRow(Some("SBER"), Value(10), Missing, Null);
            var it := RecoItem("SBER", 100.0, None, Hold, 0.0, [], None, Medium);
            Personalized(PortfolioData(Value(1000.0), [pos]), [it]) == []
  {
    var pos := PositionRow(Some("SBER"), Value(10), Missing, Null);
    var it := RecoItem("SBER", 100.0, None, Hold, 0.0, [], None, Medium);
    NullValueGivesNothing(PortfolioData(Value(1000.0), [pos]), [it], 0);
  }
}
