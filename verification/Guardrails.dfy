/** The limits around an agent's tool calls (`agent/builtin.go`) on values: how often the base
handler may have run, and the spend ledger with its 64-bit arithmetic. */
module Guardrails {
  import opened Int64
  import opened Options

  datatype Limits = Limits(maxSteps: int, loopLimit: int, maxSpend: int64, budget: int64,
                           toolMaxAttempts: int, toolSpend: map<string, int64>,
                           checkpointed: bool, approves: bool)

  // ----- how often the base handler runs -----

  function Attempts(l: Limits): (n: nat)
    ensures n >= 1
  {
    if l.toolMaxAttempts <= 0 then 1 else l.toolMaxAttempts
  }

  function Least(a: int, b: int): int {
    if a <= b then a else b
  }

  function Seen(calls: map<string, int>, call: string): int {
    if call in calls then calls[call] else 0
  }

  /** The base handler ran `call`, at most n times, and nothing else. */
  ghost predicate Ran(before: multiset<string>, after: multiset<string>, call: string, n: nat) {
    before[call] <= after[call] <= before[call] + n && after == before[call := after[call]]
  }

  /** Only calls within the step limit reached the base handler, each at most Attempts times. */
  ghost predicate StepBound(l: Limits, steps: int, executed: multiset<string>) {
    l.maxSteps > 0 ==> 0 <= steps && |executed| <= Attempts(l) * Least(steps, l.maxSteps)
  }

  ghost predicate LoopBound(l: Limits, calls: map<string, int>, executed: multiset<string>) {
    l.loopLimit > 0 ==>
      forall c :: 0 <= Seen(calls, c) && executed[c] <= Attempts(l) * Least(Seen(calls, c), l.loopLimit)
  }

  lemma OneMore(a: nat, n: int)
    ensures a * (n + 1) == a * n + a
  {
  }

  lemma StepCounted(l: Limits, steps: int, before: multiset<string>, after: multiset<string>, call: string)
    requires l.maxSteps > 0 && StepBound(l, steps, before)
    requires if steps + 1 > l.maxSteps then after == before else Ran(before, after, call, Attempts(l))
    ensures StepBound(l, steps + 1, after)
  {
    OneMore(Attempts(l), steps);
  }

  lemma LoopCounted(l: Limits, calls: map<string, int>, before: multiset<string>, after: multiset<string>, call: string)
    requires l.loopLimit > 0 && LoopBound(l, calls, before)
    requires if Seen(calls, call) + 1 > l.loopLimit then after == before else Ran(before, after, call, Attempts(l))
    ensures LoopBound(l, calls[call := Seen(calls, call) + 1], after)
  {
    OneMore(Attempts(l), Seen(calls, call));
    var now := calls[call := Seen(calls, call) + 1];
    forall c ensures 0 <= Seen(now, c) && after[c] <= Attempts(l) * Least(Seen(now, c), l.loopLimit) {
      assert 0 <= Seen(calls, c) && before[c] <= Attempts(l) * Least(Seen(calls, c), l.loopLimit);
    }
  }

  /** In one ask the base handler runs at most MaxSteps times Attempts in all, and LoopLimit
      times Attempts for one name and arguments. */
  lemma BoundedRuns(l: Limits, steps: int, calls: map<string, int>, executed: multiset<string>, call: string)
    requires StepBound(l, steps, executed) && LoopBound(l, calls, executed)
    ensures var attempts := if l.toolMaxAttempts > 1 then l.toolMaxAttempts else 1;
            && (l.maxSteps > 0 ==> |executed| <= l.maxSteps * attempts)
            && (l.loopLimit > 0 ==> executed[call] <= l.loopLimit * attempts)
  {
    if l.maxSteps > 0 {
      Scaled(Attempts(l), Least(steps, l.maxSteps), l.maxSteps);
    }
    if l.loopLimit > 0 {
      assert executed[call] <= Attempts(l) * Least(Seen(calls, call), l.loopLimit);
      Scaled(Attempts(l), Least(Seen(calls, call), l.loopLimit), l.loopLimit);
    }
  }

  lemma Scaled(a: nat, n: int, m: int)
    requires n <= m
    ensures a * n <= m * a
  {
    assert a * (m - n) >= 0;
  }

  // ----- the spend ledger -----

  function Cap(l: Limits): int {
    if l.maxSpend >= l.budget then l.maxSpend else l.budget
  }

  function Price(l: Limits, name: string): int64 {
    if name in l.toolSpend then l.toolSpend[name] else 0
  }

  /** Both budgets are set. */
  ghost predicate Limited(l: Limits) {
    0 < l.maxSpend && 0 < l.budget
  }

  /** Whether a priced call passes the spend check. */
  predicate Admitted(l: Limits, spend: int, amount: int) {
    Add(spend, amount) <= l.maxSpend
  }

  /** The spend check is exact if and only if the sum does not leave the int64 range. */
  lemma AdmissionExactIff(l: Limits, spend: int, amount: int)
    requires 0 < l.maxSpend < TWO63 && 0 <= spend < TWO63 && 0 < amount < TWO63
    ensures (Admitted(l, spend, amount) <==> spend + amount <= l.maxSpend) <==> spend + amount < TWO63
    ensures spend + amount >= TWO63 ==> Admitted(l, spend, amount) && Add(spend, amount) < 0
  {
  }

  // ----- which amounts can be spent -----

  function Total(l: Limits, names: seq<string>): int {
    if names == [] then 0 else Total(l, names[..|names| - 1]) + Price(l, names[|names| - 1])
  }

  ghost predicate AllPriced(l: Limits, names: seq<string>) {
    forall i :: 0 <= i < |names| ==> Price(l, names[i]) > 0
  }

  /** An amount that payments of `paid` and the prices of `names` add up to within the budgets. */
  ghost predicate AddsUp(l: Limits, s: int, paid: int, names: seq<string>) {
    && 0 <= paid <= l.budget && AllPriced(l, names) && s == paid + Total(l, names)
    && (names != [] ==> s <= l.maxSpend)
  }

  ghost predicate Spendable(l: Limits, s: int) {
    exists paid, names :: AddsUp(l, s, paid, names)
  }

  /** No price leaves the int64 range on top of an amount that can be spent. */
  ghost predicate SpendsFit(l: Limits) {
    Limited(l) && forall s, n :: Spendable(l, s) && Price(l, n) > 0 ==> s + Price(l, n) < TWO63
  }

  lemma {:induction false} TotalIsPositive(l: Limits, names: seq<string>)
    requires AllPriced(l, names)
    ensures Total(l, names) >= 0
  {
    if names != [] {
      TotalIsPositive(l, names[..|names| - 1]);
    }
  }

  lemma SpendableRange(l: Limits, s: int)
    requires Spendable(l, s)
    ensures 0 <= s <= Cap(l)
  {
    var paid, names :| AddsUp(l, s, paid, names);
    TotalIsPositive(l, names);
  }

  lemma PaidIsSpendable(l: Limits, s: int)
    requires 0 <= s <= l.budget
    ensures Spendable(l, s)
  {
    assert AddsUp(l, s, s, []);
  }

  lemma PricedIsSpendable(l: Limits, s: int, name: string)
    requires Spendable(l, s) && Price(l, name) > 0 && s + Price(l, name) <= l.maxSpend
    ensures Spendable(l, s + Price(l, name))
  {
    var paid, names :| AddsUp(l, s, paid, names);
    var more := names + [name];
    assert more[..|names|] == names;
    assert AddsUp(l, s + Price(l, name), paid, more);
  }

  /** For MaxSpend up to Budget the condition is about Budget alone, */
  lemma SpendsFitIff(l: Limits)
    requires Limited(l) && l.maxSpend <= l.budget
    ensures SpendsFit(l) <==> forall n :: Price(l, n) > 0 ==> Price(l, n) + l.budget < TWO63
  {
    PaidIsSpendable(l, l.budget);
    forall s | Spendable(l, s) ensures s <= l.budget {
      SpendableRange(l, s);
    }
  }

  /** and in general it is enough that every price fits on top of the larger of the two. */
  lemma PricesFit(l: Limits)
    requires Limited(l) && forall n :: Price(l, n) > 0 ==> Price(l, n) + Cap(l) < TWO63
    ensures SpendsFit(l)
  {
    forall s | Spendable(l, s) ensures s <= Cap(l) {
      SpendableRange(l, s);
    }
  }

  // ----- the recorded spend -----

  /** The recorded spend, what of it is reserved for the call in progress, and what was really
      kept for finished calls and paid by payments. */
  datatype Purse = Purse(spend: int, reserved: int, kept: int, paid: int)

  const EMPTY := Purse(0, 0, 0, 0)

  datatype Transfer = Pay(amount: int) | Reserve(name: string) | Settle(keep: bool)

  function Transferred(l: Limits, p: Purse, t: Transfer): Option<Purse> {
    match t
    case Pay(amount) =>
      if 0 < amount < TWO63 && (l.budget > 0 ==> amount <= Add(l.budget, -p.spend))
      then Some(p.(spend := Add(p.spend, amount), paid := p.paid + amount)) else None
    case Reserve(name) =>
      if p.reserved == 0 && Price(l, name) > 0 && l.maxSpend > 0 && Admitted(l, p.spend, Price(l, name))
      then Some(p.(spend := Add(p.spend, Price(l, name)), reserved := Price(l, name))) else None
    case Settle(keep) =>
      if p.reserved <= 0 then None
      else if keep then Some(p.(reserved := 0, kept := p.kept + p.reserved))
      else Some(p.(spend := Add(p.spend, -p.reserved), reserved := 0))
  }

  /** A sequence of transfers from an empty purse. */
  ghost predicate Spending(l: Limits, ts: seq<Transfer>, ps: seq<Purse>) {
    && |ps| == |ts| + 1 && ps[0] == EMPTY
    && forall i: nat :: i < |ts| ==> TransferAt(l, ts, ps, i)
  }

  ghost predicate TransferAt(l: Limits, ts: seq<Transfer>, ps: seq<Purse>, i: nat) {
    i < |ts| && i + 1 < |ps| && Transferred(l, ps[i], ts[i]) == Some(ps[i + 1])
  }

  /** Nothing has wrapped: the recorded spend is what was kept, paid and is reserved, and is an
      amount that payments and prices add up to. */
  ghost predicate PurseOk(l: Limits, p: Purse) {
    && 0 <= p.reserved && 0 <= p.kept && 0 <= p.paid <= l.budget && p.spend == p.kept + p.paid + p.reserved
    && Spendable(l, p.spend - p.reserved) && Spendable(l, p.spend)
  }

  lemma PayKeepsPurse(l: Limits, p: Purse, amount: int)
    requires Limited(l) && PurseOk(l, p) && Transferred(l, p, Pay(amount)).Some?
    ensures PurseOk(l, Transferred(l, p, Pay(amount)).value)
  {
    SpendableRange(l, p.spend);
    SpendableRange(l, p.spend - p.reserved);
    PaidIsSpendable(l, p.spend + amount);
    PaidIsSpendable(l, p.spend + amount - p.reserved);
  }

  lemma ReserveKeepsPurse(l: Limits, p: Purse, name: string)
    requires SpendsFit(l) && PurseOk(l, p) && Transferred(l, p, Reserve(name)).Some?
    ensures PurseOk(l, Transferred(l, p, Reserve(name)).value)
  {
    SpendableRange(l, p.spend);
    assert p.spend + Price(l, name) < TWO63;
    PricedIsSpendable(l, p.spend, name);
  }

  lemma SettleKeepsPurse(l: Limits, p: Purse, keep: bool)
    requires Limited(l) && PurseOk(l, p) && Transferred(l, p, Settle(keep)).Some?
    ensures PurseOk(l, Transferred(l, p, Settle(keep)).value)
  {
    SpendableRange(l, p.spend);
    SpendableRange(l, p.spend - p.reserved);
  }

  /** As long as the prices fit, no transfer wraps and the spend stays a spendable amount. */
  lemma TransferKeepsPurse(l: Limits, p: Purse, t: Transfer)
    requires SpendsFit(l) && PurseOk(l, p) && Transferred(l, p, t).Some?
    ensures PurseOk(l, Transferred(l, p, t).value)
  {
    match t
    case Pay(amount) => PayKeepsPurse(l, p, amount);
    case Reserve(name) => ReserveKeepsPurse(l, p, name);
    case Settle(keep) => SettleKeepsPurse(l, p, keep);
  }

  /** Under all limits, the recorded spend is what was kept, paid and is reserved, in 64 bits. */
  ghost predicate Balanced(p: Purse) {
    0 <= p.reserved < TWO63 && p.spend == Wrap(p.kept + p.paid + p.reserved)
  }

  lemma {:induction false} SpendingIsBalanced(l: Limits, ts: seq<Transfer>, ps: seq<Purse>, i: nat)
    requires Spending(l, ts, ps) && i < |ps|
    ensures Balanced(ps[i])
  {
    if i > 0 {
      SpendingIsBalanced(l, ts, ps, i - 1);
      var p, t := ps[i - 1], ts[i - 1];
      assert TransferAt(l, ts, ps, i - 1);
      var total := p.kept + p.paid + p.reserved;
      match t {
        case Pay(amount) => WrapAdd(total, amount);
        case Reserve(name) => WrapAdd(total, Price(l, name));
        case Settle(keep) => WrapAdd(total, -p.reserved);
      }
    }
  }

  lemma {:induction false} SpendingKeepsPurse(l: Limits, ts: seq<Transfer>, ps: seq<Purse>, i: nat)
    requires SpendsFit(l) && Spending(l, ts, ps) && i < |ps|
    ensures PurseOk(l, ps[i])
  {
    if i == 0 {
      PaidIsSpendable(l, 0);
    } else {
      SpendingKeepsPurse(l, ts, ps, i - 1);
      assert TransferAt(l, ts, ps, i - 1);
      TransferKeepsPurse(l, ps[i - 1], ts[i - 1]);
    }
  }

  ghost predicate StaysInRange(l: Limits, ps: seq<Purse>) {
    forall i :: 0 <= i < |ps| ==> 0 <= ps[i].spend && (ps[i].spend <= l.maxSpend || ps[i].spend <= l.budget)
  }

  ghost predicate AlwaysInRange(l: Limits) {
    forall ts, ps :: Spending(l, ts, ps) ==> StaysInRange(l, ps)
  }

  lemma SpendingSnoc(l: Limits, ts: seq<Transfer>, ps: seq<Purse>, t: Transfer, p: Purse)
    requires Spending(l, ts, ps) && Transferred(l, ps[|ts|], t) == Some(p)
    ensures Spending(l, ts + [t], ps + [p])
  {
    var us, qs := ts + [t], ps + [p];
    forall i: nat | i < |us| ensures TransferAt(l, us, qs, i) {
      if i < |ts| {
        assert TransferAt(l, ts, ps, i);
      }
    }
  }

  /** Every amount that can be spent within the int64 range is reached: a payment, and then the
      priced calls, kept one after the other. */
  lemma {:induction false} SpendableIsReached(l: Limits, s: int, paid: int, names: seq<string>)
    returns (ts: seq<Transfer>, ps: seq<Purse>)
    requires Limited(l) && AddsUp(l, s, paid, names)
    ensures Spending(l, ts, ps) && ps[|ts|] == Purse(s, 0, s - paid, paid)
    decreases |names|
  {
    if names == [] {
      ts, ps := [], [EMPTY];
      if paid > 0 {
        SpendingSnoc(l, ts, ps, Pay(paid), Purse(paid, 0, 0, paid));
        ts, ps := ts + [Pay(paid)], ps + [Purse(paid, 0, 0, paid)];
      }
    } else {
      var n := |names| - 1;
      var price := Price(l, names[n]);
      TotalIsPositive(l, names[..n]);
      ts, ps := SpendableIsReached(l, s - price, paid, names[..n]);
      var reserved, kept := Purse(s, price, s - price - paid, paid), Purse(s, 0, s - paid, paid);
      SpendingSnoc(l, ts, ps, Reserve(names[n]), reserved);
      ts, ps := ts + [Reserve(names[n])], ps + [reserved];
      SpendingSnoc(l, ts, ps, Settle(true), kept);
      ts, ps := ts + [Settle(true)], ps + [kept];
    }
  }

  /** A price that does not fit on top of a spendable amount is admitted once that amount is
      spent, and turns the recorded spend negative. */
  lemma UnfittingPriceTurnsNegative(l: Limits, s: int, name: string) returns (ts: seq<Transfer>, ps: seq<Purse>)
    requires Limited(l) && Spendable(l, s) && Price(l, name) > 0 && s + Price(l, name) >= TWO63
    ensures Spending(l, ts, ps) && ps[|ts|].spend < 0
  {
    var paid, names :| AddsUp(l, s, paid, names);
    SpendableRange(l, s);
    ts, ps := SpendableIsReached(l, s, paid, names);
    AdmissionExactIff(l, s, Price(l, name));
    var last := Purse(Add(s, Price(l, name)), Price(l, name), s - paid, paid);
    SpendingSnoc(l, ts, ps, Reserve(name), last);
    ts, ps := ts + [Reserve(name)], ps + [last];
  }

  /** As long as every price fits on top of every amount that can be spent, the recorded spend
      stays within the larger budget, through every sequence of payments, reservations and
      refunds, under all step and loop limits. */
  lemma SpendStaysInRange(l: Limits)
    requires SpendsFit(l)
    ensures AlwaysInRange(l)
  {
    forall ts: seq<Transfer>, ps: seq<Purse> | Spending(l, ts, ps) ensures StaysInRange(l, ps) {
      forall i | 0 <= i < |ps| ensures 0 <= ps[i].spend <= Cap(l) {
        SpendingKeepsPurse(l, ts, ps, i);
        SpendableRange(l, ps[i].spend);
      }
    }
  }

  /** Any number of calls gets through the step and loop limits. */
  ghost predicate Unlimited(l: Limits) {
    l.maxSteps <= 0 && l.loopLimit <= 0
  }

  /** Without step and loop limits that is exact: if and only if. */
  lemma SpendInRangeIff(l: Limits)
    requires Limited(l) && Unlimited(l)
    ensures AlwaysInRange(l) <==> SpendsFit(l)
  {
    if SpendsFit(l) {
      SpendStaysInRange(l);
    } else {
      var s, n :| Spendable(l, s) && Price(l, n) > 0 && s + Price(l, n) >= TWO63;
      var ts, ps := UnfittingPriceTurnsNegative(l, s, n);
      assert !StaysInRange(l, ps);
    }
  }

  /** For MaxSpend up to Budget: if and only if every positive price plus Budget is an int64
      number. A bound on price plus MaxSpend does not do. */
  lemma SpendInRangeIffBudgetFits(l: Limits)
    requires Limited(l) && Unlimited(l) && l.maxSpend <= l.budget
    ensures AlwaysInRange(l) <==> forall n :: Price(l, n) > 0 ==> Price(l, n) + l.budget < TWO63
  {
    SpendInRangeIff(l);
    SpendsFitIff(l);
  }

  /** Price plus MaxSpend is 3, and a payment followed by a priced call still turns the recorded
      spend negative. */
  lemma BudgetAboveMaxSpendWraps() returns (l: Limits, ts: seq<Transfer>, ps: seq<Purse>)
    ensures Limited(l) && Unlimited(l) && l.maxSpend == 1 && l.toolSpend == map["t" := 2]
    ensures ts == [Pay(TWO63 - 1), Reserve("t")] && Spending(l, ts, ps) && ps[2].spend < 0
  {
    l := Limits(0, 0, 1, TWO63 - 1, 1, map["t" := 2], false, false);
    ts := [Pay(TWO63 - 1), Reserve("t")];
    AdmissionExactIff(l, TWO63 - 1, 2);
    ps := [EMPTY, Purse(TWO63 - 1, 0, 0, TWO63 - 1), Purse(Add(TWO63 - 1, 2), 2, 0, TWO63 - 1)];
  }
}
