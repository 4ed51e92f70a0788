/** When the durable step engine calls a step again: what an attempt leads to is decided by how
often the step has erred in a row just before it, and by the resolved retry count. */
module FlowRetries {
  import opened Options
  import opened FlowMachine
  import opened FlowInvariant

  /** A call of step i that returned an error. */
  predicate Errs(e: Event, i: nat) {
    e.Attempt? && e.i == i && e.result.Erred?
  }

  /** How often step i has erred in a row just before event q. */
  function Streak(h: seq<Event>, i: nat, q: nat): nat
    requires q <= |h|
  {
    if q == 0 || !Errs(h[q - 1], i) then 0 else 1 + Streak(h, i, q - 1)
  }

  lemma {:induction false} StreakIsErring(h: seq<Event>, i: nat, q: nat)
    requires q <= |h|
    ensures Streak(h, i, q) <= q
    ensures forall p :: q - Streak(h, i, q) <= p < q ==> Errs(h[p], i)
    ensures var p := q - Streak(h, i, q) - 1; p >= 0 ==> !Errs(h[p], i)
  {
    if q > 0 && Errs(h[q - 1], i) {
      StreakIsErring(h, i, q - 1);
    }
  }

  lemma {:induction false} ErringIsStreak(h: seq<Event>, i: nat, q: nat, n: nat)
    requires n <= q <= |h| && forall p :: q - n <= p < q ==> Errs(h[p], i)
    ensures Streak(h, i, q) >= n
  {
    if n > 0 {
      ErringIsStreak(h, i, q - 1, n - 1);
    }
  }

  /** A run waits for an attempt after its step was marked, or after the attempt before erred. */
  lemma WorkingComesFrom(c: Config, s: Sys, e: Event, s': Sys)
    requires Apply(c, s, e) == Some(s') && s'.live.Some? && s'.live.value.phase.Working?
    ensures var p := s'.live.value.phase;
            || (e == Save(true) && p.attempt == 1)
            || (Errs(e, p.i) && p.i < |c.steps| && s.live.Some? && p.attempt > 0
                && s.live.value.phase == Working(p.i, p.attempt - 1))
  {
  }

  /** The attempt that a run waits for is one more than the errors since the step was marked. */
  lemma {:induction false} AttemptNumber(c: Config, h: seq<Event>, ss: seq<Sys>, k: nat)
    requires Behavior(c, h, ss) && k <= |h| && ss[k].live.Some? && ss[k].live.value.phase.Working?
    ensures var p := ss[k].live.value.phase; p.attempt == Streak(h, p.i, k) + 1
  {
    if k > 0 {
      assert StepAt(c, h, ss, k - 1);
      WorkingComesFrom(c, ss[k - 1], h[k - 1], ss[k]);
      if h[k - 1].Attempt? {
        AttemptNumber(c, h, ss, k - 1);
      }
    }
  }

  /** The record of step i in the live run after event q. */
  ghost predicate Records(s: Sys, i: nat, status: StepStatus, attempts: int) {
    && s.live.Some? && i < |s.live.value.run.steps|
    && s.live.value.run.steps[i].status == status && s.live.value.run.steps[i].attempts == attempts
  }

  /** An attempt that erred is repeated, with the same data, until the step has erred once more
      than its retry count, and the step fails exactly then. An attempt that did not err is the
      last one. The record says how many attempts were made. */
  lemma AttemptLeadsTo(c: Config, h: seq<Event>, ss: seq<Sys>, q: nat)
    requires ValidSteps(c.steps) && Behavior(c, h, ss) && q < |h| && h[q].Attempt?
    ensures h[q].i < |c.steps| && ss[q].live.Some? && ss[q + 1].live.Some?
    ensures var i, n := h[q].i, Streak(h, h[q].i, q);
            var r := if c.steps[i].retry > 0 then c.steps[i].retry else c.retry;
            && n <= r
            && match h[q].result
               case Succeeded(data) =>
                 && ss[q + 1].live.value.phase == Committing(i) && Records(ss[q + 1], i, Done, n + 1)
                 && ss[q + 1].live.value.run.data == data
               case Awaited(key, prompt) =>
                 && ss[q + 1].live.value.phase == Suspending(i) && Records(ss[q + 1], i, Waiting, n + 1)
                 && ss[q + 1].live.value.run.await == Some(AwaitState(c.steps[i].name, key, prompt))
               case Erred(error) =>
                 if n < r then ss[q + 1].live.value == Live(ss[q].live.value.run, Working(i, n + 2))
                 else
                   && ss[q + 1].live.value.phase == Failing(i) && Records(ss[q + 1], i, Failed, r + 1)
                   && ss[q + 1].live.value.run.steps[i].error == error
  {
    assert StepAt(c, h, ss, q);
    HistoryKeepsInv(c, h, ss, q);
    AttemptNumber(c, h, ss, q);
  }

  /** A step whose attempt erred fails if and only if that attempt and as many as the retry count
      right before it all erred. */
  lemma FailsIffRetriesUsedUp(c: Config, h: seq<Event>, ss: seq<Sys>, q: nat)
    requires ValidSteps(c.steps) && Behavior(c, h, ss) && q < |h| && h[q].Attempt? && h[q].result.Erred?
    ensures h[q].i < |c.steps| && ss[q + 1].live.Some?
    ensures var r := if c.steps[h[q].i].retry > 0 then c.steps[h[q].i].retry else c.retry;
            ss[q + 1].live.value.phase.Failing? <==>
              0 <= r <= q && forall p :: q - r <= p <= q ==> Errs(h[p], h[q].i)
  {
    AttemptLeadsTo(c, h, ss, q);
    var i := h[q].i;
    var r := if c.steps[i].retry > 0 then c.steps[i].retry else c.retry;
    StreakIsErring(h, i, q);
    if 0 <= r <= q && forall p :: q - r <= p <= q ==> Errs(h[p], i) {
      ErringIsStreak(h, i, q, r);
    }
  }

  /** A step gives up with a record of the attempts that erred before. */
  lemma GivesUpWith(c: Config, h: seq<Event>, ss: seq<Sys>, q: nat)
    requires ValidSteps(c.steps) && Behavior(c, h, ss) && q < |h| && h[q].GiveUp?
    ensures ss[q + 1].live.Some? && ss[q + 1].live.value.phase == Failing(h[q].i)
    ensures Records(ss[q + 1], h[q].i, Failed, Streak(h, h[q].i, q))
    ensures ss[q + 1].live.value.run.steps[h[q].i].error == h[q].error
  {
    assert StepAt(c, h, ss, q);
    AttemptNumber(c, h, ss, q);
  }

  /** A step fails only by giving up or by an attempt that erred. */
  lemma FailingComesFrom(c: Config, h: seq<Event>, ss: seq<Sys>, k: nat)
    requires ValidSteps(c.steps) && Behavior(c, h, ss) && k <= |h|
    requires ss[k].live.Some? && ss[k].live.value.phase.Failing?
    ensures k > 0 && (Errs(h[k - 1], ss[k].live.value.phase.i)
                      || (h[k - 1].GiveUp? && h[k - 1].i == ss[k].live.value.phase.i))
  {
    if k > 0 {
      assert StepAt(c, h, ss, k - 1);
    }
  }
}
