/** An agent's tool handler and the ask around it (`agent/builtin.go`, `agent/checkpoint.go`,
`agent/agent.go`): the stack of wrappers, outermost first context, plan, step, loop, spend,
approve, checkpoint, retry, payment, and the base handler. The model, the tools, payments, the
approver and cancellation are arbitrary. Ghost fields record what the base handler ran, what
was charged, and the history of each checkpointed run. */
module ToolPipeline {
  import opened Options
  import opened Int64
  import opened Guardrails
  import opened ToolCalls
  import opened CallLog
  import Plan
  import AgentRun
  import AgentMessages

  /** What becomes of a save: whether it reaches the store, and whether it is reported so. */
  datatype Saving = Saving(stored: bool, reported: bool)

  /** How an ask returns; `Died` is a crash of the process. */
  datatype Outcome = Replied(reply: string) | Suspended | Errored | Died

  /** How an ask that came to an answer read its plan, for another turn and at the end, and how
      long its log was when the calls in the text of the last reply began. */
  datatype Reads = Reads(forTurn: bool, forEnd: bool, textFrom: nat)

  /** A call that was logged from `from` on was not approved and raised the pause. */
  ghost predicate RaisedBy(log: seq<(Call, Result)>, from: nat, pause: Option<Pause>) {
    pause.Some? && exists i :: from <= i < |log| && NotApprovedFor(log[i], pause.value)
  }

  ghost predicate NotApprovedFor(entry: (Call, Result), pause: Pause) {
    entry.1.refusal == NotApproved && pause.tool == entry.0.name
  }

  datatype History = History(events: seq<AgentRun.Event>, states: seq<AgentRun.Sys>)

  ghost predicate SameElsewhere<T(!new)>(id: string, m: map<string, T>, n: map<string, T>) {
    forall x :: x != id ==> (x in m <==> x in n) && (x in m ==> m[x] == n[x])
  }

  /** Only the history of the current run changed, and it only grew. */
  ghost predicate Grew(current: Option<string>, a: map<string, History>, b: map<string, History>) {
    if current.None? then b == a
    else SameElsewhere(current.value, a, b)
         && (current.value in a ==> current.value in b && a[current.value].events <= b[current.value].events)
  }

  ghost predicate OnlyRun<T(!new)>(current: Option<string>, a: map<string, T>, b: map<string, T>) {
    if current.None? then b == a else SameElsewhere(current.value, a, b)
  }

  lemma GrewTwice(current: Option<string>, a: map<string, History>, b: map<string, History>, c: map<string, History>)
    requires Grew(current, a, b) && Grew(current, b, c)
    ensures Grew(current, a, c)
  {
  }

  ghost function StoredIn(runs: map<string, AgentRun.Run>, id: string): Option<AgentRun.Run> {
    if id in runs then Some(runs[id]) else None
  }

  /** The history of the run is a behavior that ends with the saved record. */
  ghost predicate TrackedIn(runs: map<string, AgentRun.Run>, hist: map<string, History>, id: string,
                            live: Option<AgentRun.Live>)
  {
    && id in hist && AgentRun.Behavior(hist[id].events, hist[id].states)
    && hist[id].states[|hist[id].events|] == AgentRun.Sys(StoredIn(runs, id), live)
    && (id in runs ==> runs[id].id == id)
  }

  ghost predicate AllTracked(runs: map<string, AgentRun.Run>, hist: map<string, History>) {
    && (forall id :: id in hist ==> TrackedIn(runs, hist, id, None))
    && (forall id :: id in runs ==> id in hist)
  }

  lemma AllTrackedAgain(id: string, runs0: map<string, AgentRun.Run>, runs1: map<string, AgentRun.Run>,
                        hist0: map<string, History>, hist1: map<string, History>)
    requires AllTracked(runs0, hist0) && TrackedIn(runs1, hist1, id, None)
    requires SameElsewhere(id, runs0, runs1) && SameElsewhere(id, hist0, hist1)
    ensures AllTracked(runs1, hist1)
  {
    forall x | x in hist1 ensures TrackedIn(runs1, hist1, x, None) {
      assert x != id ==> TrackedIn(runs0, hist0, x, None);
    }
  }

  /** The saved runs, their histories and the current run. */
  datatype Trace = Trace(runs: map<string, AgentRun.Run>, hist: map<string, History>, current: Option<AgentRun.Run>)

  /** What the base handler ran, the money, and a pause that was raised. */
  datatype Effects = Effects(executed: multiset<string>, outlays: seq<Outlay>, spend: int, pause: Option<Pause>)

  ghost function IdOf(run: Option<AgentRun.Run>): Option<string> {
    if run.Some? then Some(run.value.id) else None
  }

  class Agent {
    const limits: Limits
    const env: Env

    var steps: int
    var calls: map<string, int>
    var spend: int
    var pause: Option<Pause>
    var plan: Plan.Plan
    var runs: map<string, AgentRun.Run>
    var current: Option<AgentRun.Run>

    ghost var executed: multiset<string>
    ghost var kept: int
    ghost var paid: int
    ghost var reserved: int
    ghost var log: seq<(Call, Result)>     // the actions of the ask and their results
    ghost var outlays: seq<Outlay>         // the payments of the ask
    ghost var transfers: seq<Transfer>     // what moved the recorded spend
    ghost var purses: seq<Purse>           // and what it was in between
    ghost var hist: map<string, History>
    ghost var phase: AgentRun.Phase

    constructor (limits: Limits, env: Env)
      ensures Valid() && this.limits == limits && this.env == env
      ensures runs == map[] && hist == map[] && plan == Plan.NoPlan
    {
      this.limits, this.env := limits, env;
      steps, calls, spend, pause, plan, runs, current := 0, map[], 0, None, Plan.NoPlan, map[], None;
      executed, kept, paid, reserved, hist, phase := multiset{}, 0, 0, 0, map[], AgentRun.Turn;
      log, outlays, transfers, purses := [], [], [], [EMPTY];
    }

    // ----- the tie to the run machine -----

    ghost function Stored(id: string): Option<AgentRun.Run>
      reads this`runs
    {
      StoredIn(runs, id)
    }

    ghost predicate Checkpointed()
      reads this`current
    {
      limits.checkpointed && current.Some?
    }

    ghost function RunId(): Option<string>
      reads this`current
    {
      IdOf(current)
    }

    /** The run whose changes are saved. */
    ghost function CurrentId(): Option<string>
      reads this`current
    {
      SavedId(current)
    }

    ghost function SavedId(run: Option<AgentRun.Run>): Option<string> {
      if limits.checkpointed then IdOf(run) else None
    }

    ghost function Now(): Trace
      reads this`runs, this`hist, this`current
    {
      Trace(runs, hist, current)
    }

    ghost function Done(): Effects
      reads this`executed, this`outlays, this`spend, this`pause
    {
      Effects(executed, outlays, spend, pause)
    }

    ghost predicate Tracked(id: string, live: Option<AgentRun.Live>)
      reads this`runs, this`hist
    {
      TrackedIn(runs, hist, id, live)
    }

    /** The history of the current run ends in what the agent holds and has saved. */
    ghost predicate Synced()
      reads this`runs, this`hist, this`current, this`phase
    {
      Checkpointed() ==> Tracked(current.value.id, Some(AgentRun.Live(current.value, phase)))
    }

    ghost predicate Valid()
      reads this
    {
      && current.None?
      && AllTracked(runs, hist)
    }

    ghost method Log(e: AgentRun.Event, s: AgentRun.Sys)
      requires Checkpointed() && var id := current.value.id;
        && id in hist && AgentRun.Behavior(hist[id].events, hist[id].states)
        && AgentRun.Apply(hist[id].states[|hist[id].events|], e) == Some(s)
      modifies this`hist
      ensures Grew(CurrentId(), old(hist), hist)
      ensures var id := current.value.id;
        && id in hist && AgentRun.Behavior(hist[id].events, hist[id].states)
        && hist[id].events == old(hist[id].events) + [e]
        && hist[id].states[|hist[id].events|] == s
    {
      var id := current.value.id;
      AgentRun.BehaviorSnoc(hist[id].events, hist[id].states, e, s);
      hist := hist[id := History(hist[id].events + [e], hist[id].states + [s])];
    }

    /** The recorded spend is where the transfers of the ask lead to; what was paid is the sum of
        the booked payments. */
    ghost predicate Books()
      reads this`spend, this`kept, this`paid, this`reserved, this`outlays, this`transfers, this`purses
    {
      InBooks(transfers, purses, Purse(spend, reserved, kept, paid), outlays)
    }

    ghost predicate InBooks(transfers: seq<Transfer>, purses: seq<Purse>, now: Purse, outlays: seq<Outlay>) {
      && IsInt64(now.spend) && Spending(limits, transfers, purses) && purses[|transfers|] == now
      && now.paid == Booked(outlays) && Positive(outlays)
    }

    /** Notes a transfer and where it leads to. */
    ghost method Note(t: Transfer, p: Purse)
      requires Spending(limits, transfers, purses) && Transferred(limits, purses[|transfers|], t) == Some(p)
      modifies this`transfers, this`purses
      ensures Spending(limits, transfers, purses) && purses[|transfers|] == p
    {
      SpendingSnoc(limits, transfers, purses, t, p);
      transfers, purses := transfers + [t], purses + [p];
    }

    // ----- what becomes of a call -----

    /** The payments of a call that is let through: none for a replay or before the first try. */
    ghost function Made(call: Call, w: World, replayed: bool, spent: int): seq<Outlay> {
      if replayed || w.canceledAtTry then [] else Tries(limits, env, call, w, 0, spent).outlays
    }

    /** What becomes of a call that the guards from some layer on block (`why`) or let through:
        a blocked call is refused for that reason and leaves no trace in runs, spend and payments,
        any other is answered with the result on record for it, or is run or canceled, and pays what
        its tries pay when they begin with the recorded spend `spent`. */
    ghost predicate Decided(call: Call, w: World, why: Refusal, recorded: Option<string>, spent: int, res: Result,
                            a: Effects, b: Effects)
    {
      if !why.NotRefused? then
        && res == Refused(env, call.id, why, Reason(why, w))
        && b.executed == a.executed && b.spend == a.spend && b.outlays == a.outlays
        && b.pause == if why == NotApproved then Some(Pause(call.name, res.error)) else a.pause
      else
        && FromInside(res)
        && Ran(a.executed, b.executed, Fingerprint(call), Attempts(limits))
        && (b.executed == a.executed <==> recorded.Some? || w.canceledAtTry)
        && (if recorded.Some? then res == Replayed(call, recorded.value)
            else res == CallResult(limits, env, call, w, spent))
        && b.outlays == a.outlays + Made(call, w, recorded.Some?, spent)
        && Paused(call, res, a.pause, b.pause)
    }

    /** What a guard tells the model. */
    function Reason(why: Refusal, w: World): Problem {
      match why
      case MaxStepsReached => StepLimit
      case LoopDetected => LoopLimit
      case SpendBudget => PriceTooHigh
      case NotApproved => NotApprovedBecause(w.reason)
      case NotRefused => NoProblem
    }

    function Replayed(call: Call, result: string): Result {
      Result(call.id, NotRefused, env.errorIn(result), result, 0)
    }

    /** The result on record for a call of this name and these arguments. */
    ghost function OnRecord(call: Call): Option<string>
      reads this`current
    {
      if Checkpointed() then ResultOnRecord(current.value, call) else None
    }

    /** The call has a done record in the run. */
    ghost predicate HasResult(run: Option<AgentRun.Run>, call: Call) {
      limits.checkpointed && run.Some? && AgentRun.Replays(run.value, Fingerprint(call))
    }

    /** A pause is raised only by a call that is refused for want of approval. */
    ghost predicate Paused(call: Call, res: Result, before: Option<Pause>, after: Option<Pause>) {
      after == before || (after.Some? && NotApprovedFor((call, res), after.value))
    }

    /** What every layer keeps: the current run is the same one, and only it changed and grew. */
    ghost predicate Moved(a: Trace, b: Trace) {
      && IdOf(b.current) == IdOf(a.current)
      && Grew(SavedId(a.current), a.hist, b.hist) && OnlyRun(SavedId(a.current), a.runs, b.runs)
    }

    lemma MovedTwice(a: Trace, b: Trace, c: Trace)
      requires Moved(a, b) && Moved(b, c)
      ensures Moved(a, c)
    {
      GrewTwice(SavedId(a.current), a.hist, b.hist, c.hist);
    }

    // ----- base handler and payment -----

    /** The base handler may run this call. */
    ghost predicate Ready(call: Call)
      reads this`runs, this`hist, this`current, this`phase
    {
      Synced() && (Checkpointed() ==> phase == AgentRun.InTool(Fingerprint(call)))
    }

    method Base(call: Call, t: Try) returns (res: Result)
      requires Ready(call)
      modifies this`executed, this`hist, this`pause
      ensures Ready(call) && Grew(CurrentId(), old(hist), hist)
      ensures executed == old(executed) + multiset{Fingerprint(call)}
      ensures res == BaseResult(env, call, t)
      ensures pause == if AsksHuman(call, t) then Some(Pause(HUMAN_INPUT, InputRequired(t.prompt))) else old(pause)
    {
      executed := executed + multiset{Fingerprint(call)};
      if Checkpointed() {
        ghost var id := current.value.id;
        Log(AgentRun.Execute(Fingerprint(call)), hist[id].states[|hist[id].events|]);
      }
      if call.name == HUMAN_INPUT && !t.custom {
        pause := Some(Pause(HUMAN_INPUT, InputRequired(t.prompt)));
        return Refused(env, call.id, NotApproved, InputRequired(t.prompt));
      }
      res := Result(call.id, NotRefused, t.error, t.content, 0);
    }

    /** A fresh payment client: it pays a positive amount within its budget (0 is none), and
        takes the amount back unless the paid request went through. */
    method ClientDo(budget: int, t: Try) returns (ok: bool, overBudget: bool, spent: int)
      ensures spent == if ClientPays(budget, t) then t.demand else 0
      ensures ok <==> if t.demanded then ClientPays(budget, t) else t.answered
      ensures overBudget <==> t.demanded && ValidDemand(t) && budget > 0 && t.demand > budget
    {
      if !t.demanded {
        return t.answered, false, 0;
      }
      if !(0 < t.demand < TWO63) {
        return false, false, 0;
      }
      if budget > 0 && t.demand > budget {
        return false, true, 0;
      }
      spent := t.demand;
      if !t.accepted {
        spent := spent - t.demand;
        return false, false, spent;
      }
      return true, false, spent;
    }

    /** A payment whose response could not be read is in no book. */
    ghost method NoteUnread(amount: int)
      requires Books() && amount > 0
      modifies this`outlays
      ensures Books() && outlays == old(outlays) + [Outlay(amount, false)]
    {
      OneMoreOutlay(outlays, Outlay(amount, false));
      outlays := outlays + [Outlay(amount, false)];
    }

    /** The books with one more payment that was read. */
    lemma PaymentInBooks(ts: seq<Transfer>, ps: seq<Purse>, now: Purse, outlays: seq<Outlay>, amount: int)
      requires InBooks(ts, ps, now, outlays) && 0 < amount < TWO63
      requires limits.budget > 0 ==> amount <= Remaining(limits, now.spend)
      ensures var next := now.(spend := Add(now.spend, amount), paid := now.paid + amount);
              InBooks(ts + [Pay(amount)], ps + [next], next, outlays + [Outlay(amount, true)])
    {
      var next := now.(spend := Add(now.spend, amount), paid := now.paid + amount);
      assert IsInt64(next.spend);
      PaymentTransfer(limits, now, amount);
      SpendingSnoc(limits, ts, ps, Pay(amount), next);
      OneMoreOutlay(outlays, Outlay(amount, true));
    }

    /** Adds a payment within what is left of the budget to the books. */
    method BookPayment(spent: int)
      requires Books() && 0 < spent < TWO63
      requires limits.budget > 0 ==> spent <= Remaining(limits, spend)
      modifies this`spend, this`paid, this`outlays, this`transfers, this`purses
      ensures Books() && spend == Add(old(spend), spent) && outlays == old(outlays) + [Outlay(spent, true)]
    {
      PaymentInBooks(transfers, purses, Purse(spend, reserved, kept, paid), outlays, spent);
      spend, paid := Add(spend, spent), paid + spent;
      outlays := outlays + [Outlay(spent, true)];
      transfers, purses := transfers + [Pay(spent)], purses + [Purse(spend, reserved, kept, paid)];
    }

    /** Pays for a resource within a budget and fetches it. */
    method Fetch(call: Call, t: Try, budget: int) returns (res: Result)
      requires Books() && budget == Remaining(limits, spend) && !Exhausted(limits, spend)
      modifies this`spend, this`paid, this`outlays, this`transfers, this`purses
      ensures Books() && res == FetchResult(env, call, budget, t)
      ensures outlays == old(outlays) + if ClientPays(budget, t) then [Outlay(t.demand, t.readable)] else []
      ensures spend == if ClientPays(budget, t) && t.readable then Add(old(spend), t.demand) else old(spend)
    {
      var ok, overBudget, spent := ClientDo(budget, t);
      if !ok {
        return if overBudget then Refused(env, call.id, SpendBudget, OverBudget)
               else ErrResult(env, call.id, ClientFailed);
      }
      if !t.readable {
        if spent > 0 {
          NoteUnread(spent);
        }
        return ErrResult(env, call.id, Unreadable);
      }
      if spent > 0 {
        BookPayment(spent);
      }
      res := Result(call.id, NotRefused, env.errorIn(t.body), t.body, 2);
    }

    /** Pays for a resource within what is left of the budget and fetches it. */
    method PayChallenge(call: Call, t: Try) returns (res: Result)
      requires Books() && AsksPayment(env, call, t)
      modifies this`spend, this`paid, this`outlays, this`transfers, this`purses
      ensures Books() && res == TryResult(limits, env, call, t, old(spend))
      ensures outlays == old(outlays) + TryOutlays(limits, env, call, t, old(spend))
      ensures spend == SpendAfter(limits, env, call, t, old(spend))
    {
      if env.urlOf(call.args) == "" {
        return ErrResult(env, call.id, NoUrl);
      }
      var budget: int := limits.budget;
      if budget > 0 {
        var remaining := Add(budget, -spend);
        if remaining <= 0 {
          return Refused(env, call.id, SpendBudget, BudgetExhausted);
        }
        budget := remaining;
      } else {
        budget := 0;
      }
      res := Fetch(call, t, budget);
    }

    /** Pays if the base handler's answer asks for it. */
    method PayIfAsked(call: Call, t: Try, answer: Result) returns (res: Result)
      requires Books() && answer == BaseResult(env, call, t)
      modifies this`spend, this`paid, this`outlays, this`transfers, this`purses
      ensures Books() && res == TryResult(limits, env, call, t, old(spend))
      ensures outlays == old(outlays) + TryOutlays(limits, env, call, t, old(spend))
      ensures spend == SpendAfter(limits, env, call, t, old(spend))
    {
      res := answer;
      if answer.refusal.NotRefused? && env.challenge(answer.content) {
        res := PayChallenge(call, t);
      }
    }

    method PayWrap(call: Call, t: Try) returns (res: Result)
      requires Ready(call) && Books()
      modifies this`executed, this`hist, this`pause, this`spend, this`paid, this`outlays, this`transfers,
               this`purses
      ensures Ready(call) && Grew(CurrentId(), old(hist), hist) && Books()
      ensures executed == old(executed) + multiset{Fingerprint(call)}
      ensures res == TryResult(limits, env, call, t, old(spend))
      ensures outlays == old(outlays) + TryOutlays(limits, env, call, t, old(spend))
      ensures spend == SpendAfter(limits, env, call, t, old(spend))
      ensures pause == if AsksHuman(call, t) then Some(Pause(HUMAN_INPUT, InputRequired(t.prompt))) else old(pause)
    {
      var answer := Base(call, t);
      res := PayIfAsked(call, t, answer);
    }

    /** The tries `done` were made since `start`, when the histories were `hist0`. */
    ghost predicate Trying(call: Call, done: Course, hist0: map<string, History>, start: Effects)
      reads this`runs, this`hist, this`current, this`phase, this`executed, this`spend, this`kept, this`paid,
            this`reserved, this`outlays, this`transfers, this`purses
    {
      && Ready(call) && Grew(CurrentId(), hist0, hist) && Books()
      && outlays == start.outlays + done.outlays
      && executed == start.executed[Fingerprint(call) := start.executed[Fingerprint(call)] + |done.results|]
    }

    /** One more try, after those of `was`; all of them together are `total`. */
    method NextTry(call: Call, w: World, n: nat, ghost was: Course, ghost total: Course,
                   ghost hist0: map<string, History>, ghost start: Effects)
      returns (res: Result, ghost done: Course)
      requires n == |was.results| && Trying(call, was, hist0, start)
      requires Leads(limits, env, call, w, n, spend, was, total)
      modifies this`executed, this`hist, this`pause, this`spend, this`paid, this`outlays, this`transfers,
               this`purses
      ensures Trying(call, done, hist0, start) && done.results == was.results + [res] && FromInside(res)
      ensures Paused(call, res, old(pause), pause) && (Retryable(env, res) ==> pause == old(pause))
      ensures if Ends(limits, env, res, TryAt(w, n), n) then done == total
              else Leads(limits, env, call, w, n + 1, spend, done, total)
    {
      ghost var before := hist;
      CourseStep(limits, env, call, w, n, spend, was, total);
      done := Joined(was, OneTry(limits, env, call, TryAt(w, n), spend));
      res := PayWrap(call, TryAt(w, n));
      GrewTwice(CurrentId(), hist0, before, hist);
    }

    /** One attempt, and whether it was the last. */
    method Attempt(call: Call, w: World, attempt: nat, ghost was: Course, ghost total: Course,
                   ghost hist0: map<string, History>, ghost start: Effects)
      returns (over: bool, res: Result, ghost done: Course)
      requires attempt == |was.results| + 1 && attempt <= Attempts(limits)
      requires Trying(call, was, hist0, start) && Leads(limits, env, call, w, |was.results|, spend, was, total)
      modifies this`executed, this`hist, this`pause, this`spend, this`paid, this`outlays, this`transfers,
               this`purses
      ensures Trying(call, done, hist0, start) && |done.results| == attempt
      ensures over ==> done == total && res == Final(limits, env, call, w, done.results)
      ensures over ==> Paused(call, res, old(pause), pause)
      ensures !over ==> attempt < Attempts(limits) && pause == old(pause)
      ensures !over ==> Leads(limits, env, call, w, |done.results|, spend, done, total)
    {
      var t := TryAt(w, attempt - 1);
      res, done := NextTry(call, w, attempt - 1, was, total, hist0, start);
      if !Retryable(env, res) || attempt == Attempts(limits) || t.canceledAfter {
        return true, Annotated(env, res, attempt), done;
      }
      // Canceled while it waits, or at the check before the next attempt.
      if t.canceledWaiting {
        return true, ErrResult(env, call.id, ContextEnded), done;
      }
      over := false;
    }

    /** The attempts after the first check for cancellation. */
    method Retry(call: Call, w: World) returns (res: Result, ghost done: Course)
      requires Ready(call) && Books()
      modifies this`executed, this`hist, this`pause, this`spend, this`paid, this`outlays, this`transfers,
               this`purses
      ensures Trying(call, done, old(hist), old(Done()))
      ensures done == Tries(limits, env, call, w, 0, old(spend)) && done.results != []
      ensures Paused(call, res, old(pause), pause) && res == Final(limits, env, call, w, done.results)
    {
      done := Course([], []);
      ghost var total := Tries(limits, env, call, w, 0, spend);
      ghost var hist0, start := hist, Done();
      assert Joined(done, total) == total;
      assert Trying(call, done, hist0, start);
      var attempt := 1;
      while true
        invariant |done.results| == attempt - 1 < Attempts(limits)
        invariant Trying(call, done, hist0, start) && pause == old(pause)
        invariant Leads(limits, env, call, w, |done.results|, spend, done, total)
        decreases Attempts(limits) - attempt
      {
        var over;
        over, res, done := Attempt(call, w, attempt, done, total, hist0, start);
        if over {
          return;
        }
        attempt := attempt + 1;
      }
    }

    method RetryWrap(call: Call, w: World) returns (res: Result, ghost tries: seq<Result>)
      requires Ready(call) && Books()
      modifies this`executed, this`hist, this`pause, this`spend, this`paid, this`outlays, this`transfers,
               this`purses
      ensures Ready(call) && Grew(CurrentId(), old(hist), hist) && Books()
      ensures outlays == old(outlays) + Made(call, w, false, old(spend))
      ensures Paused(call, res, old(pause), pause)
      ensures tries == if w.canceledAtTry then [] else Tries(limits, env, call, w, 0, old(spend)).results
      ensures |tries| <= Attempts(limits)
      ensures executed == old(executed)[Fingerprint(call) := old(executed)[Fingerprint(call)] + |tries|]
      // Only transient errors are tried again: a refusal is always the last try.
      ensures forall i :: 0 <= i < |tries| - 1 ==> Retryable(env, tries[i])
      // The result is that of the last try, or the cancellation.
      ensures res == CallResult(limits, env, call, w, old(spend)) && FromInside(res)
      ensures (tries != [] && SameVerdict(res, tries[|tries| - 1])) || res == ErrResult(env, call.id, ContextEnded)
      // Nothing is tried exactly if the ask is canceled before.
      ensures tries == [] <==> w.canceledAtTry
      ensures tries == [] ==> res == ErrResult(env, call.id, ContextEnded)
    {
      if w.canceledAtTry {
        return ErrResult(env, call.id, ContextEnded), [];
      }
      TriesAreBounded(limits, env, call, w, 0, spend);
      ghost var done;
      res, done := Retry(call, w);
      tries := done.results;
    }

    // ----- checkpoint -----

    ghost predicate InTurn()
      reads this`runs, this`hist, this`current, this`phase
    {
      Synced() && (Checkpointed() ==> phase == AgentRun.Turn)
    }

    /** The call has a done record in the current run. */
    ghost predicate Replaying(call: Call)
      reads this`current
    {
      HasResult(current, call)
    }

    /** Saves the run. A save reported as failed may have reached the store. */
    method SaveRun(run: AgentRun.Run, io: Saving) returns (ok: bool)
      modifies this`runs
      ensures runs == if limits.checkpointed && io.stored then old(runs)[run.id := run] else old(runs)
      ensures ok <==> !limits.checkpointed || (io.stored && io.reported)
    {
      if !limits.checkpointed {
        return true;
      }
      if io.stored {
        runs := runs[run.id := run];
      }
      return io.stored && io.reported;
    }

    method StartTool(call: Call)
      requires InTurn() && Checkpointed() && !Replaying(call)
      modifies this`runs, this`hist, this`current, this`phase
      ensures Ready(call) && Checkpointed() && Moved(old(Now()), Now())
      ensures current.value == AgentRun.ToolStarted(old(current.value), Fingerprint(call))
      ensures AgentRun.Find(current.value.steps, AgentRun.ToolName(Fingerprint(call))).Some?
    {
      var run := AgentRun.ToolStarted(current.value, Fingerprint(call));
      var io: Saving := *;
      var _ := SaveRun(run, io);
      Log(AgentRun.ToolStart(Fingerprint(call), io.stored),
          AgentRun.Sys(Stored(run.id), Some(AgentRun.Live(run, AgentRun.InTool(Fingerprint(call))))));
      current, phase := Some(run), AgentRun.InTool(Fingerprint(call));
    }

    /** The call's record gets the result and is saved. */
    method RecordEnd(call: Call, res: Result)
      requires Ready(call) && Checkpointed()
      requires AgentRun.Find(current.value.steps, AgentRun.ToolName(Fingerprint(call))).Some?
      modifies this`runs, this`hist, this`current, this`phase
      ensures InTurn() && Checkpointed() && Moved(old(Now()), Now())
      ensures EndedAs(old(current.value), call, res, current)
    {
      var i := AgentRun.Find(current.value.steps, AgentRun.ToolName(Fingerprint(call))).value;
      var run := AgentRun.ToolEnded(current.value, i, !res.refusal.NotRefused?, res.content);
      var io: Saving := *;
      var _ := SaveRun(run, io);
      Log(AgentRun.ToolEnd(!res.refusal.NotRefused?, res.content, io.stored),
          AgentRun.Sys(Stored(run.id), Some(AgentRun.Live(run, AgentRun.Turn))));
      current, phase := Some(run), AgentRun.Turn;
    }

    /** The same, seen with the books, which it leaves alone. */
    method EndTool(call: Call, res: Result)
      requires Ready(call) && Checkpointed() && Books()
      requires AgentRun.Find(current.value.steps, AgentRun.ToolName(Fingerprint(call))).Some?
      modifies this`runs, this`hist, this`current, this`phase
      ensures InTurn() && Checkpointed() && Books() && Moved(old(Now()), Now()) && Done() == old(Done())
      ensures EndedAs(old(current.value), call, res, current)
    {
      RecordEnd(call, res);
    }

    method ReplayTool(call: Call) returns (res: Result)
      requires InTurn() && Replaying(call)
      modifies this`hist
      ensures InTurn() && Grew(CurrentId(), old(hist), hist)
      ensures OnRecord(call).Some? && res == Replayed(call, OnRecord(call).value)
    {
      ReplaysFromItsRecord(current.value, call);
      var i := AgentRun.Find(current.value.steps, AgentRun.ToolName(Fingerprint(call))).value;
      var result := current.value.steps[i].result;
      Log(AgentRun.Replay(Fingerprint(call)), hist[current.value.id].states[|hist[current.value.id].events|]);
      return Result(call.id, NotRefused, env.errorIn(result), result, 0);
    }

    /** The tries of a call as the layers above see them. */
    method TryTool(call: Call, w: World) returns (res: Result)
      requires Ready(call) && Books()
      modifies this`executed, this`hist, this`pause, this`spend, this`paid, this`outlays, this`transfers,
               this`purses
      ensures Ready(call) && Grew(CurrentId(), old(hist), hist) && Books()
      ensures Ran(old(executed), executed, Fingerprint(call), Attempts(limits))
      ensures outlays == old(outlays) + Made(call, w, false, old(spend))
      ensures Paused(call, res, old(pause), pause) && FromInside(res)
      ensures executed == old(executed) <==> w.canceledAtTry
      ensures res == CallResult(limits, env, call, w, old(spend))
    {
      ghost var tries;
      res, tries := RetryWrap(call, w);
    }

    method StartAndTry(call: Call, w: World) returns (res: Result)
      requires InTurn() && Checkpointed() && !Replaying(call) && Books()
      modifies this`executed, this`hist, this`pause, this`spend, this`paid, this`outlays, this`transfers,
               this`purses, this`runs, this`current, this`phase
      ensures Ready(call) && Checkpointed() && Books() && Moved(old(Now()), Now())
      ensures current.value == AgentRun.ToolStarted(old(current.value), Fingerprint(call))
      ensures AgentRun.Find(current.value.steps, AgentRun.ToolName(Fingerprint(call))).Some?
      ensures Decided(call, w, NotRefused, None, old(spend), res, old(Done()), Done())
    {
      StartTool(call);
      ghost var started := Now();
      res := TryTool(call, w);
      MovedTwice(old(Now()), started, Now());
    }

    method RunTool(call: Call, w: World) returns (res: Result)
      requires InTurn() && Checkpointed() && !Replaying(call) && Books()
      modifies this`executed, this`hist, this`pause, this`spend, this`paid, this`outlays, this`transfers,
               this`purses, this`runs, this`current, this`phase
      ensures InTurn() && Checkpointed() && Books() && Moved(old(Now()), Now())
      ensures Recorded(old(current.value), call, res, current)
      ensures Decided(call, w, NotRefused, None, old(spend), res, old(Done()), Done())
    {
      res := StartAndTry(call, w);
      ghost var tried := Now();
      EndTool(call, res);
      MovedTwice(old(Now()), tried, Now());
    }

    /** A call of a checkpointed run is replayed if its name and arguments have a done record, and
        else run and recorded. */
    method ReplayOrRun(call: Call, w: World) returns (res: Result)
      requires InTurn() && Checkpointed() && Books()
      modifies this`executed, this`hist, this`pause, this`spend, this`paid, this`outlays, this`transfers,
               this`purses, this`runs, this`current, this`phase
      ensures InTurn() && Books() && Moved(old(Now()), Now())
      ensures old(OnRecord(call)).Some? ==>
                && executed == old(executed) && spend == old(spend) && pause == old(pause)
                && current == old(current) && runs == old(runs)
                && res == Replayed(call, old(OnRecord(call)).value)
      ensures old(OnRecord(call)).None? ==> Recorded(old(current.value), call, res, current)
      ensures Decided(call, w, NotRefused, old(OnRecord(call)), old(spend), res, old(Done()), Done())
    {
      ReplaysFromItsRecord(current.value, call);
      var i := AgentRun.Find(current.value.steps, AgentRun.ToolName(Fingerprint(call)));
      if i.Some? && current.value.steps[i.value].status == AgentRun.Done {
        res := ReplayTool(call);
      } else {
        res := RunTool(call, w);
      }
    }

    method CheckpointWrap(call: Call, w: World) returns (res: Result)
      requires InTurn() && Books()
      modifies this`executed, this`hist, this`pause, this`spend, this`paid, this`outlays, this`transfers,
               this`purses, this`runs, this`current, this`phase
      ensures InTurn() && Books() && Moved(old(Now()), Now())
      // A call with a done record for its name and arguments is answered from that, and nothing
      // else happens.
      ensures old(OnRecord(call)).Some? ==>
                && executed == old(executed) && spend == old(spend) && pause == old(pause)
                && current == old(current) && runs == old(runs)
                && res.id == call.id && res.refusal == NotRefused && res.content == old(OnRecord(call)).value
                && res.error == env.errorIn(res.content)
      // Any other call is recorded with its result, as done unless it was refused.
      ensures old(Checkpointed()) && old(OnRecord(call)).None? ==> Recorded(old(current.value), call, res, current)
      ensures Decided(call, w, NotRefused, old(OnRecord(call)), old(spend), res, old(Done()), Done())
    {
      if !limits.checkpointed || current.None? {
        res := TryTool(call, w);
      } else {
        res := ReplayOrRun(call, w);
      }
    }

    /** The call's record has the result of the call, as done unless it was refused. */
    ghost predicate EndedAs(started: AgentRun.Run, call: Call, res: Result, after: Option<AgentRun.Run>) {
      var i := AgentRun.Find(started.steps, AgentRun.ToolName(Fingerprint(call)));
      i.Some? && after == Some(AgentRun.ToolEnded(started, i.value, !res.refusal.NotRefused?, res.content))
    }

    ghost predicate Recorded(before: AgentRun.Run, call: Call, res: Result, after: Option<AgentRun.Run>) {
      EndedAs(AgentRun.ToolStarted(before, Fingerprint(call)), call, res, after)
    }

    // ----- approval, spend, loop, step -----

    ghost predicate Denied(w: World) {
      limits.approves && !w.approved
    }

    ghost function ApprovalBlock(w: World): Refusal {
      if Denied(w) then NotApproved else NotRefused
    }

    ghost function SpendBlock(call: Call, w: World, spent: int): Refusal {
      if Priced(limits, call) && !Admitted(limits, spent, Price(limits, call.name)) then SpendBudget
      else ApprovalBlock(w)
    }

    ghost function LoopBlock(call: Call, w: World, spent: int, seen: map<string, int>): Refusal {
      if limits.loopLimit > 0 && Seen(seen, Fingerprint(call)) >= limits.loopLimit then LoopDetected
      else SpendBlock(call, w, spent)
    }

    /** The reason for which the first guard that blocks the call refuses it, in the order
        step limit, loop limit, spend budget, approval. */
    ghost function Block(call: Call, w: World, spent: int, seen: map<string, int>, taken: int): Refusal {
      if limits.maxSteps > 0 && taken >= limits.maxSteps then MaxStepsReached else LoopBlock(call, w, spent, seen)
    }

    /** The guards in their order: each refuses exactly the calls that none before it refused and
        that are beyond its own limit. A call is known by its name and arguments. */
    lemma FirstGuardWins(call: Call, w: World, spent: int, seen: map<string, int>, taken: int)
      ensures var why := Block(call, w, spent, seen, taken);
              var steps := limits.maxSteps > 0 && taken >= limits.maxSteps;
              var loop := limits.loopLimit > 0 && Seen(seen, call.name + ":" + call.args) >= limits.loopLimit;
              var price := if call.name in limits.toolSpend then limits.toolSpend[call.name] else 0;
              var spend := limits.maxSpend > 0 && price > 0 && Add(spent, price) > limits.maxSpend;
              var denied := limits.approves && !w.approved;
              && (why == MaxStepsReached <==> steps)
              && (why == LoopDetected <==> !steps && loop)
              && (why == SpendBudget <==> !steps && !loop && spend)
              && (why == NotApproved <==> !steps && !loop && !spend && denied)
    {
    }

    /** The recorded spend with which the tries of a call begin: a price is reserved before. */
    ghost function AtTry(call: Call, spent: int): int {
      if Priced(limits, call) then Add(spent, Price(limits, call.name)) else spent
    }

    method ApproveWrap(call: Call, w: World) returns (res: Result)
      requires InTurn() && Books()
      modifies this`executed, this`hist, this`pause, this`spend, this`paid, this`outlays, this`transfers,
               this`purses, this`runs, this`current, this`phase
      ensures InTurn() && Moved(old(Now()), Now()) && Books()
      ensures Decided(call, w, ApprovalBlock(w), old(OnRecord(call)), old(spend), res, old(Done()), Done())
      // A denied call pauses the run, with the approver's reason.
      ensures limits.approves && !w.approved ==>
                && res.error == NotApprovedBecause(w.reason)
                && pause == Some(Pause(call.name, NotApprovedBecause(w.reason)))
    {
      if limits.approves && !w.approved {
        pause := Some(Pause(call.name, NotApprovedBecause(w.reason)));
        return Refused(env, call.id, NotApproved, NotApprovedBecause(w.reason));
      }
      res := CheckpointWrap(call, w);
    }

    method Reserve(call: Call)
      requires InTurn() && Books() && reserved == 0
      requires Priced(limits, call) && Admitted(limits, spend, Price(limits, call.name))
      modifies this`spend, this`reserved, this`transfers, this`purses
      ensures InTurn() && Books() && reserved == Price(limits, call.name) && Now() == old(Now())
      ensures Done() == old(Done()).(spend := Add(old(spend), reserved))
    {
      var amount := Price(limits, call.name);
      Note(Transfer.Reserve(call.name), Purse(Add(spend, amount), amount, kept, paid));
      spend := Add(spend, amount);
      reserved := amount;
    }

    /** Keeps what was reserved, or gives it back. */
    method Settle(amount: int, keep: bool)
      requires InTurn() && Books() && reserved == amount && 0 < amount < TWO63
      modifies this`spend, this`kept, this`reserved, this`transfers, this`purses
      ensures InTurn() && Books() && reserved == 0 && Now() == old(Now())
      ensures kept == old(kept) + if keep then amount else 0
      ensures Done() == old(Done()).(spend := if keep then old(spend) else Add(old(spend), -amount))
    {
      if !keep {
        Note(Transfer.Settle(false), Purse(Add(spend, -amount), 0, kept, paid));
        spend := Add(spend, -amount);
      } else {
        Note(Transfer.Settle(true), Purse(spend, 0, kept + amount, paid));
        kept := kept + amount;
      }
      reserved := 0;
    }

    /** A reservation around a call does not change what is decided about it; a call that is
        refused has it given back. */
    lemma DecidedAround(call: Call, w: World, why: Refusal, recorded: Option<string>, spent: int, res: Result,
                        a: Effects, b: Effects, before: int, after: int)
      requires Decided(call, w, why, recorded, spent, res, a, b) && (!why.NotRefused? ==> after == before)
      ensures Decided(call, w, why, recorded, spent, res, a.(spend := before), b.(spend := after))
    {
    }

    /** Reserves the price, runs the call, and keeps the price only if the call succeeded. */
    method ChargeAndRun(call: Call, w: World) returns (res: Result)
      requires InTurn() && Books() && reserved == 0
      requires Priced(limits, call) && Admitted(limits, spend, Price(limits, call.name))
      modifies this`executed, this`hist, this`pause, this`spend, this`paid, this`outlays, this`transfers,
               this`purses, this`runs, this`current, this`phase, this`kept, this`reserved
      ensures InTurn() && Moved(old(Now()), Now()) && Books() && reserved == 0
      ensures Decided(call, w, ApprovalBlock(w), old(OnRecord(call)),
                      AtTry(call, old(spend)), res, old(Done()), Done())
      ensures kept == old(kept) + if Succeeded(res) then Price(limits, call.name) else 0
    {
      Reserve(call);
      ghost var reservedFor := Done();
      res := ApproveWrap(call, w);
      ghost var ran := Done();
      Settle(Price(limits, call.name), Succeeded(res));
      DecidedAround(call, w, ApprovalBlock(w), old(OnRecord(call)), AtTry(call, old(spend)), res, reservedFor, ran,
                    old(spend), spend);
      assert reservedFor.(spend := old(spend)) == old(Done());
    }

    method SpendWrap(call: Call, w: World) returns (res: Result)
      requires InTurn() && Books() && reserved == 0
      modifies this`executed, this`hist, this`pause, this`spend, this`paid, this`outlays, this`transfers,
               this`purses, this`runs, this`current, this`phase, this`kept, this`reserved
      ensures InTurn() && Moved(old(Now()), Now()) && Books() && reserved == 0
      // A priced call that does not fit is refused before anything happens.
      ensures Decided(call, w, SpendBlock(call, w, old(spend)), old(OnRecord(call)),
                      AtTry(call, old(spend)), res, old(Done()), Done())
      // The price is kept exactly for the calls that succeeded.
      ensures kept == old(kept) + Charge(limits, call, res)
    {
      var amount := Price(limits, call.name);
      if amount <= 0 || limits.maxSpend <= 0 {
        res := ApproveWrap(call, w);
      } else if Add(spend, amount) > limits.maxSpend {
        res := Refused(env, call.id, SpendBudget, PriceTooHigh);
      } else {
        res := ChargeAndRun(call, w);
      }
    }

    method CountCall(call: Call) returns (over: bool)
      requires InTurn() && Books()
      modifies this`calls
      ensures InTurn() && Books() && Now() == old(Now()) && Done() == old(Done())
      ensures calls == if limits.loopLimit <= 0 then old(calls)
                       else old(calls)[Fingerprint(call) := Seen(old(calls), Fingerprint(call)) + 1]
      ensures OthersUncounted(call, old(calls), calls)
      ensures over <==> limits.loopLimit > 0 && Seen(old(calls), Fingerprint(call)) >= limits.loopLimit
    {
      if limits.loopLimit <= 0 {
        return false;
      }
      OnlyItsCount(call, calls, Seen(calls, Fingerprint(call)) + 1);
      calls := calls[Fingerprint(call) := Seen(calls, Fingerprint(call)) + 1];
      return calls[Fingerprint(call)] > limits.loopLimit;
    }

    method LoopWrap(call: Call, w: World) returns (res: Result)
      requires InTurn() && Books() && reserved == 0
      modifies this`executed, this`hist, this`pause, this`spend, this`paid, this`outlays, this`transfers,
               this`purses, this`runs, this`current, this`phase, this`kept, this`reserved, this`calls
      ensures InTurn() && Moved(old(Now()), Now()) && Books() && reserved == 0
      // Every call counts, and one beyond the limit goes no further.
      ensures calls == if limits.loopLimit <= 0 then old(calls)
                       else old(calls)[Fingerprint(call) := Seen(old(calls), Fingerprint(call)) + 1]
      ensures OthersUncounted(call, old(calls), calls)
      ensures Decided(call, w, LoopBlock(call, w, old(spend), old(calls)), old(OnRecord(call)),
                      AtTry(call, old(spend)), res, old(Done()), Done())
      ensures kept == old(kept) + Charge(limits, call, res)
    {
      var over := CountCall(call);
      if over {
        return Refused(env, call.id, LoopDetected, LoopLimit);
      }
      res := SpendWrap(call, w);
    }

    method CountStep() returns (over: bool)
      requires InTurn() && Books()
      modifies this`steps
      ensures InTurn() && Books() && Now() == old(Now()) && Done() == old(Done())
      ensures steps == if limits.maxSteps > 0 then old(steps) + 1 else old(steps)
      ensures over <==> limits.maxSteps > 0 && old(steps) >= limits.maxSteps
    {
      if limits.maxSteps <= 0 {
        return false;
      }
      steps := steps + 1;
      return steps > limits.maxSteps;
    }

    method StepWrap(call: Call, w: World) returns (res: Result)
      requires InTurn() && Books() && reserved == 0
      modifies this`executed, this`hist, this`pause, this`spend, this`paid, this`outlays, this`transfers,
               this`purses, this`runs, this`current, this`phase, this`kept, this`reserved, this`calls, this`steps
      ensures InTurn() && Moved(old(Now()), Now()) && Books() && reserved == 0
      ensures Counted(limits, call, old(steps), old(calls), steps, calls)
      ensures Decided(call, w, Block(call, w, old(spend), old(calls), old(steps)), old(OnRecord(call)),
                      AtTry(call, old(spend)), res, old(Done()), Done())
      ensures kept == old(kept) + Charge(limits, call, res)
    {
      var over := CountStep();
      if over {
        return Refused(env, call.id, MaxStepsReached, StepLimit);
      }
      res := LoopWrap(call, w);
    }

    // ----- plan and context -----

    /** The stored plan after a plan call: the update keeps the finished work of the plan that
        could be read. */
    ghost function Updated(plan: Plan.Plan, call: Call, w: World): Plan.Plan {
      if w.planWrites then Plan.Preserved(env.taskKey, Plan.Loaded(plan, w.planRead), env.planOf(call.args)) else plan
    }

    method HandlePlan(call: Call, w: World) returns (res: Result)
      modifies this`plan
      ensures plan == Updated(old(plan), call, w)
      ensures w.planWrites ==>
                Plan.StoredAsSent(env.taskKey, Plan.Loaded(old(plan), w.planRead), env.planOf(call.args), plan)
    {
      var input := Plan.PreserveCompleted(env.taskKey, Plan.Loaded(plan, w.planRead), env.planOf(call.args));
      if w.planWrites {
        plan := input;
      }
      var content: string := *;
      res := Result(call.id, NotRefused, env.errorIn(content), content, 0);
    }

    /** Marks the next step as done, if the plan can be read and written. */
    method CompleteNextStep(w: World)
      requires Guarded()
      modifies this`plan
      ensures Guarded() && Now() == old(Now()) && Done() == old(Done())
      ensures if Completes(w) then PlanAdvanced(old(plan), plan) else plan == old(plan)
    {
      var next, changed := Plan.CompleteNext(Plan.Loaded(plan, w.nextRead));
      if changed && w.planWrites {
        plan := next;
      }
    }

    ghost predicate Completes(w: World) {
      w.nextRead && w.planWrites
    }

    ghost predicate PlanAdvanced(before: Plan.Plan, after: Plan.Plan) {
      && (before.Steps? ==> after.Steps? && Plan.NextCompleted(before.items, after.items))
      && (!before.Steps? ==> after == before)
    }

    /** The state of the guardrails between two calls. */
    ghost predicate Guarded()
      reads this`runs, this`hist, this`current, this`phase, this`executed, this`spend, this`kept, this`paid,
            this`reserved, this`outlays, this`transfers, this`purses, this`log, this`calls, this`steps
    {
      && InTurn() && Books() && reserved == 0 && kept == Charged(limits, log)
      && LoopBound(limits, calls, executed) && StepBound(limits, steps, executed)
      && Audited(limits, log, steps, calls)
    }

    /** Which guard a result names. */
    lemma DecidedRefusal(call: Call, w: World, spent: int, seen: map<string, int>, taken: int,
                         recorded: Option<string>, at: int, res: Result, a: Effects, b: Effects)
      requires Decided(call, w, Block(call, w, spent, seen, taken), recorded, at, res, a, b)
      ensures res.refusal.MaxStepsReached? <==> 0 < limits.maxSteps <= taken
      ensures res.refusal.LoopDetected? <==>
              !(0 < limits.maxSteps <= taken) && 0 < limits.loopLimit <= Seen(seen, Fingerprint(call))
      ensures Ran(a.executed, b.executed, Fingerprint(call), Attempts(limits))
      ensures 0 < limits.maxSteps <= taken || 0 < limits.loopLimit <= Seen(seen, Fingerprint(call)) ==>
                b.executed == a.executed
    {
    }

    /** Takes the call through the guards; the bounds on base runs are kept. */
    method Count(call: Call, w: World) returns (res: Result)
      requires Guarded()
      modifies this`executed, this`hist, this`pause, this`spend, this`paid, this`outlays, this`transfers,
               this`purses, this`runs, this`current, this`phase, this`kept, this`reserved, this`calls, this`steps
      ensures InTurn() && Moved(old(Now()), Now()) && Books() && reserved == 0
      ensures LoopBound(limits, calls, executed) && StepBound(limits, steps, executed)
      ensures Counted(limits, call, old(steps), old(calls), steps, calls)
      ensures res.refusal.MaxStepsReached? <==> 0 < limits.maxSteps <= old(steps)
      ensures res.refusal.LoopDetected? <==>
              !(0 < limits.maxSteps <= old(steps)) && 0 < limits.loopLimit <= Seen(old(calls), Fingerprint(call))
      ensures Decided(call, w, Block(call, w, old(spend), old(calls), old(steps)), old(OnRecord(call)),
                      AtTry(call, old(spend)), res, old(Done()), Done())
      ensures kept == old(kept) + Charge(limits, call, res)
    {
      res := StepWrap(call, w);
      DecidedRefusal(call, w, old(spend), old(calls), old(steps), old(OnRecord(call)), AtTry(call, old(spend)), res,
                     old(Done()), Done());
      BoundsMore(limits, call, old(steps), old(calls), steps, calls, old(executed), executed);
    }

    /** The action goes into the log with its result; `steps0` and `calls0` are the counters before. */
    ghost method LogAction(call: Call, res: Result, steps0: int, calls0: map<string, int>)
      requires kept == Charged(limits, log) + Charge(limits, call, res)
      requires Audited(limits, log, steps0, calls0)
      requires Counted(limits, call, steps0, calls0, steps, calls)
      requires res.refusal.MaxStepsReached? <==> 0 < limits.maxSteps <= steps0
      requires res.refusal.LoopDetected? <==>
               !(0 < limits.maxSteps <= steps0) && 0 < limits.loopLimit <= Seen(calls0, Fingerprint(call))
      modifies this`log
      ensures log == old(log) + [(call, res)] && kept == Charged(limits, log)
      ensures Audited(limits, log, steps, calls)
    {
      ChargedMore(limits, log, call, res);
      log := log + [(call, res)];
      AuditedMore(limits, old(log), steps0, calls0, (call, res), steps, calls, log);
    }

    method CountAndLog(call: Call, w: World) returns (res: Result)
      requires Guarded()
      modifies this`executed, this`hist, this`pause, this`spend, this`paid, this`outlays, this`transfers,
               this`purses, this`runs, this`current, this`phase, this`kept, this`reserved, this`calls, this`steps,
               this`log
      ensures Guarded() && Moved(old(Now()), Now())
      ensures Decided(call, w, Block(call, w, old(spend), old(calls), old(steps)), old(OnRecord(call)),
                      AtTry(call, old(spend)), res, old(Done()), Done())
      ensures log == old(log) + [(call, res)]
    {
      res := Count(call, w);
      LogAction(call, res, old(steps), old(calls));
    }

    /** Runs an action; if it succeeded, the next plan step is done. */
    method Act(call: Call, w: World) returns (res: Result)
      requires Guarded()
      modifies this
      ensures Guarded() && Moved(old(Now()), Now())
      ensures Decided(call, w, Block(call, w, old(spend), old(calls), old(steps)), old(OnRecord(call)),
                      AtTry(call, old(spend)), res, old(Done()), Done())
      ensures if Succeeded(res) && Completes(w) then PlanAdvanced(old(plan), plan) else plan == old(plan)
      ensures log == old(log) + [(call, res)]
    {
      res := CountAndLog(call, w);
      if Succeeded(res) {
        CompleteNextStep(w);
      }
    }

    /** Nothing but the plan and the result came out of the call. */
    twostate predicate NotAnAction()
      reads this
    {
      && executed == old(executed) && steps == old(steps) && calls == old(calls)
      && spend == old(spend) && kept == old(kept) && paid == old(paid) && pause == old(pause)
      && log == old(log) && outlays == old(outlays)
      && runs == old(runs) && current == old(current)
    }

    /** The call reaches the guards: it is no plan call, has no markup inside, and is not a
        delegation before its time. */
    ghost predicate IsAction(call: Call, w: World, plan: Plan.Plan) {
      && call.name != "plan" && !env.nested(call.args)
      && (call.name == "delegate" ==> Plan.ReadyToDelegate(env.delegates, Plan.Items(Plan.Loaded(plan, w.planRead))))
    }

    /** The refusal of a call that is no plan call and does not reach the guards. */
    method BlockedByPlan(call: Call, w: World) returns (res: Option<Result>)
      requires call.name != PLAN
      ensures res.None? <==> IsAction(call, w, plan)
      ensures res.Some? ==> res.value.refusal == NotApproved && !Succeeded(res.value)
    {
      if env.nested(call.args) {
        return Some(Refused(env, call.id, NotApproved, Malformed));
      }
      if call.name == DELEGATE {
        ghost var at;
        var unfinished;
        unfinished, at := Plan.UnfinishedBeforeDelegation(env.delegates, Plan.Loaded(plan, w.planRead));
        if |unfinished| > 0 {
          return Some(Refused(env, call.id, NotApproved, PlanFirst));
        }
      }
      return None;
    }

    method PlanWrap(call: Call, w: World) returns (res: Result)
      requires Guarded()
      modifies this
      ensures Guarded() && Moved(old(Now()), Now())
      // Plan calls are no actions: they are not counted, checked, charged or run.
      ensures call.name == PLAN ==>
                && NotAnAction()
                && plan == Updated(old(plan), call, w)
                && (w.planWrites ==>
                      Plan.StoredAsSent(env.taskKey, Plan.Loaded(old(plan), w.planRead), env.planOf(call.args), plan))
      // A delegation runs only when, in the plan that could be read, everything before the first
      // delegation step is finished.
      ensures call.name != PLAN && !IsAction(call, w, old(plan)) ==> NotAnAction() && res.refusal == NotApproved
      // An action that succeeded completes the next step; others leave the plan alone.
      ensures call.name != PLAN ==>
                if Succeeded(res) && Completes(w) then PlanAdvanced(old(plan), plan) else plan == old(plan)
      ensures log == old(log) + if IsAction(call, w, old(plan)) then [(call, res)] else []
      ensures Paused(call, res, old(pause), pause) && (log == old(log) ==> pause == old(pause))
      // Any other call is decided by the first guard that blocks it.
      ensures IsAction(call, w, old(plan)) ==>
                Decided(call, w, Block(call, w, old(spend), old(calls), old(steps)), old(OnRecord(call)),
                        AtTry(call, old(spend)), res, old(Done()), Done())
    {
      if call.name == PLAN {
        res := HandlePlan(call, w);
        return;
      }
      var blocked := BlockedByPlan(call, w);
      if blocked.Some? {
        return blocked.value;
      }
      res := Act(call, w);
    }

    /** A call that raised a pause is in the log as not approved. */
    lemma PauseIsLogged(log0: seq<(Call, Result)>, log1: seq<(Call, Result)>, call: Call, res: Result,
                        before: Option<Pause>, after: Option<Pause>)
      requires log1 == log0 || log1 == log0 + [(call, res)]
      requires Paused(call, res, before, after) && (log1 == log0 ==> after == before)
      ensures after == before || RaisedBy(log1, |log0|, after)
    {
      if after != before {
        assert NotApprovedFor(log1[|log0|], after.value);
      }
    }

    /** The tool handler. A call of a canceled ask changes nothing. */
    method Handle(call: Call, w: World) returns (res: Result)
      requires Guarded()
      modifies this
      ensures Guarded() && Moved(old(Now()), Now())
      ensures w.canceled ==> NotAnAction() && plan == old(plan) && res == ErrResult(env, call.id, ContextEnded)
      ensures !w.canceled && IsAction(call, w, old(plan)) ==>
                Decided(call, w, Block(call, w, old(spend), old(calls), old(steps)), old(OnRecord(call)),
                        AtTry(call, old(spend)), res, old(Done()), Done())
      ensures !w.canceled && !IsAction(call, w, old(plan)) ==>
                NotAnAction() && (call.name != PLAN ==> res.refusal == NotApproved)
      ensures log == old(log) + if !w.canceled && IsAction(call, w, old(plan)) then [(call, res)] else []
      // The steps of a plan call are stored as they were sent, except that tasks that were done stay
      // done, as far as the stored plan could be read.
      ensures call.name == PLAN ==> plan == if w.canceled then old(plan) else Updated(old(plan), call, w)
      ensures call.name == PLAN && !w.canceled && w.planWrites ==>
                Plan.StoredAsSent(env.taskKey, Plan.Loaded(old(plan), w.planRead), env.planOf(call.args), plan)
      ensures pause == old(pause) || RaisedBy(log, |old(log)|, pause)
      // A successful action completes the next step, if the plan can be read and written.
      ensures call.name != PLAN ==>
                if Succeeded(res) && Completes(w) && !w.canceled then PlanAdvanced(old(plan), plan)
                else plan == old(plan)
      // The unfinished plan steps go down by one exactly with the successful actions after which
      // the plan could be read and written.
      ensures call.name != PLAN ==>
                Plan.UnfinishedCount(Plan.Items(plan)) ==
                  var n := Plan.UnfinishedCount(Plan.Items(old(plan)));
                  if Succeeded(res) && Completes(w) && n > 0 then n - 1 else n
    {
      if w.canceled {
        return ErrResult(env, call.id, ContextEnded);
      }
      res := PlanWrap(call, w);
      PauseIsLogged(old(log), log, call, res, old(pause), pause);
      if call.name != PLAN && Succeeded(res) && Completes(w) && old(plan).Steps? {
        Plan.CompletionCounts(old(plan).items, plan.items);
      }
    }

    // ----- the ask -----

    /** Only one run and its history changed, neither if nothing is saved. */
    ghost predicate OnlyThis(id: string, runs0: map<string, AgentRun.Run>, runs1: map<string, AgentRun.Run>,
                             hist0: map<string, History>, hist1: map<string, History>)
    {
      && SameElsewhere(id, runs0, runs1) && Grew(Some(id), hist0, hist1)
      && (!limits.checkpointed ==> runs1 == runs0 && hist1 == hist0)
    }

    lemma OnlyThisTwice(id: string, runs0: map<string, AgentRun.Run>, runs1: map<string, AgentRun.Run>,
                        runs2: map<string, AgentRun.Run>,
                        hist0: map<string, History>, hist1: map<string, History>, hist2: map<string, History>)
      requires OnlyThis(id, runs0, runs1, hist0, hist1) && OnlyThis(id, runs1, runs2, hist1, hist2)
      ensures OnlyThis(id, runs0, runs2, hist0, hist2)
    {
    }

    lemma RaisedStays(from: nat, a: seq<(Call, Result)>, b: seq<(Call, Result)>, pause: Option<Pause>)
      requires from <= |a| && a <= b
      ensures RaisedBy(a, from, pause) || RaisedBy(b, |a|, pause) ==> RaisedBy(b, from, pause)
    {
      if RaisedBy(a, from, pause) {
        var i :| from <= i < |a| && NotApprovedFor(a[i], pause.value);
        assert NotApprovedFor(b[i], pause.value);
      }
    }

    /** Any number of tool calls, as the model or its reply makes them. */
    method Drive()
      requires Guarded() && current.Some?
      modifies this
      ensures Working(old(current.value.id))
      ensures OnlyThis(old(current.value.id), old(runs), runs, old(hist), hist)
      ensures old(log) <= log && old(outlays) <= outlays
      ensures pause == old(pause) || RaisedBy(log, |old(log)|, pause)
    {
      var left: int := *;
      while left > 0
        invariant Guarded() && current.Some? && current.value.id == old(current.value.id)
        invariant Grew(CurrentId(), old(hist), hist) && OnlyRun(CurrentId(), old(runs), runs)
        invariant old(log) <= log && old(outlays) <= outlays
        invariant pause == old(pause) || RaisedBy(log, |old(log)|, pause)
      {
        ghost var before := hist;
        ghost var was := log;
        var call: Call := *;
        var w: World := *;
        var _ := Handle(call, w);
        RaisedStays(|old(log)|, was, log, pause);
        GrewTwice(CurrentId(), old(hist), before, hist);
        left := left - 1;
      }
    }

    ghost predicate Working(id: string)
      reads this
    {
      Guarded() && current.Some? && current.value.id == id
    }

    /** The run has been let go of, and the counts are within their bounds. */
    ghost predicate Released(id: string)
      reads this
    {
      current.None? && (limits.checkpointed ==> Tracked(id, None))
    }

    method Reset()
      modifies this`steps, this`calls, this`spend, this`pause, this`executed, this`kept, this`paid, this`reserved,
               this`log, this`outlays, this`transfers, this`purses
      ensures steps == 0 && calls == map[] && spend == 0 && pause == None && executed == multiset{}
      ensures log == [] && outlays == [] && Accounted()
    {
      steps, calls, spend, pause := 0, map[], 0, None;
      executed, kept, paid, reserved, log, outlays := multiset{}, 0, 0, 0, [], [];
      transfers, purses := [], [EMPTY];
    }

    /** Takes up the run and makes the first save. */
    method BeginAsk(run: AgentRun.Run, io: Saving) returns (ok: bool)
      requires current.None? && (limits.checkpointed ==> Tracked(run.id, Some(AgentRun.Live(run, AgentRun.Starting))))
      modifies this`runs, this`hist, this`current, this`phase
      ensures OnlyThis(run.id, old(runs), runs, old(hist), hist)
      ensures ok <==> !limits.checkpointed || (io.stored && io.reported)
      ensures ok ==> InTurn() && current == Some(run)
      ensures !ok ==> Released(run.id) && (run.id in runs ==> !AgentRun.Terminal(runs[run.id].status))
    {
      current, phase := Some(run), AgentRun.Starting;
      ok := SaveRun(run, io);
      if limits.checkpointed {
        AgentRun.HistoryKeepsInv(hist[run.id].events, hist[run.id].states, |hist[run.id].events|);
        Log(AgentRun.Begin(io.stored, ok),
            AgentRun.Sys(Stored(run.id), if ok then Some(AgentRun.Live(run, AgentRun.Turn)) else None));
      }
      phase := AgentRun.Turn;
      if !ok {
        current := None;
      }
    }

    ghost predicate SavedDone(id: string)
      reads this`runs
    {
      limits.checkpointed && id in runs && runs[id].status == AgentRun.Done
    }

    /** Ends the ask: the run is updated, saved and let go of. */
    method EndAsk(ending: AgentRun.Ending, io: Saving) returns (ok: bool)
      requires Guarded() && current.Some? && AgentRun.PossibleEnding(ending)
      modifies this`runs, this`hist, this`current
      ensures Released(old(current.value.id))
      ensures OnlyThis(old(current.value.id), old(runs), runs, old(hist), hist)
      ensures SavedDone(old(current.value.id)) <==> limits.checkpointed && io.stored && ending.Answered?
      ensures ok <==> !limits.checkpointed || (io.stored && io.reported)
      ensures limits.checkpointed && io.stored ==>
                && old(current.value.steps) != [] && old(current.value.id) in runs
                && runs[old(current.value.id)] == AgentRun.Ended(old(current.value), ending)
    {
      var run := current.value;
      if !limits.checkpointed {
        current := None;
        return true;
      }
      AgentRun.HistoryKeepsInv(hist[run.id].events, hist[run.id].states, |hist[run.id].events|);
      var after := AgentRun.Ended(run, ending);
      ok := SaveRun(after, io);
      Log(AgentRun.End(ending, io.stored), AgentRun.Sys(Stored(run.id), None));
      current := None;
    }

    /** After an ask the guardrails' counts are within their bounds and the books are balanced. */
    ghost predicate Accounted()
      reads this
    {
      && LoopBound(limits, calls, executed) && StepBound(limits, steps, executed)
      && Books() && reserved == 0 && kept == Charged(limits, log) && RefusalsAreDue(limits, log)
    }

    /** The process dies; only what was saved is left of the run. */
    method Crash()
      requires Guarded() && current.Some?
      modifies this`hist, this`current
      ensures Released(old(current.value.id)) && !SavedDone(old(current.value.id))
      ensures OnlyThis(old(current.value.id), old(runs), runs, old(hist), hist)
    {
      if Checkpointed() {
        ghost var id := current.value.id;
        AgentRun.HistoryKeepsInv(hist[id].events, hist[id].states, |hist[id].events|);
        Log(AgentRun.Crash, AgentRun.Sys(Stored(id), None));
      }
      current := None;
    }

    ghost predicate PlanFinished()
      reads this`plan
    {
      Plan.UnfinishedCount(Plan.Items(plan)) == 0
    }

    /** What can end an ask after a model turn: a crash, the model's failure, or a pause that a
        call raised. */
    method Interrupt(message: string) returns (out: Option<Outcome>)
      requires Guarded() && current.Some?
      modifies this`runs, this`hist, this`current
      ensures OnlyThis(old(current.value.id), old(runs), runs, old(hist), hist)
      ensures out.None? ==> unchanged(this) && (pause.None? || !limits.checkpointed)
      ensures out.Some? ==>
                Released(old(current.value.id)) && !SavedDone(old(current.value.id)) && !out.value.Replied?
      // A pause is saved as one, waiting for input exactly if a tool asked for it.
      ensures out == Some(Suspended) ==> pause.Some? && SavedPause(old(current.value.id), pause.value, message)
    {
      var dies: bool := *;
      if dies {
        Crash();
        return Some(Died);
      }
      var io: Saving := *;
      var failed: bool := *;
      if failed {
        var error: string := *;
        var attempts: int := *;
        var status: AgentRun.Status :|
          status in {AgentRun.Canceled, AgentRun.Timeout, AgentRun.RateLimited, AgentRun.Failed};
        var _ := EndAsk(AgentRun.ModelFailed(status, attempts, error), io);
        return Some(Errored);
      }
      if pause.Some? && limits.checkpointed {
        var p := pause.value;
        var note := env.text(p.why);
        var ok := EndAsk(if p.tool == HUMAN_INPUT
                         then AgentRun.HumanPause(message, p.tool, note, env.pauseJson(message, note))
                         else AgentRun.ApprovalPause(message, p.tool, note), io);
        return Some(if ok then Suspended else Errored);
      }
      return None;
    }

    /** The run is saved as paused, and is resumed with this message unless that is empty. */
    ghost predicate SavedPause(id: string, p: Pause, message: string)
      reads this`runs
    {
      && id in runs && runs[id].status == AgentRun.Paused
      && (AgentRun.WaitsForInput(runs[id]) <==> p.tool == "request_input")
      && ResumedWith(id, message)
    }

    ghost predicate SavedPaused(id: string)
      reads this`runs
    {
      id in runs && runs[id].status == AgentRun.Paused
    }

    ghost predicate ResumedWith(id: string, message: string)
      reads this`runs
    {
      id in runs && (message != "" ==> AgentMessages.TextOf(runs[id].data) == Some(message))
    }

    /** The model generates, calling tools as it goes. */
    method Generate(message: string) returns (out: Option<Outcome>)
      requires Guarded() && current.Some?
      modifies this
      ensures OnlyThis(old(current.value.id), old(runs), runs, old(hist), hist)
      ensures old(log) <= log && old(outlays) <= outlays
      ensures out.None? ==> Working(old(current.value.id)) && (pause.None? || !limits.checkpointed)
      ensures out.Some? ==>
                && Released(old(current.value.id)) && Accounted() && !SavedDone(old(current.value.id))
                && !out.value.Replied?
      ensures out == Some(Suspended) ==> pause.Some? && SavedPause(old(current.value.id), pause.value, message)
    {
      ghost var id := current.value.id;
      Drive();
      ghost var runs1, hist1 := runs, hist;
      out := Interrupt(message);
      OnlyThisTwice(id, old(runs), runs1, runs, old(hist), hist1, hist);
    }

    /** The run is saved as failed for its unfinished plan; a resume goes on with the message. */
    method EndUnfinished(message: string, io: Saving)
      requires Guarded() && current.Some?
      modifies this`runs, this`hist, this`current
      ensures OnlyThis(old(current.value.id), old(runs), runs, old(hist), hist)
      ensures Released(old(current.value.id)) && Accounted() && !SavedDone(old(current.value.id))
      ensures limits.checkpointed && io.stored ==> ResumedWith(old(current.value.id), message)
    {
      var _ := EndAsk(AgentRun.PlanUnfinished(message, "unfinished plan steps"), io);
    }

    /** The run is saved as done with the reply. */
    method EndAnswered(reply: string, io: Saving) returns (ok: bool)
      requires Guarded() && current.Some?
      modifies this`runs, this`hist, this`current
      ensures OnlyThis(old(current.value.id), old(runs), runs, old(hist), hist)
      ensures Released(old(current.value.id)) && Accounted()
      ensures SavedDone(old(current.value.id)) <==> limits.checkpointed && io.stored
      ensures SavedDone(old(current.value.id)) ==> runs[old(current.value.id)].data == AgentRun.Response(reply)
      ensures ok <==> !limits.checkpointed || (io.stored && io.reported)
    {
      ok := EndAsk(AgentRun.Answered(reply), io);
    }

    /** The run is saved as failed if the plan that can be read is unfinished, and else with the
        reply. */
    method Finish(message: string, reply: string, readable: bool, io: Saving) returns (out: Outcome)
      requires Guarded() && current.Some?
      modifies this`runs, this`hist, this`current
      ensures OnlyThis(old(current.value.id), old(runs), runs, old(hist), hist)
      ensures Released(old(current.value.id)) && Accounted()
      // The run is saved as done exactly if its plan is finished or could not be read.
      ensures SavedDone(old(current.value.id)) <==> limits.checkpointed && io.stored && (PlanFinished() || !readable)
      ensures limits.checkpointed && readable && !PlanFinished() ==>
                out == Errored && (io.stored ==> ResumedWith(old(current.value.id), message))
      ensures limits.checkpointed && out.Replied? ==>
                SavedDone(old(current.value.id)) && runs[old(current.value.id)].data == AgentRun.Response(reply)
      ensures out == Errored || out == Replied(reply)
    {
      if limits.checkpointed {
        ghost var at;
        var unfinished;
        unfinished, at := Plan.UnfinishedSteps(Plan.Loaded(plan, readable));
        if |unfinished| > 0 {
          EndUnfinished(message, io);
          return Errored;
        }
      }
      var ok := EndAnswered(reply, io);
      return if ok then Replied(reply) else Errored;
    }

    /** The most model turns of one ask. */
    const MAX_TURNS: nat := 7

    /** Whether the model gets another turn: for unfinished plan steps or a tool call that broke off. */
    method GoesOn(turn: nat, readable: bool, brokenOff: bool) returns (more: bool)
      ensures more <==> turn < 6 && (brokenOff || (limits.checkpointed && readable && !PlanFinished()))
    {
      if limits.checkpointed {
        ghost var at;
        var unfinished;
        unfinished, at := Plan.UnfinishedSteps(Plan.Loaded(plan, readable));
        if |unfinished| > 0 && turn + 1 < MAX_TURNS {
          return true;
        }
      }
      return brokenOff && turn + 1 < MAX_TURNS;
    }

    /** What holds when turn number `turns` came to an answer. */
    ghost predicate AnsweredIn(id: string, out: Outcome, turns: nat, how: Reads)
      reads this`runs, this`plan, this`log, this`pause
    {
      // An answer for an unfinished plan is an error if the plan could be read at the end, and
      // comes only after the last turn if it could be read before.
      && (limits.checkpointed && !PlanFinished() ==>
            (how.forEnd ==> out == Errored) && (how.forTurn ==> turns == 7))
      && (SavedDone(id) ==> PlanFinished() || !how.forEnd)
      // A pause that is left at an answer, also one saved as done, was raised by a call in the
      // text of the last reply.
      && (limits.checkpointed && pause.Some? ==> RaisedBy(log, how.textFrom, pause))
      && (limits.checkpointed && out.Replied? ==> SavedDone(id) && runs[id].data == AgentRun.Response(out.reply))
    }

    /** Unless the model gets another turn the ask is finished. */
    method FinishOrGoOn(message: string, turn: nat, ghost textFrom: nat)
      returns (out: Option<Outcome>, ghost last: Option<Reads>)
      requires Guarded() && current.Some? && turn < MAX_TURNS
      requires limits.checkpointed && pause.Some? ==> RaisedBy(log, textFrom, pause)
      modifies this`runs, this`hist, this`current
      ensures OnlyThis(old(current.value.id), old(runs), runs, old(hist), hist)
      ensures out.None? ==> Working(old(current.value.id)) && turn + 1 < MAX_TURNS
      ensures out.Some? ==> last.Some? && Released(old(current.value.id)) && Accounted()
      ensures out.Some? ==> AnsweredIn(old(current.value.id), out.value, turn + 1, last.value)
      ensures out != Some(Suspended)
    {
      var how: Reads := *;
      var brokenOff: bool := *;
      var more := GoesOn(turn, how.forTurn, brokenOff);
      if more {
        return None, None;
      }
      var reply: string := *;
      var io: Saving := *;
      var end := Finish(message, reply, how.forEnd, io);
      return Some(end), Some(how.(textFrom := textFrom));
    }

    /** One turn: the model generates, the calls in the text of its reply are made, and unless the
        model gets another turn the ask is finished. */
    method Turn(message: string, turn: nat) returns (out: Option<Outcome>, ghost last: Option<Reads>)
      requires Guarded() && current.Some? && turn < MAX_TURNS
      modifies this
      ensures OnlyThis(old(current.value.id), old(runs), runs, old(hist), hist)
      ensures old(log) <= log && old(outlays) <= outlays
      ensures out.None? ==> Working(old(current.value.id)) && turn + 1 < MAX_TURNS
      ensures out.Some? ==> Released(old(current.value.id)) && Accounted()
      ensures out.Some? && last.None? ==> !out.value.Replied? && !SavedDone(old(current.value.id))
      ensures out == Some(Suspended) ==>
                last.None? && pause.Some? && SavedPause(old(current.value.id), pause.value, message)
      ensures out.Some? && last.Some? ==> AnsweredIn(old(current.value.id), out.value, turn + 1, last.value)
    {
      ghost var id := current.value.id;
      last := None;
      out := Generate(message);
      if out.Some? {
        return;
      }
      ghost var runs1, hist1, textFrom := runs, hist, |log|;
      Drive();
      OnlyThisTwice(id, old(runs), runs1, runs, old(hist), hist1, hist);
      runs1, hist1 := runs, hist;
      out, last := FinishOrGoOn(message, turn, textFrom);
      OnlyThisTwice(id, old(runs), runs1, runs, old(hist), hist1, hist);
    }

    /** Works on the run until it is answered, fails or pauses. `last` is Some exactly if the ask
        came to an answer. */
    method Turns(message0: string) returns (out: Outcome, ghost turns: nat, ghost last: Option<Reads>)
      requires Guarded() && current.Some?
      modifies this
      ensures 1 <= turns <= 7
      ensures last.None? ==> !out.Replied? && !SavedDone(old(current.value.id))
      // A pause in the first turn is resumed with the message of the ask.
      ensures out == Suspended ==> pause.Some? && SavedPaused(old(current.value.id))
      ensures out == Suspended && turns == 1 ==> ResumedWith(old(current.value.id), message0)
      ensures last.Some? ==> AnsweredIn(old(current.value.id), out, turns, last.value)
      ensures OnlyThis(old(current.value.id), old(runs), runs, old(hist), hist)
      ensures Released(old(current.value.id)) && Accounted()
      ensures old(log) <= log && old(outlays) <= outlays
    {
      ghost var id := current.value.id;
      var message := message0;
      var turn: nat := 0;
      while true
        invariant turn < MAX_TURNS && Working(id) && (turn == 0 ==> message == message0)
        invariant OnlyThis(id, old(runs), runs, old(hist), hist)
        invariant old(log) <= log && old(outlays) <= outlays
        decreases MAX_TURNS - turn
      {
        turns := turn + 1;
        ghost var runs1, hist1 := runs, hist;
        var ended;
        ended, last := Turn(message, turn);
        OnlyThisTwice(id, old(runs), runs1, runs, old(hist), hist1, hist);
        if ended.Some? {
          return ended.value, turns, last;
        }
        message := *;
        turn := turn + 1;
      }
    }

    /** What one ask promises: bounded runs of the base handler, in all and per call; refusals for
        the step and the loop limit exactly where the log is a reason for them; a recorded
        spend that is, in 64 bits, the prices of the charged calls plus the booked payments; a run
        that is saved as done only with a finished plan, unless the plan could not be read at the
        end. */
    ghost predicate AskKept(id: string, last: Option<Reads>)
      reads this
    {
      && RunsKept() && RefusalsAreDue(limits, log)
      && spend == Wrap(Charged(limits, log) + Booked(outlays))
      && MoneyKept()
      && (SavedDone(id) ==> last.Some? && (PlanFinished() || !last.value.forEnd))
    }

    /** The base handler ran at most MaxSteps times max(1, ToolMaxAttempts) in all, and at most
        LoopLimit times that for every name and arguments. */
    ghost predicate RunsKept()
      reads this`executed
    {
      var attempts := if limits.toolMaxAttempts > 1 then limits.toolMaxAttempts else 1;
      && (limits.maxSteps > 0 ==> |executed| <= limits.maxSteps * attempts)
      && (limits.loopLimit > 0 ==> forall c :: executed[c] <= limits.loopLimit * attempts)
    }

    /** The booked payments, those that could be read, are all the money that was paid if and only
        if every paid response could be read. If the prices fit, the recorded spend is exact and
        within the larger budget, and what is booked is within Budget. */
    ghost predicate MoneyKept()
      reads this`spend, this`outlays, this`log
    {
      && Booked(outlays) <= Paid(outlays)
      && (Booked(outlays) == Paid(outlays) <==> AllRead(outlays))
      && (SpendsFit(limits) ==>
            && 0 <= spend && (spend <= limits.maxSpend || spend <= limits.budget)
            && spend == Charged(limits, log) + Booked(outlays)
            && Booked(outlays) <= limits.budget)
    }

    lemma AccountedIsKept(id: string, last: Option<Reads>)
      requires Accounted() && (SavedDone(id) ==> last.Some? && (PlanFinished() || !last.value.forEnd))
      ensures AskKept(id, last)
    {
      forall c: string
        ensures limits.loopLimit > 0 ==>
                  executed[c] <= limits.loopLimit * if limits.toolMaxAttempts > 1 then limits.toolMaxAttempts else 1
      {
        BoundedRuns(limits, steps, calls, executed, c);
      }
      BoundedRuns(limits, steps, calls, executed, "");
      MoneyIsKept();
    }

    lemma MoneyIsKept()
      requires Books() && reserved == 0 && kept == Charged(limits, log)
      ensures MoneyKept() && spend == Wrap(Charged(limits, log) + Booked(outlays))
    {
      BookedAtMostPaid(outlays);
      SpendingIsBalanced(limits, transfers, purses, |transfers|);
      if SpendsFit(limits) {
        SpendingKeepsPurse(limits, transfers, purses, |transfers|);
        SpendableRange(limits, spend);
      }
    }

    method AskLocked(run: AgentRun.Run, message: string)
      returns (out: Outcome, ghost turns: nat, ghost last: Option<Reads>)
      requires current.None? && (limits.checkpointed ==> Tracked(run.id, Some(AgentRun.Live(run, AgentRun.Starting))))
      modifies this
      ensures turns <= 7 && AskKept(run.id, last) && Released(run.id)
      ensures out == Suspended ==> SavedPaused(run.id) && (turns == 1 ==> ResumedWith(run.id, message))
      ensures OnlyThis(run.id, old(runs), runs, old(hist), hist)
      ensures limits.checkpointed && out.Replied? ==>
                SavedDone(run.id) && runs[run.id].data == AgentRun.Response(out.reply)
    {
      Reset();
      var io: Saving := *;
      var ok := BeginAsk(run, io);
      if !ok {
        AccountedIsKept(run.id, None);
        return Errored, 0, None;
      }
      ghost var runs1, hist1 := runs, hist;
      out, turns, last := Turns(message);
      OnlyThisTwice(run.id, old(runs), runs1, runs, old(hist), hist1, hist);
      AccountedIsKept(run.id, last);
    }

    /** The history of a new run begins. */
    ghost method Open(id: string, message: string)
      requires id !in runs
      modifies this`hist
      ensures hist.Keys == old(hist).Keys + if limits.checkpointed then {id} else {}
      ensures SameElsewhere(id, old(hist), hist) && (!limits.checkpointed ==> hist == old(hist))
      ensures limits.checkpointed ==> Tracked(id, Some(AgentRun.Live(AgentRun.NewRun(id, message), AgentRun.Starting)))
    {
      if limits.checkpointed {
        var live := AgentRun.Live(AgentRun.NewRun(id, message), AgentRun.Starting);
        hist := hist[id := History([AgentRun.Ask(id, message)],
                                   [AgentRun.Sys(None, None), AgentRun.Sys(None, Some(live))])];
      }
    }

    /** A new request; `id` is fresh. Finding the tools may fail. */
    method Ask(id: string, message: string) returns (out: Outcome, ghost turns: nat, ghost last: Option<Reads>)
      requires Valid() && id !in hist && id !in runs
      modifies this
      ensures Valid() && turns <= 7 && (turns > 0 ==> AskKept(id, last))
      ensures OnlyThis(id, old(runs), runs, old(hist), hist)
      ensures limits.checkpointed && out.Replied? ==>
                id in runs && runs[id].status == AgentRun.Done && runs[id].data == AgentRun.Response(out.reply)
      ensures out == Suspended && turns == 1 ==> ResumedWith(id, message)
    {
      var discovered: bool := *;
      if !discovered {
        return Errored, 0, None;
      }
      var run := AgentRun.NewRun(id, message);
      ghost var hist0 := hist;
      Open(id, message);
      out, turns, last := AskLocked(run, message);
      if limits.checkpointed {
        AllTrackedAgain(id, old(runs), runs, hist0, hist);
      }
    }

    /** Takes the saved run up again with an event of the run machine. */
    method TakeUp(run: AgentRun.Run, message: string, ghost e: AgentRun.Event)
      returns (out: Outcome, ghost turns: nat, ghost last: Option<Reads>)
      requires Valid() && limits.checkpointed && run.id in hist && run.id in runs
      requires AgentRun.Apply(AgentRun.Sys(Stored(run.id), None), e) ==
               Some(AgentRun.Sys(Stored(run.id), Some(AgentRun.Live(run, AgentRun.Starting))))
      modifies this
      ensures Valid() && turns <= 7 && AskKept(run.id, last)
      ensures OnlyThis(run.id, old(runs), runs, old(hist), hist)
      ensures out.Replied? ==> SavedDone(run.id) && runs[run.id].data == AgentRun.Response(out.reply)
      ensures out == Suspended && turns == 1 ==> ResumedWith(run.id, message)
    {
      ghost var id := run.id;
      ghost var s := AgentRun.Sys(Stored(id), Some(AgentRun.Live(run, AgentRun.Starting)));
      AgentRun.BehaviorSnoc(hist[id].events, hist[id].states, e, s);
      hist := hist[id := History(hist[id].events + [e], hist[id].states + [s])];
      ghost var hist1 := hist;
      out, turns, last := AskLocked(run, message);
      OnlyThisTwice(id, old(runs), old(runs), runs, old(hist), hist1, hist);
      AllTrackedAgain(id, old(runs), runs, old(hist), hist);
    }

    /** Continues a run; a done one is answered from its record, without a model turn. `loads`
        says whether the checkpoint could be read. */
    method Resume(id: string, loads: bool) returns (out: Outcome, ghost turns: nat, ghost last: Option<Reads>)
      requires Valid()
      modifies this
      ensures Valid() && turns <= 7 && (turns > 0 ==> AskKept(id, last))
      ensures OnlyThis(id, old(runs), runs, old(hist), hist)
      ensures (old(CanResume(id)) && loads && limits.checkpointed)
              || (turns == 0 && runs == old(runs) && executed == old(executed))
      ensures limits.checkpointed && loads && old(SavedDone(id)) ==>
                out.Replied? && old(runs)[id].data == AgentRun.Response(out.reply)
      // It goes on with the message it was saved with.
      ensures out == Suspended && turns == 1 ==>
                && id in old(runs) && old(runs)[id].data.Message?
                && ResumedWith(id, old(runs)[id].data.text)
    {
      if !limits.checkpointed || !loads || id !in runs {
        return Errored, 0, None;
      }
      var run := runs[id];
      AgentRun.HistoryKeepsInv(hist[id].events, hist[id].states, |hist[id].events|);
      if AgentRun.WaitsForInput(run) {
        return Errored, 0, None;
      }
      if run.status == AgentRun.Done {
        return Replied(run.data.reply), 0, None;
      }
      if AgentRun.Terminal(run.status) {
        return Errored, 0, None;
      }
      var discovered: bool := *;
      if !discovered {
        return Errored, 0, None;
      }
      out, turns, last := TakeUp(AgentRun.Reopened(run), run.data.text, AgentRun.Resume);
    }

    ghost predicate CanResume(id: string)
      reads this`runs
    {
      id in runs && AgentRun.Resumable(runs[id])
    }

    /** Continues a run that waits for human input with that input. */
    method ResumeInput(id: string, input: string, loads: bool)
      returns (out: Outcome, ghost turns: nat, ghost last: Option<Reads>)
      requires Valid()
      modifies this
      ensures Valid() && turns <= 7 && (turns > 0 ==> AskKept(id, last))
      ensures OnlyThis(id, old(runs), runs, old(hist), hist)
      ensures (id in old(runs) && AgentRun.WaitsForInput(old(runs)[id]) && loads && limits.checkpointed)
              || (out == Errored && turns == 0 && runs == old(runs) && executed == old(executed))
      // It goes on with the message it was saved with, followed by the input.
      ensures out == Suspended && turns == 1 ==>
                && id in old(runs) && AgentMessages.TextOf(old(runs)[id].data).Some?
                && ResumedWith(id, AgentMessages.TextOf(old(runs)[id].data).value + "\n\nHuman input: " + input)
    {
      if !limits.checkpointed || !loads || id !in runs || !AgentRun.WaitsForInput(runs[id]) {
        return Errored, 0, None;
      }
      var discovered: bool := *;
      if !discovered {
        return Errored, 0, None;
      }
      AgentRun.HistoryKeepsInv(hist[id].events, hist[id].states, |hist[id].events|);
      var run := AgentRun.WithInput(runs[id], input);
      out, turns, last := TakeUp(AgentRun.Reopened(run), run.data.text, AgentRun.ResumeInput(input));
    }

    /** In a valid agent every saved run keeps its done tool results: the history that explains
        it never executed such a call after it was saved as done. */
    lemma SavedResultsAreFinal(id: string, p: nat, q: nat, i: nat, call: string)
      requires Valid() && id in hist && p <= q < |hist[id].events| && hist[id].states[p].saved.Some?
      requires 0 < i < |hist[id].states[p].saved.value.steps|
      requires hist[id].states[p].saved.value.steps[i].status == AgentRun.Done
      requires hist[id].states[p].saved.value.steps[i].name == AgentRun.ToolName(call)
      ensures hist[id].events[q] != AgentRun.Execute(call)
      ensures id in runs && i < |runs[id].steps| && runs[id].steps[i].name == AgentRun.ToolName(call)
      ensures runs[id].steps[i].result == hist[id].states[p].saved.value.steps[i].result
    {
      AgentRun.DoneCallNeverExecutes(hist[id].events, hist[id].states, p, q, i, call);
      AgentRun.ToolResultStays(hist[id].events, hist[id].states, p, |hist[id].events|, i);
      assert TrackedIn(runs, hist, id, None);
    }
  }

  // ----- runs that show where the code does less than it promises -----

  /** An agent whose plan calls always bring a plan with one pending step, whose tools always ask
      for a payment, and whose errors are never worth a retry. */
  function SampleEnv(): Env {
    Env(args => Plan.Steps([Plan.Step("task", "", "pending")]), args => "url", args => false, task => task,
        task => false,
        content => NoProblem, why => "", why => "", (content, n) => content, content => true,
        (message, prompt) => message, why => false)
  }

  function SampleLimits(budget: int64, checkpointed: bool, approves: bool): Limits {
    Limits(0, 0, 0, budget, 0, map[], checkpointed, approves)
  }

  /** A world in which nothing fails. */
  function Fine(approved: bool, tries: seq<Try>): World {
    World(false, false, approved, "", tries, true, true, true)
  }

  /** An ask that has just begun. */
  method NewAsk(limits: Limits) returns (agent: Agent)
    ensures fresh(agent) && agent.limits == limits && agent.env == SampleEnv()
    ensures agent.Working("run") && agent.plan == Plan.NoPlan && agent.log == [] && agent.outlays == []
    ensures agent.current == Some(AgentRun.NewRun("run", "message"))
    ensures agent.spend == 0 && agent.steps == 0 && agent.calls == map[]
  {
    agent := new Agent(limits, SampleEnv());
    agent.Reset();
    agent.Open("run", "message");
    var ok := agent.BeginAsk(AgentRun.NewRun("run", "message"), Saving(true, true));
  }

  /** The same ask after its first plan call. */
  method AskWithPlan() returns (agent: Agent)
    ensures fresh(agent) && agent.limits.checkpointed && agent.Working("run")
    ensures agent.plan == Plan.Steps([Plan.Step("task", "", "pending")])
  {
    agent := NewAsk(SampleLimits(0, true, false));
    Plan.NothingToPreserve(agent.env.taskKey, Plan.Steps([Plan.Step("task", "", "pending")]));
    var _ := agent.Handle(Call("1", PLAN, ""), Fine(true, []));
  }

  /** When the plan cannot be read at the end, the run is saved as done although a step of its
      plan is unfinished. */
  method UnreadPlanIsSavedAsDone() returns (agent: Agent)
    ensures fresh(agent) && agent.SavedDone("run") && !agent.PlanFinished()
  {
    agent := AskWithPlan();
    Plan.NoneUnfinished(Plan.Items(agent.plan));
    assert Plan.Unfinished(Plan.Items(agent.plan)[0]);
    var _ := agent.Finish("message", "reply", false, Saving(true, true));
  }

  /** An ask in which a call was not approved. */
  method AskWithPause() returns (agent: Agent)
    ensures fresh(agent) && agent.limits.checkpointed && agent.Working("run") && agent.plan == Plan.NoPlan
    ensures agent.pause.Some? && agent.pause.value.tool == "tool"
  {
    agent := NewAsk(SampleLimits(0, true, true));
    var call, w := Call("1", "tool", ""), Fine(false, []);
    agent.FirstGuardWins(call, w, 0, map[], 0);
    assert agent.IsAction(call, w, agent.plan);
    var _ := agent.Handle(call, w);
  }

  /** A call in the text of the last reply is not approved: the pause comes too late, and the run
      is saved as done. */
  method LatePauseIsDropped() returns (agent: Agent)
    ensures fresh(agent) && agent.SavedDone("run") && agent.pause.Some? && agent.pause.value.tool == "tool"
  {
    agent := AskWithPause();
    var _ := agent.Finish("message", "reply", true, Saving(true, true));
  }

  /** A try in which the whole budget of 5 is paid for a response that cannot be read. */
  function Unread(): Try {
    IDLE.(demanded := true, demand := 5, accepted := true)
  }

  lemma UnreadPays(call: Call)
    requires call.name != HUMAN_INPUT
    ensures Tries(SampleLimits(5, false, false), SampleEnv(), call, Fine(true, [Unread()]), 0, 0).outlays ==
            [Outlay(5, false)]
  {
  }

  /** A call that pays 5 and cannot read the response. */
  method HandleUnread(agent: Agent, call: Call)
    requires agent.limits == SampleLimits(5, false, false) && agent.env == SampleEnv()
    requires agent.Guarded() && agent.spend == 0 && call.name == "tool"
    modifies agent
    ensures agent.Guarded() && agent.outlays == old(agent.outlays) + [Outlay(5, false)]
  {
    UnreadPays(call);
    var w := Fine(true, [Unread()]);
    assert agent.IsAction(call, w, agent.plan);
    var _ := agent.Handle(call, w);
  }

  /** One more such call: nothing is booked. */
  method PayUnread(agent: Agent, call: Call)
    requires agent.limits == SampleLimits(5, false, false) && agent.env == SampleEnv()
    requires agent.Guarded() && agent.spend == 0 && Booked(agent.outlays) == 0 && call.name == "tool"
    modifies agent
    ensures agent.Guarded() && agent.spend == 0 && Booked(agent.outlays) == 0
    ensures Paid(agent.outlays) == Paid(old(agent.outlays)) + 5
  {
    HandleUnread(agent, call);
    OneMoreOutlay(old(agent.outlays), Outlay(5, false));
    NothingCharged(agent.limits, agent.log);
    agent.MoneyIsKept();
  }

  /** Two paid responses that cannot be read: nothing is booked, and twice the budget is paid. */
  method UnreadPaymentsExceedBudget() returns (agent: Agent)
    ensures fresh(agent) && agent.limits.budget == 5 && agent.Guarded()
    ensures agent.spend == 0 && Booked(agent.outlays) == 0 && Paid(agent.outlays) == 10
  {
    agent := NewAsk(SampleLimits(5, false, false));
    PayUnread(agent, Call("1", "tool", ""));
    PayUnread(agent, Call("2", "tool", ""));
  }
}
