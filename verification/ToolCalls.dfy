/** The calls and results that go through an agent's tool handler (`agent/builtin.go`), what one
try of a call comes to, and the money that moves with it. Everything outside the agent is a
parameter: what a tool answers, what a paid resource demands, whether a response can be read. */
module ToolCalls {
  import opened Guardrails
  import opened Int64
  import opened Options
  import Plan

  datatype Refusal = NotRefused | MaxStepsReached | LoopDetected | SpendBudget | NotApproved

  /** A tool call; `args` are its marshalled arguments. */
  datatype Call = Call(id: string, name: string, args: string)

  /** What an error message is about. */
  datatype Problem =
    | NoProblem                             // no error message
    | Told(message: string)                 // a tool's own message
    | ContextEnded                          // canceled, or past the deadline
    | InputRequired(prompt: string)
    | NotApprovedBecause(reason: string)
    | Malformed
    | PlanFirst
    | StepLimit
    | LoopLimit
    | PriceTooHigh
    | NoUrl
    | BudgetExhausted
    | OverBudget
    | ClientFailed
    | Unreadable

  /** `error` is what the error message of a result is about. */
  datatype Result = Result(id: string, refusal: Refusal, error: Problem, content: string, attempts: int)

  datatype Pause = Pause(tool: string, why: Problem)

  /** What the world decides about one try of a call: whether a custom tool has the name of the
      built-in one, and its answer; what the paid resource does when it is fetched; and whether
      the ask is canceled after the try or while it waits for the next. */
  datatype Try = Try(
    custom: bool, prompt: string, error: Problem, content: string,
    demanded: bool, demand: int, answered: bool, accepted: bool, readable: bool, body: string,
    canceledAfter: bool, canceledWaiting: bool)

  /** What the world decides about a call: whether the ask is canceled when it comes in or just
      before its first try, the approver's answer, its tries, whether the plan can be read for an
      update or the check of a delegation, whether it can be read again after the action, and
      whether the store takes plan writes. */
  datatype World = World(
    canceled: bool, canceledAtTry: bool, approved: bool, reason: string, tries: seq<Try>,
    planRead: bool, nextRead: bool, planWrites: bool)

  /** Readings of arguments and results that the pipeline depends on. */
  datatype Env = Env(
    planOf: string -> Plan.Plan,           // the plan in a plan call's arguments
    urlOf: string -> string,               // the url argument
    nested: string -> bool,                // arguments with tool-call markup inside
    taskKey: string -> string,             // completion key of a plan task
    delegates: string -> bool,             // plan tasks that delegate
    errorIn: string -> Problem,            // the error message in a recorded result
    errorJson: Problem -> string,          // an error message as content
    text: Problem -> string,               // an error message
    annotated: (string, int) -> string,    // content annotated with the attempts
    challenge: string -> bool,             // content that asks for a payment
    pauseJson: (string, string) -> string, // a pause for input, encoded
    transient: Problem -> bool)            // errors that are worth a retry

  const PLAN := "plan"
  const DELEGATE := "delegate"
  const HUMAN_INPUT := "request_input"

  const IDLE := Try(false, "", NoProblem, "", false, 0, false, false, false, "", false, false)

  function TryAt(w: World, i: nat): Try {
    if i < |w.tries| then w.tries[i] else IDLE
  }

  function Fingerprint(call: Call): string {
    call.name + ":" + call.args
  }

  predicate Succeeded(res: Result) {
    res.refusal.NotRefused? && res.error == NoProblem
  }

  // ----- results -----

  function ErrResult(env: Env, id: string, why: Problem): Result {
    Result(id, NotRefused, why, env.errorJson(why), 0)
  }

  function Refused(env: Env, id: string, refusal: Refusal, why: Problem): Result {
    ErrResult(env, id, why).(refusal := refusal)
  }

  predicate Retryable(env: Env, res: Result) {
    res.refusal.NotRefused? && res.error != NoProblem && env.transient(res.error)
  }

  function Annotated(env: Env, res: Result, attempts: int): Result {
    if attempts <= 1 then res
    else res.(attempts := attempts, content := env.annotated(res.content, attempts))
  }

  /** Results that differ only in how they report the attempts. */
  ghost predicate SameVerdict(a: Result, b: Result) {
    a.id == b.id && a.refusal == b.refusal && a.error == b.error
  }

  /** The refusals that do not come from the step and loop limits. */
  ghost predicate FromInside(res: Result) {
    !res.refusal.MaxStepsReached? && !res.refusal.LoopDetected?
  }

  // ----- one try -----

  /** The call asks the operator for input. */
  predicate AsksHuman(call: Call, t: Try) {
    call.name == HUMAN_INPUT && !t.custom
  }

  function BaseResult(env: Env, call: Call, t: Try): Result {
    if AsksHuman(call, t) then Refused(env, call.id, NotApproved, InputRequired(t.prompt))
    else Result(call.id, NotRefused, t.error, t.content, 0)
  }

  /** The base handler's answer asks for a payment. */
  predicate AsksPayment(env: Env, call: Call, t: Try) {
    !AsksHuman(call, t) && env.challenge(t.content)
  }

  /** What is left of the budget; 0 if there is none. */
  function Remaining(l: Limits, spend: int): int {
    if l.budget > 0 then Add(l.budget, -spend) else 0
  }

  predicate Exhausted(l: Limits, spend: int) {
    l.budget > 0 && Remaining(l, spend) <= 0
  }

  predicate ValidDemand(t: Try) {
    0 < t.demand < TWO63
  }

  /** The payment client pays: a valid demand within its budget, in a request that is accepted. */
  predicate ClientPays(budget: int, t: Try) {
    t.demanded && ValidDemand(t) && (budget > 0 ==> t.demand <= budget) && t.accepted
  }

  /** Money leaves the wallet in this try. */
  predicate Pays(l: Limits, env: Env, call: Call, t: Try, spend: int) {
    && AsksPayment(env, call, t) && env.urlOf(call.args) != "" && !Exhausted(l, spend)
    && ClientPays(Remaining(l, spend), t)
  }

  lemma PaymentTransfer(l: Limits, p: Purse, amount: int)
    requires 0 < amount < TWO63 && (l.budget > 0 ==> amount <= Remaining(l, p.spend))
    ensures Transferred(l, p, Pay(amount)) == Some(p.(spend := Add(p.spend, amount), paid := p.paid + amount))
  {
  }

  /** A payment that was made, and whether the paid response could be read. */
  datatype Outlay = Outlay(amount: int, read: bool)

  function TryOutlays(l: Limits, env: Env, call: Call, t: Try, spend: int): seq<Outlay> {
    if Pays(l, env, call, t, spend) then [Outlay(t.demand, t.readable)] else []
  }

  function SpendAfter(l: Limits, env: Env, call: Call, t: Try, spend: int): int {
    if Pays(l, env, call, t, spend) && t.readable then Add(spend, t.demand) else spend
  }

  /** The result of fetching the paid resource. */
  function FetchResult(env: Env, call: Call, budget: int, t: Try): Result {
    if t.demanded && ValidDemand(t) && budget > 0 && t.demand > budget then
      Refused(env, call.id, SpendBudget, OverBudget)
    else if if t.demanded then !ClientPays(budget, t) else !t.answered then ErrResult(env, call.id, ClientFailed)
    else if !t.readable then ErrResult(env, call.id, Unreadable)
    else Result(call.id, NotRefused, env.errorIn(t.body), t.body, 2)
  }

  function TryResult(l: Limits, env: Env, call: Call, t: Try, spend: int): Result {
    if !AsksPayment(env, call, t) then BaseResult(env, call, t)
    else if env.urlOf(call.args) == "" then ErrResult(env, call.id, NoUrl)
    else if Exhausted(l, spend) then Refused(env, call.id, SpendBudget, BudgetExhausted)
    else FetchResult(env, call, Remaining(l, spend), t)
  }

  /** A try whose answer asks for no payment is that answer, and costs nothing. */
  lemma FreeTry(l: Limits, env: Env, call: Call, t: Try, spend: int)
    requires call.name != "request_input" || t.custom
    ensures !env.challenge(t.content) ==>
              && TryResult(l, env, call, t, spend) == Result(call.id, NotRefused, t.error, t.content, 0)
              && TryOutlays(l, env, call, t, spend) == [] && SpendAfter(l, env, call, t, spend) == spend
  {
  }

  /** The built-in request for input is refused as not approved, and costs nothing. */
  lemma InputTry(l: Limits, env: Env, call: Call, t: Try, spend: int)
    requires call.name == "request_input" && !t.custom
    ensures var res := TryResult(l, env, call, t, spend);
            res.refusal == NotApproved && res.error == InputRequired(t.prompt) && res.id == call.id
    ensures TryOutlays(l, env, call, t, spend) == [] && SpendAfter(l, env, call, t, spend) == spend
  {
  }

  /** A try whose answer asks for a payment. Nothing is paid without a url, without any budget
      left, for a demand beyond it, or when the client fails; each has its own result. Any other
      demand is paid, and the recorded spend grows by it if and only if the response can be read. */
  lemma PaidTry(l: Limits, env: Env, call: Call, t: Try, spend: int)
    requires (call.name != "request_input" || t.custom) && env.challenge(t.content)
    ensures var res, paid := TryResult(l, env, call, t, spend), TryOutlays(l, env, call, t, spend);
            var after, left := SpendAfter(l, env, call, t, spend), Add(l.budget, -spend);
            var fits := 0 < t.demand < TWO63 && (l.budget > 0 ==> t.demand <= left);
            var fetched := if t.readable then Result(call.id, NotRefused, env.errorIn(t.body), t.body, 2)
                           else ErrResult(env, call.id, Unreadable);
            if env.urlOf(call.args) == "" then paid == [] && after == spend && res == ErrResult(env, call.id, NoUrl)
            else if l.budget > 0 && left <= 0 then
              paid == [] && after == spend && res == Refused(env, call.id, SpendBudget, BudgetExhausted)
            else if t.demanded && fits && t.accepted then
              paid == [Outlay(t.demand, t.readable)] && res == fetched
              && after == if t.readable then Add(spend, t.demand) else spend
            else
              && paid == [] && after == spend
              && res == if t.demanded && 0 < t.demand < TWO63 && !fits then
                          Refused(env, call.id, SpendBudget, OverBudget)
                        else if t.demanded || !t.answered then ErrResult(env, call.id, ClientFailed)
                        else fetched
  {
  }

  // ----- the tries of a call -----

  /** What a number of tries came to: their results and the payments made. */
  datatype Course = Course(results: seq<Result>, outlays: seq<Outlay>)

  function Joined(a: Course, b: Course): Course {
    Course(a.results + b.results, a.outlays + b.outlays)
  }

  lemma JoinedTwice(a: Course, b: Course, c: Course)
    ensures Joined(a, Joined(b, c)) == Joined(Joined(a, b), c)
  {
    assert a.results + (b.results + c.results) == a.results + b.results + c.results;
    assert a.outlays + (b.outlays + c.outlays) == a.outlays + b.outlays + c.outlays;
  }

  function OneTry(l: Limits, env: Env, call: Call, t: Try, spend: int): Course {
    Course([TryResult(l, env, call, t, spend)], TryOutlays(l, env, call, t, spend))
  }

  /** Try i is the last one: its result is not worth a retry, the attempts are used up, or the
      ask is canceled. */
  predicate Last(l: Limits, env: Env, call: Call, w: World, i: nat, spend: int) {
    var t := TryAt(w, i);
    Ends(l, env, TryResult(l, env, call, t, spend), t, i)
  }

  predicate Ends(l: Limits, env: Env, res: Result, t: Try, i: nat) {
    !Retryable(env, res) || i + 1 >= Attempts(l) || t.canceledAfter || t.canceledWaiting
  }

  /** The tries of a call from try i on. */
  function Tries(l: Limits, env: Env, call: Call, w: World, i: nat, spend: int): Course
    decreases Attempts(l) - i
  {
    var here := OneTry(l, env, call, TryAt(w, i), spend);
    if Last(l, env, call, w, i, spend) then here
    else Joined(here, Tries(l, env, call, w, i + 1, SpendAfter(l, env, call, TryAt(w, i), spend)))
  }

  /** What the caller of these tries gets: the last result with the number of attempts, or the
      cancellation if there was to be another try. */
  function Final(l: Limits, env: Env, call: Call, w: World, tries: seq<Result>): Result
    requires tries != []
  {
    var n := |tries|;
    if Retryable(env, tries[n - 1]) && n < Attempts(l) && !TryAt(w, n - 1).canceledAfter
    then ErrResult(env, call.id, ContextEnded) else Annotated(env, tries[n - 1], n)
  }

  /** The result of a call that is let through and not replayed. */
  function CallResult(l: Limits, env: Env, call: Call, w: World, spend: int): Result {
    var tries := Tries(l, env, call, w, 0, spend).results;
    if w.canceledAtTry || tries == [] then ErrResult(env, call.id, ContextEnded) else Final(l, env, call, w, tries)
  }

  /** The result of a call is that of its last try, with the number of attempts, unless the ask was
      canceled before the first try, or after one that was to be followed by another. */
  lemma CallResultIsTheLast(l: Limits, env: Env, call: Call, w: World, spend: int)
    ensures var rs, res := Tries(l, env, call, w, 0, spend).results, CallResult(l, env, call, w, spend);
            && rs != []
            && var last, n := rs[|rs| - 1], |rs|;
            var again := last.refusal == NotRefused && last.error != NoProblem && env.transient(last.error)
                         && n < (if l.toolMaxAttempts <= 0 then 1 else l.toolMaxAttempts);
            if w.canceledAtTry || (again && !TryAt(w, n - 1).canceledAfter)
            then res.id == call.id && res.refusal == NotRefused && res.error == ContextEnded
            else
              && res.id == last.id && res.refusal == last.refusal && res.error == last.error
              && res.attempts == (if n > 1 then n else last.attempts)
              && res.content == if n > 1 then env.annotated(last.content, n) else last.content
  {
    TriesAreBounded(l, env, call, w, 0, spend);
  }

  /** The tries that were made and the ones from try i on are all of them. */
  ghost predicate Leads(l: Limits, env: Env, call: Call, w: World, i: nat, spend: int, done: Course, total: Course) {
    Joined(done, Tries(l, env, call, w, i, spend)) == total
  }

  lemma CourseStep(l: Limits, env: Env, call: Call, w: World, i: nat, spend: int, done: Course, total: Course)
    requires Leads(l, env, call, w, i, spend, done, total)
    ensures var t := TryAt(w, i);
            var more := Joined(done, OneTry(l, env, call, t, spend));
            if Last(l, env, call, w, i, spend) then more == total
            else Leads(l, env, call, w, i + 1, SpendAfter(l, env, call, t, spend), more, total)
  {
    var t := TryAt(w, i);
    var here, next := OneTry(l, env, call, t, spend), SpendAfter(l, env, call, t, spend);
    if !Last(l, env, call, w, i, spend) {
      JoinedTwice(done, here, Tries(l, env, call, w, i + 1, next));
    }
  }

  /** At most so many tries as there are attempts left; only results that are worth it are tried
      again, until the attempts are used up or the ask is canceled at the last try. */
  lemma {:induction false} TriesAreBounded(l: Limits, env: Env, call: Call, w: World, i: nat, spend: int)
    requires i < Attempts(l)
    ensures var rs := Tries(l, env, call, w, i, spend).results;
            && 0 < |rs| <= Attempts(l) - i
            && (forall k :: 0 <= k < |rs| ==> FromInside(rs[k]))
            && (forall k :: 0 <= k < |rs| - 1 ==> Retryable(env, rs[k]))
            && (|| !Retryable(env, rs[|rs| - 1]) || i + |rs| == Attempts(l)
                || TryAt(w, i + |rs| - 1).canceledAfter || TryAt(w, i + |rs| - 1).canceledWaiting)
    decreases Attempts(l) - i
  {
    if !Last(l, env, call, w, i, spend) {
      TriesAreBounded(l, env, call, w, i + 1, SpendAfter(l, env, call, TryAt(w, i), spend));
    }
  }

  /** A call is tried again exactly after an unrefused transient error, up to ToolMaxAttempts tries
      and unless the ask is canceled. */
  lemma TriedAgainIff(l: Limits, env: Env, call: Call, w: World, spend: int, k: nat)
    ensures var rs := Tries(l, env, call, w, 0, spend).results;
            k < |rs| ==>
              (k + 1 < |rs| <==>
                 && rs[k].refusal == NotRefused && rs[k].error != NoProblem && env.transient(rs[k].error)
                 && k + 1 < (if l.toolMaxAttempts > 1 then l.toolMaxAttempts else 1)
                 && !TryAt(w, k).canceledAfter && !TryAt(w, k).canceledWaiting)
  {
    TriesGoOn(l, env, call, w, 0, spend, k);
  }

  lemma TriesUnfold(l: Limits, env: Env, call: Call, w: World, i: nat, spend: int)
    ensures var t := TryAt(w, i);
            Tries(l, env, call, w, i, spend).results ==
              [TryResult(l, env, call, t, spend)]
              + if Last(l, env, call, w, i, spend) then []
                else Tries(l, env, call, w, i + 1, SpendAfter(l, env, call, t, spend)).results
  {
  }

  /** Try i + k, if it is made, is followed by another if and only if it does not end the call. */
  ghost predicate GoesOnAt(l: Limits, env: Env, w: World, rs: seq<Result>, i: nat, k: nat) {
    k < |rs| ==> (k + 1 < |rs| <==> !Ends(l, env, rs[k], TryAt(w, i + k), i + k))
  }

  lemma GoesOnBehind(l: Limits, env: Env, w: World, first: Result, rest: seq<Result>, i: nat, k: nat)
    requires k > 0 && GoesOnAt(l, env, w, rest, i + 1, k - 1)
    ensures GoesOnAt(l, env, w, [first] + rest, i, k)
  {
    assert i + 1 + (k - 1) == i + k;
  }

  lemma {:induction false} TriesGoOn(l: Limits, env: Env, call: Call, w: World, i: nat, spend: int, k: nat)
    ensures GoesOnAt(l, env, w, Tries(l, env, call, w, i, spend).results, i, k)
    decreases k
  {
    var t := TryAt(w, i);
    var first, next := TryResult(l, env, call, t, spend), SpendAfter(l, env, call, t, spend);
    TriesUnfold(l, env, call, w, i, spend);
    TriesUnfold(l, env, call, w, i + 1, next);
    if !Last(l, env, call, w, i, spend) && k > 0 {
      TriesGoOn(l, env, call, w, i + 1, next, k - 1);
      GoesOnBehind(l, env, w, first, Tries(l, env, call, w, i + 1, next).results, i, k);
    }
  }

  // ----- what was charged and paid -----

  predicate Priced(l: Limits, call: Call) {
    Price(l, call.name) > 0 && l.maxSpend > 0
  }

  /** A priced call is charged exactly if it ended unrefused and without error. */
  function Charge(l: Limits, call: Call, res: Result): int {
    if Priced(l, call) && Succeeded(res) then Price(l, call.name) else 0
  }

  /** The prices of the calls of a log that were charged. */
  function Charged(l: Limits, log: seq<(Call, Result)>): int {
    if log == [] then 0
    else Charged(l, log[..|log| - 1]) + Charge(l, log[|log| - 1].0, log[|log| - 1].1)
  }

  lemma ChargedMore(l: Limits, log: seq<(Call, Result)>, call: Call, res: Result)
    ensures Charged(l, log + [(call, res)]) == Charged(l, log) + Charge(l, call, res)
  {
    var more := log + [(call, res)];
    assert more[..|more| - 1] == log;
  }

  lemma {:induction false} NothingCharged(l: Limits, log: seq<(Call, Result)>)
    requires l.maxSpend <= 0
    ensures Charged(l, log) == 0
  {
    if log != [] {
      NothingCharged(l, log[..|log| - 1]);
    }
  }

  /** The money of the payments whose response could be read: it is what is booked. */
  function Booked(outlays: seq<Outlay>): int {
    if outlays == [] then 0
    else
      var last := outlays[|outlays| - 1];
      Booked(outlays[..|outlays| - 1]) + if last.read then last.amount else 0
  }

  /** All the money that was paid. */
  function Paid(outlays: seq<Outlay>): int {
    if outlays == [] then 0 else Paid(outlays[..|outlays| - 1]) + outlays[|outlays| - 1].amount
  }

  ghost predicate Positive(outlays: seq<Outlay>) {
    forall i :: 0 <= i < |outlays| ==> outlays[i].amount > 0
  }

  ghost predicate AllRead(outlays: seq<Outlay>) {
    forall i :: 0 <= i < |outlays| ==> outlays[i].read
  }

  lemma OneMoreOutlay(outlays: seq<Outlay>, o: Outlay)
    ensures Booked(outlays + [o]) == Booked(outlays) + if o.read then o.amount else 0
    ensures Paid(outlays + [o]) == Paid(outlays) + o.amount
  {
    var more := outlays + [o];
    assert more[..|more| - 1] == outlays;
  }

  /** What is booked never exceeds what was paid, and is all of it if and only if every paid
      response could be read. */
  lemma {:induction false} BookedAtMostPaid(outlays: seq<Outlay>)
    requires Positive(outlays)
    ensures 0 <= Booked(outlays) <= Paid(outlays)
    ensures Booked(outlays) == Paid(outlays) <==> AllRead(outlays)
  {
    if outlays != [] {
      var n := |outlays| - 1;
      BookedAtMostPaid(outlays[..n]);
      assert outlays == outlays[..n] + [outlays[n]];
      OneMoreOutlay(outlays[..n], outlays[n]);
      assert AllRead(outlays) <==> AllRead(outlays[..n]) && outlays[n].read;
    }
  }
}
