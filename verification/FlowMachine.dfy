/** The durable step engine of `flow/steps.go`, for one run, as a transition system.

A system state holds what is durable (`saved`, the checkpoint record) and what is
volatile (`live`, the run in the memory of the process driving it). Every event is one
atomic action of the driver or of its environment; `Crash` drops the volatile part.
Step functions, verifiers, operators and the store decide the event labels, so a
statement about all histories quantifies over all their behaviours.
*/
module FlowMachine {
  import opened Options

  // ----- the run record -----

  datatype StepStatus = Pending | InProgress | Done | Failed | Waiting

  datatype RunStatus = RunRunning | RunWaiting | RunDone | RunFailed

  datatype StepRecord = StepRecord(name: string, status: StepStatus, attempts: int, result: string, error: string)

  datatype AwaitState = AwaitState(step: string, key: string, prompt: string)

  datatype Run = Run(
    id: string, flow: string, stage: string, data: string, steps: seq<StepRecord>,
    status: RunStatus, await: Option<AwaitState>, started: int)

  // ----- the flow definition -----

  datatype StepDef = StepDef(name: string, retry: int)

  datatype Config = Config(flow: string, steps: seq<StepDef>, retry: int, deleteOnSuccess: bool)

  predicate ValidSteps(steps: seq<StepDef>) {
    && (forall i :: 0 <= i < |steps| ==> steps[i].name != "")
    && (forall i, j :: 0 <= i < j < |steps| ==> steps[i].name != steps[j].name)
  }

  /** A positive per-step retry overrides the retry of the flow. */
  function Retries(c: Config, i: nat): int
    requires i < |c.steps|
  {
    if c.steps[i].retry > 0 then c.steps[i].retry else c.retry
  }

  function Truncate(s: string, n: nat): (r: string)
    ensures |s| <= n ==> r == s
    ensures |s| > n ==> s[..n] < r && |r| == n + 1
  {
    if |s| <= n then s else s[..n] + ['\U{2026}']
  }

  /** The position of the first step with the given name, -1 when there is none. */
  function StepIndex(steps: seq<StepDef>, name: string): (i: int)
    ensures -1 <= i < |steps|
    ensures i >= 0 ==> steps[i].name == name && forall j :: 0 <= j < i ==> steps[j].name != name
    ensures i < 0 ==> forall j :: 0 <= j < |steps| ==> steps[j].name != name
  {
    if steps == [] then -1
    else if steps[0].name == name then 0
    else
      var rest := StepIndex(steps[1..], name);
      assert forall j :: 1 <= j < |steps| ==> steps[j] == steps[1..][j - 1];
      if rest < 0 then -1 else rest + 1
  }

  /** The stage a run with `k` finished steps carries: the next step's name, "" at the end. */
  function StageName(c: Config, k: nat): string
    requires k <= |c.steps|
  {
    if k < |c.steps| then c.steps[k].name else ""
  }

  // ----- states and events -----

  datatype Phase =
    | Marking(i: nat)               // step i is marked in_progress, save outstanding
    | Working(i: nat, attempt: nat) // step i is saved as in_progress, next attempt outstanding
    | Committing(i: nat)            // step i succeeded, save outstanding
    | Suspending(i: nat)            // step i awaits input, save outstanding
    | Failing(i: nat)               // step i failed, save outstanding
    | Finishing                     // all steps finished, save outstanding
    | Deleting                      // saved as done, delete outstanding

  datatype Live = Live(run: Run, phase: Phase)

  /** `input` is the data the run was started with; it is part of no record. */
  datatype Sys = Sys(input: Option<string>, saved: Option<Run>, live: Option<Live>)

  datatype Result = Succeeded(data: string) | Awaited(key: string, prompt: string) | Erred(error: string)

  datatype Event =
    | Start(id: string, data: string, started: int)
    | Save(ok: bool)
    | SaveLost                      // the write took effect and was reported as failed
    | Attempt(i: nat, input: string, result: Result)
    | GiveUp(i: nat, error: string) // cancelled, or the step has no function: no attempt is made
    | Skip(i: nat)                  // the attempt loop ran zero times
    | Delete(ok: bool)
    | DeleteLost                    // the delete took effect and was reported as failed
    | Crash
    | Resume                        // of a run that is neither done nor waiting
    | ResumeWaiting                 // direct Resume of a waiting run
    | Inject(i: nat, data: string)  // ResumeWith of a waiting run

  const Initial := Sys(None, None, None)

  function FreshRun(c: Config, id: string, data: string, started: int): Run
    requires |c.steps| > 0
  {
    Run(id, c.flow, c.steps[0].name, data,
        seq(|c.steps|, i requires 0 <= i < |c.steps| => StepRecord(c.steps[i].name, Pending, 0, "", "")),
        RunRunning, None, started)
  }

  /** The loop head of runFrom for index i. */
  function Enter(c: Config, run: Run, i: nat): Live
    requires i <= |c.steps| == |run.steps|
  {
    if i < |c.steps| then
      Live(run.(stage := c.steps[i].name, steps := run.steps[i := run.steps[i].(status := InProgress)]), Marking(i))
    else
      Live(run.(status := RunDone), Finishing)
  }

  /** Where runFrom starts, given the stage of the run. */
  function StartIndex(c: Config, stage: string): (i: nat)
    ensures i <= |c.steps|
  {
    var i := StepIndex(c.steps, stage);
    if i >= 0 then i else if stage == "" then |c.steps| else 0
  }

  function AfterSuccess(c: Config, run: Run, i: nat, data: string, attempts: int): Run
    requires i < |c.steps| == |run.steps|
  {
    run.(
      stage := StageName(c, i + 1),
      data := data,
      steps := run.steps[i := run.steps[i].(status := Done, attempts := attempts, result := Truncate(data, 200))])
  }

  function AfterAwait(c: Config, run: Run, i: nat, key: string, prompt: string, attempts: int): Run
    requires i < |c.steps| == |run.steps|
  {
    run.(
      steps := run.steps[i := run.steps[i].(status := Waiting, attempts := attempts)],
      status := RunWaiting,
      await := Some(AwaitState(c.steps[i].name, key, prompt)))
  }

  function AfterFailure(run: Run, i: nat, error: string, attempts: int): Run
    requires i < |run.steps|
  {
    run.(
      steps := run.steps[i := run.steps[i].(status := Failed, attempts := attempts, error := error)],
      status := RunFailed)
  }

  function AfterInput(c: Config, run: Run, i: nat, data: string): Run
    requires i < |c.steps| == |run.steps|
  {
    run.(
      stage := StageName(c, i + 1),
      data := data,
      steps := run.steps[i := run.steps[i].(status := Done, result := Truncate(data, 200))],
      await := None,
      status := RunRunning)
  }

  /** What follows a save: the driver goes on, or returns (None). */
  function AfterSave(c: Config, l: Live): Option<Live>
    requires |l.run.steps| == |c.steps|
  {
    match l.phase
    case Marking(i) => Some(l.(phase := Working(i, 1)))
    case Committing(i) => if i < |c.steps| then Some(Enter(c, l.run, i + 1)) else None
    case Finishing => if c.deleteOnSuccess then Some(l.(phase := Deleting)) else None
    case _ => None
  }

  predicate IsSaving(p: Phase) {
    !p.Working? && !p.Deleting?
  }

  /** The attempt number `attempt` of step i has produced `r`. */
  function AfterAttempt(c: Config, run: Run, i: nat, attempt: nat, r: Result): Live
    requires i < |c.steps| == |run.steps|
  {
    match r
    case Succeeded(data) => Live(AfterSuccess(c, run, i, data, attempt), Committing(i))
    case Awaited(key, prompt) => Live(AfterAwait(c, run, i, key, prompt, attempt), Suspending(i))
    case Erred(error) =>
      if attempt <= Retries(c, i) then Live(run, Working(i, attempt + 1))
      else Live(AfterFailure(run, i, error, attempt), Failing(i))
  }

  /** The successor of `s` under `e`, None when `e` cannot happen in `s`. */
  function Apply(c: Config, s: Sys, e: Event): Option<Sys> {
    match e
    case Start(id, data, started) =>
      if s == Initial && |c.steps| > 0 then
        Some(Sys(Some(data), None, Some(Enter(c, FreshRun(c, id, data, started), 0))))
      else None
    case Save(ok) =>
      if s.live.Some? && IsSaving(s.live.value.phase) && |s.live.value.run.steps| == |c.steps| then
        if ok then Some(s.(saved := Some(s.live.value.run), live := AfterSave(c, s.live.value)))
        else Some(s.(live := None))
      else None
    case SaveLost =>
      if s.live.Some? && IsSaving(s.live.value.phase) then Some(s.(saved := Some(s.live.value.run), live := None))
      else None
    case Attempt(i, input, r) =>
      if CanWork(c, s, i) && s.live.value.run.data == input && s.live.value.phase.attempt <= Retries(c, i) + 1 then
        Some(s.(live := Some(AfterAttempt(c, s.live.value.run, i, s.live.value.phase.attempt, r))))
      else None
    case GiveUp(i, error) =>
      if CanWork(c, s, i) then
        var attempts := s.live.value.phase.attempt - 1;
        Some(s.(live := Some(Live(AfterFailure(s.live.value.run, i, error, attempts), Failing(i)))))
      else None
    case Skip(i) =>
      if CanWork(c, s, i) && s.live.value.phase.attempt > Retries(c, i) + 1 then
        var run := s.live.value.run;
        Some(s.(live := Some(Live(AfterSuccess(c, run, i, run.data, Retries(c, i) + 1), Committing(i)))))
      else None
    case Delete(ok) =>
      if s.live.Some? && s.live.value.phase.Deleting? then
        Some(s.(live := None, saved := if ok then None else s.saved))
      else None
    case DeleteLost =>
      if s.live.Some? && s.live.value.phase.Deleting? then Some(s.(live := None, saved := None)) else None
    case Crash => Some(s.(live := None))
    case Resume =>
      if CanResume(c, s) && !s.saved.value.status.RunDone? && !s.saved.value.status.RunWaiting? then
        Some(s.(live := Some(Enter(c, s.saved.value, StartIndex(c, s.saved.value.stage)))))
      else None
    case ResumeWaiting =>
      if CanResume(c, s) && s.saved.value.status.RunWaiting? then
        Some(s.(live := Some(Enter(c, s.saved.value, StartIndex(c, s.saved.value.stage)))))
      else None
    case Inject(i, data) =>
      if CanResume(c, s) && s.saved.value.status.RunWaiting? && StepIndex(c.steps, s.saved.value.stage) == i then
        var run := AfterInput(c, s.saved.value, i, data);
        Some(s.(live := Some(Enter(c, run, StartIndex(c, run.stage)))))
      else None
  }

  predicate CanWork(c: Config, s: Sys, i: nat) {
    && s.live.Some?
    && s.live.value.phase.Working?
    && s.live.value.phase.i == i < |c.steps| == |s.live.value.run.steps|
  }

  /** One driver per run: a run is resumed only when nothing drives it. */
  predicate CanResume(c: Config, s: Sys) {
    s.live.None? && s.saved.Some? && |s.saved.value.steps| == |c.steps|
  }

  /** A history is a list of events with the states between them, from the initial state on. */
  ghost predicate Behavior(c: Config, h: seq<Event>, ss: seq<Sys>) {
    && |ss| == |h| + 1
    && ss[0] == Initial
    && (forall i: nat :: i < |h| ==> StepAt(c, h, ss, i))
  }

  /** The i-th event leads from the i-th state to the next. */
  ghost predicate StepAt(c: Config, h: seq<Event>, ss: seq<Sys>, i: nat) {
    i < |h| && i + 1 < |ss| && Apply(c, ss[i], h[i]) == Some(ss[i + 1])
  }

  lemma BehaviorSnoc(c: Config, h: seq<Event>, ss: seq<Sys>, e: Event, s: Sys)
    requires Behavior(c, h, ss) && Apply(c, ss[|h|], e) == Some(s)
    ensures Behavior(c, h + [e], ss + [s])
  {
    var g, tt := h + [e], ss + [s];
    forall i: nat | i < |g| ensures StepAt(c, g, tt, i) {
      if i < |h| {
        assert StepAt(c, h, ss, i);
      }
    }
  }

  lemma BehaviorPrefix(c: Config, h: seq<Event>, ss: seq<Sys>, k: nat)
    requires Behavior(c, h, ss) && k <= |h|
    ensures Behavior(c, h[..k], ss[..k + 1])
  {
    var g, tt := h[..k], ss[..k + 1];
    forall i: nat | i < |g| ensures StepAt(c, g, tt, i) {
      assert StepAt(c, h, ss, i);
    }
  }
}
