/** What every step of the durable engine keeps, and what follows for whole histories. */
module FlowInvariant {
  import opened Options
  import opened FlowMachine

  /** Exactly the first k steps of the record are done, and the stage names step k. */
  ghost predicate Shape(c: Config, r: Run, k: nat) {
    && k <= |c.steps| == |r.steps|
    && (forall i :: 0 <= i < |c.steps| ==> r.steps[i].name == c.steps[i].name)
    && (forall i :: 0 <= i < |c.steps| ==> (r.steps[i].status == Done <==> i < k))
    && r.stage == StageName(c, k)
    && (r.status == RunDone ==> k == |c.steps|)
  }

  ghost predicate WellFormed(c: Config, r: Run) {
    exists k: nat :: Shape(c, r, k)
  }

  /** The number of finished steps, read off the record alone. */
  function DoneCount(r: Run): nat {
    DonePrefix(r.steps)
  }

  function DonePrefix(steps: seq<StepRecord>): (k: nat)
    ensures k <= |steps|
    ensures forall i :: 0 <= i < k ==> steps[i].status == Done
    ensures k < |steps| ==> steps[k].status != Done
  {
    if steps == [] || steps[0].status != Done then 0
    else
      var rest := DonePrefix(steps[1..]);
      assert forall i :: 1 <= i < |steps| ==> steps[i] == steps[1..][i - 1];
      1 + rest
  }

  lemma ShapeCount(c: Config, r: Run, k: nat)
    requires Shape(c, r, k)
    ensures DoneCount(r) == k
  {
    var d := DoneCount(r);
    assert d < |r.steps| ==> (r.steps[d].status == Done <==> d < k);
    assert k < |r.steps| ==> (r.steps[k].status == Done <==> k < k);
  }

  /** How many steps the volatile run has finished. */
  function LiveLevel(c: Config, l: Live): nat {
    match l.phase
    case Committing(i) => i + 1
    case Finishing => |c.steps|
    case Deleting => |c.steps|
    case _ => l.phase.i
  }

  ghost predicate LiveOk(c: Config, l: Live) {
    && Shape(c, l.run, LiveLevel(c, l))
    && (match l.phase
        case Committing(i) => i < |c.steps|
        case Finishing => l.run.status == RunDone
        case Deleting => l.run.status == RunDone
        case _ => l.phase.i < |c.steps|)
    && (l.phase.Working? ==> l.phase.attempt == 1 || 1 < l.phase.attempt <= Retries(c, l.phase.i) + 1)
    && (l.phase.Suspending? ==> l.run.status == RunWaiting)
    && (l.phase.Failing? ==> l.run.status == RunFailed)
  }

  ghost predicate Inv(c: Config, s: Sys) {
    && (s.saved.Some? ==> WellFormed(c, s.saved.value))
    && (s.live.Some? ==> LiveOk(c, s.live.value))
    && (s.live.Some? && s.saved.Some? ==> DoneCount(s.saved.value) <= LiveLevel(c, s.live.value))
    && (s.live.Some? && s.live.value.phase.Working? ==>
          s.saved.Some? && DoneCount(s.saved.value) == s.live.value.phase.i)
    && (s.live.Some? && s.live.value.phase.Deleting? ==> s.saved == Some(s.live.value.run))
    && (s.input.None? ==> s == Initial)
  }

  lemma StageIndex(c: Config, k: nat)
    requires ValidSteps(c.steps) && k <= |c.steps|
    ensures StartIndex(c, StageName(c, k)) == k
    ensures k < |c.steps| ==> StepIndex(c.steps, StageName(c, k)) == k
    ensures k == |c.steps| ==> StepIndex(c.steps, StageName(c, k)) == -1
  {
    var i := StepIndex(c.steps, StageName(c, k));
    assert k < |c.steps| ==> c.steps[k].name == StageName(c, k);
    assert i >= 0 ==> c.steps[i].name != "";
  }

  lemma EnterOk(c: Config, r: Run, k: nat)
    requires ValidSteps(c.steps) && Shape(c, r, k)
    ensures LiveOk(c, Enter(c, r, k)) && LiveLevel(c, Enter(c, r, k)) == k
  {
  }

  lemma SaveKeepsInv(c: Config, s: Sys, ok: bool)
    requires ValidSteps(c.steps) && Inv(c, s) && Apply(c, s, Save(ok)).Some?
    ensures Inv(c, Apply(c, s, Save(ok)).value)
  {
    var l := s.live.value;
    ShapeCount(c, l.run, LiveLevel(c, l));
    if ok && l.phase.Committing? {
      EnterOk(c, l.run, l.phase.i + 1);
    }
  }

  lemma SuccessShape(c: Config, r: Run, i: nat, data: string, attempts: int)
    requires i < |c.steps| && Shape(c, r, i)
    ensures Shape(c, AfterSuccess(c, r, i, data, attempts), i + 1)
  {
    var t := AfterSuccess(c, r, i, data, attempts);
    assert forall j :: 0 <= j < |c.steps| && j != i ==> t.steps[j] == r.steps[j];
  }

  lemma AwaitShape(c: Config, r: Run, i: nat, key: string, prompt: string, attempts: int)
    requires i < |c.steps| && Shape(c, r, i)
    ensures Shape(c, AfterAwait(c, r, i, key, prompt, attempts), i)
  {
    var t := AfterAwait(c, r, i, key, prompt, attempts);
    assert forall j :: 0 <= j < |c.steps| && j != i ==> t.steps[j] == r.steps[j];
  }

  lemma FailureShape(c: Config, r: Run, i: nat, error: string, attempts: int)
    requires i < |c.steps| && Shape(c, r, i)
    ensures Shape(c, AfterFailure(r, i, error, attempts), i)
  {
    var t := AfterFailure(r, i, error, attempts);
    assert forall j :: 0 <= j < |c.steps| && j != i ==> t.steps[j] == r.steps[j];
  }

  /** Replacing the volatile run by one that is at least as far keeps the invariant. */
  lemma LiveChange(c: Config, s: Sys, l: Live)
    requires Inv(c, s) && s.input.Some? && LiveOk(c, l)
    requires s.saved.Some? ==> DoneCount(s.saved.value) <= LiveLevel(c, l)
    requires l.phase.Working? ==> s.saved.Some? && DoneCount(s.saved.value) == l.phase.i
    requires !l.phase.Deleting?
    ensures Inv(c, s.(live := Some(l)))
  {
  }

  lemma AttemptLive(c: Config, r: Run, i: nat, a: nat, res: Result)
    requires i < |c.steps| && Shape(c, r, i) && (a == 1 || 1 < a <= Retries(c, i) + 1)
    ensures LiveOk(c, AfterAttempt(c, r, i, a, res))
  {
    match res
    case Succeeded(data) => SuccessShape(c, r, i, data, a);
    case Awaited(key, prompt) => AwaitShape(c, r, i, key, prompt, a);
    case Erred(error) => FailureShape(c, r, i, error, a);
  }

  lemma AttemptKeepsInv(c: Config, s: Sys, i: nat, input: string, res: Result)
    requires Inv(c, s) && Apply(c, s, Attempt(i, input, res)).Some?
    ensures Inv(c, Apply(c, s, Attempt(i, input, res)).value)
  {
    var r, a := s.live.value.run, s.live.value.phase.attempt;
    AttemptLive(c, r, i, a, res);
    LiveChange(c, s, AfterAttempt(c, r, i, a, res));
  }

  lemma GiveUpKeepsInv(c: Config, s: Sys, i: nat, error: string)
    requires Inv(c, s) && Apply(c, s, GiveUp(i, error)).Some?
    ensures Inv(c, Apply(c, s, GiveUp(i, error)).value)
  {
    var r, a := s.live.value.run, s.live.value.phase.attempt;
    FailureShape(c, r, i, error, a - 1);
    LiveChange(c, s, Live(AfterFailure(r, i, error, a - 1), Failing(i)));
  }

  lemma SkipKeepsInv(c: Config, s: Sys, i: nat)
    requires Inv(c, s) && Apply(c, s, Skip(i)).Some?
    ensures Inv(c, Apply(c, s, Skip(i)).value)
  {
    var r := s.live.value.run;
    var l := Live(AfterSuccess(c, r, i, r.data, Retries(c, i) + 1), Committing(i));
    assert Apply(c, s, Skip(i)) == Some(s.(live := Some(l)));
    SuccessShape(c, r, i, r.data, Retries(c, i) + 1);
    LiveChange(c, s, l);
  }

  lemma StartKeepsInv(c: Config, s: Sys, e: Event)
    requires ValidSteps(c.steps) && Inv(c, s) && e.Start? && Apply(c, s, e).Some?
    ensures Inv(c, Apply(c, s, e).value)
  {
    var r := FreshRun(c, e.id, e.data, e.started);
    assert Shape(c, r, 0);
    EnterOk(c, r, 0);
  }

  lemma ResumeKeepsInv(c: Config, s: Sys, e: Event)
    requires ValidSteps(c.steps) && Inv(c, s) && (e.Resume? || e.ResumeWaiting?) && Apply(c, s, e).Some?
    ensures Inv(c, Apply(c, s, e).value)
  {
    var k: nat :| Shape(c, s.saved.value, k);
    StageIndex(c, k);
    EnterKeepsInv(c, s, k);
  }

  /** A saved run is entered at its own level. */
  lemma EnterKeepsInv(c: Config, s: Sys, k: nat)
    requires ValidSteps(c.steps) && Inv(c, s) && s.saved.Some? && Shape(c, s.saved.value, k)
    ensures Inv(c, s.(live := Some(Enter(c, s.saved.value, k))))
  {
    ShapeCount(c, s.saved.value, k);
    EnterOk(c, s.saved.value, k);
    LiveChange(c, s, Enter(c, s.saved.value, k));
  }

  lemma InputShape(c: Config, r: Run, i: nat, data: string)
    requires i < |c.steps| && Shape(c, r, i)
    ensures Shape(c, AfterInput(c, r, i, data), i + 1)
  {
    var t := AfterInput(c, r, i, data);
    assert forall j :: 0 <= j < |c.steps| && j != i ==> t.steps[j] == r.steps[j];
  }

  /** What ResumeWith makes of a waiting record: its step k is done, step k + 1 is entered. */
  lemma InjectStep(c: Config, s: Sys, i: nat, data: string)
    requires ValidSteps(c.steps) && Inv(c, s) && Apply(c, s, Inject(i, data)).Some?
    ensures i < |c.steps| && DoneCount(s.saved.value) == i && Shape(c, s.saved.value, i)
    ensures Apply(c, s, Inject(i, data)) ==
            Some(s.(live := Some(Enter(c, AfterInput(c, s.saved.value, i, data), i + 1))))
  {
    var r := s.saved.value;
    var k: nat :| Shape(c, r, k);
    ShapeCount(c, r, k);
    StageIndex(c, k);
    StageIndex(c, i + 1);
  }

  lemma InjectKeepsInv(c: Config, s: Sys, i: nat, data: string)
    requires ValidSteps(c.steps) && Inv(c, s) && Apply(c, s, Inject(i, data)).Some?
    ensures Inv(c, Apply(c, s, Inject(i, data)).value)
  {
    InjectStep(c, s, i, data);
    var t := AfterInput(c, s.saved.value, i, data);
    InputShape(c, s.saved.value, i, data);
    EnterOk(c, t, i + 1);
    LiveChange(c, s, Enter(c, t, i + 1));
  }

  lemma ApplyKeepsInv(c: Config, s: Sys, e: Event)
    requires ValidSteps(c.steps) && Inv(c, s) && Apply(c, s, e).Some?
    ensures Inv(c, Apply(c, s, e).value)
  {
    match e
    case Save(ok) => SaveKeepsInv(c, s, ok);
    case SaveLost => ShapeCount(c, s.live.value.run, LiveLevel(c, s.live.value));
    case Attempt(i, input, r) => AttemptKeepsInv(c, s, i, input, r);
    case GiveUp(i, error) => GiveUpKeepsInv(c, s, i, error);
    case Skip(i) => SkipKeepsInv(c, s, i);
    case Start(_, _, _) => StartKeepsInv(c, s, e);
    case Resume => ResumeKeepsInv(c, s, e);
    case ResumeWaiting => ResumeKeepsInv(c, s, e);
    case Inject(i, data) => InjectKeepsInv(c, s, i, data);
    case _ =>
  }

  lemma {:induction false} HistoryKeepsInv(c: Config, h: seq<Event>, ss: seq<Sys>, k: nat)
    requires ValidSteps(c.steps) && Behavior(c, h, ss) && k <= |h|
    ensures Inv(c, ss[k])
  {
    if k > 0 {
      HistoryKeepsInv(c, h, ss, k - 1);
      assert StepAt(c, h, ss, k - 1);
      ApplyKeepsInv(c, ss[k - 1], h[k - 1]);
    }
  }

  /** Every record a history leaves in the checkpoint has a prefix of done steps, a stage
      naming the first unfinished one, and is only "done" when all steps are. */
  lemma SavedRecordShape(c: Config, h: seq<Event>, ss: seq<Sys>, k: nat)
    requires ValidSteps(c.steps) && Behavior(c, h, ss) && k <= |h| && ss[k].saved.Some?
    ensures Shape(c, ss[k].saved.value, DoneCount(ss[k].saved.value))
  {
    HistoryKeepsInv(c, h, ss, k);
    var j: nat :| Shape(c, ss[k].saved.value, j);
    ShapeCount(c, ss[k].saved.value, j);
  }

  /** The input of a run is the one it was started with, and it stays. */
  lemma {:induction false} StartInput(c: Config, h: seq<Event>, ss: seq<Sys>, k: nat)
    requires Behavior(c, h, ss) && 0 < k <= |h| && h[0].Start?
    ensures ss[k].input == Some(h[0].data)
  {
    assert StepAt(c, h, ss, 0);
    if k > 1 {
      StartInput(c, h, ss, k - 1);
      assert StepAt(c, h, ss, k - 1);
    }
  }

  ghost predicate Named(c: Config, start: Event, r: Run)
    requires start.Start?
  {
    r.id == start.id && r.flow == c.flow && r.started == start.started
  }

  ghost predicate AllNamed(c: Config, start: Event, s: Sys)
    requires start.Start?
  {
    && (s.saved.Some? ==> Named(c, start, s.saved.value))
    && (s.live.Some? ==> Named(c, start, s.live.value.run))
  }

  lemma NamedStep(c: Config, start: Event, s: Sys, e: Event)
    requires start.Start? && AllNamed(c, start, s) && s.input.Some? && Apply(c, s, e).Some?
    ensures AllNamed(c, start, Apply(c, s, e).value)
  {
  }

  /** Every record of a run has the id, the flow and the start time it was started with. */
  lemma {:induction false} RecordsKeepTheirName(c: Config, h: seq<Event>, ss: seq<Sys>, k: nat)
    requires Behavior(c, h, ss) && 0 < k <= |h| && h[0].Start?
    ensures AllNamed(c, h[0], ss[k])
  {
    assert StepAt(c, h, ss, 0);
    if k > 1 {
      RecordsKeepTheirName(c, h, ss, k - 1);
      StartInput(c, h, ss, k - 1);
      assert StepAt(c, h, ss, k - 1);
      NamedStep(c, h[0], ss[k - 1], h[k - 1]);
    }
  }

  // ----- progress never goes back -----

  /** Nothing drives the run and nothing is stored: it was deleted or never stored. */
  ghost predicate Gone(s: Sys) {
    s.input.Some? && s.saved.None? && s.live.None?
  }

  /** How far the run is, durably. */
  ghost function Level(c: Config, s: Sys): nat {
    if Gone(s) then |c.steps| else if s.saved.Some? then DoneCount(s.saved.value) else 0
  }

  lemma ApplyProgress(c: Config, s: Sys, e: Event)
    requires ValidSteps(c.steps) && Inv(c, s) && Apply(c, s, e).Some?
    ensures Level(c, s) <= Level(c, Apply(c, s, e).value)
  {
    if s.saved.Some? {
      var k: nat :| Shape(c, s.saved.value, k);
      ShapeCount(c, s.saved.value, k);
    }
    if e.Save? || e.SaveLost? {
      ShapeCount(c, s.live.value.run, LiveLevel(c, s.live.value));
    }
  }

  lemma {:induction false} LevelGrows(c: Config, h: seq<Event>, ss: seq<Sys>, p: nat, q: nat)
    requires ValidSteps(c.steps) && Behavior(c, h, ss) && p <= q <= |h|
    ensures Level(c, ss[p]) <= Level(c, ss[q])
  {
    if p < q {
      LevelGrows(c, h, ss, p, q - 1);
      HistoryKeepsInv(c, h, ss, q - 1);
      assert StepAt(c, h, ss, q - 1);
      ApplyProgress(c, ss[q - 1], h[q - 1]);
    }
  }

  /** An attempt of step i happens only when the saved level is i. */
  lemma AttemptAtLevel(c: Config, h: seq<Event>, ss: seq<Sys>, q: nat)
    requires ValidSteps(c.steps) && Behavior(c, h, ss) && q < |h| && h[q].Attempt?
    ensures Level(c, ss[q]) == h[q].i < |c.steps|
  {
    HistoryKeepsInv(c, h, ss, q);
    assert StepAt(c, h, ss, q);
  }

  /** A step that is marked is in progress in the record, one that is worked on in the saved one. */
  ghost predicate Marked(s: Sys) {
    s.live.Some? && (s.live.value.phase.Marking? || s.live.value.phase.Working?) ==>
      var l := s.live.value;
      && l.phase.i < |l.run.steps| && l.run.steps[l.phase.i].status == InProgress
      && (l.phase.Working? ==> s.saved == Some(l.run))
  }

  lemma MarkedStep(c: Config, s: Sys, e: Event)
    requires Marked(s) && Apply(c, s, e).Some?
    ensures Marked(Apply(c, s, e).value)
  {
  }

  /** When a step is called, the saved record is the one the driver holds, and has the step in
      progress: whatever happens next, a crash leaves it there. */
  lemma {:induction false} SavedBeforeItsAttempt(c: Config, h: seq<Event>, ss: seq<Sys>, k: nat)
    requires Behavior(c, h, ss) && k <= |h|
    ensures Marked(ss[k])
    ensures k < |h| && h[k].Attempt? ==>
              && ss[k].live.Some? && ss[k].saved == Some(ss[k].live.value.run)
              && h[k].i < |ss[k].saved.value.steps| && ss[k].saved.value.steps[h[k].i].status == InProgress
              && ss[k].saved.value.data == h[k].input
  {
    if k > 0 {
      SavedBeforeItsAttempt(c, h, ss, k - 1);
      assert StepAt(c, h, ss, k - 1);
      MarkedStep(c, ss[k - 1], h[k - 1]);
    }
    if k < |h| {
      assert StepAt(c, h, ss, k);
    }
  }

  /** Over a whole history the executed step indexes never decrease. */
  lemma ExecutionOrder(c: Config, h: seq<Event>, ss: seq<Sys>, p: nat, q: nat)
    requires ValidSteps(c.steps) && Behavior(c, h, ss)
    requires p <= q < |h| && h[p].Attempt? && h[q].Attempt?
    ensures h[p].i <= h[q].i
  {
    AttemptAtLevel(c, h, ss, p);
    AttemptAtLevel(c, h, ss, q);
    LevelGrows(c, h, ss, p, q);
  }

  /** A step that was saved as done is never executed again. */
  lemma DoneStepsStayDone(c: Config, h: seq<Event>, ss: seq<Sys>, p: nat, q: nat)
    requires ValidSteps(c.steps) && Behavior(c, h, ss)
    requires p <= q < |h| && h[q].Attempt? && ss[p].saved.Some?
    ensures h[q].i < |ss[p].saved.value.steps|
    ensures ss[p].saved.value.steps[h[q].i].status != Done
  {
    AttemptAtLevel(c, h, ss, q);
    LevelGrows(c, h, ss, p, q);
    SavedRecordShape(c, h, ss, p);
  }
}
