/** Crash/resume refinement: whatever happened on the way, a run saved as done carries the
in-order composition of one accepted output per step over its original input. */
module FlowRefinement {
  import opened Options
  import opened FlowMachine
  import opened FlowInvariant

  // ----- what a history says about the data of a record -----

  /** The history shows step i turning `a` into `b`: by a successful execution on `a`, by an
      operator's input for the step (which, unless a waiting run was resumed directly, had
      awaited input on `a`), or, under a negative retry count, by not running it at all. */
  ghost predicate Link(c: Config, h: seq<Event>, i: nat, a: string, b: string)
    requires i < |c.steps|
  {
    || Attempt(i, a, Succeeded(b)) in h
    || (Inject(i, b) in h && (ResumeWaiting !in h ==> HasAwaited(h, i, a)))
    || (Retries(c, i) < 0 && a == b && Skip(i) in h)
  }

  ghost predicate HasAwaited(h: seq<Event>, i: nat, a: string) {
    exists key, prompt :: Attempt(i, a, Awaited(key, prompt)) in h
  }

  /** `outs` lists the data before step 0 and after each of the first k steps. */
  ghost predicate Explains(c: Config, h: seq<Event>, input: string, r: Run, k: nat, outs: seq<string>) {
    && k <= |c.steps| == |r.steps| && |outs| == k + 1
    && outs[0] == input && outs[k] == r.data
    && (forall i: nat :: i < k ==> LinkAt(c, h, r, outs, i))
  }

  /** Step i takes the i-th of `outs` to the next, and its record has that as its result. */
  ghost predicate LinkAt(c: Config, h: seq<Event>, r: Run, outs: seq<string>, i: nat) {
    && i < |c.steps| && i < |r.steps| && i + 1 < |outs|
    && Link(c, h, i, outs[i], outs[i + 1]) && r.steps[i].result == Truncate(outs[i + 1], 200)
  }

  ghost predicate Explained(c: Config, h: seq<Event>, input: string, r: Run, k: nat) {
    exists outs :: Explains(c, h, input, r, k, outs)
  }

  /** Without direct resumption of a waiting run, "waiting" means: an await state is set, it
      names the stage, and the step at the stage did await input on the carried data, under the
      key and with the prompt of the await state. */
  ghost predicate AwaitOk(c: Config, h: seq<Event>, r: Run, k: nat) {
    ResumeWaiting !in h ==>
      && (r.status == RunWaiting <==> r.await.Some?)
      && (r.await.Some? ==>
            && r.await.value.step == r.stage
            && Attempt(k, r.data, Awaited(r.await.value.key, r.await.value.prompt)) in h)
  }

  ghost predicate RunEvidence(c: Config, h: seq<Event>, input: Option<string>, r: Run, k: nat) {
    input.Some? && Explained(c, h, input.value, r, k) && AwaitOk(c, h, r, k)
  }

  ghost predicate LiveEvidence(c: Config, h: seq<Event>, input: Option<string>, l: Live) {
    && RunEvidence(c, h, input, l.run, LiveLevel(c, l))
    && (ResumeWaiting !in h && !l.phase.Suspending? ==> l.run.status != RunWaiting)
  }

  ghost predicate Evidence(c: Config, h: seq<Event>, s: Sys) {
    && (s.saved.Some? ==> RunEvidence(c, h, s.input, s.saved.value, DoneCount(s.saved.value)))
    && (s.live.Some? ==> LiveEvidence(c, h, s.input, s.live.value))
  }

  // ----- evidence survives, and grows with, every event -----

  lemma ExplainedGrows(c: Config, h: seq<Event>, e: Event, input: string, r: Run, k: nat)
    requires Explained(c, h, input, r, k)
    ensures Explained(c, h + [e], input, r, k)
  {
    var outs :| Explains(c, h, input, r, k, outs);
    forall i: nat | i < k ensures LinkAt(c, h + [e], r, outs, i) {
      assert LinkAt(c, h, r, outs, i);
      LinkGrows(c, h, e, i, outs[i], outs[i + 1]);
    }
    assert Explains(c, h + [e], input, r, k, outs);
  }

  lemma LinkGrows(c: Config, h: seq<Event>, e: Event, i: nat, a: string, b: string)
    requires i < |c.steps| && Link(c, h, i, a, b)
    ensures Link(c, h + [e], i, a, b)
  {
    if HasAwaited(h, i, a) {
      AwaitedGrows(h, e, i, a);
    }
  }

  lemma AwaitedGrows(h: seq<Event>, e: Event, i: nat, a: string)
    requires HasAwaited(h, i, a)
    ensures HasAwaited(h + [e], i, a)
  {
    var key, prompt :| Attempt(i, a, Awaited(key, prompt)) in h;
    assert Attempt(i, a, Awaited(key, prompt)) in h + [e];
  }

  lemma AwaitOkGrows(c: Config, h: seq<Event>, e: Event, r: Run, k: nat)
    requires AwaitOk(c, h, r, k)
    ensures AwaitOk(c, h + [e], r, k)
  {
  }

  /** The evidence only looks at the data and at the results of finished steps. */
  lemma SameData(c: Config, h: seq<Event>, input: string, r: Run, t: Run, k: nat)
    requires Explained(c, h, input, r, k)
    requires t.data == r.data && |t.steps| == |r.steps|
    requires forall i :: 0 <= i < k ==> t.steps[i].result == r.steps[i].result
    ensures Explained(c, h, input, t, k)
  {
    var outs :| Explains(c, h, input, r, k, outs);
    forall i: nat | i < k ensures LinkAt(c, h, t, outs, i) {
      assert LinkAt(c, h, r, outs, i);
    }
    assert Explains(c, h, input, t, k, outs);
  }

  lemma OneMore(c: Config, h: seq<Event>, input: string, r: Run, t: Run, k: nat)
    requires Explained(c, h, input, r, k) && k < |c.steps|
    requires Link(c, h, k, r.data, t.data)
    requires |t.steps| == |r.steps| && t.steps[k].result == Truncate(t.data, 200)
    requires forall i :: 0 <= i < k ==> t.steps[i].result == r.steps[i].result
    ensures Explained(c, h, input, t, k + 1)
  {
    var outs :| Explains(c, h, input, r, k, outs);
    var more := outs + [t.data];
    forall i: nat | i < k + 1 ensures LinkAt(c, h, t, more, i) {
      assert i < k ==> LinkAt(c, h, r, outs, i);
    }
    assert Explains(c, h, input, t, k + 1, more);
  }

  lemma EvidenceGrows(c: Config, h: seq<Event>, e: Event, s: Sys)
    requires Evidence(c, h, s) && (e == ResumeWaiting ==> s.live.None?)
    ensures Evidence(c, h + [e], s)
  {
    if s.saved.Some? {
      ExplainedGrows(c, h, e, s.input.value, s.saved.value, DoneCount(s.saved.value));
      AwaitOkGrows(c, h, e, s.saved.value, DoneCount(s.saved.value));
    }
    if s.live.Some? {
      ExplainedGrows(c, h, e, s.input.value, s.live.value.run, LiveLevel(c, s.live.value));
      AwaitOkGrows(c, h, e, s.live.value.run, LiveLevel(c, s.live.value));
    }
  }

  /** The evidence for a run that enters the loop at its own level. */
  lemma EnterEvidence(c: Config, h: seq<Event>, input: Option<string>, r: Run, k: nat)
    requires Shape(c, r, k) && RunEvidence(c, h, input, r, k)
    requires ResumeWaiting !in h ==> r.status != RunWaiting
    ensures LiveEvidence(c, h, input, Enter(c, r, k))
  {
    SameData(c, h, input.value, r, Enter(c, r, k).run, k);
  }

  /** The evidence for the driver that goes on after a save. */
  lemma AfterSaveEvidence(c: Config, h: seq<Event>, input: Option<string>, l: Live)
    requires LiveOk(c, l) && LiveEvidence(c, h, input, l) && AfterSave(c, l).Some?
    ensures LiveEvidence(c, h, input, AfterSave(c, l).value)
  {
    if l.phase.Committing? {
      EnterEvidence(c, h, input, l.run, l.phase.i + 1);
    }
  }

  lemma SaveEvidence(c: Config, h: seq<Event>, s: Sys, ok: bool)
    requires Inv(c, s) && Evidence(c, h, s) && Apply(c, s, Save(ok)).Some?
    ensures Evidence(c, h, Apply(c, s, Save(ok)).value)
  {
    var l := s.live.value;
    ShapeCount(c, l.run, LiveLevel(c, l));
    if ok && AfterSave(c, l).Some? {
      AfterSaveEvidence(c, h, s.input, l);
    }
  }

  lemma SaveLostEvidence(c: Config, h: seq<Event>, s: Sys)
    requires Inv(c, s) && Evidence(c, h, s) && Apply(c, s, SaveLost).Some?
    ensures Evidence(c, h, Apply(c, s, SaveLost).value)
  {
    ShapeCount(c, s.live.value.run, LiveLevel(c, s.live.value));
  }

  lemma AttemptEvidence(c: Config, h: seq<Event>, s: Sys, i: nat, input: string, res: Result)
    requires Inv(c, s) && Evidence(c, h, s) && Apply(c, s, Attempt(i, input, res)).Some?
    requires Attempt(i, input, res) in h
    ensures Evidence(c, h, Apply(c, s, Attempt(i, input, res)).value)
  {
    var r := s.live.value.run;
    var t := AfterAttempt(c, r, i, s.live.value.phase.attempt, res);
    match res
    case Succeeded(_) => OneMore(c, h, s.input.value, r, t.run, i);
    case Awaited(_, _) => SameData(c, h, s.input.value, r, t.run, i);
    case Erred(_) => SameData(c, h, s.input.value, r, t.run, i);
  }

  lemma GiveUpEvidence(c: Config, h: seq<Event>, s: Sys, i: nat, error: string)
    requires Inv(c, s) && Evidence(c, h, s) && Apply(c, s, GiveUp(i, error)).Some?
    ensures Evidence(c, h, Apply(c, s, GiveUp(i, error)).value)
  {
    var r := s.live.value.run;
    SameData(c, h, s.input.value, r, AfterFailure(r, i, error, s.live.value.phase.attempt - 1), i);
  }

  lemma SkipEvidence(c: Config, h: seq<Event>, s: Sys, i: nat)
    requires Inv(c, s) && Evidence(c, h, s) && Apply(c, s, Skip(i)).Some? && Skip(i) in h
    ensures Evidence(c, h, Apply(c, s, Skip(i)).value)
  {
    var r := s.live.value.run;
    OneMore(c, h, s.input.value, r, AfterSuccess(c, r, i, r.data, Retries(c, i) + 1), i);
  }

  lemma InjectEvidence(c: Config, h: seq<Event>, s: Sys, i: nat, data: string)
    requires ValidSteps(c.steps) && Inv(c, s) && Evidence(c, h, s) && Apply(c, s, Inject(i, data)).Some?
    requires Inject(i, data) in h
    ensures Evidence(c, h, Apply(c, s, Inject(i, data)).value)
  {
    InjectStep(c, s, i, data);
    InputShape(c, s.saved.value, i, data);
    var t := AfterInput(c, s.saved.value, i, data);
    OneMore(c, h, s.input.value, s.saved.value, t, i);
    EnterEvidence(c, h, s.input, t, i + 1);
  }

  lemma ResumeEvidence(c: Config, h: seq<Event>, s: Sys, e: Event)
    requires ValidSteps(c.steps) && Inv(c, s) && Evidence(c, h, s) && Apply(c, s, e).Some?
    requires e in h && (e.Resume? || e.ResumeWaiting?)
    ensures Evidence(c, h, Apply(c, s, e).value)
  {
    var r := s.saved.value;
    var k: nat :| Shape(c, r, k);
    ShapeCount(c, r, k);
    StageIndex(c, k);
    EnterEvidence(c, h, s.input, r, k);
  }

  lemma StartEvidence(c: Config, h: seq<Event>, s: Sys, e: Event)
    requires ValidSteps(c.steps) && Inv(c, s) && e.Start? && Apply(c, s, e).Some?
    ensures Evidence(c, h, Apply(c, s, e).value)
  {
    var r := FreshRun(c, e.id, e.data, e.started);
    assert Explains(c, h, e.data, r, 0, [e.data]);
    assert Shape(c, r, 0);
    EnterEvidence(c, h, Some(e.data), r, 0);
  }

  lemma ApplyEvidence(c: Config, h: seq<Event>, s: Sys, e: Event)
    requires ValidSteps(c.steps) && Inv(c, s) && Evidence(c, h, s) && Apply(c, s, e).Some?
    ensures Evidence(c, h + [e], Apply(c, s, e).value)
  {
    EvidenceGrows(c, h, e, s);
    assert e in h + [e];
    match e
    case Save(ok) => SaveEvidence(c, h + [e], s, ok);
    case SaveLost => SaveLostEvidence(c, h + [e], s);
    case Attempt(i, input, r) => AttemptEvidence(c, h + [e], s, i, input, r);
    case GiveUp(i, error) => GiveUpEvidence(c, h + [e], s, i, error);
    case Skip(i) => SkipEvidence(c, h + [e], s, i);
    case Start(_, _, _) => StartEvidence(c, h + [e], s, e);
    case Resume => ResumeEvidence(c, h + [e], s, e);
    case ResumeWaiting => ResumeEvidence(c, h + [e], s, e);
    case Inject(i, data) => InjectEvidence(c, h + [e], s, i, data);
    case _ =>
  }

  lemma {:induction false} HistoryEvidence(c: Config, h: seq<Event>, ss: seq<Sys>)
    requires ValidSteps(c.steps) && Behavior(c, h, ss)
    ensures Evidence(c, h, ss[|h|])
  {
    if h != [] {
      var k := |h| - 1;
      BehaviorPrefix(c, h, ss, k);
      HistoryEvidence(c, h[..k], ss[..k + 1]);
      HistoryKeepsInv(c, h, ss, k);
      assert StepAt(c, h, ss, k);
      ApplyEvidence(c, h[..k], ss[k], h[k]);
      assert h[..k] + [h[k]] == h;
    }
  }

  // ----- the theorems -----

  /** Every history that leaves the run saved as done: its data is the last of a chain that
      starts at the original input and has, in order, one link per step. */
  lemma CrashResumeRefinement(c: Config, h: seq<Event>, ss: seq<Sys>)
    requires ValidSteps(c.steps) && Behavior(c, h, ss)
    requires ss[|h|].saved.Some? && ss[|h|].saved.value.status == RunDone
    ensures ss[|h|].input.Some?
    ensures Explained(c, h, ss[|h|].input.value, ss[|h|].saved.value, |c.steps|)
  {
    HistoryEvidence(c, h, ss);
    SavedRecordShape(c, h, ss, |h|);
  }

  /** If no waiting run was ever resumed directly, a saved record is waiting exactly when its
      await state is set; then the await state names the stage, and the key and the prompt are
      those with which that step did await input on the saved data. */
  lemma WaitingMeansAwait(c: Config, h: seq<Event>, ss: seq<Sys>)
    requires ValidSteps(c.steps) && Behavior(c, h, ss) && ss[|h|].saved.Some?
    requires ResumeWaiting !in h
    ensures var r := ss[|h|].saved.value;
            && (r.status == RunWaiting <==> r.await.Some?)
            && (r.await.Some? ==>
                  && r.await.value.step == r.stage
                  && Attempt(DoneCount(r), r.data, Awaited(r.await.value.key, r.await.value.prompt)) in h)
  {
    HistoryEvidence(c, h, ss);
  }

  /** A history follows g when every accepted output and every input is the one g computes. */
  ghost predicate Follows(c: Config, h: seq<Event>, g: (nat, string) -> string) {
    && (forall i: nat, a, b :: Attempt(i, a, Succeeded(b)) in h ==> b == g(i, a))
    && (forall i: nat, a, b :: i < |c.steps| && Inject(i, b) in h ==> b == g(i, a))
    && (forall i: nat, a :: i < |c.steps| && Skip(i) in h ==> a == g(i, a))
  }

  /** The data after k steps of an uninterrupted run. */
  function Compose(g: (nat, string) -> string, k: nat, input: string): string {
    if k == 0 then input else g(k - 1, Compose(g, k - 1, input))
  }

  lemma {:induction false} ChainIsCompose(c: Config, h: seq<Event>, g: (nat, string) -> string,
                                          input: string, r: Run, n: nat, outs: seq<string>, k: nat)
    requires Follows(c, h, g) && Explains(c, h, input, r, n, outs) && k <= n
    ensures outs[k] == Compose(g, k, input)
  {
    if k > 0 {
      ChainIsCompose(c, h, g, input, r, n, outs, k - 1);
      assert LinkAt(c, h, r, outs, k - 1);
    }
  }

  /** With deterministic steps every history that finishes has the uninterrupted result,
      and every record on the way the uninterrupted intermediate result. */
  lemma DeterministicResult(c: Config, h: seq<Event>, ss: seq<Sys>, g: (nat, string) -> string)
    requires ValidSteps(c.steps) && Behavior(c, h, ss) && Follows(c, h, g) && ss[|h|].saved.Some?
    ensures ss[|h|].input.Some?
    ensures var r := ss[|h|].saved.value; r.data == Compose(g, DoneCount(r), ss[|h|].input.value)
    ensures var r := ss[|h|].saved.value;
            r.status == RunDone ==> r.data == Compose(g, |c.steps|, ss[|h|].input.value)
  {
    HistoryEvidence(c, h, ss);
    SavedRecordShape(c, h, ss, |h|);
    var s := ss[|h|];
    var k := DoneCount(s.saved.value);
    var outs :| Explains(c, h, s.input.value, s.saved.value, k, outs);
    ChainIsCompose(c, h, g, s.input.value, s.saved.value, k, outs, k);
  }

  // ----- the uninterrupted run -----

  /** The events of step k when nothing goes wrong: it succeeds at once, or it awaits input, is
      suspended, and gets the input. */
  function StepEvents(g: (nat, string) -> string, awaits: nat -> bool, k: nat, input: string): seq<Event> {
    var data, next := Compose(g, k, input), Compose(g, k + 1, input);
    if awaits(k) then [Save(true)] + [Attempt(k, data, Awaited("", ""))] + [Save(true)] + [Inject(k, next)]
    else [Save(true)] + [Attempt(k, data, Succeeded(next))] + [Save(true)]
  }

  /** The events of a fresh run in which every save and every first attempt succeeds, and every
      awaited input is given. */
  function Uninterrupted(g: (nat, string) -> string, awaits: nat -> bool, id: string, input: string, k: nat): seq<Event>
  {
    if k == 0 then [Start(id, input, 0)]
    else Uninterrupted(g, awaits, id, input, k - 1) + StepEvents(g, awaits, k - 1, input)
  }

  /** One undisturbed step takes the run from the loop head of k to that of k + 1. */
  lemma UndisturbedStep(c: Config, s: Sys, r: Run, k: nat, data: string) returns (s1: Sys, s2: Sys, s3: Sys, t: Run)
    requires ValidSteps(c.steps) && k < |c.steps| && Retries(c, k) >= 0
    requires Shape(c, r, k) && s.live == Some(Enter(c, r, k))
    ensures Apply(c, s, Save(true)) == Some(s1)
    ensures Apply(c, s1, Attempt(k, r.data, Succeeded(data))) == Some(s2)
    ensures Apply(c, s2, Save(true)) == Some(s3)
    ensures Shape(c, t, k + 1) && t.data == data
    ensures s3.input == s.input && s3.live == Some(Enter(c, t, k + 1))
  {
    var m := Enter(c, r, k).run;
    EnterOk(c, r, k);
    SuccessShape(c, m, k, data, 1);
    t := AfterSuccess(c, m, k, data, 1);
    s1 := s.(saved := Some(m), live := Some(Live(m, Working(k, 1))));
    s2 := s1.(live := Some(Live(t, Committing(k))));
    s3 := s2.(saved := Some(t), live := Some(Enter(c, t, k + 1)));
  }

  lemma Extend3(c: Config, h: seq<Event>, ss: seq<Sys>, e1: Event, e2: Event, e3: Event, s1: Sys, s2: Sys, s3: Sys)
    requires Behavior(c, h, ss)
    requires Apply(c, ss[|h|], e1) == Some(s1) && Apply(c, s1, e2) == Some(s2) && Apply(c, s2, e3) == Some(s3)
    ensures Behavior(c, h + [e1] + [e2] + [e3], ss + [s1] + [s2] + [s3])
  {
    BehaviorSnoc(c, h, ss, e1, s1);
    BehaviorSnoc(c, h + [e1], ss + [s1], e2, s2);
    BehaviorSnoc(c, h + [e1] + [e2], ss + [s1] + [s2], e3, s3);
  }

  /** `ss` is the uninterrupted run up to the loop head of step k, with run record `r`. */
  ghost predicate RanUpTo(c: Config, h: seq<Event>, ss: seq<Sys>, input: string, r: Run, k: nat, data: string) {
    && Behavior(c, h, ss) && Shape(c, r, k) && r.data == data
    && ss[|h|].input == Some(input) && ss[|h|].live == Some(Enter(c, r, k))
  }

  lemma RanOneMore(c: Config, h: seq<Event>, ss: seq<Sys>, input: string, r: Run, k: nat, data: string, next: string)
    returns (tt: seq<Sys>, t: Run)
    requires ValidSteps(c.steps) && k < |c.steps| && Retries(c, k) >= 0
    requires RanUpTo(c, h, ss, input, r, k, data)
    ensures RanUpTo(c, h + [Save(true)] + [Attempt(k, data, Succeeded(next))] + [Save(true)], tt, input, t, k + 1, next)
  {
    var s1, s2, s3;
    s1, s2, s3, t := UndisturbedStep(c, ss[|h|], r, k, next);
    Extend3(c, h, ss, Save(true), Attempt(k, data, Succeeded(next)), Save(true), s1, s2, s3);
    tt := ss + [s1] + [s2] + [s3];
  }

  /** A step that awaits input suspends the run. */
  lemma SuspendedStep(c: Config, s: Sys, r: Run, k: nat) returns (s1: Sys, s2: Sys, s3: Sys, w: Run)
    requires ValidSteps(c.steps) && k < |c.steps| && Retries(c, k) >= 0
    requires Shape(c, r, k) && s.live == Some(Enter(c, r, k))
    ensures Apply(c, s, Save(true)) == Some(s1)
    ensures Apply(c, s1, Attempt(k, r.data, Awaited("", ""))) == Some(s2)
    ensures Apply(c, s2, Save(true)) == Some(s3)
    ensures s3 == Sys(s.input, Some(w), None) && Shape(c, w, k) && w.status == RunWaiting && w.stage == StageName(c, k)
  {
    var m := Enter(c, r, k).run;
    EnterOk(c, r, k);
    w := AfterAwait(c, m, k, "", "", 1);
    AwaitShape(c, m, k, "", "", 1);
    s1 := s.(saved := Some(m), live := Some(Live(m, Working(k, 1))));
    s2 := s1.(live := Some(Live(w, Suspending(k))));
    s3 := s2.(saved := Some(w), live := None);
  }

  /** The awaited input takes it to the loop head of the next step. */
  lemma InjectedStep(c: Config, s: Sys, w: Run, k: nat, data: string) returns (s1: Sys, t: Run)
    requires ValidSteps(c.steps) && k < |c.steps| && s.live.None? && s.saved == Some(w)
    requires Shape(c, w, k) && w.status == RunWaiting && w.stage == StageName(c, k)
    ensures Apply(c, s, Inject(k, data)) == Some(s1)
    ensures Shape(c, t, k + 1) && t.data == data && s1.input == s.input && s1.live == Some(Enter(c, t, k + 1))
  {
    StageIndex(c, k);
    StageIndex(c, k + 1);
    InputShape(c, w, k, data);
    t := AfterInput(c, w, k, data);
    s1 := s.(live := Some(Enter(c, t, k + 1)));
  }

  lemma RanOneMoreAwaited(c: Config, h: seq<Event>, ss: seq<Sys>, input: string, r: Run, k: nat,
                          data: string, next: string)
    returns (tt: seq<Sys>, t: Run)
    requires ValidSteps(c.steps) && k < |c.steps| && Retries(c, k) >= 0
    requires RanUpTo(c, h, ss, input, r, k, data)
    ensures RanUpTo(c, h + [Save(true)] + [Attempt(k, data, Awaited("", ""))] + [Save(true)] + [Inject(k, next)],
                    tt, input, t, k + 1, next)
  {
    var s1, s2, s3, w := SuspendedStep(c, ss[|h|], r, k);
    var s4;
    s4, t := InjectedStep(c, s3, w, k, next);
    Extend4(c, h, ss, Save(true), Attempt(k, data, Awaited("", "")), Save(true), Inject(k, next), s1, s2, s3, s4);
    tt := ss + [s1] + [s2] + [s3] + [s4];
  }

  /** Step k takes the uninterrupted run from the loop head of k to that of k + 1. */
  lemma UninterruptedStep(c: Config, g: (nat, string) -> string, awaits: nat -> bool, h: seq<Event>, ss: seq<Sys>,
                          input: string, r: Run, k: nat)
    returns (tt: seq<Sys>, t: Run)
    requires ValidSteps(c.steps) && k < |c.steps| && Retries(c, k) >= 0
    requires RanUpTo(c, h, ss, input, r, k, Compose(g, k, input))
    ensures RanUpTo(c, h + StepEvents(g, awaits, k, input), tt, input, t, k + 1, Compose(g, k + 1, input))
  {
    var data, next := Compose(g, k, input), Compose(g, k + 1, input);
    if awaits(k) {
      tt, t := RanOneMoreAwaited(c, h, ss, input, r, k, data, next);
      assert h + StepEvents(g, awaits, k, input)
          == h + [Save(true)] + [Attempt(k, data, Awaited("", ""))] + [Save(true)] + [Inject(k, next)];
    } else {
      tt, t := RanOneMore(c, h, ss, input, r, k, data, next);
      assert h + StepEvents(g, awaits, k, input)
          == h + [Save(true)] + [Attempt(k, data, Succeeded(next))] + [Save(true)];
    }
  }

  lemma FreshRuns(c: Config, g: (nat, string) -> string, awaits: nat -> bool, id: string, input: string)
    returns (ss: seq<Sys>, r: Run)
    requires 0 < |c.steps|
    ensures RanUpTo(c, Uninterrupted(g, awaits, id, input, 0), ss, input, r, 0, input)
  {
    r := FreshRun(c, id, input, 0);
    ss := [Initial, Sys(Some(input), None, Some(Enter(c, r, 0)))];
  }

  lemma {:induction false} UninterruptedRuns(c: Config, g: (nat, string) -> string, awaits: nat -> bool,
                                             id: string, input: string, k: nat)
    returns (ss: seq<Sys>, r: Run)
    requires ValidSteps(c.steps) && 0 < |c.steps| && k <= |c.steps|
    requires forall i: nat :: i < |c.steps| ==> Retries(c, i) >= 0
    ensures RanUpTo(c, Uninterrupted(g, awaits, id, input, k), ss, input, r, k, Compose(g, k, input))
  {
    if k == 0 {
      ss, r := FreshRuns(c, g, awaits, id, input);
    } else {
      ss, r := UninterruptedRuns(c, g, awaits, id, input, k - 1);
      ss, r := UninterruptedStep(c, g, awaits, Uninterrupted(g, awaits, id, input, k - 1), ss, input, r, k - 1);
    }
  }

  /** Every finishing history that follows deterministic steps ends with the data of the
      uninterrupted run of the same steps on the same input, and that run does finish. The steps
      that await input in that run are suspended and get it. */
  lemma SameAsUninterrupted(c: Config, h: seq<Event>, ss: seq<Sys>, g: (nat, string) -> string,
                            awaits: nat -> bool, id: string)
    returns (uu: seq<Sys>)
    requires ValidSteps(c.steps) && 0 < |c.steps|
    requires forall i: nat :: i < |c.steps| ==> Retries(c, i) >= 0
    requires Behavior(c, h, ss) && Follows(c, h, g)
    requires ss[|h|].saved.Some? && ss[|h|].saved.value.status == RunDone
    ensures ss[|h|].input.Some?
    ensures var u := Uninterrupted(g, awaits, id, ss[|h|].input.value, |c.steps|) + [Save(true)];
            && Behavior(c, u, uu)
            && uu[|u|].saved.Some?
            && uu[|u|].saved.value.status == RunDone
            && uu[|u|].saved.value.data == ss[|h|].saved.value.data
  {
    DeterministicResult(c, h, ss, g);
    var input := ss[|h|].input.value;
    var us, r := UninterruptedRuns(c, g, awaits, id, input, |c.steps|);
    var u := Uninterrupted(g, awaits, id, input, |c.steps|);
    var last := us[|u|];
    var next := Apply(c, last, Save(true)).value;
    BehaviorSnoc(c, u, us, Save(true), next);
    uu := us + [next];
  }

  // ----- where the engine does less than its documentation says -----

  /** A step is skipped without being run exactly under a negative effective retry count:
      such a step is never executed, and any other step is never skipped. */
  lemma SkippedIffNegativeRetry(c: Config, h: seq<Event>, ss: seq<Sys>, q: nat)
    requires ValidSteps(c.steps) && Behavior(c, h, ss) && q < |h|
    ensures h[q].Skip? ==> h[q].i < |c.steps| && Retries(c, h[q].i) < 0
    ensures h[q].Attempt? ==> h[q].i < |c.steps| && Retries(c, h[q].i) >= 0
  {
    HistoryKeepsInv(c, h, ss, q);
    assert StepAt(c, h, ss, q);
  }

  /** Under a retry count of -1 a one-step flow is saved as done without running its step. */
  lemma NegativeRetryFinishesWithoutRunning(c: Config, id: string, input: string) returns (ss: seq<Sys>)
    requires ValidSteps(c.steps) && |c.steps| == 1 && Retries(c, 0) < 0
    ensures var h := [Start(id, input, 0), Save(true), Skip(0), Save(true), Save(true)];
            && Behavior(c, h, ss)
            && ss[5].saved.Some?
            && ss[5].saved.value.status == RunDone
            && ss[5].saved.value.data == input
  {
    var r := Enter(c, FreshRun(c, id, input, 0), 0).run;
    var t := AfterSuccess(c, r, 0, input, Retries(c, 0) + 1);
    var d := t.(status := RunDone);
    var s1 := Sys(Some(input), None, Some(Live(r, Marking(0))));
    var s2 := Sys(Some(input), Some(r), Some(Live(r, Working(0, 1))));
    var s3 := Sys(Some(input), Some(r), Some(Live(t, Committing(0))));
    var s4 := Sys(Some(input), Some(t), Some(Live(d, Finishing)));
    var s5 := Apply(c, s4, Save(true)).value;
    ss := [Initial, s1, s2, s3, s4, s5];
  }

  /** The await state says what the status says. */
  ghost predicate AwaitMatches(r: Run) {
    && (r.status == RunWaiting <==> r.await.Some?)
    && (r.await.Some? ==> r.await.value.step == r.stage)
  }

  /** A waiting run that is resumed directly, and whose step comes to a decision at the first
      attempt, keeps the await state in line with the status exactly when the step awaits again. */
  lemma DirectResumeKeepsAwaitIff(c: Config, s: Sys, r: Run, k: nat, res: Result) returns (s4: Sys)
    requires ValidSteps(c.steps) && k < |c.steps| && Inv(c, s)
    requires Retries(c, k) >= 0 && (res.Erred? ==> Retries(c, k) == 0)
    requires Shape(c, r, k) && s.live.None? && s.saved == Some(r) && r.status == RunWaiting && AwaitMatches(r)
    ensures exists s1, s2, s3 ::
              && Apply(c, s, ResumeWaiting) == Some(s1)
              && Apply(c, s1, Save(true)) == Some(s2)
              && Apply(c, s2, Attempt(k, r.data, res)) == Some(s3)
              && Apply(c, s3, Save(true)) == Some(s4)
    ensures s4.saved.Some? && (AwaitMatches(s4.saved.value) <==> res.Awaited?)
  {
    StageIndex(c, k);
    EnterOk(c, r, k);
    var m := Enter(c, r, k).run;
    var s1 := s.(live := Some(Enter(c, r, k)));
    var s2 := s1.(saved := Some(m), live := Some(Live(m, Working(k, 1))));
    var s3 := s2.(live := Some(AfterAttempt(c, m, k, 1, res)));
    assert Apply(c, s, ResumeWaiting) == Some(s1);
    assert Apply(c, s1, Save(true)) == Some(s2);
    assert Apply(c, s2, Attempt(k, r.data, res)) == Some(s3);
    s4 := Apply(c, s3, Save(true)).value;
    assert k + 1 < |c.steps| ==> c.steps[k].name != c.steps[k + 1].name;
  }

  lemma Extend4(c: Config, h: seq<Event>, ss: seq<Sys>, e1: Event, e2: Event, e3: Event, e4: Event,
                s1: Sys, s2: Sys, s3: Sys, s4: Sys)
    requires Behavior(c, h, ss)
    requires Apply(c, ss[|h|], e1) == Some(s1) && Apply(c, s1, e2) == Some(s2)
    requires Apply(c, s2, e3) == Some(s3) && Apply(c, s3, e4) == Some(s4)
    ensures Behavior(c, h + [e1] + [e2] + [e3] + [e4], ss + [s1] + [s2] + [s3] + [s4])
  {
    Extend3(c, h, ss, e1, e2, e3, s1, s2, s3);
    BehaviorSnoc(c, h + [e1] + [e2] + [e3], ss + [s1] + [s2] + [s3], e4, s4);
  }

  /** A direct resume marks the step again and comes to its first attempt. */
  lemma DirectResumeStarts(c: Config, s: Sys, r: Run, k: nat) returns (s1: Sys, s2: Sys, m: Run)
    requires ValidSteps(c.steps) && k < |c.steps|
    requires Shape(c, r, k) && s.live.None? && s.saved == Some(r) && r.status == RunWaiting
    ensures Apply(c, s, ResumeWaiting) == Some(s1) && Apply(c, s1, Save(true)) == Some(s2)
    ensures s2 == Sys(s.input, Some(m), Some(Live(m, Working(k, 1)))) && |m.steps| == |c.steps|
    ensures m.await == r.await && m.data == r.data && m.status == RunWaiting
  {
    StageIndex(c, k);
    m := Enter(c, r, k).run;
    s1 := s.(live := Some(Enter(c, r, k)));
    s2 := Sys(s.input, Some(m), Some(Live(m, Working(k, 1))));
  }

  /** Whatever its retry count, a step can be done without an error, with the data as it was. */
  lemma StepCanSucceed(c: Config, s: Sys, m: Run, k: nat) returns (e: Event, s1: Sys, s2: Sys, attempts: int)
    requires k < |c.steps| == |m.steps| && s.live == Some(Live(m, Working(k, 1)))
    ensures e != ResumeWaiting && Apply(c, s, e) == Some(s1) && Apply(c, s1, Save(true)) == Some(s2)
    ensures s2.saved == Some(AfterSuccess(c, m, k, m.data, attempts))
  {
    attempts := if Retries(c, k) < 0 then Retries(c, k) + 1 else 1;
    e := if Retries(c, k) < 0 then Skip(k) else Attempt(k, m.data, Succeeded(m.data));
    var t := AfterSuccess(c, m, k, m.data, attempts);
    s1 := s.(live := Some(Live(t, Committing(k))));
    s2 := s1.(saved := Some(t), live := Some(Enter(c, t, k + 1)));
  }

  /** A step that succeeds leaves the await state behind. */
  lemma SuccessBreaksAwait(c: Config, m: Run, k: nat, data: string, attempts: int)
    requires ValidSteps(c.steps) && k < |c.steps| == |m.steps|
    requires m.await.Some? && m.await.value.step == c.steps[k].name
    ensures !AwaitMatches(AfterSuccess(c, m, k, data, attempts))
  {
    assert k + 1 < |c.steps| ==> c.steps[k].name != c.steps[k + 1].name;
    assert c.steps[k].name != "";
  }

  /** Whatever the retry count, a waiting run that is resumed directly can go on so that its
      await state names another step than its stage. */
  lemma DirectResumeCanBreakAwait(c: Config, s: Sys, r: Run, k: nat)
    returns (e: Event, s1: Sys, s2: Sys, s3: Sys, s4: Sys)
    requires ValidSteps(c.steps) && k < |c.steps| && Inv(c, s)
    requires Shape(c, r, k) && s.live.None? && s.saved == Some(r) && r.status == RunWaiting && AwaitMatches(r)
    ensures Apply(c, s, ResumeWaiting) == Some(s1) && Apply(c, s1, Save(true)) == Some(s2)
    ensures Apply(c, s2, e) == Some(s3) && Apply(c, s3, Save(true)) == Some(s4)
    ensures e != ResumeWaiting && s4.saved.Some? && !AwaitMatches(s4.saved.value)
  {
    var m, attempts;
    s1, s2, m := DirectResumeStarts(c, s, r, k);
    e, s3, s4, attempts := StepCanSucceed(c, s2, m, k);
    SuccessBreaksAwait(c, m, k, m.data, attempts);
  }

  /** `g` goes on from `h` with a direct Resume and without any further one of a waiting run. */
  ghost predicate ResumedDirectly(c: Config, h: seq<Event>, g: seq<Event>, tt: seq<Sys>) {
    && Behavior(c, g, tt) && h < g && g[|h|] in {Resume, ResumeWaiting}
    && forall i :: |h| < i < |g| ==> g[i] != ResumeWaiting
  }

  lemma WaitingIsBeforeTheEnd(c: Config, h: seq<Event>, ss: seq<Sys>)
    requires ValidSteps(c.steps) && Behavior(c, h, ss) && ResumeWaiting !in h
    requires ss[|h|].saved.Some? && ss[|h|].saved.value.status == RunWaiting
    ensures DoneCount(ss[|h|].saved.value) < |c.steps|
  {
    HistoryEvidence(c, h, ss);
    var r := ss[|h|].saved.value;
    var e := Attempt(DoneCount(r), r.data, Awaited(r.await.value.key, r.await.value.prompt));
    assert e in h;
    var q :| 0 <= q < |h| && h[q] == e;
    AttemptAtLevel(c, h, ss, q);
  }

  lemma FourMore(c: Config, h: seq<Event>, g: seq<Event>, tt: seq<Sys>, e: Event)
    requires Behavior(c, g, tt) && e != ResumeWaiting
    requires g == h + [ResumeWaiting] + [Save(true)] + [e] + [Save(true)]
    ensures ResumedDirectly(c, h, g, tt)
  {
  }

  /** The history in which an idle waiting run is resumed directly and loses the match. */
  lemma WaitingResumeBreaks(c: Config, h: seq<Event>, ss: seq<Sys>) returns (g: seq<Event>, tt: seq<Sys>)
    requires ValidSteps(c.steps) && Behavior(c, h, ss) && ResumeWaiting !in h
    requires ss[|h|].live.None? && ss[|h|].saved.Some? && ss[|h|].saved.value.status == RunWaiting
    ensures ResumedDirectly(c, h, g, tt) && tt[|g|].saved.Some? && !AwaitMatches(tt[|g|].saved.value)
  {
    var r := ss[|h|].saved.value;
    HistoryKeepsInv(c, h, ss, |h|);
    WaitingMeansAwait(c, h, ss);
    SavedRecordShape(c, h, ss, |h|);
    WaitingIsBeforeTheEnd(c, h, ss);
    var e, s1, s2, s3, s4 := DirectResumeCanBreakAwait(c, ss[|h|], r, DoneCount(r));
    Extend4(c, h, ss, ResumeWaiting, Save(true), e, Save(true), s1, s2, s3, s4);
    g := h + [ResumeWaiting] + [Save(true)] + [e] + [Save(true)];
    tt := ss + [s1] + [s2] + [s3] + [s4];
    FourMore(c, h, g, tt, e);
  }

  /** Resuming an unfinished idle run directly is sure to keep the await state in line with the
      status, whatever follows, if and only if the run is not waiting. */
  lemma DirectResumeIsSafeIff(c: Config, h: seq<Event>, ss: seq<Sys>)
    requires ValidSteps(c.steps) && Behavior(c, h, ss) && ResumeWaiting !in h
    requires ss[|h|].live.None? && ss[|h|].saved.Some? && ss[|h|].saved.value.status != RunDone
    ensures (forall g: seq<Event>, tt: seq<Sys> :: ResumedDirectly(c, h, g, tt) && tt[|g|].saved.Some? ==>
               AwaitMatches(tt[|g|].saved.value))
            <==> ss[|h|].saved.value.status != RunWaiting
  {
    var r := ss[|h|].saved.value;
    if r.status == RunWaiting {
      var g, tt := WaitingResumeBreaks(c, h, ss);
    } else {
      forall g: seq<Event>, tt: seq<Sys> | ResumedDirectly(c, h, g, tt) && tt[|g|].saved.Some?
        ensures AwaitMatches(tt[|g|].saved.value)
      {
        SameStates(c, h, ss, g, tt, |h|);
        assert StepAt(c, g, tt, |h|);
        assert forall i :: 0 <= i < |h| ==> g[i] == h[i];
        WaitingMeansAwait(c, g, tt);
      }
    }
  }

  /** A history determines its states. */
  lemma {:induction false} SameStates(c: Config, h: seq<Event>, ss: seq<Sys>, g: seq<Event>, tt: seq<Sys>, k: nat)
    requires Behavior(c, h, ss) && Behavior(c, g, tt) && h <= g && k <= |h|
    ensures tt[k] == ss[k]
  {
    if k > 0 {
      SameStates(c, h, ss, g, tt, k - 1);
      assert StepAt(c, h, ss, k - 1);
      assert StepAt(c, g, tt, k - 1);
    }
  }

  /** Resuming a waiting run directly can leave a record that is done and still awaits input. */
  lemma DirectResumeLeavesAwaitSet(id: string, input: string) returns (c: Config, h: seq<Event>, ss: seq<Sys>)
    ensures ValidSteps(c.steps) && Behavior(c, h, ss)
    ensures ss[|h|].saved.Some? && ss[|h|].saved.value.status == RunDone && ss[|h|].saved.value.await.Some?
  {
    c := Config("f", [StepDef("a", 0)], 0, false);
    var r := Enter(c, FreshRun(c, id, input, 0), 0).run;
    var w := AfterAwait(c, r, 0, "key", "prompt", 1);
    var m := Enter(c, w, 0).run;
    var t := AfterSuccess(c, m, 0, "out", 1);
    var d := t.(status := RunDone);
    var i := Some(input);
    assert StepIndex(c.steps, "a") == 0;
    h := [Start(id, input, 0), Save(true), Attempt(0, input, Awaited("key", "prompt")), Save(true),
          ResumeWaiting, Save(true), Attempt(0, input, Succeeded("out")), Save(true), Save(true)];
    ss := [Initial,
           Sys(i, None, Some(Live(r, Marking(0)))),
           Sys(i, Some(r), Some(Live(r, Working(0, 1)))),
           Sys(i, Some(r), Some(Live(w, Suspending(0)))),
           Sys(i, Some(w), None),
           Sys(i, Some(w), Some(Live(m, Marking(0)))),
           Sys(i, Some(m), Some(Live(m, Working(0, 1)))),
           Sys(i, Some(m), Some(Live(t, Committing(0)))),
           Sys(i, Some(t), Some(Live(d, Finishing))),
           Sys(i, Some(d), None)];
  }
}
