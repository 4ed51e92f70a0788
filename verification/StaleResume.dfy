/** Concurrent resumes of one agent run (`agent/checkpoint.go`): resuming loads the record before
it takes the agent's lock, so it goes on with the record of the time it was loaded. The machine
puts loaded records that wait for the lock beside the run machine. */
module StaleResume {
  import opened Options
  import AgentRun

  /** `waiting` are the records, taken up for resuming, of the drivers that wait for the lock. */
  datatype Shared = Shared(sys: AgentRun.Sys, waiting: seq<AgentRun.Run>)

  datatype Event =
    | Load(input: Option<string>)  // Resume, or ResumeInput with an input, loads the record
    | Lock(k: nat)                 // the k-th waiting driver gets the lock
    | Own(e: AgentRun.Event)       // what happens under the lock, Expire and Crash

  /** The record that a resume takes up; the record decides when it is loaded. */
  function TakenUp(saved: Option<AgentRun.Run>, input: Option<string>): Option<AgentRun.Run> {
    match (saved, input)
    case (Some(run), None) => if AgentRun.Resumable(run) then Some(AgentRun.Reopened(run)) else None
    case (Some(run), Some(text)) =>
      if AgentRun.WaitsForInput(run) && run.data.InputPause?
      then Some(AgentRun.Reopened(AgentRun.WithInput(run, text))) else None
    case (None, _) => None
  }

  function Apply(s: Shared, e: Event): Option<Shared> {
    match e
    case Load(input) =>
      var run := TakenUp(s.sys.saved, input);
      if run.Some? then Some(s.(waiting := s.waiting + [run.value])) else None
    case Lock(k) =>
      if s.sys.live.None? && k < |s.waiting| then
        Some(Shared(s.sys.(live := Some(AgentRun.Live(s.waiting[k], AgentRun.Starting))),
                    s.waiting[..k] + s.waiting[k + 1..]))
      else None
    case Own(o) =>
      var sys := if o.Resume? || o.ResumeInput? then None else AgentRun.Apply(s.sys, o);
      if sys.Some? then Some(Shared(sys.value, if o.Crash? then [] else s.waiting)) else None
  }

  ghost predicate Behavior(h: seq<Event>, ss: seq<Shared>) {
    && |ss| == |h| + 1 && ss[0] == Shared(AgentRun.Sys(None, None), [])
    && (forall i: nat :: i < |h| ==> StepAt(h, ss, i))
  }

  ghost predicate StepAt(h: seq<Event>, ss: seq<Shared>, i: nat) {
    i < |h| && i + 1 < |ss| && Apply(ss[i], h[i]) == Some(ss[i + 1])
  }

  lemma BehaviorSnoc(h: seq<Event>, ss: seq<Shared>, e: Event, s: Shared)
    requires Behavior(h, ss) && Apply(ss[|h|], e) == Some(s)
    ensures Behavior(h + [e], ss + [s])
  {
    var g, tt := h + [e], ss + [s];
    forall i: nat | i < |g| ensures StepAt(g, tt, i) {
      if i < |h| {
        assert StepAt(h, ss, i);
      }
    }
  }

  /** A record can be loaded for resuming exactly if the run machine can resume it, and a driver
      that gets the lock before anything else happens resumes as there. */
  lemma UndisturbedResume(s: Shared, input: Option<string>)
    requires s.sys.live.None?
    ensures var e := if input.None? then AgentRun.Resume else AgentRun.ResumeInput(input.value);
            Apply(s, Load(input)).Some? <==> AgentRun.Apply(s.sys, e).Some?
    ensures Apply(s, Load(input)).Some? ==>
            var loaded := Apply(s, Load(input)).value;
            var e := if input.None? then AgentRun.Resume else AgentRun.ResumeInput(input.value);
            && Apply(loaded, Lock(|s.waiting|)).Some?
            && AgentRun.Apply(s.sys, e) == Some(Apply(loaded, Lock(|s.waiting|)).value.sys)
            && Apply(loaded, Lock(|s.waiting|)).value.waiting == s.waiting
  {
    if Apply(s, Load(input)).Some? {
      assert Apply(s, Load(input)).value.waiting[..|s.waiting|] == s.waiting;
    }
  }

  // ----- what a record must not lose -----

  /** The recorded result of a call, if the call is recorded as done. */
  function Recorded(run: AgentRun.Run, call: string): Option<string> {
    if AgentRun.Replays(run, call)
    then Some(run.steps[AgentRun.Find(run.steps, AgentRun.ToolName(call)).value].result) else None
  }

  ghost predicate KeepsResults(a: AgentRun.Run, b: AgentRun.Run) {
    forall call :: Recorded(a, call).Some? ==> Recorded(b, call) == Recorded(a, call)
  }

  /** The saved record keeps every recorded result, and stays as it is once it is terminal. */
  ghost predicate Kept(s: Shared, s': Shared) {
    s.sys.saved.Some? ==>
      && s'.sys.saved.Some? && KeepsResults(s.sys.saved.value, s'.sys.saved.value)
      && (AgentRun.Terminal(s.sys.saved.value.status) ==> s'.sys.saved == s.sys.saved)
  }

  /** The loaded record is as good as the saved one: that is not terminal, and has no result that
      the loaded one has not. */
  ghost predicate Covers(saved: Option<AgentRun.Run>, loaded: AgentRun.Run) {
    saved.Some? ==> !AgentRun.Terminal(saved.value.status) && KeepsResults(saved.value, loaded)
  }

  ghost predicate CoversAt(h: seq<Event>, ss: seq<Shared>, i: nat)
    requires i < |h| && i < |ss|
  {
    h[i].Lock? && h[i].k < |ss[i].waiting| ==> Covers(ss[i].sys.saved, ss[i].waiting[h[i].k])
  }

  /** From `from` on, every driver that gets the lock has loaded a record that covers the saved one. */
  ghost predicate Covering(h: seq<Event>, ss: seq<Shared>, from: nat) {
    |h| < |ss| && forall i: nat :: from <= i < |h| ==> CoversAt(h, ss, i)
  }

  // ----- the invariant -----

  ghost predicate Loaded(run: AgentRun.Run) {
    AgentRun.Shape(run) && run.status == AgentRun.Running && run.data.Message?
  }

  /** The run machine's invariant, except for a driver that has not made its first save. */
  ghost predicate Inv(s: Shared) {
    && (s.sys.saved.Some? ==> AgentRun.Shape(s.sys.saved.value) && AgentRun.DataOk(s.sys.saved.value))
    && (s.sys.live.Some? ==>
          if s.sys.live.value.phase.Starting? then Loaded(s.sys.live.value.run)
          else AgentRun.LiveOk(s.sys.saved, s.sys.live.value))
    && (forall i :: 0 <= i < |s.waiting| ==> Loaded(s.waiting[i]))
  }

  /** A driver before its first save has a record that covers the saved one. */
  ghost predicate Covered(s: Shared) {
    s.sys.live.Some? && s.sys.live.value.phase.Starting? ==> Covers(s.sys.saved, s.sys.live.value.run)
  }

  lemma TakenUpIsLoaded(run: AgentRun.Run, input: Option<string>)
    requires AgentRun.Shape(run) && AgentRun.DataOk(run) && TakenUp(Some(run), input).Some?
    ensures Loaded(TakenUp(Some(run), input).value)
  {
    AgentRun.TakenUp(run, if input.None? then run else AgentRun.WithInput(run, input.value));
  }

  lemma KeepsGivesResults(a: AgentRun.Run, b: AgentRun.Run)
    requires AgentRun.Shape(a) && AgentRun.Shape(b) && AgentRun.Keeps(a, b)
    ensures KeepsResults(a, b)
  {
    forall call | Recorded(a, call).Some? ensures Recorded(b, call) == Recorded(a, call) {
      var i := AgentRun.Find(a.steps, AgentRun.ToolName(call)).value;
      AgentRun.ToolIsNotAsk(call);
      assert AgentRun.KeptRecord(a.steps[i], b.steps[i]);
      AgentRun.Unique(b.steps, AgentRun.ToolName(call), i);
    }
  }

  /** A step of the run machine, once the first save is made. */
  lemma WorkKeepsInv(s: Shared, o: AgentRun.Event, s': Shared)
    requires Inv(s) && Apply(s, Own(o)) == Some(s') && !(s.sys.live.Some? && s.sys.live.value.phase.Starting?)
    ensures Inv(s') && Kept(s, s')
    ensures Covered(s')
  {
    AgentRun.ApplyKeepsInv(s.sys, o, s'.sys);
    if s.sys.saved.Some? {
      KeepsGivesResults(s.sys.saved.value, s'.sys.saved.value);
    }
  }

  /** The first save: it puts the loaded record in the place of the saved one. */
  lemma BeginKeepsInv(s: Shared, o: AgentRun.Event, s': Shared)
    requires Inv(s) && Apply(s, Own(o)) == Some(s') && s.sys.live.Some? && s.sys.live.value.phase.Starting?
    ensures Inv(s') && Covered(s')
    ensures Covered(s) ==> Kept(s, s')
  {
  }

  lemma ApplyKeepsInv(s: Shared, e: Event, s': Shared)
    requires Inv(s) && Apply(s, e) == Some(s')
    ensures Inv(s')
    ensures Covered(s) ==> Kept(s, s')
    ensures Covered(s') || (e.Lock? && !Covers(s.sys.saved, s.waiting[e.k])) || (e.Load? && !Covered(s))
  {
    match e {
      case Load(input) => TakenUpIsLoaded(s.sys.saved.value, input);
      case Lock(k) =>
      case Own(o) =>
        if s.sys.live.Some? && s.sys.live.value.phase.Starting? {
          BeginKeepsInv(s, o, s');
        } else {
          WorkKeepsInv(s, o, s');
        }
    }
  }

  lemma {:induction false} HistoryKeepsInv(h: seq<Event>, ss: seq<Shared>, k: nat)
    requires Behavior(h, ss) && k < |ss|
    ensures Inv(ss[k])
  {
    if k > 0 {
      HistoryKeepsInv(h, ss, k - 1);
      assert StepAt(h, ss, k - 1);
      ApplyKeepsInv(ss[k - 1], h[k - 1], ss[k]);
    }
  }

  lemma KeptTwice(a: Shared, b: Shared, c: Shared)
    requires Kept(a, b) && Kept(b, c)
    ensures Kept(a, c)
  {
  }

  // ----- what holds of whole histories -----

  /** From a covered state on, if every loaded record that gets the lock covers the saved one,
      no result and no terminal record is lost. */
  lemma {:induction false} CoveringHistoryKeeps(h: seq<Event>, ss: seq<Shared>, p: nat, q: nat)
    requires Behavior(h, ss) && p <= q < |ss| && Covered(ss[p]) && Covering(h, ss, p)
    ensures Covered(ss[q]) && Kept(ss[p], ss[q])
    decreases q
  {
    if p < q {
      CoveringHistoryKeeps(h, ss, p, q - 1);
      HistoryKeepsInv(h, ss, q - 1);
      assert StepAt(h, ss, q - 1) && CoversAt(h, ss, q - 1);
      ApplyKeepsInv(ss[q - 1], h[q - 1], ss[q]);
      KeptTwice(ss[p], ss[q - 1], ss[q]);
    }
  }

  /** In such a history a call that is recorded as done does not execute again. */
  lemma DoneCallNeverExecutes(h: seq<Event>, ss: seq<Shared>, p: nat, q: nat, call: string)
    requires Behavior(h, ss) && p <= q < |h| && Covered(ss[p]) && Covering(h, ss, p)
    requires ss[p].sys.saved.Some? && AgentRun.Replays(ss[p].sys.saved.value, call)
    ensures h[q] != Own(AgentRun.Execute(call))
  {
    CoveringHistoryKeeps(h, ss, p, q);
    HistoryKeepsInv(h, ss, q);
    assert StepAt(h, ss, q);
    var saved := ss[q].sys.saved.value;
    assert Recorded(ss[p].sys.saved.value, call).Some?;
    assert Recorded(saved, call).Some?;
    AgentRun.ToolIsNotAsk(call);
    if ss[q].sys.live.Some? && !ss[q].sys.live.value.phase.Starting? {
      AgentRun.DoneCallIsNotRunning(ss[q].sys, AgentRun.Find(saved.steps, AgentRun.ToolName(call)).value, call);
    }
  }

  // ----- exactly when a waiting driver is safe -----

  /** `g` goes on from `h` with driver k getting the lock and no other driver after it. */
  ghost predicate LockedBy(h: seq<Event>, k: nat, g: seq<Event>, tt: seq<Shared>) {
    && Behavior(g, tt) && h < g && g[|h|] == Lock(k)
    && forall i :: |h| < i < |g| ==> !g[i].Lock?
  }

  lemma {:induction false} SameStates(h: seq<Event>, ss: seq<Shared>, g: seq<Event>, tt: seq<Shared>, k: nat)
    requires Behavior(h, ss) && Behavior(g, tt) && h <= g && k <= |h|
    ensures tt[k] == ss[k]
  {
    if k > 0 {
      SameStates(h, ss, g, tt, k - 1);
      assert StepAt(h, ss, k - 1);
      assert StepAt(g, tt, k - 1);
    }
  }

  /** A record that does not cover the saved one replaces it at the first save. */
  lemma UncoveredLockLoses(h: seq<Event>, ss: seq<Shared>, k: nat) returns (g: seq<Event>, tt: seq<Shared>)
    requires Behavior(h, ss) && ss[|h|].sys.live.None? && k < |ss[|h|].waiting|
    requires !Covers(ss[|h|].sys.saved, ss[|h|].waiting[k])
    ensures LockedBy(h, k, g, tt) && !Kept(ss[|h|], tt[|g|])
  {
    var s := ss[|h|];
    HistoryKeepsInv(h, ss, |h|);
    var s1 := Apply(s, Lock(k)).value;
    var s2 := Apply(s1, Own(AgentRun.Begin(true, true))).value;
    BehaviorSnoc(h, ss, Lock(k), s1);
    BehaviorSnoc(h + [Lock(k)], ss + [s1], Own(AgentRun.Begin(true, true)), s2);
    g, tt := h + [Lock(k)] + [Own(AgentRun.Begin(true, true))], ss + [s1] + [s2];
  }

  /** Whatever follows when a waiting driver gets the lock, nothing recorded is lost: this holds
      if and only if the record that it loaded covers the saved one. */
  lemma WaitingDriverIsSafeIff(h: seq<Event>, ss: seq<Shared>, k: nat)
    requires Behavior(h, ss) && ss[|h|].sys.live.None? && k < |ss[|h|].waiting|
    ensures (forall g: seq<Event>, tt: seq<Shared> :: LockedBy(h, k, g, tt) ==> Kept(ss[|h|], tt[|g|]))
            <==> Covers(ss[|h|].sys.saved, ss[|h|].waiting[k])
  {
    if Covers(ss[|h|].sys.saved, ss[|h|].waiting[k]) {
      forall g: seq<Event>, tt: seq<Shared> | LockedBy(h, k, g, tt) ensures Kept(ss[|h|], tt[|g|]) {
        SameStates(h, ss, g, tt, |h|);
        forall i: nat | |h| <= i < |g| ensures CoversAt(g, tt, i) {
        }
        CoveringHistoryKeeps(g, tt, |h|, |g|);
      }
    } else {
      var g, tt := UncoveredLockLoses(h, ss, k);
    }
  }

  lemma Extend2(h: seq<Event>, ss: seq<Shared>, e1: Event, e2: Event, s1: Shared, s2: Shared)
    requires Behavior(h, ss) && Apply(ss[|h|], e1) == Some(s1) && Apply(s1, e2) == Some(s2)
    ensures Behavior(h + [e1, e2], ss + [s1, s2])
  {
    BehaviorSnoc(h, ss, e1, s1);
    BehaviorSnoc(h + [e1], ss + [s1], e2, s2);
    assert h + [e1] + [e2] == h + [e1, e2] && ss + [s1] + [s2] == ss + [s1, s2];
  }

  lemma Extend4(h: seq<Event>, ss: seq<Shared>, e1: Event, e2: Event, e3: Event, e4: Event,
                s1: Shared, s2: Shared, s3: Shared, s4: Shared)
    requires Behavior(h, ss) && Apply(ss[|h|], e1) == Some(s1) && Apply(s1, e2) == Some(s2)
    requires Apply(s2, e3) == Some(s3) && Apply(s3, e4) == Some(s4)
    ensures Behavior(h + [e1, e2, e3, e4], ss + [s1, s2, s3, s4])
  {
    Extend2(h, ss, e1, e2, s1, s2);
    Extend2(h + [e1, e2], ss + [s1, s2], e3, e4, s3, s4);
    assert h + [e1, e2] + [e3, e4] == h + [e1, e2, e3, e4] && ss + [s1, s2] + [s3, s4] == ss + [s1, s2, s3, s4];
  }

  /** A driver's step, once its first save is made, is one of the run machine. */
  lemma OwnStep(s: Shared, o: AgentRun.Event, saved: AgentRun.Run, live: Option<AgentRun.Live>)
    requires o.ToolStart? || o.ToolEnd? || o.End?
    requires s.sys.live.Some?
    requires AgentRun.Work(s.sys.saved, s.sys.live.value, o) == Some(AgentRun.Sys(Some(saved), live))
    ensures Apply(s, Own(o)) == Some(Shared(AgentRun.Sys(Some(saved), live), s.waiting))
  {
  }

  lemma StartedIsNotRecorded(run: AgentRun.Run, call: string)
    requires AgentRun.Shape(run) && !AgentRun.Replays(run, call)
    ensures Recorded(AgentRun.ToolStarted(run, call), call).None?
  {
    AgentRun.StartedShape(run, call);
  }

  /** The stale driver's first save and the start of the call, which is thereby not done any more. */
  lemma StaleSteps(s: Shared, k: nat, call: string) returns (s1: Shared, s2: Shared, s3: Shared)
    requires Inv(s) && s.sys.live.None? && k < |s.waiting|
    requires s.sys.saved.Some? && AgentRun.Replays(s.sys.saved.value, call)
    requires !AgentRun.Replays(s.waiting[k], call)
    ensures Apply(s, Lock(k)) == Some(s1) && Apply(s1, Own(AgentRun.Begin(true, true))) == Some(s2)
    ensures Apply(s2, Own(AgentRun.ToolStart(call, true))) == Some(s3)
    ensures Apply(s3, Own(AgentRun.Execute(call))) == Some(s3) && !Kept(s, s3)
  {
    var run := s.waiting[k];
    var started := AgentRun.ToolStarted(run, call);
    var live := Some(AgentRun.Live(started, AgentRun.InTool(call)));
    s1 := Apply(s, Lock(k)).value;
    s2 := s1.(sys := AgentRun.Sys(Some(run), Some(AgentRun.Live(run, AgentRun.Turn))));
    s3 := s1.(sys := AgentRun.Sys(Some(started), live));
    OwnStep(s2, AgentRun.ToolStart(call, true), started, live);
    StartedIsNotRecorded(run, call);
    assert Recorded(s.sys.saved.value, call).Some?;
  }

  /** If a call was recorded as done after the driver had loaded the record, that driver can
      execute the call once more. */
  lemma StaleDriverExecutesAgain(h: seq<Event>, ss: seq<Shared>, k: nat, call: string)
    returns (g: seq<Event>, tt: seq<Shared>)
    requires Behavior(h, ss) && ss[|h|].sys.live.None? && k < |ss[|h|].waiting|
    requires ss[|h|].sys.saved.Some? && AgentRun.Replays(ss[|h|].sys.saved.value, call)
    requires !AgentRun.Replays(ss[|h|].waiting[k], call)
    ensures LockedBy(h, k, g, tt) && g[|g| - 1] == Own(AgentRun.Execute(call))
    ensures !Kept(ss[|h|], tt[|g|])
  {
    HistoryKeepsInv(h, ss, |h|);
    var s1, s2, s3 := StaleSteps(ss[|h|], k, call);
    var e2, e3, e4 := Own(AgentRun.Begin(true, true)), Own(AgentRun.ToolStart(call, true)), Own(AgentRun.Execute(call));
    Extend4(h, ss, Lock(k), e2, e3, e4, s1, s2, s3, s3);
    g, tt := h + [Lock(k), e2, e3, e4], ss + [s1, s2, s3, s3];
  }

  lemma AnswerSteps(s: Shared, call: string, content: string, reply: string)
    returns (s1: Shared, s2: Shared, s3: Shared)
    requires Inv(s) && s.sys.live.Some? && s.sys.live.value.phase.Turn?
    requires !AgentRun.Replays(s.sys.live.value.run, call)
    ensures Apply(s, Own(AgentRun.ToolStart(call, true))) == Some(s1)
    ensures Apply(s1, Own(AgentRun.Execute(call))) == Some(s1)
    ensures Apply(s1, Own(AgentRun.ToolEnd(false, content, true))) == Some(s2)
    ensures Apply(s2, Own(AgentRun.End(AgentRun.Answered(reply), true))) == Some(s3)
    ensures s3.sys.live.None? && s3.waiting == s.waiting && s3.sys.saved.Some?
    ensures s3.sys.saved.value.status == AgentRun.Done && AgentRun.Replays(s3.sys.saved.value, call)
  {
    var l := s.sys.live.value;
    var t1, t2, t3 := AgentRun.CallSteps(s.sys.saved, l.run, call, content, true, AgentRun.Answered(reply));
    assert s.sys == AgentRun.Sys(s.sys.saved, Some(AgentRun.Live(l.run, AgentRun.Turn)));
    s1, s2, s3 := Shared(t1, s.waiting), Shared(t2, s.waiting), Shared(t3, s.waiting);
  }

  /** The driver runs a call and answers the ask; the drivers that wait are not told. */
  lemma CallAndAnswer(h: seq<Event>, ss: seq<Shared>, call: string, content: string, reply: string)
    returns (g: seq<Event>, tt: seq<Shared>)
    requires Behavior(h, ss) && ss[|h|].sys.live.Some? && ss[|h|].sys.live.value.phase.Turn?
    requires !AgentRun.Replays(ss[|h|].sys.live.value.run, call)
    ensures Behavior(g, tt) && Own(AgentRun.Execute(call)) in g
    ensures tt[|g|].sys.live.None? && tt[|g|].waiting == ss[|h|].waiting
    ensures tt[|g|].sys.saved.Some? && tt[|g|].sys.saved.value.status == AgentRun.Done
    ensures AgentRun.Replays(tt[|g|].sys.saved.value, call)
  {
    HistoryKeepsInv(h, ss, |h|);
    var s1, s2, s3 := AnswerSteps(ss[|h|], call, content, reply);
    var e1, e2 := Own(AgentRun.ToolStart(call, true)), Own(AgentRun.Execute(call));
    var e3, e4 := Own(AgentRun.ToolEnd(false, content, true)), Own(AgentRun.End(AgentRun.Answered(reply), true));
    Extend4(h, ss, e1, e2, e3, e4, s1, s1, s2, s3);
    g, tt := h + [e1, e2, e3, e4], ss + [s1, s1, s2, s3];
    assert g[|h| + 1] == e2;
  }

  /** A run that is resumed while its first ask is at work: after the ask has answered it, the
      driver that waited has a record without the call's result. */
  lemma ResumedWhileWorking(id: string, message: string, call: string, content: string, reply: string)
    returns (h: seq<Event>, ss: seq<Shared>)
    ensures Behavior(h, ss) && ss[|h|].sys.live.None? && |ss[|h|].waiting| == 1
    ensures ss[|h|].sys.saved.Some? && ss[|h|].sys.saved.value.status == AgentRun.Done
    ensures Own(AgentRun.Execute(call)) in h && AgentRun.Replays(ss[|h|].sys.saved.value, call)
    ensures !AgentRun.Replays(ss[|h|].waiting[0], call)
  {
    var run := AgentRun.NewRun(id, message);
    AgentRun.ToolIsNotAsk(call);
    h := [Own(AgentRun.Ask(id, message)), Own(AgentRun.Begin(true, true)), Load(None)];
    ss := [Shared(AgentRun.Sys(None, None), []),
           Shared(AgentRun.Sys(None, Some(AgentRun.Live(run, AgentRun.Starting))), []),
           Shared(AgentRun.Sys(Some(run), Some(AgentRun.Live(run, AgentRun.Turn))), []),
           Shared(AgentRun.Sys(Some(run), Some(AgentRun.Live(run, AgentRun.Turn))), [AgentRun.Reopened(run)])];
    assert [] + [AgentRun.Reopened(run)] == [AgentRun.Reopened(run)];
    assert StepAt(h, ss, 0) && StepAt(h, ss, 1) && StepAt(h, ss, 2);
    h, ss := CallAndAnswer(h, ss, call, content, reply);
  }

  /** That driver loses the finished run and can execute the call a second time. */
  lemma ResumingAWorkedOnRunRepeats(id: string, message: string, call: string, content: string, reply: string)
    returns (h: seq<Event>, ss: seq<Shared>, g: seq<Event>, tt: seq<Shared>)
    ensures Behavior(h, ss) && Own(AgentRun.Execute(call)) in h
    ensures ss[|h|].sys.saved.Some? && ss[|h|].sys.saved.value.status == AgentRun.Done
    ensures LockedBy(h, 0, g, tt) && g[|g| - 1] == Own(AgentRun.Execute(call)) && !Kept(ss[|h|], tt[|g|])
  {
    h, ss := ResumedWhileWorking(id, message, call, content, reply);
    g, tt := StaleDriverExecutesAgain(h, ss, 0, call);
  }
}
