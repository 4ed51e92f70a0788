/** Checkpointed agent runs (`agent/checkpoint.go`, the run record of `agent/agent.go`) as a
machine over one run: asking, resuming, tool calls whose saves may silently fail, the ways an
ask ends, and crashes. One driver at a time works on a run. */
module AgentRun {
  import opened Options

  /** Statuses of runs and of step records. */
  datatype Status = Running | InProgress | Paused | Done | Failed | Canceled | Timeout | RateLimited | Expired

  datatype Stage = AtAsk | AtApproval | AtInput | NoStage

  /** The state data of a run: the message, the pause of a run that waits for input (`stored` is
      its encoded form), or the response. */
  datatype Data =
    | Message(text: string)
    | InputPause(original: string, prompt: string, stored: string)
    | Response(reply: string)

  datatype Record = Record(name: string, status: Status, attempts: int, result: string, error: string)

  datatype Run = Run(id: string, status: Status, stage: Stage, data: Data, steps: seq<Record>)

  const ASK := "ask"

  /** `call` stands for the tool name and its marshalled arguments. */
  function ToolName(call: string): string {
    "tool:" + call
  }

  predicate Terminal(s: Status) {
    s.Done? || s.Canceled? || s.Timeout? || s.RateLimited? || s.Expired?
  }

  // ----- the run record -----

  function NewRun(id: string, message: string): Run {
    Run(id, Running, AtAsk, Message(message), [Record(ASK, InProgress, 0, "", "")])
  }

  /** An existing run taken up again: its first record is reset, the others are kept. */
  function Reopened(run: Run): Run {
    var steps := if run.steps == [] then [Record(ASK, InProgress, 0, "", "")] else run.steps;
    run.(status := Running, stage := AtAsk,
         steps := steps[0 := steps[0].(status := InProgress, error := "", result := "")])
  }

  predicate Resumable(run: Run) {
    !Terminal(run.status) && !(run.status.Paused? && run.stage.AtInput?)
  }

  predicate WaitsForInput(run: Run) {
    run.status.Paused? && run.stage.AtInput?
  }

  function WithInput(run: Run, input: string): Run
    requires run.data.InputPause?
  {
    var message := if run.data.original == "" then run.data.stored else run.data.original;
    run.(data := Message(message + "\n\nHuman input: " + input))
  }

  /** The index of the first record with this name. */
  function Find(steps: seq<Record>, name: string): (r: Option<nat>)
    ensures r.Some? ==> r.value < |steps| && steps[r.value].name == name
                        && forall j :: 0 <= j < r.value ==> steps[j].name != name
    ensures r.None? ==> forall j :: 0 <= j < |steps| ==> steps[j].name != name
  {
    if steps == [] then None
    else if steps[0].name == name then Some(0)
    else
      match Find(steps[1..], name)
      case None => None
      case Some(i) => Some(i + 1)
  }

  function Upserted(steps: seq<Record>, name: string): (r: (seq<Record>, nat))
    ensures r.1 < |r.0| && r.0[r.1].name == name && r.0[r.1].status == InProgress
  {
    match Find(steps, name)
    case Some(i) => (steps[i := steps[i].(status := InProgress, error := "")], i)
    case None =>
      var front := if steps == [] || steps[0].name != ASK then [Record(ASK, InProgress, 0, "", "")] else [];
      (front + steps + [Record(name, InProgress, 0, "", "")], |front| + |steps|)
  }

  /** The call's recorded result is replayed instead of running it. */
  predicate Replays(run: Run, call: string) {
    var i := Find(run.steps, ToolName(call));
    i.Some? && run.steps[i.value].status == Done
  }

  function ToolStarted(run: Run, call: string): Run {
    run.(steps := Upserted(run.steps, ToolName(call)).0)
  }

  function ToolEnded(run: Run, i: nat, refused: bool, content: string): Run
    requires i < |run.steps|
  {
    var rec := run.steps[i];
    var tried := rec.(attempts := rec.attempts + 1);
    run.(steps := run.steps[i := if refused then tried.(status := Failed, error := content)
                                 else tried.(status := Done, result := content, error := "")])
  }

  /** How an ask ends. */
  datatype Ending =
    | ModelFailed(status: Status, attempts: int, error: string)
    | ApprovalPause(message: string, tool: string, note: string)
    | HumanPause(message: string, tool: string, prompt: string, stored: string)
    | PlanUnfinished(message: string, error: string)
    | Answered(reply: string)

  predicate PossibleEnding(e: Ending) {
    e.ModelFailed? ==> e.status in {Canceled, Timeout, RateLimited, Failed}
  }

  function Ended(run: Run, e: Ending): Run
    requires run.steps != []
  {
    var ask := run.steps[0];
    match e
    case ModelFailed(status, attempts, error) =>
      run.(status := status, steps := run.steps[0 := ask.(status := status, attempts := attempts, error := error)])
    case ApprovalPause(message, tool, note) =>
      run.(status := Paused, stage := AtApproval, data := Message(message),
           steps := run.steps[0 := ask.(status := Paused, error := note, result := tool)])
    case HumanPause(message, tool, prompt, stored) =>
      run.(status := Paused, stage := AtInput, data := InputPause(message, prompt, stored),
           steps := run.steps[0 := ask.(status := Paused, error := prompt, result := tool)])
    case PlanUnfinished(message, error) =>
      run.(status := Failed, stage := AtAsk, data := Message(message),
           steps := run.steps[0 := ask.(status := Failed, error := error)])
    case Answered(reply) =>
      run.(status := Done, stage := NoStage, data := Response(reply),
           steps := run.steps[0 := ask.(status := Done, attempts := ask.attempts + 1, result := reply)])
  }

  // ----- the machine -----

  datatype Phase = Starting | Turn | InTool(call: string)

  datatype Live = Live(run: Run, phase: Phase)

  datatype Sys = Sys(saved: Option<Run>, live: Option<Live>)

  /** `written` says whether a save reached the store. */
  datatype Event =
    | Ask(id: string, message: string)
    | Resume
    | ResumeInput(input: string)
    | Begin(written: bool, ok: bool)               // the first save; the ask goes on only if it is reported as done
    | Replay(call: string)
    | ToolStart(call: string, written: bool)
    | Execute(call: string)                        // the base handler runs the call
    | ToolEnd(refused: bool, content: string, written: bool)
    | End(ending: Ending, written: bool)
    | Expire                                       // an operator gives up on an idle run
    | Crash

  function SavedIf(written: bool, run: Run, saved: Option<Run>): Option<Run> {
    if written then Some(run) else saved
  }

  function Apply(s: Sys, e: Event): Option<Sys> {
    match e
    case Ask(id, message) =>
      if s == Sys(None, None) then Some(Sys(None, Some(Live(NewRun(id, message), Starting)))) else None
    case Resume =>
      if s.live.None? && s.saved.Some? && Resumable(s.saved.value)
      then Some(s.(live := Some(Live(Reopened(s.saved.value), Starting)))) else None
    case ResumeInput(input) =>
      if s.live.None? && s.saved.Some? && WaitsForInput(s.saved.value) && s.saved.value.data.InputPause?
      then Some(s.(live := Some(Live(Reopened(WithInput(s.saved.value, input)), Starting)))) else None
    case Expire =>
      if s.live.None? && s.saved.Some? && !Terminal(s.saved.value.status)
      then Some(s.(saved := Some(s.saved.value.(status := Expired)))) else None
    case Crash => Some(s.(live := None))
    case _ => if s.live.None? then None else Work(s.saved, s.live.value, e)
  }

  /** The events of a run that is being worked on. */
  function Work(saved: Option<Run>, l: Live, e: Event): Option<Sys> {
    var run := l.run;
    match e
    case Begin(written, ok) =>
      if l.phase.Starting? && (ok ==> written)
      then Some(Sys(SavedIf(written, run, saved), if ok then Some(Live(run, Turn)) else None)) else None
    case Replay(call) =>
      if l.phase.Turn? && Replays(run, call) then Some(Sys(saved, Some(l))) else None
    case ToolStart(call, written) =>
      if l.phase.Turn? && !Replays(run, call)
      then Some(Sys(SavedIf(written, ToolStarted(run, call), saved), Some(Live(ToolStarted(run, call), InTool(call)))))
      else None
    case Execute(call) =>
      if l.phase == InTool(call) then Some(Sys(saved, Some(l))) else None
    case ToolEnd(refused, content, written) =>
      if l.phase.InTool? && Find(run.steps, ToolName(l.phase.call)).Some? then
        var after := ToolEnded(run, Find(run.steps, ToolName(l.phase.call)).value, refused, content);
        Some(Sys(SavedIf(written, after, saved), Some(Live(after, Turn))))
      else None
    case End(ending, written) =>
      if l.phase.Turn? && run.steps != [] && PossibleEnding(ending)
      then Some(Sys(SavedIf(written, Ended(run, ending), saved), None)) else None
    case _ => None
  }

  ghost predicate Behavior(h: seq<Event>, ss: seq<Sys>) {
    && |ss| == |h| + 1 && ss[0] == Sys(None, None)
    && (forall i: nat :: i < |h| ==> StepAt(h, ss, i))
  }

  /** The i-th event leads from the i-th state to the next. */
  ghost predicate StepAt(h: seq<Event>, ss: seq<Sys>, i: nat) {
    i < |h| && i + 1 < |ss| && Apply(ss[i], h[i]) == Some(ss[i + 1])
  }

  lemma BehaviorSnoc(h: seq<Event>, ss: seq<Sys>, e: Event, s: Sys)
    requires Behavior(h, ss) && Apply(ss[|h|], e) == Some(s)
    ensures Behavior(h + [e], ss + [s])
  {
    var g, tt := h + [e], ss + [s];
    forall i: nat | i < |g| ensures StepAt(g, tt, i) {
      if i < |h| {
        assert StepAt(h, ss, i);
      }
    }
  }

  // ----- the invariant -----

  ghost predicate Distinct(steps: seq<Record>) {
    forall i, j :: 0 <= i < j < |steps| ==> steps[i].name != steps[j].name
  }

  /** The ask record comes first and no name occurs twice. */
  ghost predicate Shape(run: Run) {
    run.steps != [] && run.steps[0].name == ASK && Distinct(run.steps)
  }

  /** The data that each status goes with. */
  ghost predicate DataOk(run: Run) {
    match run.status
    case Done => run.data.Response?
    case Paused => if run.stage.AtInput? then run.data.InputPause? else run.data.Message?
    case Expired => true
    case _ => run.data.Message?
  }

  /** `b` has every record of `a` at the same place, and every tool result recorded as done. */
  ghost predicate Keeps(a: Run, b: Run) {
    && |a.steps| <= |b.steps|
    && forall i :: 0 < i < |a.steps| ==> KeptRecord(a.steps[i], b.steps[i])
  }

  ghost predicate KeptRecord(a: Record, b: Record) {
    a.name == b.name && (a.status == Done ==> b.status == Done && b.result == a.result)
  }

  ghost predicate LiveOk(saved: Option<Run>, l: Live) {
    && Shape(l.run) && l.run.status == Running && l.run.data.Message?
    && (l.phase.InTool? ==> exists i :: 0 < i < |l.run.steps| && l.run.steps[i].name == ToolName(l.phase.call)
                                        && l.run.steps[i].status != Done)
    && (saved.Some? ==> Keeps(saved.value, l.run) && !Terminal(saved.value.status))
  }

  ghost predicate Inv(s: Sys) {
    && (s.saved.Some? ==> Shape(s.saved.value) && DataOk(s.saved.value))
    && (s.live.Some? ==> LiveOk(s.saved, s.live.value))
  }

  lemma ToolIsNotAsk(call: string)
    ensures ToolName(call) != ASK
  {
    assert ToolName(call)[0] == 't' && ASK[0] == 'a';
  }

  lemma AppendedRecord(steps: seq<Record>, rec: Record)
    requires Distinct(steps) && forall j :: 0 <= j < |steps| ==> steps[j].name != rec.name
    ensures Distinct(steps + [rec])
  {
  }

  lemma UpsertedSteps(steps: seq<Record>, name: string)
    requires steps != [] && steps[0].name == ASK && Distinct(steps) && name != ASK
    ensures var r := Upserted(steps, name);
            && 0 < r.1 && Distinct(r.0) && |steps| <= |r.0| && r.0[0] == steps[0]
            && forall j :: 0 <= j < |steps| && j != r.1 ==> r.0[j] == steps[j]
  {
    if Find(steps, name).None? {
      AppendedRecord(steps, Record(name, InProgress, 0, "", ""));
      assert [] + steps == steps;
    }
  }

  lemma StartedShape(run: Run, call: string)
    requires Shape(run) && !Replays(run, call)
    ensures Shape(ToolStarted(run, call)) && Keeps(run, ToolStarted(run, call))
    ensures var r := Upserted(run.steps, ToolName(call)); 0 < r.1 && Find(r.0, ToolName(call)) == Some(r.1)
  {
    ToolIsNotAsk(call);
    UpsertedSteps(run.steps, ToolName(call));
    var r := Upserted(run.steps, ToolName(call));
    Unique(r.0, ToolName(call), r.1);
  }

  lemma Unique(steps: seq<Record>, name: string, i: nat)
    requires Distinct(steps) && i < |steps| && steps[i].name == name
    ensures Find(steps, name) == Some(i)
  {
    var f := Find(steps, name);
    assert f.Some?;
    assert f.value == i;
  }

  lemma EndedToolShape(run: Run, i: nat, refused: bool, content: string)
    requires Shape(run) && 0 < i < |run.steps| && run.steps[i].status != Done
    ensures Shape(ToolEnded(run, i, refused, content)) && Keeps(run, ToolEnded(run, i, refused, content))
  {
  }

  lemma KeepsTransitive(a: Run, b: Run, c: Run)
    requires Keeps(a, b) && Keeps(b, c)
    ensures Keeps(a, c)
  {
    forall i | 0 < i < |a.steps| ensures KeptRecord(a.steps[i], c.steps[i]) {
      assert KeptRecord(a.steps[i], b.steps[i]) && KeptRecord(b.steps[i], c.steps[i]);
    }
  }

  /** The saved record never loses a record or a tool result, and a terminal one stays as it is. */
  ghost predicate Advances(s: Sys, s': Sys) {
    s.saved.Some? ==>
      && s'.saved.Some? && Keeps(s.saved.value, s'.saved.value)
      && (Terminal(s.saved.value.status) ==> s'.saved == s.saved && s'.live.None?)
  }

  lemma ToolStartKeepsInv(s: Sys, call: string, written: bool, s': Sys)
    requires Inv(s) && Apply(s, ToolStart(call, written)) == Some(s')
    ensures Inv(s') && Advances(s, s')
  {
    var run := s.live.value.run;
    StartedShape(run, call);
    if s.saved.Some? {
      KeepsTransitive(s.saved.value, run, ToolStarted(run, call));
    }
  }

  lemma ToolEndKeepsInv(s: Sys, refused: bool, content: string, written: bool, s': Sys)
    requires Inv(s) && Apply(s, ToolEnd(refused, content, written)) == Some(s')
    ensures Inv(s') && Advances(s, s')
  {
    var l := s.live.value;
    var i :| 0 < i < |l.run.steps| && l.run.steps[i].name == ToolName(l.phase.call) && l.run.steps[i].status != Done;
    Unique(l.run.steps, ToolName(l.phase.call), i);
    var after := ToolEnded(l.run, i, refused, content);
    assert s' == Sys(SavedIf(written, after, s.saved), Some(Live(after, Turn)));
    EndedToolShape(l.run, i, refused, content);
    NextTurn(s, after, written);
  }

  /** The live run goes on to another turn with a record that keeps everything, and may save it. */
  lemma NextTurn(s: Sys, after: Run, written: bool)
    requires Inv(s) && s.live.Some? && Shape(after) && Keeps(s.live.value.run, after)
    requires after.status == Running && after.data.Message?
    ensures var s' := Sys(SavedIf(written, after, s.saved), Some(Live(after, Turn))); Inv(s') && Advances(s, s')
  {
    if s.saved.Some? {
      KeepsTransitive(s.saved.value, s.live.value.run, after);
    }
  }

  lemma EndKeepsInv(s: Sys, ending: Ending, written: bool, s': Sys)
    requires Inv(s) && Apply(s, End(ending, written)) == Some(s')
    ensures Inv(s') && Advances(s, s')
  {
    var run := s.live.value.run;
    assert Shape(Ended(run, ending)) && Keeps(run, Ended(run, ending));
    if s.saved.Some? {
      KeepsTransitive(s.saved.value, run, Ended(run, ending));
    }
  }

  lemma TakenUp(saved: Run, run: Run)
    requires Shape(saved) && run.steps == saved.steps && run.data.Message?
    ensures Shape(Reopened(run)) && Keeps(saved, Reopened(run))
  {
  }

  /** Every event keeps the invariant and every recorded result. */
  lemma ApplyKeepsInv(s: Sys, e: Event, s': Sys)
    requires Inv(s) && Apply(s, e) == Some(s')
    ensures Inv(s') && Advances(s, s')
  {
    match e {
      case ToolStart(call, written) => ToolStartKeepsInv(s, call, written, s');
      case ToolEnd(refused, content, written) => ToolEndKeepsInv(s, refused, content, written, s');
      case End(ending, written) => EndKeepsInv(s, ending, written, s');
      case Resume => TakenUp(s.saved.value, s.saved.value);
      case ResumeInput(input) => TakenUp(s.saved.value, WithInput(s.saved.value, input));
      case _ =>
    }
  }

  lemma {:induction false} HistoryKeepsInv(h: seq<Event>, ss: seq<Sys>, k: nat)
    requires Behavior(h, ss) && k < |ss|
    ensures Inv(ss[k])
  {
    if k > 0 {
      HistoryKeepsInv(h, ss, k - 1);
      assert StepAt(h, ss, k - 1);
      ApplyKeepsInv(ss[k - 1], h[k - 1], ss[k]);
    }
  }

  lemma {:induction false} HistoryAdvances(h: seq<Event>, ss: seq<Sys>, p: nat, q: nat)
    requires Behavior(h, ss) && p <= q < |ss|
    ensures Advances(ss[p], ss[q])
    decreases q
  {
    HistoryKeepsInv(h, ss, p);
    if p < q {
      HistoryAdvances(h, ss, p, q - 1);
      HistoryKeepsInv(h, ss, q - 1);
      assert StepAt(h, ss, q - 1);
      ApplyKeepsInv(ss[q - 1], h[q - 1], ss[q]);
      if ss[p].saved.Some? {
        KeepsTransitive(ss[p].saved.value, ss[q - 1].saved.value, ss[q].saved.value);
      }
    }
  }

  // ----- what holds of whole histories -----

  /** In every saved record the ask record comes first and the names are distinct. */
  lemma AskStaysFirst(h: seq<Event>, ss: seq<Sys>, k: nat)
    requires Behavior(h, ss) && k < |ss| && ss[k].saved.Some?
    ensures var steps := ss[k].saved.value.steps;
            && steps != [] && steps[0].name == ASK
            && forall i, j :: 0 <= i < j < |steps| ==> steps[i].name != steps[j].name
  {
    HistoryKeepsInv(h, ss, k);
  }

  /** A run that waits for input can always be given it, and a resumed run has its message. */
  lemma ResumeFindsItsMessage(h: seq<Event>, ss: seq<Sys>, k: nat, input: string)
    requires Behavior(h, ss) && k < |ss| && ss[k].saved.Some? && ss[k].live.None?
    ensures WaitsForInput(ss[k].saved.value) <==> Apply(ss[k], ResumeInput(input)).Some?
    ensures var r := ss[k].saved.value;
            && (Apply(ss[k], ResumeInput(input)).Some? <==> r.status == Paused && r.stage == AtInput)
            && (Apply(ss[k], Resume).Some? <==>
                  r.status !in {Done, Canceled, Timeout, RateLimited, Expired}
                  && !(r.status == Paused && r.stage == AtInput))
    ensures Resumable(ss[k].saved.value) ==> ss[k].saved.value.data.Message?
    ensures ss[k].saved.value.status == Done ==> ss[k].saved.value.data.Response?
  {
    HistoryKeepsInv(h, ss, k);
  }

  /** A done tool record keeps its place and its result in every later saved record. */
  lemma ToolResultStays(h: seq<Event>, ss: seq<Sys>, p: nat, q: nat, i: nat)
    requires Behavior(h, ss) && p <= q < |ss| && ss[p].saved.Some?
    requires 0 < i < |ss[p].saved.value.steps| && ss[p].saved.value.steps[i].status == Done
    ensures ss[q].saved.Some? && i < |ss[q].saved.value.steps|
    ensures ss[q].saved.value.steps[i].name == ss[p].saved.value.steps[i].name
    ensures ss[q].saved.value.steps[i].status == Done
    ensures ss[q].saved.value.steps[i].result == ss[p].saved.value.steps[i].result
  {
    HistoryAdvances(h, ss, p, q);
    assert KeptRecord(ss[p].saved.value.steps[i], ss[q].saved.value.steps[i]);
  }

  /** A tool call that was once saved as done is never executed again, whatever asks, resumes,
      failed saves and crashes follow. */
  lemma DoneCallNeverExecutes(h: seq<Event>, ss: seq<Sys>, p: nat, q: nat, i: nat, call: string)
    requires Behavior(h, ss) && p <= q < |h| && ss[p].saved.Some?
    requires 0 < i < |ss[p].saved.value.steps| && ss[p].saved.value.steps[i].status == Done
    requires ss[p].saved.value.steps[i].name == ToolName(call)
    ensures h[q] != Execute(call)
  {
    ToolResultStays(h, ss, p, q, i);
    HistoryKeepsInv(h, ss, q);
    DoneCallIsNotRunning(ss[q], i, call);
    assert StepAt(h, ss, q);
  }

  lemma DoneCallIsNotRunning(s: Sys, i: nat, call: string)
    requires Inv(s) && s.saved.Some? && 0 < i < |s.saved.value.steps|
    requires s.saved.value.steps[i].name == ToolName(call) && s.saved.value.steps[i].status == Done
    ensures s.live.Some? ==> s.live.value.phase != InTool(call)
  {
    if s.live.Some? {
      var steps := s.live.value.run.steps;
      assert KeptRecord(s.saved.value.steps[i], steps[i]);
      forall j | 0 <= j < |steps| && steps[j].name == ToolName(call) ensures steps[j].status == Done {
        assert j == i;
      }
    }
  }

  /** done, canceled, timeout, rate_limited and expired are final: the record never changes
      again and nobody works on the run. */
  lemma TerminalIsFinal(h: seq<Event>, ss: seq<Sys>, p: nat, q: nat)
    requires Behavior(h, ss) && p <= q < |ss| && ss[p].saved.Some?
    requires ss[p].saved.value.status in {Done, Canceled, Timeout, RateLimited, Expired}
    ensures ss[q].saved == ss[p].saved
    ensures ss[q].live.None?
  {
    HistoryAdvances(h, ss, p, q);
  }

  /** What each ending leaves in the store: the status of the run and of its ask record, where a
      resume goes on, and why. The tool records stay as they are. */
  lemma EndingIsSaved(h: seq<Event>, ss: seq<Sys>, q: nat)
    requires Behavior(h, ss) && q < |h| && h[q].End? && h[q].written
    ensures ss[q].live.Some? && ss[q + 1].live.None? && ss[q + 1].saved.Some?
    ensures var before, r := ss[q].live.value.run, ss[q + 1].saved.value;
            && before.steps != [] && |r.steps| == |before.steps| && r.steps[1..] == before.steps[1..]
            && r.id == before.id && r.steps[0].name == ASK && r.steps[0].status == r.status
            && match h[q].ending
               case ModelFailed(status, attempts, error) =>
                 && r.status == status && r.data == before.data && r.stage == before.stage
                 && r.steps[0].attempts == attempts && r.steps[0].error == error
               case ApprovalPause(_, tool, note) =>
                 r.status == Paused && r.stage == AtApproval && r.steps[0].result == tool && r.steps[0].error == note
               case HumanPause(_, tool, prompt, _) =>
                 r.status == Paused && r.stage == AtInput && r.steps[0].result == tool && r.steps[0].error == prompt
               case PlanUnfinished(_, error) => r.status == Failed && r.stage == AtAsk && r.steps[0].error == error
               case Answered(reply) =>
                 && r.status == Done && r.data == Response(reply) && r.steps[0].result == reply
                 && r.steps[0].attempts == before.steps[0].attempts + 1
  {
    HistoryKeepsInv(h, ss, q);
    assert StepAt(h, ss, q);
  }

  /** A tool call that starts is in progress in the record, at its old place with its attempts, or
      behind all others; no other record changes. */
  lemma CallIsStarted(h: seq<Event>, ss: seq<Sys>, q: nat) returns (i: nat)
    requires Behavior(h, ss) && q < |h| && h[q].ToolStart?
    ensures ss[q].live.Some? && ss[q + 1].live.Some? && ss[q + 1].live.value.phase == InTool(h[q].call)
    ensures var a, b := ss[q].live.value.run.steps, ss[q + 1].live.value.run.steps;
            && 0 < i < |b| && (i < |a| == |b| || (i == |a| && |b| == |a| + 1))
            && b[i].name == "tool:" + h[q].call && b[i].status == InProgress && b[i].error == ""
            && (if i < |a| then b[i].name == a[i].name && b[i].attempts == a[i].attempts && a[i].status != Done
                else b[i].attempts == 0 && forall j :: 0 <= j < |a| ==> a[j].name != b[i].name)
            && (forall j :: 0 <= j < |a| && j != i ==> b[j] == a[j])
    ensures h[q].written ==> ss[q + 1].saved == Some(ss[q + 1].live.value.run)
  {
    HistoryKeepsInv(h, ss, q);
    assert StepAt(h, ss, q);
    var run, name := ss[q].live.value.run, ToolName(h[q].call);
    ToolIsNotAsk(h[q].call);
    UpsertedSteps(run.steps, name);
    i := Upserted(run.steps, name).1;
  }

  /** A tool call that ended is in the record with its result, or refused with its message as the
      error, and with one more attempt; no other record changes. */
  lemma CallIsRecorded(h: seq<Event>, ss: seq<Sys>, q: nat) returns (i: nat)
    requires Behavior(h, ss) && q < |h| && h[q].ToolEnd?
    ensures ss[q].live.Some? && ss[q].live.value.phase.InTool? && ss[q + 1].live.Some?
    ensures var a, b := ss[q].live.value.run.steps, ss[q + 1].live.value.run.steps;
            && 0 < i < |a| == |b| && a[i].name == b[i].name == "tool:" + ss[q].live.value.phase.call
            && (forall j :: 0 <= j < |a| && j != i ==> b[j] == a[j])
            && b[i].attempts == a[i].attempts + 1
            && (if h[q].refused then b[i].status == Failed && b[i].error == h[q].content
                else b[i].status == Done && b[i].result == h[q].content && b[i].error == "")
    ensures h[q].written ==> ss[q + 1].saved == Some(ss[q + 1].live.value.run)
  {
    HistoryKeepsInv(h, ss, q);
    assert StepAt(h, ss, q);
    var l := ss[q].live.value;
    i :| 0 < i < |l.run.steps| && l.run.steps[i].name == ToolName(l.phase.call) && l.run.steps[i].status != Done;
    Unique(l.run.steps, ToolName(l.phase.call), i);
  }

  // ----- where a recorded result comes from -----

  /** At q a tool call ended unrefused with this content. */
  ghost predicate EndedAt(h: seq<Event>, ss: seq<Sys>, q: nat, call: string, content: string) {
    && q < |h| && |ss| == |h| + 1 && h[q].ToolEnd? && !h[q].refused && h[q].content == content
    && ss[q].live.Some? && ss[q].live.value.phase == InTool(call)
  }

  /** Every done tool record of the run is the result with which that call ended before k. */
  ghost predicate Recorded(h: seq<Event>, ss: seq<Sys>, k: nat, run: Run) {
    forall i, call :: 0 < i < |run.steps| && run.steps[i].status == Done && run.steps[i].name == ToolName(call) ==>
      exists q: nat :: q < k && EndedAt(h, ss, q, call, run.steps[i].result)
  }

  lemma SameCall(a: string, b: string)
    requires ToolName(a) == ToolName(b)
    ensures a == b
  {
    assert ToolName(a)[5..] == a && ToolName(b)[5..] == b;
  }

  /** The tool records of `b` that are done are done in `a` with the same name and result. */
  ghost predicate NothingNew(a: Run, b: Run) {
    forall i :: 0 < i < |b.steps| && b.steps[i].status == Done ==>
      && i < |a.steps| && a.steps[i].name == b.steps[i].name
      && a.steps[i].status == Done && a.steps[i].result == b.steps[i].result
  }

  lemma RecordedStays(h: seq<Event>, ss: seq<Sys>, k: nat, a: Run, b: Run)
    requires Recorded(h, ss, k, a) && NothingNew(a, b)
    ensures Recorded(h, ss, k + 1, b)
  {
    forall i, call | 0 < i < |b.steps| && b.steps[i].status == Done && b.steps[i].name == ToolName(call)
      ensures exists q: nat :: q < k + 1 && EndedAt(h, ss, q, call, b.steps[i].result)
    {
      assert a.steps[i].status == Done;
      var q: nat :| q < k && EndedAt(h, ss, q, call, a.steps[i].result);
    }
  }

  lemma RecordedAtEnd(h: seq<Event>, ss: seq<Sys>, k: nat)
    requires Behavior(h, ss) && k < |h| && h[k].ToolEnd? && Inv(ss[k])
    requires ss[k].live.Some? && Recorded(h, ss, k, ss[k].live.value.run)
    ensures ss[k + 1].live.Some? && Recorded(h, ss, k + 1, ss[k + 1].live.value.run)
  {
    assert StepAt(h, ss, k);
    var a, b := ss[k].live.value.run, ss[k + 1].live.value.run;
    var call0 := ss[k].live.value.phase.call;
    var at := Find(a.steps, ToolName(call0)).value;
    forall i, call | 0 < i < |b.steps| && b.steps[i].status == Done && b.steps[i].name == ToolName(call)
      ensures exists q: nat :: q < k + 1 && EndedAt(h, ss, q, call, b.steps[i].result)
    {
      if i == at {
        SameCall(call, call0);
        assert EndedAt(h, ss, k, call, b.steps[i].result);
      } else {
        assert a.steps[i] == b.steps[i];
        var q: nat :| q < k && EndedAt(h, ss, q, call, a.steps[i].result);
      }
    }
  }

  lemma StartsNothingNew(run: Run, call: string)
    requires Shape(run)
    ensures NothingNew(run, ToolStarted(run, call))
  {
    ToolIsNotAsk(call);
    UpsertedSteps(run.steps, ToolName(call));
  }

  lemma {:induction false} HistoryRecorded(h: seq<Event>, ss: seq<Sys>, k: nat)
    requires Behavior(h, ss) && k < |ss|
    ensures ss[k].saved.Some? ==> Recorded(h, ss, k, ss[k].saved.value)
    ensures ss[k].live.Some? ==> Recorded(h, ss, k, ss[k].live.value.run)
  {
    if k > 0 {
      HistoryRecorded(h, ss, k - 1);
      HistoryKeepsInv(h, ss, k - 1);
      assert StepAt(h, ss, k - 1);
      RecordedStep(h, ss, k - 1);
    }
  }

  /** The run has no done record that neither the saved nor the live run had. */
  ghost predicate Inherits(s: Sys, run: Run) {
    || (s.saved.Some? && NothingNew(s.saved.value, run))
    || (s.live.Some? && NothingNew(s.live.value.run, run))
    || |run.steps| <= 1
  }

  /** Only the end of a tool call brings a new done record. */
  lemma OnlyEndsAreNew(s: Sys, e: Event, s': Sys)
    requires Inv(s) && Apply(s, e) == Some(s') && !e.ToolEnd?
    ensures s'.saved.Some? ==> Inherits(s, s'.saved.value)
    ensures s'.live.Some? ==> Inherits(s, s'.live.value.run)
  {
    if s.live.Some? && (e.Begin? || e.Replay? || e.ToolStart? || e.Execute? || e.End?) {
      WorkIsInherited(s, e, s');
    } else {
      IdleIsInherited(s, e, s');
    }
  }

  lemma WorkIsInherited(s: Sys, e: Event, s': Sys)
    requires Inv(s) && s.live.Some? && Work(s.saved, s.live.value, e) == Some(s') && !e.ToolEnd?
    ensures s'.saved.Some? ==> Inherits(s, s'.saved.value)
    ensures s'.live.Some? ==> Inherits(s, s'.live.value.run)
  {
    var run := s.live.value.run;
    if s.saved.Some? { SameTail(s.saved.value, s.saved.value); }
    SameTail(run, run);
    match e {
      case ToolStart(call, _) => StartsNothingNew(run, call);
      case End(ending, _) => SameTail(run, Ended(run, ending));
      case _ =>
    }
  }

  lemma IdleIsInherited(s: Sys, e: Event, s': Sys)
    requires Inv(s) && Apply(s, e) == Some(s')
    requires e.Ask? || e.Resume? || e.ResumeInput? || e.Expire? || e.Crash?
    ensures s'.saved.Some? ==> Inherits(s, s'.saved.value)
    ensures s'.live.Some? ==> Inherits(s, s'.live.value.run)
  {
    if s.saved.Some? { SameTail(s.saved.value, s.saved.value); }
    match e {
      case Resume => SameTail(s.saved.value, Reopened(s.saved.value));
      case ResumeInput(input) => SameTail(s.saved.value, Reopened(WithInput(s.saved.value, input)));
      case Expire => SameTail(s.saved.value, s'.saved.value);
      case _ =>
    }
  }

  lemma SameTail(a: Run, b: Run)
    requires |a.steps| == |b.steps| && forall i :: 0 < i < |a.steps| ==> b.steps[i] == a.steps[i]
    ensures NothingNew(a, b)
  {
  }

  lemma InheritedIsRecorded(h: seq<Event>, ss: seq<Sys>, k: nat, run: Run)
    requires k < |ss| && Inherits(ss[k], run)
    requires ss[k].saved.Some? ==> Recorded(h, ss, k, ss[k].saved.value)
    requires ss[k].live.Some? ==> Recorded(h, ss, k, ss[k].live.value.run)
    ensures Recorded(h, ss, k + 1, run)
  {
    if ss[k].saved.Some? && NothingNew(ss[k].saved.value, run) {
      RecordedStays(h, ss, k, ss[k].saved.value, run);
    } else if ss[k].live.Some? && NothingNew(ss[k].live.value.run, run) {
      RecordedStays(h, ss, k, ss[k].live.value.run, run);
    }
  }

  lemma RecordedStep(h: seq<Event>, ss: seq<Sys>, k: nat)
    requires Behavior(h, ss) && k < |h| && Inv(ss[k])
    requires ss[k].saved.Some? ==> Recorded(h, ss, k, ss[k].saved.value)
    requires ss[k].live.Some? ==> Recorded(h, ss, k, ss[k].live.value.run)
    ensures ss[k + 1].saved.Some? ==> Recorded(h, ss, k + 1, ss[k + 1].saved.value)
    ensures ss[k + 1].live.Some? ==> Recorded(h, ss, k + 1, ss[k + 1].live.value.run)
  {
    var s, s' := ss[k], ss[k + 1];
    assert StepAt(h, ss, k);
    if h[k].ToolEnd? {
      RecordedAtEnd(h, ss, k);
      if s.saved.Some? { RecordedStays(h, ss, k, s.saved.value, s.saved.value); }
    } else {
      OnlyEndsAreNew(s, h[k], s');
      if s'.saved.Some? { InheritedIsRecorded(h, ss, k, s'.saved.value); }
      if s'.live.Some? { InheritedIsRecorded(h, ss, k, s'.live.value.run); }
    }
  }

  /** A saved done record of a tool call holds the content with which that very call once ended
      unrefused. */
  lemma ResultComesFromItsCall(h: seq<Event>, ss: seq<Sys>, k: nat, i: nat, call: string)
    requires Behavior(h, ss) && k < |ss| && ss[k].saved.Some? && 0 < i < |ss[k].saved.value.steps|
    requires ss[k].saved.value.steps[i].status == Done && ss[k].saved.value.steps[i].name == ToolName(call)
    ensures exists q: nat :: q < k && EndedAt(h, ss, q, call, ss[k].saved.value.steps[i].result)
  {
    HistoryRecorded(h, ss, k);
  }

  /** What the record of a run becomes when a call ends unrefused and the ask then ends. */
  lemma RecordOfCall(run: Run, call: string, content: string, ending: Ending)
    returns (started: Run, ended: Run, last: Run)
    requires Shape(run) && !Replays(run, call)
    ensures started == ToolStarted(run, call)
    ensures var i := Find(started.steps, ToolName(call));
            i.Some? && ended == ToolEnded(started, i.value, false, content)
    ensures ended.steps != [] && last == Ended(ended, ending) && Replays(last, call)
  {
    StartedShape(run, call);
    started := ToolStarted(run, call);
    var i := Upserted(run.steps, ToolName(call)).1;
    EndedToolShape(started, i, false, content);
    ended := ToolEnded(started, i, false, content);
    last := Ended(ended, ending);
    Unique(last.steps, ToolName(call), i);
  }

  /** The states when a call is started and ends unrefused. */
  lemma CallRuns(saved: Option<Run>, run: Run, call: string, content: string, written: bool,
                 started: Run, ended: Run)
    requires !Replays(run, call) && started == ToolStarted(run, call)
    requires var i := Find(started.steps, ToolName(call));
             i.Some? && ended == ToolEnded(started, i.value, false, content)
    ensures var s := Sys(Some(started), Some(Live(started, InTool(call))));
            && Apply(Sys(saved, Some(Live(run, Turn))), ToolStart(call, true)) == Some(s)
            && Apply(s, Execute(call)) == Some(s)
            && Apply(s, ToolEnd(false, content, written)) ==
               Some(Sys(SavedIf(written, ended, Some(started)), Some(Live(ended, Turn))))
  {
  }

  /** The states when a call is started, ends unrefused, and the ask then ends. */
  lemma CallSteps(saved: Option<Run>, run: Run, call: string, content: string, written: bool, ending: Ending)
    returns (s1: Sys, s2: Sys, s3: Sys)
    requires Shape(run) && !Replays(run, call) && PossibleEnding(ending)
    ensures Apply(Sys(saved, Some(Live(run, Turn))), ToolStart(call, true)) == Some(s1)
    ensures Apply(s1, Execute(call)) == Some(s1)
    ensures Apply(s1, ToolEnd(false, content, written)) == Some(s2)
    ensures Apply(s2, End(ending, true)) == Some(s3)
    ensures s3.saved.Some? && s3.live.None? && Replays(s3.saved.value, call)
    ensures ending.Answered? ==> s3.saved.value.status == Done
    ensures ending.ModelFailed? ==> s3.saved.value.status == ending.status
  {
    var started, ended, last := RecordOfCall(run, call, content, ending);
    CallRuns(saved, run, call, content, written, started, ended);
    s1 := Sys(Some(started), Some(Live(started, InTool(call))));
    s2 := Sys(SavedIf(written, ended, Some(started)), Some(Live(ended, Turn)));
    s3 := Sys(Some(last), None);
  }

  lemma NewRunHasNoCall(id: string, message: string, call: string)
    ensures Shape(NewRun(id, message)) && !Replays(NewRun(id, message), call)
  {
    ToolIsNotAsk(call);
  }

  lemma Begun(id: string, message: string) returns (h: seq<Event>, ss: seq<Sys>)
    ensures h == [Ask(id, message), Begin(true, true)] && Behavior(h, ss)
    ensures ss[2] == Sys(Some(NewRun(id, message)), Some(Live(NewRun(id, message), Turn)))
  {
    var run := NewRun(id, message);
    h := [Ask(id, message), Begin(true, true)];
    ss := [Sys(None, None), Sys(None, Some(Live(run, Starting))), Sys(Some(run), Some(Live(run, Turn)))];
  }

  /** A call may end without having been executed, when it is canceled before the first try: the
      cancellation is then its result in the record. The save under the canceled context fails,
      but the save that ends the ask writes the record, and a resumed run replays the result. */
  lemma CanceledCallIsRecordedAsDone(id: string, message: string, call: string, error: string, failure: string)
    returns (h: seq<Event>, ss: seq<Sys>)
    ensures h == [Ask(id, message), Begin(true, true), ToolStart(call, true), ToolEnd(false, error, false),
                  End(ModelFailed(Failed, 1, failure), true)]
    ensures Behavior(h, ss) && Execute(call) !in h
    ensures ss[|h|].saved.Some? && ss[|h|].live.None? && Resumable(ss[|h|].saved.value)
    ensures Replays(ss[|h|].saved.value, call)
  {
    var run := NewRun(id, message);
    NewRunHasNoCall(id, message, call);
    var s1, s2, s3 := CallSteps(Some(run), run, call, error, false, ModelFailed(Failed, 1, failure));
    var e1, e2, e3 := ToolStart(call, true), ToolEnd(false, error, false), End(ModelFailed(Failed, 1, failure), true);
    h, ss := Begun(id, message);
    BehaviorSnoc(h, ss, e1, s1);
    BehaviorSnoc(h + [e1], ss + [s1], e2, s2);
    BehaviorSnoc(h + [e1] + [e2], ss + [s1] + [s2], e3, s3);
    h, ss := h + [e1] + [e2] + [e3], ss + [s1] + [s2] + [s3];
  }

  /** A replayed call is answered with the recorded result of its one done record. */
  lemma ReplayedResult(h: seq<Event>, ss: seq<Sys>, p: nat, q: nat, i: nat, call: string)
    requires Behavior(h, ss) && p <= q < |h| && ss[p].saved.Some?
    requires 0 < i < |ss[p].saved.value.steps| && ss[p].saved.value.steps[i].status == Done
    requires ss[p].saved.value.steps[i].name == ToolName(call)
    requires ss[q].live.Some?
    ensures Find(ss[q].live.value.run.steps, ToolName(call)) == Some(i)
    ensures Replays(ss[q].live.value.run, call)
    ensures ss[q].live.value.run.steps[i].result == ss[p].saved.value.steps[i].result
  {
    ToolResultStays(h, ss, p, q, i);
    HistoryKeepsInv(h, ss, q);
    var run := ss[q].live.value.run;
    assert KeptRecord(ss[q].saved.value.steps[i], run.steps[i]);
    Unique(run.steps, ToolName(call), i);
  }
}
