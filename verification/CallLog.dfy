/** Which calls an agent tells apart (`agent/builtin.go`, `agent/checkpoint.go`), and what the log
of an ask's actions says about their refusals: the step limit and the loop limit refuse exactly
the actions that the log before them is a reason for. */
module CallLog {
  import opened Guardrails
  import opened Options
  import opened ToolCalls
  import AgentRun

  // ----- name and arguments -----

  /** The name of `b` goes on after that of `a` with a colon, and the arguments make up for it. */
  ghost predicate ContinuesBy(a: Call, b: Call, x: string) {
    b.name == a.name + ":" + x && a.args == x + ":" + b.args
  }

  /** The same name and arguments, or names of which one continues the other after a colon. */
  ghost predicate SameKey(a: Call, b: Call) {
    || (a.name == b.name && a.args == b.args)
    || (exists x :: ContinuesBy(a, b, x))
    || (exists x :: ContinuesBy(b, a, x))
  }

  lemma ContinuedFingerprint(a: Call, b: Call, x: string)
    requires ContinuesBy(a, b, x)
    ensures Fingerprint(a) == Fingerprint(b)
  {
    assert a.name + ":" + (x + ":" + b.args) == (a.name + ":" + x) + ":" + b.args;
  }

  lemma LongerName(a: Call, b: Call)
    requires Fingerprint(a) == Fingerprint(b) && |a.name| < |b.name|
    ensures exists x :: ContinuesBy(a, b, x)
  {
    var f, m, n := Fingerprint(a), |a.name|, |b.name|;
    var x := f[m + 1..n];
    assert f[..m] == a.name && f[m] == ':' && f[m + 1..] == a.args;
    assert f[..n] == b.name && f[n] == ':' && f[n + 1..] == b.args;
    assert f[..n] == f[..m] + [f[m]] + f[m + 1..n];
    assert f[m + 1..] == f[m + 1..n] + [f[n]] + f[n + 1..];
    assert ContinuesBy(a, b, x);
  }

  /** Two calls share their counts and records if and only if they have the same name and
      arguments, or the name of one continues that of the other after a colon. */
  lemma FingerprintIff(a: Call, b: Call)
    ensures Fingerprint(a) == Fingerprint(b) <==> SameKey(a, b)
  {
    if Fingerprint(a) == Fingerprint(b) {
      var f := Fingerprint(a);
      assert f[..|a.name|] == a.name && f[|a.name| + 1..] == a.args;
      assert f[..|b.name|] == b.name && f[|b.name| + 1..] == b.args;
      if |a.name| < |b.name| {
        LongerName(a, b);
      } else if |b.name| < |a.name| {
        LongerName(b, a);
      }
    }
    forall x | ContinuesBy(a, b, x) ensures Fingerprint(a) == Fingerprint(b) {
      ContinuedFingerprint(a, b, x);
    }
    forall x | ContinuesBy(b, a, x) ensures Fingerprint(a) == Fingerprint(b) {
      ContinuedFingerprint(b, a, x);
    }
  }

  lemma ContinuingName(a: Call, b: Call)
    ensures (exists x :: ContinuesBy(a, b, x)) ==> ':' in b.name && |a.name| < |b.name|
  {
    forall x | ContinuesBy(a, b, x) ensures ':' in b.name && |a.name| < |b.name| {
      assert b.name[|a.name|] == ':';
    }
  }

  /** Names without a colon are told apart, and so are arguments of the same name. */
  lemma PlainNamesAreToldApart(a: Call, b: Call)
    requires (':' !in a.name && ':' !in b.name) || a.name == b.name
    ensures Fingerprint(a) == Fingerprint(b) <==> a.name == b.name && a.args == b.args
  {
    FingerprintIff(a, b);
    ContinuingName(a, b);
    ContinuingName(b, a);
  }

  /** The result of the done record for this name and these arguments, if the run has one. */
  ghost function ResultOnRecord(run: AgentRun.Run, call: Call): Option<string> {
    match AgentRun.Find(run.steps, "tool:" + call.name + ":" + call.args)
    case Some(i) => if run.steps[i].status == AgentRun.Done then Some(run.steps[i].result) else None
    case None => None
  }

  lemma ReplaysFromItsRecord(run: AgentRun.Run, call: Call)
    ensures AgentRun.Replays(run, Fingerprint(call)) <==> ResultOnRecord(run, call).Some?
    ensures AgentRun.Find(run.steps, AgentRun.ToolName(Fingerprint(call))) ==
            AgentRun.Find(run.steps, "tool:" + call.name + ":" + call.args)
  {
    assert "tool:" + (call.name + ":" + call.args) == "tool:" + call.name + ":" + call.args;
  }

  /** A call leaves the counts of all other calls alone. */
  ghost predicate OthersUncounted(call: Call, before: map<string, int>, after: map<string, int>) {
    forall c: Call :: !SameKey(c, call) ==> Seen(after, Fingerprint(c)) == Seen(before, Fingerprint(c))
  }

  lemma OnlyItsCount(call: Call, calls: map<string, int>, n: int)
    ensures OthersUncounted(call, calls, calls[Fingerprint(call) := n])
  {
    forall c: Call | !SameKey(c, call) ensures Fingerprint(c) != Fingerprint(call) {
      FingerprintIff(c, call);
    }
  }

  // ----- the log of an ask -----

  type Entry = (Call, Result)

  /** How many actions of the log were counted for the loop limit of this call: those of its name
      and arguments that were within the step limit. */
  ghost function CountedFor(log: seq<Entry>, call: Call): nat {
    if log == [] then 0
    else
      var n := |log| - 1;
      CountedFor(log[..n], call)
      + if SameKey(log[n].0, call) && !log[n].1.refusal.MaxStepsReached? then 1 else 0
  }

  lemma CountedMore(log: seq<Entry>, e: Entry, call: Call)
    ensures CountedFor(log + [e], call) ==
            CountedFor(log, call) + if SameKey(e.0, call) && !e.1.refusal.MaxStepsReached? then 1 else 0
  {
    assert (log + [e])[..|log|] == log;
  }

  /** Action j is refused for the step limit if and only if so many were made before it, and for
      the loop limit if and only if not for the step limit, and so many of the same name and
      arguments were counted before it. */
  ghost predicate RefusedAt(l: Limits, log: seq<Entry>, j: nat)
    requires j < |log|
  {
    && (log[j].1.refusal.MaxStepsReached? <==> 0 < l.maxSteps <= j)
    && (log[j].1.refusal.LoopDetected? <==>
          !(0 < l.maxSteps <= j) && 0 < l.loopLimit <= CountedFor(log[..j], log[j].0))
  }

  ghost predicate RefusalsAreDue(l: Limits, log: seq<Entry>) {
    forall j: nat :: j < |log| ==> RefusedAt(l, log, j)
  }

  /** The agent's counters are those of the log. */
  ghost predicate Counts(l: Limits, log: seq<Entry>, steps: int, calls: map<string, int>) {
    && (l.maxSteps > 0 ==> steps == |log|)
    && (l.loopLimit > 0 ==> forall call: Call :: CountIs(log, calls, call))
  }

  ghost predicate CountIs(log: seq<Entry>, calls: map<string, int>, call: Call) {
    Seen(calls, Fingerprint(call)) == CountedFor(log, call)
  }

  /** What the wrappers make of the counters at an action. */
  ghost predicate Counted(l: Limits, call: Call, steps: int, calls: map<string, int>,
                          steps': int, calls': map<string, int>)
  {
    && steps' == (if l.maxSteps > 0 then steps + 1 else steps)
    && calls' == if 0 < l.maxSteps <= steps || l.loopLimit <= 0 then calls
                 else calls[Fingerprint(call) := Seen(calls, Fingerprint(call)) + 1]
  }

  /** A call that a limit refuses does not run, any other runs only itself: the bounds are kept. */
  lemma BoundsMore(l: Limits, call: Call, steps: int, calls: map<string, int>, steps': int, calls': map<string, int>,
                   before: multiset<string>, after: multiset<string>)
    requires StepBound(l, steps, before) && LoopBound(l, calls, before)
    requires Counted(l, call, steps, calls, steps', calls')
    requires Ran(before, after, Fingerprint(call), Attempts(l))
    requires 0 < l.maxSteps <= steps || 0 < l.loopLimit <= Seen(calls, Fingerprint(call)) ==> after == before
    ensures StepBound(l, steps', after) && LoopBound(l, calls', after)
  {
    if l.maxSteps > 0 {
      StepCounted(l, steps, before, after, Fingerprint(call));
    }
    if l.loopLimit > 0 && !(0 < l.maxSteps <= steps) {
      LoopCounted(l, calls, before, after, Fingerprint(call));
    }
  }

  lemma CountsMore(l: Limits, log: seq<Entry>, steps: int, calls: map<string, int>, e: Entry,
                   steps': int, calls': map<string, int>)
    requires Counts(l, log, steps, calls) && Counted(l, e.0, steps, calls, steps', calls')
    requires e.1.refusal.MaxStepsReached? <==> 0 < l.maxSteps <= steps
    ensures Counts(l, log + [e], steps', calls')
  {
    var more := log + [e];
    forall call: Call ensures l.loopLimit > 0 ==> CountIs(more, calls', call) {
      CountedMore(log, e, call);
      FingerprintIff(e.0, call);
      assert l.loopLimit > 0 ==> CountIs(log, calls, call);
    }
  }

  lemma RefusalsMore(l: Limits, log: seq<Entry>, steps: int, calls: map<string, int>, e: Entry)
    requires Counts(l, log, steps, calls) && RefusalsAreDue(l, log)
    requires e.1.refusal.MaxStepsReached? <==> 0 < l.maxSteps <= steps
    requires e.1.refusal.LoopDetected? <==>
             !(0 < l.maxSteps <= steps) && 0 < l.loopLimit <= Seen(calls, Fingerprint(e.0))
    ensures RefusalsAreDue(l, log + [e])
  {
    var more := log + [e];
    assert l.loopLimit > 0 ==> CountIs(log, calls, e.0);
    forall j: nat | j < |more| ensures RefusedAt(l, more, j) {
      if j < |log| {
        assert RefusedAt(l, log, j) && more[..j] == log[..j];
      } else {
        assert more[..j] == log;
      }
    }
  }

  /** The log and the counters fit each other and the refusals. */
  ghost predicate Audited(l: Limits, log: seq<Entry>, steps: int, calls: map<string, int>) {
    Counts(l, log, steps, calls) && RefusalsAreDue(l, log)
  }

  lemma AuditedMore(l: Limits, log: seq<Entry>, steps: int, calls: map<string, int>, e: Entry,
                    steps': int, calls': map<string, int>, more: seq<Entry>)
    requires Audited(l, log, steps, calls) && Counted(l, e.0, steps, calls, steps', calls') && more == log + [e]
    requires e.1.refusal.MaxStepsReached? <==> 0 < l.maxSteps <= steps
    requires e.1.refusal.LoopDetected? <==>
             !(0 < l.maxSteps <= steps) && 0 < l.loopLimit <= Seen(calls, Fingerprint(e.0))
    ensures Audited(l, more, steps', calls')
  {
    CountsMore(l, log, steps, calls, e, steps', calls');
    RefusalsMore(l, log, steps, calls, e);
  }

  // ----- charged calls -----

  /** Exactly a call that ended unrefused and without error is charged, with the positive price of
      its tool, and only under a spend limit. */
  lemma ChargedForIt(l: Limits, log: seq<Entry>, call: Call, res: Result)
    ensures Charged(l, log + [(call, res)]) ==
            Charged(l, log)
            + if l.maxSpend > 0 && call.name in l.toolSpend && l.toolSpend[call.name] > 0
                 && res.refusal == NotRefused && res.error == NoProblem
              then l.toolSpend[call.name] else 0
  {
    ChargedMore(l, log, call, res);
  }
}
