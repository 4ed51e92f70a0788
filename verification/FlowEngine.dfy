/** The engine of `flow/steps.go` itself: a flow object that drives its runs against a
checkpoint table. Saves, loads, step functions and the process can fail at any point; the
ghost history of each run records what happened, and the table always is what the
transition system of `FlowMachine` makes of that history. */
module FlowEngine {
  import opened Options
  import opened FlowMachine
  import opened FlowInvariant
  import FlowRefinement
  import opened FlowRetries
  import opened Ordering

  /** How a call returns; `Died` is a crash of the process. */
  datatype Outcome = Completed | Suspended | Errored | Died

  datatype IO = Ok | Error | Dead

  datatype StepOutcome =
    | StepOk(data: string, attempts: int)
    | StepAwait(key: string, prompt: string, attempts: int)
    | StepError(error: string, attempts: int)
    | StepDied

  datatype History = History(events: seq<Event>, states: seq<Sys>)

  method ValidateSteps(steps: seq<StepDef>) returns (ok: bool)
    ensures ok <==> ValidSteps(steps)
  {
    var seen: set<string> := {};
    for i := 0 to |steps|
      invariant forall j :: 0 <= j < i ==> steps[j].name != "" && steps[j].name in seen
      invariant forall j, k :: 0 <= j < k < i ==> steps[j].name != steps[k].name
      invariant forall n :: n in seen ==> exists j :: 0 <= j < i && steps[j].name == n
    {
      if steps[i].name == "" || steps[i].name in seen {
        return false;
      }
      seen := seen + {steps[i].name};
    }
    return true;
  }

  /** A later history: nothing is forgotten, and no waiting run was resumed directly in between. */
  ghost predicate Extends(a: History, b: History) {
    && a.events <= b.events
    && (ResumeWaiting in b.events ==> ResumeWaiting in a.events)
  }

  ghost predicate AllExtend(a: map<string, History>, b: map<string, History>) {
    forall x :: x in a ==> x in b && Extends(a[x], b[x])
  }

  lemma ExtendOneMore(id: string, a: map<string, History>, b: map<string, History>, d: map<string, History>)
    requires AllExtend(a, b) && SameElsewhere(id, b, d) && id in b && id in d && Extends(b[id], d[id])
    ensures AllExtend(a, d)
  {
  }

  /** Two tables that differ at most at one key. */
  ghost predicate SameElsewhere<T(!new)>(id: string, m: map<string, T>, n: map<string, T>) {
    forall x :: x != id ==> (x in m <==> x in n) && (x in m ==> m[x] == n[x])
  }

  ghost function Ids(rs: seq<Run>): set<string> {
    set r | r in rs :: r.id
  }

  ghost predicate SameOutside<T(!new)>(ids: set<string>, m: map<string, T>, n: map<string, T>) {
    forall x :: x !in ids ==> (x in m <==> x in n) && (x in m ==> m[x] == n[x])
  }

  predicate RunBefore(a: Run, b: Run) {
    a.started < b.started || (a.started == b.started && StringLess(a.id, b.id))
  }

  /** By start time, and by the first difference of the ids among runs of the same time. */
  ghost predicate InStartOrder(rs: seq<Run>) {
    forall i, j :: 0 <= i < j < |rs| ==>
      || rs[i].started < rs[j].started
      || (rs[i].started == rs[j].started && !ComesFirst(rs[j].id, rs[i].id))
  }

  lemma SortedInStartOrder(rs: seq<Run>)
    requires Sorted(RunBefore, rs)
    ensures InStartOrder(rs)
  {
    forall i, j | 0 <= i < j < |rs|
      ensures rs[i].started < rs[j].started
              || (rs[i].started == rs[j].started && !ComesFirst(rs[j].id, rs[i].id))
    {
      assert !RunBefore(rs[j], rs[i]);
      StringLessIff(rs[j].id, rs[i].id);
    }
  }

  predicate IsPending(r: Run) {
    r.status != RunDone && r.status != RunWaiting
  }

  ghost predicate DistinctIds(rs: seq<Run>) {
    forall i, j :: 0 <= i < j < |rs| ==> rs[i].id != rs[j].id
  }

  lemma RunBeforeTotal(rs: seq<Run>)
    requires DistinctIds(rs)
    ensures TotalOn(RunBefore, Elements(rs))
  {
    forall a | a in rs ensures !RunBefore(a, a) {
      StringLessIrreflexive(a.id);
    }
    forall a, b, d | a in rs && b in rs && d in rs && RunBefore(a, b) && RunBefore(b, d) ensures RunBefore(a, d) {
      if StringLess(a.id, b.id) && StringLess(b.id, d.id) { StringLessTransitive(a.id, b.id, d.id); }
    }
    forall a, b | a in rs && b in rs && a != b ensures RunBefore(a, b) || RunBefore(b, a) {
      StringLessTotal(a.id, b.id);
    }
  }

  /** The listing does not depend on the order in which the store enumerates its keys. */
  lemma ListingIsCanonical(rs: seq<Run>, ts: seq<Run>)
    requires DistinctIds(rs) && multiset(rs) == multiset(ts)
    ensures Sort(RunBefore, rs) == Sort(RunBefore, ts)
    ensures Sorted(RunBefore, Sort(RunBefore, rs))
  {
    RunBeforeTotal(rs);
    SortSorted(RunBefore, rs);
    SortIgnoresOrder(RunBefore, rs, ts);
  }

  lemma SortKeepsIds(rs: seq<Run>)
    requires DistinctIds(rs)
    ensures DistinctIds(Sort(RunBefore, rs))
    ensures forall r :: r in Sort(RunBefore, rs) <==> r in rs
  {
    var ts := Sort(RunBefore, rs);
    SortElements(RunBefore, rs);
    SameElements(ts, rs);
    forall r ensures r in ts <==> r in rs {
      assert r in Elements(ts) <==> r in Elements(rs);
    }
    forall i, j | 0 <= i < j < |ts| ensures ts[i].id != ts[j].id {
      TwoPlaces(ts, i, j);
      OnePlace(rs, ts[i]);
      assert ts[i] in rs && ts[j] in rs;
      var p :| 0 <= p < |rs| && rs[p] == ts[i];
      var q :| 0 <= q < |rs| && rs[q] == ts[j];
    }
  }

  lemma TwoPlaces<T>(s: seq<T>, i: nat, j: nat)
    requires i < j < |s|
    ensures s[i] == s[j] ==> multiset(s)[s[i]] >= 2
  {
    assert s == s[..j] + [s[j]] + s[j + 1..];
    assert s[i] in multiset(s[..j]);
  }

  lemma OnePlace(rs: seq<Run>, r: Run)
    requires DistinctIds(rs)
    ensures multiset(rs)[r] <= 1
  {
    if rs != [] {
      var n := |rs| - 1;
      assert rs == rs[..n] + [rs[n]];
      OnePlace(rs[..n], r);
      assert r == rs[n] ==> r !in rs[..n];
      assert r !in rs[..n] ==> multiset(rs[..n])[r] == 0;
    }
  }

  /** Event e, attempt number `attempt` at step i on `data` with retry count r, is the last one and
      gives the outcome. An attempt that erred is so only when the retries are used up. */
  ghost predicate Decides(r: int, i: nat, data: string, e: Event, attempt: nat, out: StepOutcome) {
    match out
    case StepOk(result, n) => e == Attempt(i, data, Succeeded(result)) && n == attempt <= r + 1
    case StepAwait(key, prompt, n) => e == Attempt(i, data, Awaited(key, prompt)) && n == attempt <= r + 1
    case StepError(error, n) =>
      || (e == Attempt(i, data, Erred(error)) && n == attempt == r + 1)
      || (e == GiveUp(i, error) && n == attempt - 1)
    case StepDied => e == Crash
  }

  ghost predicate AllErred(i: nat, data: string, es: seq<Event>) {
    forall j :: 0 <= j < |es| ==> Errs(es[j], i) && es[j].input == data
  }

  /** How step i goes on `data`: its attempts err, one after the other, up to the event that
      decides; only under a negative retry count it is not called at all. */
  ghost predicate StepTaken(r: int, i: nat, data: string, es: seq<Event>, out: StepOutcome) {
    || (es != [] && AllErred(i, data, es[..|es| - 1]) && Decides(r, i, data, es[|es| - 1], |es|, out))
    || (es == [Skip(i)] && r < 0 && out == StepOk(data, r + 1))
  }

  lemma OneMoreErred(i: nat, data: string, es: seq<Event>, e: Event)
    requires AllErred(i, data, es) && Errs(e, i) && e.input == data
    ensures AllErred(i, data, es + [e])
  {
  }

  lemma StepEnds(r: int, i: nat, data: string, es: seq<Event>, e: Event, out: StepOutcome)
    requires AllErred(i, data, es) && Decides(r, i, data, e, |es| + 1, out)
    ensures StepTaken(r, i, data, es + [e], out)
  {
    assert (es + [e])[..|es|] == es;
  }

  /** No attempt resumes the run. */
  lemma ErredExtends(a: History, b: History, i: nat, data: string, es: seq<Event>, e: Event)
    requires AllErred(i, data, es) && b.events == a.events + es + [e] && e != ResumeWaiting
    ensures Extends(a, b)
  {
  }

  class Flow {
    const c: Config
    var runs: map<string, Run>
    ghost var hist: map<string, History>

    constructor (c: Config)
      ensures Valid() && this.c == c && runs == map[] && hist == map[]
    {
      this.c := c;
      runs := map[];
      hist := map[];
    }

    ghost function Now(id: string): Sys
      reads this
      requires id in hist && hist[id].states != []
    {
      hist[id].states[|hist[id].states| - 1]
    }

    ghost function LastEvent(id: string): Event
      reads this
      requires id in hist && hist[id].events != []
    {
      hist[id].events[|hist[id].events| - 1]
    }

    /** An error is returned only after a failed save or delete, or for a run saved as failed;
        the process dies only by a crash. */
    ghost predicate Justified(id: string, out: Outcome)
      reads this
    {
      && id in hist && hist[id].events != []
      && (out.Died? ==> LastEvent(id) == Crash)
      && (out.Errored? ==>
            || LastEvent(id) in {FlowMachine.Save(false), SaveLost, FlowMachine.Delete(false), DeleteLost}
            || (id in runs && runs[id].status == RunFailed))
    }

    ghost function Stored(id: string): Option<Run>
      reads this
    {
      if id in runs then Some(runs[id]) else None
    }

    /** The history of `id` is a behavior that ends with the stored record. */
    ghost predicate Tracked(id: string)
      reads this
    {
      && id in hist
      && Behavior(c, hist[id].events, hist[id].states)
      && Now(id).saved == Stored(id)
      && Now(id).input.Some?
      && (id in runs ==> runs[id].id == id && runs[id].flow == c.flow)
    }

    ghost predicate Idle(id: string)
      reads this
    {
      Tracked(id) && Now(id).live.None?
    }

    ghost predicate Busy(id: string, l: Live)
      reads this
    {
      && Tracked(id) && Now(id).live == Some(l)
      && l.run.id == id && l.run.flow == c.flow && |l.run.steps| == |c.steps|
    }

    ghost predicate Valid()
      reads this
    {
      && (hist != map[] ==> ValidSteps(c.steps) && 0 < |c.steps|)
      && (forall x :: x in hist ==> Idle(x))
      && (forall x :: x in runs && runs[x].flow == c.flow ==> x in hist)
      && (forall x :: x in runs ==> runs[x].id == x)
    }

    /** Appends an event that is possible in the current state. */
    ghost method Log(id: string, e: Event)
      requires id in hist && Behavior(c, hist[id].events, hist[id].states)
      requires Apply(c, Now(id), e).Some?
      modifies this`hist
      ensures SameElsewhere(id, old(hist), hist) && id in hist
      ensures Behavior(c, hist[id].events, hist[id].states)
      ensures hist[id].events == old(hist[id].events) + [e]
      ensures Some(Now(id)) == Apply(c, old(Now(id)), e)
    {
      var s := Apply(c, Now(id), e).value;
      BehaviorSnoc(c, hist[id].events, hist[id].states, e, s);
      hist := hist[id := History(hist[id].events + [e], hist[id].states + [s])];
    }

    /** Saves the run. The process may die before the write, the write may fail, and a write
        reported as failed may have happened. */
    method Save(run: Run, ghost phase: Phase) returns (io: IO)
      requires Busy(run.id, Live(run, phase)) && IsSaving(phase)
      modifies this
      ensures Tracked(run.id)
      ensures SameElsewhere(run.id, old(runs), runs) && SameElsewhere(run.id, old(hist), hist)
      ensures Extends(old(hist[run.id]), hist[run.id])
      ensures io.Ok? ==> run.id in runs && runs[run.id] == run && Now(run.id).live == AfterSave(c, Live(run, phase))
      ensures !io.Ok? ==> Idle(run.id)
      ensures Justified(run.id, if io.Dead? then Died else if io.Error? then Errored else Completed)
      ensures io.Error? ==> LastEvent(run.id) in {FlowMachine.Save(false), SaveLost}
    {
      var dies: bool := *;
      if dies {
        Log(run.id, Crash);
        return Dead;
      }
      var written: bool := *;
      var reported: bool := *;
      if written {
        runs := runs[run.id := run];
        if reported {
          Log(run.id, FlowMachine.Save(true));
          return Ok;
        }
        Log(run.id, SaveLost);
        return Error;
      }
      Log(run.id, FlowMachine.Save(false));
      return Error;
    }

    /** Deletes the run. The process may die before, and a delete reported as failed may have
        happened. */
    method DeleteRun(run: Run) returns (io: IO)
      requires Busy(run.id, Live(run, Deleting))
      modifies this
      ensures Idle(run.id)
      ensures SameElsewhere(run.id, old(runs), runs) && SameElsewhere(run.id, old(hist), hist)
      ensures Extends(old(hist[run.id]), hist[run.id])
      ensures runs == if LastEvent(run.id) in {FlowMachine.Delete(true), DeleteLost} then old(runs) - {run.id}
                      else old(runs)
      ensures io.Ok? <==> LastEvent(run.id) == FlowMachine.Delete(true)
      ensures Justified(run.id, if io.Dead? then Died else if io.Error? then Errored else Completed)
    {
      var dies: bool := *;
      if dies {
        Log(run.id, Crash);
        return Dead;
      }
      var deleted: bool := *;
      var reported: bool := *;
      if deleted {
        runs := runs - {run.id};
        if reported {
          Log(run.id, FlowMachine.Delete(true));
          return Ok;
        }
        Log(run.id, DeleteLost);
        return Error;
      }
      Log(run.id, FlowMachine.Delete(false));
      return Error;
    }

    /** What runStep leaves to be saved. */
    ghost function AfterStep(run: Run, i: nat, out: StepOutcome): Option<Live>
      requires i < |c.steps| == |run.steps|
    {
      match out
      case StepOk(data, attempts) => Some(Live(AfterSuccess(c, run, i, data, attempts), Committing(i)))
      case StepAwait(key, prompt, attempts) => Some(Live(AfterAwait(c, run, i, key, prompt, attempts), Suspending(i)))
      case StepError(error, attempts) => Some(Live(AfterFailure(run, i, error, attempts), Failing(i)))
      case StepDied => None
    }

    /** One attempt at step i; None means that it failed and is tried again. */
    method TryStep(run: Run, i: nat, attempt: nat, retries: int) returns (out: Option<StepOutcome>, ghost e: Event)
      requires i < |c.steps| && Busy(run.id, Live(run, Working(i, attempt))) && 1 <= attempt <= retries + 1
      requires retries == if c.steps[i].retry > 0 then c.steps[i].retry else c.retry
      modifies this`hist
      ensures out.Some? ==> Tracked(run.id) && Now(run.id).live == AfterStep(run, i, out.value)
      ensures out == Some(StepDied) ==> Justified(run.id, Died)
      ensures SameElsewhere(run.id, old(hist), hist)
      ensures run.id in hist && hist[run.id].events == old(hist[run.id].events) + [e] && e != ResumeWaiting
      // An attempt that erred is repeated as long as there are retries, and no other.
      ensures out.None? ==> Errs(e, i) && e.input == run.data && attempt < retries + 1
      ensures out.None? ==> Busy(run.id, Live(run, Working(i, attempt + 1)))
      ensures out.Some? ==> Decides(retries, i, run.data, e, attempt, out.value)
    {
      var dies: bool := *;
      if dies {
        Log(run.id, Crash);
        return Some(StepDied), Crash;
      }
      // The context is cancelled.
      var stopped: bool := *;
      if stopped {
        var why: string := *;
        Log(run.id, GiveUp(i, why));
        return Some(StepError(why, attempt - 1)), GiveUp(i, why);
      }
      var result: Result := *;
      e := Attempt(i, run.data, result);
      Log(run.id, e);
      match result {
        case Succeeded(data) => return Some(StepOk(data, attempt)), e;
        case Awaited(key, prompt) => return Some(StepAwait(key, prompt, attempt)), e;
        case Erred(error) =>
          return if attempt == retries + 1 then Some(StepError(error, attempt)) else None, e;
      }
    }

    /** The attempts at step i; without any under a negative retry count. */
    method TryAgain(run: Run, i: nat, retries: int) returns (out: Option<StepOutcome>, ghost es: seq<Event>)
      requires i < |c.steps| && Busy(run.id, Live(run, Working(i, 1)))
      requires retries == if c.steps[i].retry > 0 then c.steps[i].retry else c.retry
      modifies this`hist
      ensures out.None? ==> retries < 0 && es == [] && hist == old(hist)
      ensures out.Some? ==> Tracked(run.id) && Now(run.id).live == AfterStep(run, i, out.value)
      ensures out == Some(StepDied) ==> Justified(run.id, Died)
      ensures SameElsewhere(run.id, old(hist), hist) && run.id in hist
      ensures hist[run.id].events == old(hist[run.id].events) + es
      ensures out.Some? ==> Extends(old(hist[run.id]), hist[run.id]) && StepTaken(retries, i, run.data, es, out.value)
    {
      es := [];
      var attempt: nat := 1;
      while attempt <= retries + 1
        invariant attempt == 1 || attempt <= retries + 1
        invariant Busy(run.id, Live(run, Working(i, attempt)))
        invariant SameElsewhere(run.id, old(hist), hist) && (attempt == 1 ==> hist == old(hist))
        invariant hist[run.id].events == old(hist[run.id].events) + es
        invariant |es| == attempt - 1 && AllErred(i, run.data, es)
        decreases retries + 1 - attempt
      {
        ghost var e;
        var done;
        done, e := TryStep(run, i, attempt, retries);
        if done.Some? {
          StepEnds(retries, i, run.data, es, e, done.value);
          ErredExtends(old(hist[run.id]), hist[run.id], i, run.data, es, e);
          return done, es + [e];
        }
        OneMoreErred(i, run.data, es, e);
        es, attempt := es + [e], attempt + 1;
      }
      return None, es;
    }

    /** Runs step i, retrying on error up to the resolved retry count; `es` is what happened. */
    method RunStep(run: Run, i: nat) returns (out: StepOutcome, ghost es: seq<Event>)
      requires i < |c.steps| && Busy(run.id, Live(run, Working(i, 1)))
      modifies this`hist
      ensures Tracked(run.id) && Now(run.id).live == AfterStep(run, i, out)
      ensures out.StepDied? ==> Justified(run.id, Died)
      ensures SameElsewhere(run.id, old(hist), hist)
      ensures Extends(old(hist[run.id]), hist[run.id]) && hist[run.id].events == old(hist[run.id].events) + es
      ensures StepTaken(if c.steps[i].retry > 0 then c.steps[i].retry else c.retry, i, run.data, es, out)
    {
      // A step without a function to run is an error, whatever the retry count.
      var missing: bool := *;
      if missing {
        var why: string := *;
        Log(run.id, GiveUp(i, why));
        return StepError(why, 0), [GiveUp(i, why)];
      }
      var retries := if c.steps[i].retry > 0 then c.steps[i].retry else c.retry;
      var done;
      done, es := TryAgain(run, i, retries);
      if done.Some? {
        return done.value, es;
      }
      Log(run.id, Skip(i));
      return StepOk(run.data, retries + 1), [Skip(i)];
    }

    /** One pass of the step loop: mark and save, run, record and save. A pass that does not
        go on to the next step says how the call returns. */
    method Pass(before: Run, i: nat) returns (run: Run, out: Option<Outcome>)
      requires i < |c.steps| == |before.steps| && Busy(before.id, Enter(c, before, i))
      modifies this
      ensures Tracked(before.id)
      ensures SameElsewhere(before.id, old(runs), runs) && SameElsewhere(before.id, old(hist), hist)
      ensures Extends(old(hist[before.id]), hist[before.id])
      ensures run.id == before.id && |run.steps| == |c.steps|
      ensures out.None? ==> Busy(before.id, Enter(c, run, i + 1))
      ensures out.Some? ==> Idle(before.id) && out.value != Completed && Justified(before.id, out.value)
      ensures out == Some(Suspended) ==> before.id in runs && runs[before.id].status == RunWaiting
    {
      run := before.(stage := c.steps[i].name, steps := before.steps[i := before.steps[i].(status := InProgress)]);
      var io := Save(run, Marking(i));
      if !io.Ok? {
        return run, Some(if io.Dead? then Died else Errored);
      }
      ghost var es;
      var step;
      step, es := RunStep(run, i);
      if step.StepDied? {
        return run, Some(Died);
      }
      run, out := Record(run, i, step);
    }

    method Record(before: Run, i: nat, step: StepOutcome) returns (run: Run, out: Option<Outcome>)
      requires i < |c.steps| == |before.steps| && !step.StepDied?
      requires Busy(before.id, AfterStep(before, i, step).value)
      modifies this
      ensures Tracked(before.id)
      ensures SameElsewhere(before.id, old(runs), runs) && SameElsewhere(before.id, old(hist), hist)
      ensures Extends(old(hist[before.id]), hist[before.id])
      ensures run.id == before.id && |run.steps| == |c.steps|
      ensures out.None? ==> Busy(before.id, Enter(c, run, i + 1))
      ensures out.Some? ==> Idle(before.id) && out.value != Completed && Justified(before.id, out.value)
      ensures out == Some(Suspended) ==> before.id in runs && runs[before.id].status == RunWaiting
    {
      var io;
      match step {
        case StepAwait(key, prompt, attempts) =>
          run := AfterAwait(c, before, i, key, prompt, attempts);
          io := Save(run, Suspending(i));
          out := Some(if io.Ok? then Suspended else if io.Dead? then Died else Errored);
        case StepError(error, attempts) =>
          run := AfterFailure(before, i, error, attempts);
          io := Save(run, Failing(i));
          out := Some(if io.Dead? then Died else Errored);
        case StepOk(data, attempts) =>
          run := AfterSuccess(c, before, i, data, attempts);
          io := Save(run, Committing(i));
          out := if io.Ok? then None else Some(if io.Dead? then Died else Errored);
      }
    }

    /** Executes steps from the run's stage to the end, saving before and after each step. */
    method RunFrom(start: Run) returns (out: Outcome)
      requires |start.steps| == |c.steps| && Busy(start.id, Enter(c, start, StartIndex(c, start.stage)))
      modifies this
      ensures Idle(start.id) && Justified(start.id, out)
      ensures SameElsewhere(start.id, old(runs), runs) && SameElsewhere(start.id, old(hist), hist)
      ensures Extends(old(hist[start.id]), hist[start.id])
      ensures out.Completed? ==>
                if c.deleteOnSuccess then start.id !in runs else start.id in runs && runs[start.id].status == RunDone
      ensures out.Suspended? ==> start.id in runs && runs[start.id].status == RunWaiting
    {
      var run, i, stop := start, StartIndex(c, start.stage), None;
      while i < |c.steps|
        invariant i <= |c.steps| == |run.steps| && run.id == start.id
        invariant Busy(start.id, Enter(c, run, i))
        invariant SameElsewhere(start.id, old(runs), runs) && SameElsewhere(start.id, old(hist), hist)
        invariant Extends(old(hist[start.id]), hist[start.id])
      {
        run, stop := Pass(run, i);
        if stop.Some? {
          return stop.value;
        }
        i := i + 1;
      }
      run := run.(status := RunDone);
      var io := Save(run, Finishing);
      if !io.Ok? {
        return if io.Dead? then Died else Errored;
      }
      if c.deleteOnSuccess {
        io := DeleteRun(run);
        if !io.Ok? {
          return if io.Dead? then Died else Errored;
        }
      }
      return Completed;
    }

    /** Only the entry of one run changed, and it is idle again: the table is valid again. */
    twostate lemma ValidAgain(id: string)
      requires old(Valid()) && ValidSteps(c.steps) && 0 < |c.steps| && Idle(id)
      requires SameElsewhere(id, old(runs), runs) && SameElsewhere(id, old(hist), hist)
      ensures Valid()
    {
      forall x | x in hist && x != id ensures Idle(x) {
        assert old(Idle(x));
      }
      assert forall x :: x in runs && x != id ==> x in old(runs) && old(runs)[x] == runs[x];
    }

    /** Begins a fresh run with the given input, under a new id. */
    method StartRun(id: string, data: string, started: int) returns (out: Outcome)
      requires Valid() && id !in hist && id !in runs && 0 < |c.steps|
      modifies this
      ensures Valid()
      ensures SameElsewhere(id, old(runs), runs) && SameElsewhere(id, old(hist), hist)
      ensures !ValidSteps(c.steps) ==> out == Errored && runs == old(runs) && hist == old(hist)
      ensures ValidSteps(c.steps) ==>
                && Justified(id, out)
                && Now(id).input == Some(data) && ResumeWaiting !in hist[id].events
      ensures out.Completed? ==> if c.deleteOnSuccess then id !in runs else id in runs && runs[id].status == RunDone
      ensures out.Suspended? ==> id in runs && runs[id].status == RunWaiting
    {
      var ok := ValidateSteps(c.steps);
      if !ok {
        return Errored;
      }
      var run := FreshRun(c, id, data, started);
      hist := hist[id := History([], [Initial])];
      Log(id, Start(id, data, started));
      StageIndex(c, 0);
      out := RunFrom(run);
      InputKept(id, data);
      ValidAgain(id);
    }

    /** The recorded input of a run is the one of its start event. */
    lemma InputKept(id: string, data: string)
      requires Tracked(id) && ValidSteps(c.steps)
      requires |hist[id].events| > 0 && hist[id].events[0].Start? && hist[id].events[0].data == data
      ensures Now(id).input == Some(data)
    {
      StartInput(c, hist[id].events, hist[id].states, |hist[id].events|);
    }

    /** Takes up an idle run with an event that loads it, and drives it. */
    method Continue(run: Run, ghost e: Event) returns (out: Outcome)
      requires Valid() && Idle(run.id) && run.flow == c.flow && |run.steps| == |c.steps|
      requires Apply(c, Now(run.id), e) ==
               Some(Now(run.id).(live := Some(Enter(c, run, StartIndex(c, run.stage)))))
      modifies this
      ensures Valid() && Justified(run.id, out)
      ensures SameElsewhere(run.id, old(runs), runs) && SameElsewhere(run.id, old(hist), hist)
      ensures e in hist[run.id].events
      ensures e != ResumeWaiting ==> Extends(old(hist[run.id]), hist[run.id])
      ensures out in {Completed, Suspended} ==> Drained(run.id)
    {
      Log(run.id, e);
      ghost var n := |hist[run.id].events| - 1;
      assert hist[run.id].events[n] == e;
      out := RunFrom(run);
      assert hist[run.id].events[n] == e;
      ValidAgain(run.id);
    }

    /** A stored run of this flow has its record in order. */
    lemma StoredShape(id: string)
      requires Valid() && id in runs && runs[id].flow == c.flow
      ensures id in hist && Idle(id) && Inv(c, Now(id)) && ValidSteps(c.steps)
      ensures |runs[id].steps| == |c.steps|
    {
      HistoryKeepsInv(c, hist[id].events, hist[id].states, |hist[id].events|);
      var k: nat :| Shape(c, runs[id], k);
    }

    /** Nothing of the run is left for a restart to do. */
    ghost predicate Drained(id: string)
      reads this
    {
      id !in runs || runs[id].status in {RunDone, RunWaiting}
    }

    /** The stored run is one of this flow. */
    ghost predicate Own(id: string)
      reads this
    {
      id in runs && runs[id].flow == c.flow
    }

    /** Drives another flow's record with this flow's steps: whatever then is stored under its
        id, it stays a record of that flow. */
    method DriveForeign(run: Run) returns (out: Outcome)
      requires Valid() && run.id in runs && runs[run.id].flow != c.flow
      modifies this`runs
      ensures Valid() && SameElsewhere(run.id, old(runs), runs)
      ensures run.id in runs ==> runs[run.id].flow == old(runs)[run.id].flow
    {
      var changes: bool := *;
      var deletes: bool := *;
      if changes {
        var after: Run := *;
        runs := runs[run.id := after.(id := run.id, flow := runs[run.id].flow)];
      } else if deletes {
        runs := runs - {run.id};
      }
      out := *;
    }

    /** Continues a stored run. Finished runs are left alone. */
    method Resume(id: string) returns (out: Outcome)
      requires Valid()
      modifies this
      ensures Valid()
      ensures SameElsewhere(id, old(runs), runs) && SameElsewhere(id, old(hist), hist)
      ensures id !in old(runs) || old(runs)[id].status == RunDone ==> runs == old(runs) && hist == old(hist)
      ensures id !in old(runs) ==> out == Errored
      ensures old(Own(id)) && out in {Completed, Suspended} ==> Drained(id)
      ensures old(Own(id)) ==> id in old(hist) && id in hist
      ensures old(Own(id)) && old(runs)[id].status != RunWaiting ==> Extends(old(hist)[id], hist[id])
      ensures !old(Own(id)) ==> hist == old(hist) && (id in runs ==> !Own(id))
    {
      var valid := ValidateSteps(c.steps);
      var loads: bool := *;
      if !valid || !loads || id !in runs {
        if id in runs && runs[id].flow == c.flow { StoredShape(id); }
        return Errored;
      }
      var run := runs[id];
      if run.status == RunDone {
        if run.flow == c.flow { StoredShape(id); }
        return Completed;
      }
      if run.flow != c.flow {
        out := DriveForeign(run);
        return;
      }
      StoredShape(id);
      out := Continue(run, if run.status == RunWaiting then ResumeWaiting else FlowMachine.Resume);
    }

    /** Completes the awaited step of a waiting run of this flow and goes on. */
    method InjectOwn(id: string, input: string) returns (out: Outcome)
      requires Valid() && Own(id) && runs[id].status == RunWaiting
      modifies this
      ensures Valid()
      ensures SameElsewhere(id, old(runs), runs) && SameElsewhere(id, old(hist), hist)
      ensures out in {Completed, Suspended} ==> Drained(id)
      ensures id in old(hist) && id in hist && Extends(old(hist)[id], hist[id])
      ensures out in {Completed, Suspended} ==>
                exists k: nat :: Inject(k, input) in hist[id].events && Shape(c, old(runs)[id], k)
    {
      StoredShape(id);
      var run := runs[id];
      var i := StepIndex(c.steps, run.stage);
      if i < 0 {
        return Errored;
      }
      InjectStep(c, Now(id), i, input);
      run := AfterInput(c, run, i, input);
      out := Continue(run, Inject(i, input));
    }

    /** Loads a waiting run and completes its awaited step with the given input. */
    method ResumeWith(id: string, input: string) returns (out: Outcome)
      requires Valid()
      modifies this
      ensures Valid()
      ensures SameElsewhere(id, old(runs), runs) && SameElsewhere(id, old(hist), hist)
      ensures id !in old(runs) || old(runs)[id].status != RunWaiting ==>
                out == Errored && runs == old(runs) && hist == old(hist)
      ensures old(Own(id)) && out in {Completed, Suspended} ==> Drained(id)
      ensures old(Own(id)) ==> id in old(hist) && id in hist && Extends(old(hist)[id], hist[id])
      ensures old(Own(id)) && out in {Completed, Suspended} ==>
                exists k: nat :: Inject(k, input) in hist[id].events && Shape(c, old(runs)[id], k)
      ensures !old(Own(id)) ==> hist == old(hist) && (id in runs ==> !Own(id))
    {
      var valid := ValidateSteps(c.steps);
      var loads: bool := *;
      if !valid || !loads || id !in runs || runs[id].status != RunWaiting {
        if id in runs && runs[id].flow == c.flow { StoredShape(id); }
        return Errored;
      }
      if runs[id].flow != c.flow {
        out := DriveForeign(runs[id]);
      } else {
        out := InjectOwn(id, input);
      }
    }

    /** Lists the table in start order. Records that cannot be read are left out. */
    method List() returns (rs: seq<Run>, ghost skipped: set<string>)
      requires Valid()
      ensures Sorted(RunBefore, rs) && InStartOrder(rs) && DistinctIds(rs)
      ensures forall r :: r in rs <==> r.id in runs && r.id !in skipped && runs[r.id] == r
    {
      rs, skipped := [], {};
      var keys := runs.Keys;
      while keys != {}
        invariant keys <= runs.Keys
        invariant forall r :: r in rs <==> r.id in runs && r.id !in keys && r.id !in skipped && runs[r.id] == r
        invariant DistinctIds(rs) && skipped !! keys
        decreases |keys|
      {
        var key :| key in keys;
        var loads: bool := *;
        if loads {
          rs := rs + [runs[key]];
        } else {
          skipped := skipped + {key};
        }
        keys := keys - {key};
      }
      ListingIsCanonical(rs, rs);
      SortKeepsIds(rs);
      rs := Sort(RunBefore, rs);
      SortedInStartOrder(rs);
    }

    /** This flow's runs that a restart should resume, in start order. */
    method Pending() returns (rs: seq<Run>, ghost skipped: set<string>)
      requires Valid()
      ensures Sorted(RunBefore, rs) && InStartOrder(rs) && DistinctIds(rs)
      ensures forall r :: r in rs <==> r.id !in skipped && InBacklog(r, runs)
    {
      var all;
      all, skipped := List();
      rs := [];
      ghost var at: seq<nat> := [];
      for k := 0 to |all|
        invariant |at| == |rs|
        invariant forall i :: 0 <= i < |rs| ==> at[i] < k && rs[i] == all[at[i]]
        invariant forall i, j :: 0 <= i < j < |rs| ==> at[i] < at[j]
        invariant forall r :: r in rs <==> r in all[..k] && r.flow == c.flow && IsPending(r)
      {
        if all[k].flow == c.flow && IsPending(all[k]) {
          rs, at := rs + [all[k]], at + [k];
        }
        assert all[..k + 1] == all[..k] + [all[k]];
      }
      assert all[..|all|] == all;
      SortedInStartOrder(rs);
    }

    /** The first k listed runs are drained, the others as listed. */
    ghost predicate DrainedUpTo(rs: seq<Run>, k: nat, table: map<string, Run>) {
      && (forall i :: 0 <= i < |rs| && i < k ==> rs[i].id !in table || table[rs[i].id].status in {RunDone, RunWaiting})
      && (forall i :: k <= i < |rs| ==> InBacklog(rs[i], table))
    }

    /** The runs before the k-th are drained, the ones after it as listed. */
    ghost predicate DrainStopped(rs: seq<Run>, k: nat, table: map<string, Run>) {
      && (forall i :: 0 <= i < |rs| && i < k ==> rs[i].id !in table || table[rs[i].id].status in {RunDone, RunWaiting})
      && (forall i :: k < i < |rs| ==> InBacklog(rs[i], table))
    }

    lemma DrainOneMore(rs: seq<Run>, k: nat,
                       origin: map<string, Run>, before: map<string, Run>, after: map<string, Run>)
      requires DistinctIds(rs) && k < |rs| && DrainedUpTo(rs, k, before) && SameOutside(Ids(rs), origin, before)
      requires SameElsewhere(rs[k].id, before, after)
      ensures SameOutside(Ids(rs), origin, after)
      ensures DrainStopped(rs, k, after)
      ensures rs[k].id !in after || after[rs[k].id].status in {RunDone, RunWaiting} ==> DrainedUpTo(rs, k + 1, after)
    {
      assert rs[k] in rs;
      assert forall i :: 0 <= i < k ==> rs[i].id != rs[k].id;
      assert forall i :: k < i < |rs| ==> rs[k].id != rs[i].id;
    }

    method ResumeNext(rs: seq<Run>, k: nat, ghost origin: map<string, Run>, ghost past: map<string, History>)
      returns (out: Outcome)
      requires Valid() && DistinctIds(rs) && k < |rs| && DrainedUpTo(rs, k, runs)
      requires SameOutside(Ids(rs), origin, runs) && AllExtend(past, hist)
      modifies this
      ensures Valid() && SameOutside(Ids(rs), origin, runs) && AllExtend(past, hist)
      ensures if out.Errored? || out.Died? then DrainStopped(rs, k, runs) else DrainedUpTo(rs, k + 1, runs)
    {
      assert InBacklog(rs[k], runs);
      out := Resume(rs[k].id);
      DrainOneMore(rs, k, origin, old(runs), runs);
      ExtendOneMore(rs[k].id, past, old(hist), hist);
    }

    /** Resumes the listed runs in order, up to and including the first that fails. */
    method ResumeEach(rs: seq<Run>) returns (out: Outcome, stopped: int)
      requires Valid() && DistinctIds(rs) && DrainedUpTo(rs, 0, runs)
      modifies this
      ensures Valid() && -1 <= stopped < |rs|
      ensures if stopped < 0 then out.Completed? else out.Errored? || out.Died?
      ensures stopped < 0 ==> DrainedUpTo(rs, |rs|, runs)
      ensures stopped >= 0 ==> DrainStopped(rs, stopped, runs)
      ensures SameOutside(Ids(rs), old(runs), runs) && AllExtend(old(hist), hist)
    {
      for k := 0 to |rs|
        invariant Valid() && DrainedUpTo(rs, k, runs)
        invariant SameOutside(Ids(rs), old(runs), runs) && AllExtend(old(hist), hist)
      {
        out := ResumeNext(rs, k, old(runs), old(hist));
        if out.Errored? || out.Died? {
          return out, k;
        }
      }
      return Completed, -1;
    }

    /** The record of a run of this flow that a restart has to resume. */
    ghost predicate InBacklog(r: Run, table: map<string, Run>) {
      r.id in table && table[r.id] == r && r.flow == c.flow && r.status in {RunRunning, RunFailed}
    }

    /** Resumes the backlog in start order and stops at the first run that fails. The listing
        itself can fail (stopped == -1 and an error). */
    method ResumePending() returns (out: Outcome, stopped: int, ghost backlog: seq<Run>, ghost skipped: set<string>)
      requires Valid()
      modifies this
      ensures Valid()
      ensures Sorted(RunBefore, backlog) && -1 <= stopped < |backlog|
      ensures out.Completed? || stopped >= 0 ==>
                forall r :: r in backlog <==> r.id !in skipped && InBacklog(r, old(runs))
      // Success: of this flow's runs exactly the unread ones are left pending.
      ensures out.Completed? ==>
                && stopped == -1
                && (forall x :: x in runs && InBacklog(runs[x], runs) <==>
                      x in skipped && x in old(runs) && InBacklog(old(runs)[x], old(runs)))
      // Failure: earlier runs are drained, later ones untouched.
      ensures stopped >= 0 ==> DrainStopped(backlog, stopped, runs)
      // Nothing else is touched, and no waiting run is resumed directly.
      ensures SameOutside(Ids(backlog), old(runs), runs)
      ensures AllExtend(old(hist), hist)
    {
      var listed: bool := *;
      if !listed {
        return Errored, -1, [], {};
      }
      var rs;
      rs, skipped := Pending();
      backlog := rs;
      out, stopped := ResumeEach(rs);
      if stopped < 0 {
        DrainIsExact(rs, skipped, old(runs), runs);
      }
    }

    lemma DrainIsExact(rs: seq<Run>, skipped: set<string>, before: map<string, Run>, after: map<string, Run>)
      requires forall x :: x in before ==> before[x].id == x
      requires forall x :: x in after ==> after[x].id == x
      requires forall r :: r in rs <==> r.id !in skipped && InBacklog(r, before)
      requires forall i :: 0 <= i < |rs| ==> rs[i].id !in after || after[rs[i].id].status in {RunDone, RunWaiting}
      requires SameOutside(Ids(rs), before, after)
      ensures forall x :: x in after && InBacklog(after[x], after) <==>
                x in skipped && x in before && InBacklog(before[x], before)
    {
      forall x | x in after && InBacklog(after[x], after)
        ensures x in skipped && x in before && InBacklog(before[x], before)
      {
        assert forall r :: r in rs ==> r.id in Ids(rs) && r.id != x;
        assert x in before && before[x] == after[x];
      }
    }

    /** Whatever happened to the flow's runs: a run stored as done carries the in-order
        composition over its original input. */
    lemma FinishedRunsAreExplained(id: string)
      requires Valid() && id in runs && runs[id].flow == c.flow && runs[id].status == RunDone
      ensures id in hist && Now(id).input.Some?
      ensures FlowRefinement.Explained(c, hist[id].events, Now(id).input.value, runs[id], |c.steps|)
    {
      FlowRefinement.CrashResumeRefinement(c, hist[id].events, hist[id].states);
    }
  }
}
