/** Where the answer of a delegation comes from (`agent/builtin.go`): for every interleaving, what
an execution came up with, reply, error or panic, is what its leader returns, what the leader's
waiters get, and what the cache holds. */
module DelegationAnswers {
  import opened Options
  import opened SingleFlight

  /** The leader is on its way out with this answer, or has returned it; a panic returns nothing. */
  ghost predicate Carries(th: Thread, body: Body) {
    match th
    case Storing(_, _, _, value) => body == Reply(value)
    case Finishing(_, _, _, b) => body == b
    case Returned(id, _, result, source) => source.Led? && !body.Nothing? && result == ToolResult(id, body)
    case Panicked(_, _, _) => body.Nothing?
    case _ => false
  }

  lemma CarriesStep(s: State, e: Event, t: nat, body: Body)
    requires Apply(s, e).Some? && t in s.threads && Carries(s.threads[t], body)
    ensures var s' := Apply(s, e).value;
            t in s'.threads && Carries(s'.threads[t], body) && s'.threads[t].key == s.threads[t].key
  {
    if e.t != t {
      assert Apply(s, e).value.threads[t] == s.threads[t];
    }
  }

  /** From its execution on, a leader carries exactly what the execution came up with. */
  lemma {:induction false} ExecutionIsKept(h: seq<Event>, ss: seq<State>, t: nat, body: Body, p: nat, q: nat)
    requires Behavior(h, ss) && p < q <= |h| && h[p] == Execute(t, body)
    ensures t in ss[p].threads && t in ss[q].threads
    ensures Carries(ss[q].threads[t], body) && ss[q].threads[t].key == ss[p].threads[t].key
  {
    assert StepAt(h, ss, q - 1);
    if p + 1 < q {
      ExecutionIsKept(h, ss, t, body, p, q - 1);
      CarriesStep(ss[q - 1], h[q - 1], t, body);
    }
  }

  lemma CarriedStep(s: State, e: Event, t: nat, body: Body)
    requires Apply(s, e).Some? && t in Apply(s, e).value.threads && Carries(Apply(s, e).value.threads[t], body)
    ensures e == Execute(t, body) || (t in s.threads && Carries(s.threads[t], body))
  {
    if e.t != t {
      assert Apply(s, e).value.threads[t] == s.threads[t];
    }
  }

  ghost predicate ExecutedBefore(h: seq<Event>, k: nat, t: nat, body: Body) {
    exists p: nat :: p < k && p < |h| && h[p] == Execute(t, body)
  }

  /** Whatever a leader carries, it has executed before. */
  lemma {:induction false} CarriedWasExecuted(h: seq<Event>, ss: seq<State>, t: nat, body: Body, k: nat)
    requires Behavior(h, ss) && k <= |h| && t in ss[k].threads && Carries(ss[k].threads[t], body)
    ensures ExecutedBefore(h, k, t, body)
  {
    if k > 0 {
      assert StepAt(h, ss, k - 1);
      CarriedStep(ss[k - 1], h[k - 1], t, body);
      if h[k - 1] != Execute(t, body) {
        CarriedWasExecuted(h, ss, t, body, k - 1);
        var p: nat :| p < k - 1 && p < |h| && h[p] == Execute(t, body);
        assert p < k;
      }
    }
  }

  /** A waiter that was not cancelled has, under its own id, what the execution of the leader of
      its record came up with: a reply, an error, or nothing after a panic. */
  lemma WaiterGetsTheExecution(h: seq<Event>, ss: seq<State>, k: nat, t: nat)
    requires Behavior(h, ss) && k <= |h| && t in ss[k].threads
    requires ss[k].threads[t].Returned? && ss[k].threads[t].source.Joined?
    ensures ss[k].threads[t].source.rec < |ss[k].records|
    ensures var leader := ss[k].records[ss[k].threads[t].source.rec].owner;
            && leader in ss[k].threads && ss[k].threads[leader].key == ss[k].threads[t].key
            && ss[k].threads[t].result.id == ss[k].threads[t].id
            && ExecutedBefore(h, k, leader, ss[k].threads[t].result.body)
  {
    WaiterGetsLeadersAnswer(h, ss, k, t);
    BehaviorKeepsInv(h, ss, k);
    assert ThreadOk(ss[k], ss[k].threads[t]);
    var rec := ss[k].threads[t].source.rec;
    OwnersReturned(h, ss, k, rec);
    var leader := ss[k].records[rec].owner;
    CarriedWasExecuted(h, ss, leader, ss[k].threads[t].result.body, k);
  }

  /** And the other way round: once a leader has executed, nobody who joined its record gets
      anything else. */
  lemma WaitersGetOnlyThat(h: seq<Event>, ss: seq<State>, k: nat, t: nat, p: nat, body: Body)
    requires Behavior(h, ss) && p < k <= |h| && t in ss[k].threads
    requires ss[k].threads[t].Returned? && ss[k].threads[t].source.Joined?
    requires ss[k].threads[t].source.rec < |ss[k].records|
    requires h[p] == Execute(ss[k].records[ss[k].threads[t].source.rec].owner, body)
    ensures ss[k].threads[t].result == ToolResult(ss[k].threads[t].id, body)
  {
    WaiterGetsLeadersAnswer(h, ss, k, t);
    BehaviorKeepsInv(h, ss, k);
    assert ThreadOk(ss[k], ss[k].threads[t]);
    ExecutionIsKept(h, ss, ss[k].records[ss[k].threads[t].source.rec].owner, body, p, k);
  }

  /** A call can always go on until it has returned: an execution may come up with anything, a
      store may succeed or fail, and a waiter can be cancelled, or return once its record is
      published. */
  lemma CallGoesOn(s: State, t: nat, readable: bool, body: Body)
    requires Inv(s) && t in s.threads
    ensures match s.threads[t]
            case Checking(_, _) => Apply(s, Check(t, readable)).Some?
            case Joining(_, _) => Apply(s, Join(t)).Some?
            case Executing(_, _, _) => Apply(s, Execute(t, body)).Some?
            case Storing(_, _, _, _) => Apply(s, Store(t, readable)).Some?
            case Finishing(_, _, _, _) => Apply(s, Finish(t)).Some?
            case Waiting(_, _, rec) =>
              && Apply(s, Cancel(t)).Some? && rec < |s.records|
              && (Apply(s, Wake(t)).Some? <==> s.records[rec].published.Some?)
            case Returned(_, _, _, _) => true
            case Panicked(_, _, _) => true
  {
    assert ThreadOk(s, s.threads[t]);
  }

  // ----- the cache -----

  /** Somebody stored `value` for the key at i, and nobody stored for it from then up to k. */
  ghost predicate LastStored(h: seq<Event>, ss: seq<State>, key: Key, value: string, i: nat, k: nat) {
    && i < k <= |h| && StoresAt(h, ss, key, i) && h[i].t in ss[i].threads
    && Carries(ss[i].threads[h[i].t], Reply(value))
    && forall j :: i < j < k ==> !StoresAt(h, ss, key, j)
  }

  /** The cache holds what was stored last for the key. */
  lemma {:induction false} CacheHoldsLastStored(h: seq<Event>, ss: seq<State>, key: Key, k: nat)
    requires Behavior(h, ss) && k <= |h| && key in ss[k].cache
    ensures exists i: nat :: LastStored(h, ss, key, ss[k].cache[key], i, k)
  {
    if k > 0 {
      assert StepAt(h, ss, k - 1);
      if StoresAt(h, ss, key, k - 1) {
        assert LastStored(h, ss, key, ss[k].cache[key], k - 1, k);
      } else {
        CacheHoldsLastStored(h, ss, key, k - 1);
        var i: nat :| LastStored(h, ss, key, ss[k - 1].cache[key], i, k - 1);
        assert LastStored(h, ss, key, ss[k].cache[key], i, k);
      }
    }
  }

  /** What is cached was executed, for the same key, by a call that stored it. */
  lemma CachedWasExecuted(h: seq<Event>, ss: seq<State>, key: Key, k: nat) returns (leader: nat)
    requires Behavior(h, ss) && k <= |h| && key in ss[k].cache
    ensures ExecutedBefore(h, k, leader, Reply(ss[k].cache[key]))
    ensures leader in ss[k].threads && ss[k].threads[leader].key == key
  {
    CacheHoldsLastStored(h, ss, key, k);
    var i: nat :| LastStored(h, ss, key, ss[k].cache[key], i, k);
    leader := h[i].t;
    CarriedWasExecuted(h, ss, leader, Reply(ss[k].cache[key]), i);
    var p: nat :| p < i && p < |h| && h[p] == Execute(leader, Reply(ss[k].cache[key]));
    ExecutionIsKept(h, ss, leader, Reply(ss[k].cache[key]), p, i);
    ExecutionIsKept(h, ss, leader, Reply(ss[k].cache[key]), p, k);
    assert p < k;
  }

  /** The leader t tried to store its reply at i; unless the write failed, it was cached then. */
  ghost predicate TriedToStore(h: seq<Event>, ss: seq<State>, t: nat, key: Key, value: string, i: nat) {
    && i < |h| && |ss| == |h| + 1 && h[i].Store? && h[i].t == t
    && (h[i].written ==> key in ss[i + 1].cache && ss[i + 1].cache[key] == value)
  }

  /** The leader is past the store. */
  ghost predicate LeavesWith(th: Thread, value: string) {
    Carries(th, Reply(value)) && !th.Storing?
  }

  /** No reply is returned or published before its leader has tried to store it. */
  lemma {:induction false} RepliesAreStoredFirst(h: seq<Event>, ss: seq<State>, t: nat, value: string, k: nat)
    requires Behavior(h, ss) && k <= |h| && t in ss[k].threads && LeavesWith(ss[k].threads[t], value)
    ensures exists i: nat :: i < k && TriedToStore(h, ss, t, ss[k].threads[t].key, value, i)
  {
    if k > 0 {
      assert StepAt(h, ss, k - 1);
      LeavesStep(ss[k - 1], h[k - 1], t, value);
      var key := ss[k].threads[t].key;
      if h[k - 1].Store? && h[k - 1].t == t {
        assert TriedToStore(h, ss, t, key, value, k - 1);
      } else {
        RepliesAreStoredFirst(h, ss, t, value, k - 1);
        var i: nat :| i < k - 1 && TriedToStore(h, ss, t, key, value, i);
        assert i < k;
      }
    }
  }

  lemma LeavesStep(s: State, e: Event, t: nat, value: string)
    requires Apply(s, e).Some? && t in Apply(s, e).value.threads && LeavesWith(Apply(s, e).value.threads[t], value)
    ensures t in s.threads && s.threads[t].key == Apply(s, e).value.threads[t].key
    ensures if e.Store? && e.t == t then Carries(s.threads[t], Reply(value)) else LeavesWith(s.threads[t], value)
    ensures e.Store? && e.t == t && e.written ==> Apply(s, e).value.cache == s.cache[s.threads[t].key := value]
  {
    if e.t != t {
      assert Apply(s, e).value.threads[t] == s.threads[t];
    }
  }

  // ----- every answer -----

  /** What a step that makes a call return says about the answer. */
  lemma ReturnedStep(s: State, e: Event, t: nat)
    requires Apply(s, e).Some? && t in Apply(s, e).value.threads && Apply(s, e).value.threads[t].Returned?
    ensures var th := Apply(s, e).value.threads[t];
            || (t in s.threads && s.threads[t] == th)
            || match th.source
               case Cached => e == Check(t, true) && th.key in s.cache && th.result.body == Reply(s.cache[th.key])
               case Led(_) => e == Finish(t) && Carries(th, th.result.body)
               case Joined(_) => e == Wake(t)
               case Cancelled => e == Cancel(t) && th.result.body == Failure("context canceled")
  {
    if e.t != t {
      assert Apply(s, e).value.threads[t] == s.threads[t];
    }
  }

  /** The call t read its answer from the cache at c. */
  ghost predicate ReadAt(h: seq<Event>, ss: seq<State>, t: nat, key: Key, body: Body, c: nat) {
    c < |h| && c < |ss| && h[c] == Check(t, true) && key in ss[c].cache && body == Reply(ss[c].cache[key])
  }

  lemma {:induction false} CachedAnswer(h: seq<Event>, ss: seq<State>, t: nat, k: nat)
    requires Behavior(h, ss) && k <= |h| && t in ss[k].threads
    requires ss[k].threads[t].Returned? && ss[k].threads[t].source == Cached
    ensures exists c: nat :: c < k && ReadAt(h, ss, t, ss[k].threads[t].key, ss[k].threads[t].result.body, c)
  {
    if k > 0 {
      assert StepAt(h, ss, k - 1);
      ReturnedStep(ss[k - 1], h[k - 1], t);
      if t in ss[k - 1].threads && ss[k - 1].threads[t] == ss[k].threads[t] {
        CachedAnswer(h, ss, t, k - 1);
        var th := ss[k].threads[t];
        var c: nat :| c < k - 1 && ReadAt(h, ss, t, th.key, th.result.body, c);
        assert c < k;
      } else {
        assert ReadAt(h, ss, t, ss[k].threads[t].key, ss[k].threads[t].result.body, k - 1);
      }
    }
  }

  lemma {:induction false} CancelledAnswer(h: seq<Event>, ss: seq<State>, t: nat, k: nat)
    requires Behavior(h, ss) && k <= |h| && t in ss[k].threads
    requires ss[k].threads[t].Returned? && ss[k].threads[t].source == Cancelled
    ensures Cancel(t) in h[..k] && ss[k].threads[t].result.body == Failure("context canceled")
  {
    if k > 0 {
      assert StepAt(h, ss, k - 1);
      ReturnedStep(ss[k - 1], h[k - 1], t);
      assert h[..k] == h[..k - 1] + [h[k - 1]];
      if t in ss[k - 1].threads && ss[k - 1].threads[t] == ss[k].threads[t] {
        CancelledAnswer(h, ss, t, k - 1);
      } else {
        assert h[k - 1] == Cancel(t);
      }
    }
  }

  /** Every answer, of every call: it carries the id of the call, and is the execution of the call
      itself as leader, that of the leader it waited for, what the cache held when it checked, or
      its own cancellation. */
  lemma AnswerComesFrom(h: seq<Event>, ss: seq<State>, t: nat, k: nat)
    requires Behavior(h, ss) && k <= |h| && t in ss[k].threads && ss[k].threads[t].Returned?
    ensures var th := ss[k].threads[t];
            && th.result.id == th.id
            && match th.source
               case Led(_) => !th.result.body.Nothing? && ExecutedBefore(h, k, t, th.result.body)
               case Joined(rec) =>
                 && rec < |ss[k].records| && ss[k].records[rec].key == th.key
                 && ExecutedBefore(h, k, ss[k].records[rec].owner, th.result.body)
               case Cached => exists c: nat :: c < k && ReadAt(h, ss, t, th.key, th.result.body, c)
               case Cancelled => Cancel(t) in h && th.result.body == Failure("context canceled")
  {
    BehaviorKeepsInv(h, ss, k);
    assert ThreadOk(ss[k], ss[k].threads[t]);
    match ss[k].threads[t].source {
      case Led(rec) =>
        OwnersReturned(h, ss, k, rec);
        LeaderCarries(h, ss, t, k);
        CarriedWasExecuted(h, ss, t, ss[k].threads[t].result.body, k);
      case Joined(_) => WaiterGetsTheExecution(h, ss, k, t);
      case Cached => CachedAnswer(h, ss, t, k);
      case Cancelled =>
        CancelledAnswer(h, ss, t, k);
        assert forall e :: e in h[..k] ==> e in h;
    }
  }

  lemma {:induction false} LeaderCarries(h: seq<Event>, ss: seq<State>, t: nat, k: nat)
    requires Behavior(h, ss) && k <= |h| && t in ss[k].threads
    requires ss[k].threads[t].Returned? && ss[k].threads[t].source.Led?
    ensures Carries(ss[k].threads[t], ss[k].threads[t].result.body)
  {
    if k > 0 {
      assert StepAt(h, ss, k - 1);
      ReturnedStep(ss[k - 1], h[k - 1], t);
      if t in ss[k - 1].threads && ss[k - 1].threads[t] == ss[k].threads[t] {
        LeaderCarries(h, ss, t, k - 1);
      }
    }
  }
}
