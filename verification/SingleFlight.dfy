/** The delegate single-flight protocol of `agent/builtin.go` (handleDelegate,
joinDelegateCall, finishDelegateCall and the durable result cache): any number of calls,
each a program counter, interleaved at the granularity of lock sections, store accesses
and channel operations. */
module SingleFlight {
  import opened Options

  type Key = string

  /** What a delegation answers, without the id of the call it answers. */
  datatype Body = Reply(value: string) | Failure(error: string) | Nothing

  datatype ToolResult = ToolResult(id: string, body: Body)

  /** An in-flight record: done channel and result. `owner` is the call that created it. */
  datatype Record = Record(key: Key, owner: nat, published: Option<ToolResult>)

  datatype Source = Cached | Led(rec: nat) | Joined(rec: nat) | Cancelled

  datatype Thread =
    | Checking(id: string, key: Key)                          // about to read the cache
    | Joining(id: string, key: Key)                           // the cache missed, about to lock
    | Executing(id: string, key: Key, rec: nat)               // leader, running the subtask
    | Storing(id: string, key: Key, rec: nat, value: string)  // leader, about to write the cache
    | Finishing(id: string, key: Key, rec: nat, body: Body)   // leader, about to publish
    | Waiting(id: string, key: Key, rec: nat)                 // blocked on another call's record
    | Returned(id: string, key: Key, result: ToolResult, source: Source)
    | Panicked(id: string, key: Key, rec: nat)                // leader whose subtask panicked: it returns nothing

  datatype State = State(
    threads: map<nat, Thread>,
    inflight: map<Key, nat>,
    records: seq<Record>,
    cache: map<Key, string>,
    produced: seq<(Key, string)>) // every value an execution has come up with

  datatype Event =
    | Call(t: nat, id: string, key: Key)
    | Check(t: nat, readable: bool)        // an unreadable cache entry counts as a miss
    | Join(t: nat)
    | Execute(t: nat, body: Body)          // Nothing: the subtask panicked
    | Store(t: nat, written: bool)         // a failed cache write is ignored
    | Finish(t: nat)
    | Wake(t: nat)
    | Cancel(t: nat)

  const Initial := State(map[], map[], [], map[], [])

  predicate IsLeader(th: Thread) {
    th.Executing? || th.Storing? || th.Finishing?
  }

  function WithId(r: ToolResult, id: string): ToolResult {
    r.(id := id)
  }

  function Set(s: State, t: nat, th: Thread): State {
    s.(threads := s.threads[t := th])
  }

  function JoinCall(s: State, t: nat, id: string, key: Key): State {
    if key in s.inflight then Set(s, t, Waiting(id, key, s.inflight[key]))
    else
      var rec := |s.records|;
      Set(s, t, Executing(id, key, rec)).(
        records := s.records + [Record(key, t, None)],
        inflight := s.inflight[key := rec])
  }

  /** What a leader publishes; after a panic it is the zero result. */
  function Published(id: string, body: Body): ToolResult {
    if body.Nothing? then ToolResult("", Nothing) else ToolResult(id, body)
  }

  function Left(id: string, key: Key, rec: nat, body: Body): Thread {
    if body.Nothing? then Panicked(id, key, rec) else Returned(id, key, ToolResult(id, body), Led(rec))
  }

  /** Publishes under the lock: the record is the one registered for the key, if any. */
  function FinishCall(s: State, t: nat, id: string, key: Key, rec: nat, body: Body): State {
    var r := Published(id, body);
    var s' := Set(s, t, Left(id, key, rec, body));
    if key in s.inflight && s.inflight[key] < |s.records| then
      var i := s.inflight[key];
      s'.(records := s.records[i := s.records[i].(published := Some(r))], inflight := s.inflight - {key})
    else s'
  }

  function Apply(s: State, e: Event): Option<State> {
    if e.Call? then
      if e.t in s.threads then None else Some(Set(s, e.t, Checking(e.id, e.key)))
    else if e.t !in s.threads then None
    else
      match (e, s.threads[e.t])
      case (Check(t, readable), Checking(id, key)) =>
        if readable && key in s.cache then
          Some(Set(s, t, Returned(id, key, ToolResult(id, Reply(s.cache[key])), Cached)))
        else Some(Set(s, t, Joining(id, key)))
      case (Join(t), Joining(id, key)) => Some(JoinCall(s, t, id, key))
      case (Execute(t, body), Executing(id, key, rec)) =>
        if body.Reply? then
          Some(Set(s, t, Storing(id, key, rec, body.value)).(produced := s.produced + [(key, body.value)]))
        else Some(Set(s, t, Finishing(id, key, rec, body)))
      case (Store(t, written), Storing(id, key, rec, value)) =>
        var s' := Set(s, t, Finishing(id, key, rec, Reply(value)));
        Some(if written then s'.(cache := s.cache[key := value]) else s')
      case (Finish(t), Finishing(id, key, rec, body)) => Some(FinishCall(s, t, id, key, rec, body))
      case (Wake(t), Waiting(id, key, rec)) =>
        if rec < |s.records| && s.records[rec].published.Some? then
          Some(Set(s, t, Returned(id, key, WithId(s.records[rec].published.value, id), Joined(rec))))
        else None
      case (Cancel(t), Waiting(id, key, rec)) =>
        Some(Set(s, t, Returned(id, key, ToolResult(id, Failure("context canceled")), Cancelled)))
      case _ => None
  }

  ghost predicate Behavior(h: seq<Event>, ss: seq<State>) {
    && |ss| == |h| + 1
    && ss[0] == Initial
    && (forall i: nat :: i < |h| ==> StepAt(h, ss, i))
  }

  /** The i-th event leads from the i-th state to the next. */
  ghost predicate StepAt(h: seq<Event>, ss: seq<State>, i: nat) {
    i < |h| && i + 1 < |ss| && Apply(ss[i], h[i]) == Some(ss[i + 1])
  }

  // ----- the invariant -----

  /** Thread t leads the registered, unpublished record of its key, which it owns. */
  ghost predicate LeaderOk(s: State, t: nat) {
    t in s.threads && IsLeader(s.threads[t]) ==>
      var th := s.threads[t];
      && th.key in s.inflight && s.inflight[th.key] == th.rec < |s.records|
      && s.records[th.rec].owner == t
  }

  /** An unpublished record is registered for its key and owned by a live leader. */
  ghost predicate RecordOk(s: State, r: nat) {
    r < |s.records| && s.records[r].published.None? ==>
      var rec := s.records[r];
      && rec.key in s.inflight && s.inflight[rec.key] == r
      && rec.owner in s.threads && IsLeader(s.threads[rec.owner])
      && s.threads[rec.owner].key == rec.key && s.threads[rec.owner].rec == r
  }

  ghost predicate InflightOk(s: State, k: Key) {
    k in s.inflight ==>
      && s.inflight[k] < |s.records|
      && s.records[s.inflight[k]].key == k
      && s.records[s.inflight[k]].published.None?
  }

  ghost predicate Produced(s: State, k: Key, b: Body) {
    b.Reply? ==> (k, b.value) in s.produced
  }

  /** Waiters point at a record of their key; answers carry the caller's id and only report
      values that an execution for the same key has produced. */
  ghost predicate ThreadOk(s: State, th: Thread) {
    match th
    case Waiting(_, key, rec) => rec < |s.records| && s.records[rec].key == key
    case Storing(_, key, _, value) => Produced(s, key, Reply(value))
    case Finishing(_, key, _, body) => Produced(s, key, body)
    case Returned(id, key, result, source) =>
      && result.id == id
      && Produced(s, key, result.body)
      && (source.Joined? || source.Led? ==>
            && source.rec < |s.records|
            && s.records[source.rec].key == key
            && s.records[source.rec].published.Some?
            && result == WithId(s.records[source.rec].published.value, id))
    case _ => true
  }

  ghost predicate ValuesOk(s: State) {
    && (forall k :: k in s.cache ==> Produced(s, k, Reply(s.cache[k])))
    && (forall r :: 0 <= r < |s.records| && s.records[r].published.Some? ==>
          Produced(s, s.records[r].key, s.records[r].published.value.body))
  }

  ghost predicate Inv(s: State) {
    && (forall t :: t in s.threads ==> LeaderOk(s, t))
    && (forall r :: 0 <= r < |s.records| ==> RecordOk(s, r))
    && (forall k :: k in s.inflight ==> InflightOk(s, k))
    && (forall t :: t in s.threads ==> ThreadOk(s, s.threads[t]))
    && ValuesOk(s)
  }

  /** A step of a thread that neither is nor becomes a leader and touches nothing shared. */
  lemma PrivateStep(s: State, t: nat, th: Thread)
    requires Inv(s) && (t in s.threads ==> !IsLeader(s.threads[t])) && !IsLeader(th) && ThreadOk(s, th)
    ensures Inv(Set(s, t, th))
  {
    var s' := Set(s, t, th);
    forall u | u in s'.threads ensures LeaderOk(s', u) && ThreadOk(s', s'.threads[u]) {
      if u != t { assert LeaderOk(s, u) && ThreadOk(s, s.threads[u]); }
    }
    forall r | 0 <= r < |s'.records| ensures RecordOk(s', r) {
      assert RecordOk(s, r);
    }
    forall k | k in s'.inflight ensures InflightOk(s', k) {
      assert InflightOk(s, k);
    }
  }

  lemma LeadStep(s: State, t: nat, id: string, key: Key)
    requires Inv(s) && t in s.threads && s.threads[t] == Joining(id, key) && key !in s.inflight
    ensures Inv(JoinCall(s, t, id, key))
  {
    var s' := JoinCall(s, t, id, key);
    forall u | u in s'.threads ensures LeaderOk(s', u) && ThreadOk(s', s'.threads[u]) {
      if u != t { assert LeaderOk(s, u) && ThreadOk(s, s.threads[u]); }
    }
    forall r | 0 <= r < |s'.records| ensures RecordOk(s', r) {
      if r < |s.records| { assert RecordOk(s, r); }
    }
    forall k | k in s'.inflight ensures InflightOk(s', k) {
      if k != key { assert InflightOk(s, k); }
    }
  }

  /** A leader that stays the leader of its record, possibly adding to what is stored. */
  lemma LeaderStays(s: State, t: nat, th: Thread, cache: map<Key, string>, produced: seq<(Key, string)>)
    requires Inv(s) && t in s.threads && IsLeader(s.threads[t]) && IsLeader(th)
    requires th.key == s.threads[t].key && th.rec == s.threads[t].rec
    requires s.produced <= produced
    requires var s' := Set(s, t, th).(cache := cache, produced := produced);
             ThreadOk(s', th) && forall k :: k in cache ==> Produced(s', k, Reply(cache[k]))
    ensures Inv(Set(s, t, th).(cache := cache, produced := produced))
  {
    var s' := Set(s, t, th).(cache := cache, produced := produced);
    assert LeaderOk(s, t);
    forall u | u in s'.threads ensures LeaderOk(s', u) && ThreadOk(s', s'.threads[u]) {
      if u != t { assert LeaderOk(s, u) && ThreadOk(s, s.threads[u]); }
    }
    forall r | 0 <= r < |s'.records| ensures RecordOk(s', r) {
      assert RecordOk(s, r);
    }
    forall k | k in s'.inflight ensures InflightOk(s', k) {
      assert InflightOk(s, k);
    }
  }

  /** The record a leader publishes is the one it created. */
  lemma FinishStep(s: State, t: nat)
    requires Inv(s) && t in s.threads && s.threads[t].Finishing?
    ensures var th := s.threads[t];
            var s' := FinishCall(s, t, th.id, th.key, th.rec, th.body);
            && th.rec < |s.records| == |s'.records|
            && s'.records == s.records[th.rec := s.records[th.rec].(published := Some(Published(th.id, th.body)))]
            && s'.inflight == s.inflight - {th.key}
            && s'.cache == s.cache && s'.produced == s.produced
            && s'.threads == s.threads[t := Left(th.id, th.key, th.rec, th.body)]
            && s.records[th.rec].key == th.key
  {
    assert LeaderOk(s, t);
    assert InflightOk(s, s.threads[t].key);
  }

  lemma FinishKeepsInv(s: State, t: nat)
    requires Inv(s) && t in s.threads && s.threads[t].Finishing?
    ensures var th := s.threads[t]; Inv(FinishCall(s, t, th.id, th.key, th.rec, th.body))
  {
    FinishStep(s, t);
    var th := s.threads[t];
    var s' := FinishCall(s, t, th.id, th.key, th.rec, th.body);
    assert ThreadOk(s, th);
    forall u | u in s'.threads ensures LeaderOk(s', u) {
      if u != t { assert LeaderOk(s, u) && LeaderOk(s, t); }
    }
    forall u | u in s'.threads ensures ThreadOk(s', s'.threads[u]) {
      if u != t {
        assert ThreadOk(s, s.threads[u]);
        assert RecordOk(s, th.rec) && LeaderOk(s, t) && InflightOk(s, th.key);
      }
    }
    forall r | 0 <= r < |s'.records| ensures RecordOk(s', r) {
      if r != th.rec { assert RecordOk(s, r) && LeaderOk(s, t); }
    }
    forall k | k in s'.inflight ensures InflightOk(s', k) {
      assert InflightOk(s, k) && InflightOk(s, th.key);
    }
  }

  lemma ApplyKeepsInv(s: State, e: Event)
    requires Inv(s) && Apply(s, e).Some?
    ensures Inv(Apply(s, e).value)
  {
    match e
    case Call(t, id, key) => PrivateStep(s, t, Checking(id, key));
    case Check(t, _) => assert ThreadOk(s, s.threads[t]); PrivateStep(s, t, Apply(s, e).value.threads[t]);
    case Wake(t) => assert ThreadOk(s, s.threads[t]); PrivateStep(s, t, Apply(s, e).value.threads[t]);
    case Cancel(t) => PrivateStep(s, t, Apply(s, e).value.threads[t]);
    case Finish(t) => FinishKeepsInv(s, t);
    case Execute(t, body) =>
      var th := s.threads[t];
      if body.Reply? {
        LeaderStays(s, t, Storing(th.id, th.key, th.rec, body.value), s.cache, s.produced + [(th.key, body.value)]);
      } else {
        LeaderStays(s, t, Finishing(th.id, th.key, th.rec, body), s.cache, s.produced);
      }
    case Store(t, written) =>
      var th := s.threads[t];
      assert ThreadOk(s, th);
      LeaderStays(s, t, Finishing(th.id, th.key, th.rec, Reply(th.value)),
                  if written then s.cache[th.key := th.value] else s.cache, s.produced);
    case Join(t) =>
      var th := s.threads[t];
      if th.key in s.inflight {
        assert InflightOk(s, th.key);
        PrivateStep(s, t, Waiting(th.id, th.key, s.inflight[th.key]));
      } else {
        LeadStep(s, t, th.id, th.key);
      }
  }

  lemma {:induction false} BehaviorKeepsInv(h: seq<Event>, ss: seq<State>, k: nat)
    requires Behavior(h, ss) && k <= |h|
    ensures Inv(ss[k])
  {
    if k > 0 {
      BehaviorKeepsInv(h, ss, k - 1);
      assert StepAt(h, ss, k - 1);
      ApplyKeepsInv(ss[k - 1], h[k - 1]);
    }
  }

  // ----- the theorems, for every interleaving -----

  /** Executions for one key never overlap. */
  lemma NoOverlap(h: seq<Event>, ss: seq<State>, k: nat, t: nat, u: nat)
    requires Behavior(h, ss) && k <= |h|
    requires t in ss[k].threads && u in ss[k].threads && IsLeader(ss[k].threads[t]) && IsLeader(ss[k].threads[u])
    requires ss[k].threads[t].key == ss[k].threads[u].key
    ensures t == u
  {
    BehaviorKeepsInv(h, ss, k);
    assert LeaderOk(ss[k], t) && LeaderOk(ss[k], u);
  }

  /** An in-flight entry exists exactly while a live leader owns it. */
  lemma InflightIffLeader(h: seq<Event>, ss: seq<State>, k: nat, key: Key)
    requires Behavior(h, ss) && k <= |h|
    ensures key in ss[k].inflight <==>
            exists t :: t in ss[k].threads && IsLeader(ss[k].threads[t]) && ss[k].threads[t].key == key
  {
    BehaviorKeepsInv(h, ss, k);
    var s := ss[k];
    if key in s.inflight {
      assert InflightOk(s, key);
      assert RecordOk(s, s.inflight[key]);
      var owner := s.records[s.inflight[key]].owner;
      assert owner in s.threads && IsLeader(s.threads[owner]) && s.threads[owner].key == key;
    }
    forall t | t in s.threads && IsLeader(s.threads[t]) && s.threads[t].key == key ensures key in s.inflight {
      assert LeaderOk(s, t);
    }
  }

  /** No waiter is stuck: its record is published, and then it can return the leader's answer
      under its own id, or a live leader still owns the record and can take a step. */
  lemma NoStuckWaiter(h: seq<Event>, ss: seq<State>, k: nat, t: nat)
    requires Behavior(h, ss) && k <= |h| && t in ss[k].threads && ss[k].threads[t].Waiting?
    ensures var s, th := ss[k], ss[k].threads[t];
            && th.rec < |s.records| && s.records[th.rec].key == th.key
            && (if s.records[th.rec].published.Some? then
                  Apply(s, Wake(t)) == Some(Set(s, t, Returned(th.id, th.key,
                    WithId(s.records[th.rec].published.value, th.id), Joined(th.rec))))
                else
                  var owner := s.records[th.rec].owner;
                  && owner in s.threads && IsLeader(s.threads[owner]) && s.threads[owner].rec == th.rec
                  && (exists e: Event :: e.t == owner && Apply(s, e).Some?))
  {
    BehaviorKeepsInv(h, ss, k);
    var s := ss[k];
    var th := s.threads[t];
    assert ThreadOk(s, th);
    if s.records[th.rec].published.None? {
      assert RecordOk(s, th.rec);
      var owner := s.records[th.rec].owner;
      var e := match s.threads[owner]
        case Executing(_, _, _) => Execute(owner, Nothing)
        case Storing(_, _, _, _) => Store(owner, true)
        case _ => Finish(owner);
      assert e.t == owner && Apply(s, e).Some?;
    }
  }

  /** A published record never changes again. */
  lemma {:induction false} PublishedStays(h: seq<Event>, ss: seq<State>, p: nat, q: nat, r: nat)
    requires Behavior(h, ss) && p <= q <= |h| && r < |ss[p].records| && ss[p].records[r].published.Some?
    ensures r < |ss[q].records| && ss[q].records[r] == ss[p].records[r]
  {
    if p < q {
      PublishedStays(h, ss, p, q - 1, r);
      BehaviorKeepsInv(h, ss, q - 1);
      var s, e := ss[q - 1], h[q - 1];
      assert StepAt(h, ss, q - 1);
      if e.Finish? {
        FinishStep(s, e.t);
        assert LeaderOk(s, e.t) && InflightOk(s, s.threads[e.t].key);
      }
    }
  }

  /** Whoever owns a published record has returned it, as its leader, or has panicked. */
  ghost predicate OwnerReturned(s: State, r: nat) {
    r < |s.records| && s.records[r].published.Some? ==>
      var owner, result := s.records[r].owner, s.records[r].published.value;
      && owner in s.threads
      && if result.body.Nothing? then s.threads[owner] == Panicked(s.threads[owner].id, s.records[r].key, r)
         else s.threads[owner] == Returned(result.id, s.records[r].key, result, Led(r))
  }

  lemma OwnerReturnedStep(s: State, e: Event, r: nat)
    requires Inv(s) && Apply(s, e).Some? && OwnerReturned(s, r)
    ensures OwnerReturned(Apply(s, e).value, r)
  {
    var s' := Apply(s, e).value;
    if e.Finish? {
      FinishStep(s, e.t);
      assert LeaderOk(s, e.t);
    }
  }

  lemma {:induction false} OwnersReturned(h: seq<Event>, ss: seq<State>, k: nat, r: nat)
    requires Behavior(h, ss) && k <= |h|
    ensures OwnerReturned(ss[k], r)
  {
    if k > 0 {
      OwnersReturned(h, ss, k - 1, r);
      BehaviorKeepsInv(h, ss, k - 1);
      assert StepAt(h, ss, k - 1);
      OwnerReturnedStep(ss[k - 1], h[k - 1], r);
    }
  }

  /** A waiter that returned without cancellation has, under its own id, the very answer of the
      leader of its record: the owner of the record has returned it, for the same key. It has an
      empty answer exactly if that leader panicked. */
  lemma WaiterGetsLeadersAnswer(h: seq<Event>, ss: seq<State>, k: nat, t: nat)
    requires Behavior(h, ss) && k <= |h| && t in ss[k].threads
    requires ss[k].threads[t].Returned? && ss[k].threads[t].source.Joined?
    ensures var s, th := ss[k], ss[k].threads[t];
            && th.source.rec < |s.records|
            && var leader := s.records[th.source.rec].owner;
            && leader in s.threads
            && s.threads[leader].key == th.key
            && if th.result.body.Nothing? then
                 s.threads[leader].Panicked? && s.threads[leader].rec == th.source.rec
               else
                 && s.threads[leader].Returned? && s.threads[leader].source == Led(th.source.rec)
                 && th.result == WithId(s.threads[leader].result, th.id)
  {
    BehaviorKeepsInv(h, ss, k);
    assert ThreadOk(ss[k], ss[k].threads[t]);
    OwnersReturned(h, ss, k, ss[k].threads[t].source.rec);
  }

  /** Every reply a call returns was produced by an execution for the same key. */
  lemma RepliesAreProduced(h: seq<Event>, ss: seq<State>, k: nat, t: nat)
    requires Behavior(h, ss) && k <= |h| && t in ss[k].threads
    requires ss[k].threads[t].Returned? && ss[k].threads[t].result.body.Reply?
    ensures (ss[k].threads[t].key, ss[k].threads[t].result.body.value) in ss[k].produced
  {
    BehaviorKeepsInv(h, ss, k);
    assert ThreadOk(ss[k], ss[k].threads[t]);
  }

  /** The call t for `key` has not gone past the cache, and the cache has an answer. */
  ghost predicate AtCache(s: State, t: nat, key: Key) {
    && key in s.cache && t in s.threads && s.threads[t].key == key
    && (s.threads[t].Checking? || (s.threads[t].Returned? && s.threads[t].source == Cached))
  }

  lemma AtCacheStays(s: State, e: Event, t: nat, key: Key)
    requires AtCache(s, t, key) && Apply(s, e).Some? && e != Check(t, false)
    ensures AtCache(Apply(s, e).value, t, key)
  {
    var s' := Apply(s, e).value;
    if e.t != t {
      assert s'.threads[t] == s.threads[t];
    }
  }

  /** A call that starts after a result was stored, and can read the cache, never executes:
      at any later time it is still checking or has returned a cached answer. */
  lemma {:induction false} StoredMeansNeverExecuted(h: seq<Event>, ss: seq<State>, p: nat, q: nat)
    requires Behavior(h, ss) && p < q <= |h| && h[p].Call? && h[p].key in ss[p].cache
    requires Check(h[p].t, false) !in h
    ensures AtCache(ss[q], h[p].t, h[p].key)
  {
    assert StepAt(h, ss, q - 1);
    if p + 1 < q {
      StoredMeansNeverExecuted(h, ss, p, q - 1);
      AtCacheStays(ss[q - 1], h[q - 1], h[p].t, h[p].key);
    }
  }

  // ----- exactly when a call executes -----

  ghost predicate Executes(ss: seq<State>, t: nat) {
    exists k :: 0 <= k < |ss| && t in ss[k].threads && ss[k].threads[t].Executing?
  }

  /** The call t joins at j and finds nobody in flight for its key. */
  ghost predicate LeadsAt(h: seq<Event>, ss: seq<State>, t: nat, key: Key, j: nat) {
    j < |h| && |ss| == |h| + 1 && h[j] == Join(t) && key !in ss[j].inflight
  }

  lemma CheckedStep(s: State, e: Event, t: nat)
    requires Apply(s, e).Some? && t in s.threads && !s.threads[t].Checking?
    ensures var s' := Apply(s, e).value;
            && t in s'.threads && !s'.threads[t].Checking? && s'.threads[t].key == s.threads[t].key
            && (s.threads[t].Returned? ==> s'.threads[t] == s.threads[t])
  {
    if e.t != t {
      assert Apply(s, e).value.threads[t] == s.threads[t];
    }
  }

  lemma ExecutingStep(s: State, e: Event, t: nat)
    requires Apply(s, e).Some? && t in Apply(s, e).value.threads && Apply(s, e).value.threads[t].Executing?
    ensures t in s.threads && s.threads[t].key == Apply(s, e).value.threads[t].key
    ensures !s.threads[t].Executing? ==> e == Join(t) && s.threads[t].Joining? && s.threads[t].key !in s.inflight
  {
    if e.t != t {
      assert Apply(s, e).value.threads[t] == s.threads[t];
    }
  }

  /** Past the cache check: a call never comes back to it. */
  lemma {:induction false} CheckedStays(h: seq<Event>, ss: seq<State>, t: nat, p: nat, q: nat)
    requires Behavior(h, ss) && p <= q <= |h| && t in ss[p].threads && !ss[p].threads[t].Checking?
    ensures t in ss[q].threads && !ss[q].threads[t].Checking? && ss[q].threads[t].key == ss[p].threads[t].key
    ensures ss[p].threads[t].Returned? ==> ss[q].threads[t] == ss[p].threads[t]
  {
    if p < q {
      CheckedStays(h, ss, t, p, q - 1);
      assert StepAt(h, ss, q - 1);
      CheckedStep(ss[q - 1], h[q - 1], t);
    }
  }

  /** An executing call has joined before, as the only one for its key. */
  lemma {:induction false} ExecutingLed(h: seq<Event>, ss: seq<State>, t: nat, k: nat) returns (j: nat)
    requires Behavior(h, ss) && k <= |h| && t in ss[k].threads && ss[k].threads[t].Executing?
    ensures j < k && LeadsAt(h, ss, t, ss[k].threads[t].key, j)
    ensures t in ss[j].threads && ss[j].threads[t].Joining?
  {
    assert StepAt(h, ss, k - 1);
    ExecutingStep(ss[k - 1], h[k - 1], t);
    if ss[k - 1].threads[t].Executing? {
      j := ExecutingLed(h, ss, t, k - 1);
    } else {
      j := k - 1;
    }
  }

  /** A call whose cache check is at c executes if and only if the check found no readable entry
      and the call then joined with nobody in flight for its key. */
  lemma ExecutesIff(h: seq<Event>, ss: seq<State>, t: nat, c: nat)
    requires Behavior(h, ss) && c < |h| && h[c].Check? && h[c].t == t
    ensures t in ss[c].threads
    ensures var key := ss[c].threads[t].key;
            Executes(ss, t) <==>
              && !(h[c].readable && key in ss[c].cache)
              && exists j: nat :: c < j && LeadsAt(h, ss, t, key, j)
  {
    assert StepAt(h, ss, c);
    var key := ss[c].threads[t].key;
    if Executes(ss, t) {
      var k: nat :| k < |ss| && t in ss[k].threads && ss[k].threads[t].Executing?;
      var j := ExecutingLed(h, ss, t, k);
      JoinComesAfterCheck(h, ss, t, c, j);
      CheckedStays(h, ss, t, c + 1, k);
    }
    forall j: nat | c < j && LeadsAt(h, ss, t, key, j) ensures Executes(ss, t) {
      CheckedStays(h, ss, t, c + 1, j);
      assert StepAt(h, ss, j);
      assert ss[j + 1].threads[t].Executing?;
    }
  }

  lemma JoinComesAfterCheck(h: seq<Event>, ss: seq<State>, t: nat, c: nat, j: nat)
    requires Behavior(h, ss) && c < |h| && j < |h| && t in ss[c].threads && ss[c].threads[t].Checking?
    requires t in ss[j].threads && ss[j].threads[t].Joining?
    ensures c < j
  {
    if j <= c {
      CheckedStays(h, ss, t, j, c);
    }
  }

  /** Somebody stored a result for the key between c and j. */
  ghost predicate StoredBetween(h: seq<Event>, ss: seq<State>, key: Key, c: nat, j: nat) {
    exists i :: c <= i < j && StoresAt(h, ss, key, i)
  }

  ghost predicate StoresAt(h: seq<Event>, ss: seq<State>, key: Key, i: int) {
    && 0 <= i < |h| && |ss| == |h| + 1 && h[i].Store? && h[i].written
    && h[i].t in ss[i].threads && ss[i].threads[h[i].t].key == key
  }

  lemma {:induction false} CacheGrowsByStores(h: seq<Event>, ss: seq<State>, key: Key, c: nat, j: nat)
    requires Behavior(h, ss) && c <= j <= |h|
    ensures key in ss[j].cache <==> key in ss[c].cache || StoredBetween(h, ss, key, c, j)
  {
    if c < j {
      CacheGrowsByStores(h, ss, key, c, j - 1);
      assert StepAt(h, ss, j - 1);
      assert StoredBetween(h, ss, key, c, j) <==> StoredBetween(h, ss, key, c, j - 1) || StoresAt(h, ss, key, j - 1);
    }
  }

  /** A call that checks at c and starts to execute at j does so although a result is stored, if
      and only if the result was stored between the two, or was there and unreadable at c. */
  lemma ExecutesAlthoughStoredIff(h: seq<Event>, ss: seq<State>, t: nat, c: nat, j: nat)
    requires Behavior(h, ss) && c < j < |h| && h[c].Check? && h[c].t == t
    requires t in ss[c].threads && LeadsAt(h, ss, t, ss[c].threads[t].key, j)
    ensures t in ss[j + 1].threads && ss[j + 1].threads[t].Executing?
    ensures var key := ss[c].threads[t].key;
            key in ss[j].cache <==> (StoredBetween(h, ss, key, c + 1, j) || (!h[c].readable && key in ss[c].cache))
  {
    var key := ss[c].threads[t].key;
    assert StepAt(h, ss, c);
    assert StepAt(h, ss, j);
    CheckedStays(h, ss, t, c + 1, j);
    CacheGrowsByStores(h, ss, key, c + 1, j);
  }

  lemma Then(h: seq<Event>, ss: seq<State>, e: Event) returns (g: seq<Event>, tt: seq<State>, s: State)
    requires Behavior(h, ss) && Apply(ss[|h|], e).Some?
    ensures g == h + [e] && Behavior(g, tt) && tt[|g|] == s == Apply(ss[|h|], e).value
  {
    s := Apply(ss[|h|], e).value;
    g, tt := h + [e], ss + [s];
    forall i: nat | i < |g| ensures StepAt(g, tt, i) {
      if i < |h| {
        assert StepAt(h, ss, i);
      }
    }
  }

  /** Two calls for one key that have both missed the cache. */
  lemma TwoMisses(key: Key) returns (h: seq<Event>, ss: seq<State>)
    ensures Behavior(h, ss)
    ensures var s := ss[|h|];
            && s.inflight == map[] && s.records == []
            && 0 in s.threads && s.threads[0] == Joining("a", key)
            && 1 in s.threads && s.threads[1] == Joining("b", key)
  {
    var s;
    h, ss := [], [Initial];
    h, ss, s := Then(h, ss, Call(0, "a", key));
    h, ss, s := Then(h, ss, Call(1, "b", key));
    h, ss, s := Then(h, ss, Check(0, true));
    h, ss, s := Then(h, ss, Check(1, true));
  }

  /** The claim is about calls that start after the store: the cache is not looked at again
      once a call has joined, so a call that missed before executes a second time. */
  lemma MissBeforeStoreExecutesAgain(key: Key) returns (h: seq<Event>, ss: seq<State>)
    ensures Behavior(h, ss)
    ensures 1 in ss[|h|].threads && ss[|h|].threads[1].Executing? && ss[|h|].threads[1].key == key
    ensures key in ss[|h|].cache
  {
    var s;
    h, ss := TwoMisses(key);
    h, ss, s := Then(h, ss, Join(0));
    h, ss, s := Then(h, ss, Execute(0, Reply("v")));
    h, ss, s := Then(h, ss, Store(0, true));
    assert key in s.cache && s.threads[1] == Joining("b", key);
    h, ss, s := Then(h, ss, Finish(0));
    assert key in s.cache && s.threads[1] == Joining("b", key) && key !in s.inflight;
    h, ss, s := Then(h, ss, Join(1));
  }
}
