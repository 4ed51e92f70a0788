/** The agent's saved plan (`agent/builtin.go`): plan updates that keep finished work
finished, the completion of the next step after a successful action, and the check before
a delegation. How tasks are normalised into completion keys, and which tasks count as
delegations, is a parameter. */
module Plan {

  /** An element of the plan's step list; an element that is no object is skipped everywhere.
      Fields that are missing or no strings read as "". */
  datatype Step = Step(task: string, description: string, status: string) | NotAStep

  /** What the store holds under the plan key; `Other` is a plan without a readable step list. */
  datatype Plan = NoPlan | Other | Steps(items: seq<Step>)

  predicate UnfinishedStatus(status: string) {
    status == "" || status == "pending" || status == "in_progress"
  }

  predicate Unfinished(s: Step) {
    s.Step? && UnfinishedStatus(s.status)
  }

  function Items(p: Plan): seq<Step> {
    if p.Steps? then p.items else []
  }

  /** The plan as it is loaded: one that cannot be read counts as none. */
  function Loaded(stored: Plan, readable: bool): Plan {
    if readable then stored else NoPlan
  }

  function UnfinishedCount(items: seq<Step>): nat {
    if items == [] then 0 else (if Unfinished(items[0]) then 1 else 0) + UnfinishedCount(items[1..])
  }

  // ----- plan updates -----

  /** Some step of the plan with this completion key is done. */
  ghost predicate Completed(key: string -> string, items: seq<Step>, k: string) {
    k != "" && exists i :: 0 <= i < |items| && items[i].Step? && items[i].status == "done" && key(items[i].task) == k
  }

  ghost function PreservedStep(key: string -> string, previous: seq<Step>, s: Step): Step {
    if Unfinished(s) && Completed(key, previous, key(s.task)) then s.(status := "done") else s
  }

  /** The plan that is stored when `input` replaces `previous`. */
  ghost function Preserved(key: string -> string, previous: Plan, input: Plan): Plan {
    if input.Steps? then
      Steps(seq(|input.items|, i requires 0 <= i < |input.items| =>
                                 PreservedStep(key, Items(previous), input.items[i])))
    else input
  }

  method CompletedTasks(key: string -> string, items: seq<Step>) returns (completed: set<string>)
    ensures forall k :: k in completed <==> Completed(key, items, k)
  {
    completed := {};
    for i := 0 to |items|
      invariant forall k :: k in completed <==> Completed(key, items[..i], k)
    {
      CompletedGrows(key, items, i);
      if items[i].Step? && items[i].status == "done" && key(items[i].task) != "" {
        completed := completed + {key(items[i].task)};
      }
    }
    assert items[..|items|] == items;
  }

  lemma CompletedGrows(key: string -> string, items: seq<Step>, i: nat)
    requires i < |items|
    ensures forall k :: Completed(key, items[..i + 1], k) <==>
              Completed(key, items[..i], k) ||
              (k != "" && items[i].Step? && items[i].status == "done" && key(items[i].task) == k)
  {
    forall k ensures Completed(key, items[..i + 1], k) <==>
        Completed(key, items[..i], k) ||
        (k != "" && items[i].Step? && items[i].status == "done" && key(items[i].task) == k)
    {
      assert items[..i + 1] == items[..i] + [items[i]];
      if Completed(key, items[..i], k) {
        var j :| 0 <= j < i && items[..i][j].Step? && items[..i][j].status == "done" && key(items[..i][j].task) == k;
        assert items[..i + 1][j] == items[..i][j];
      }
      assert items[..i + 1][i] == items[i];
    }
  }

  method PreserveCompleted(key: string -> string, previous: Plan, input: Plan) returns (r: Plan)
    ensures r == Preserved(key, previous, input) && StoredAsSent(key, previous, input, r)
  {
    PreservedIsStoredAsSent(key, previous, input);
    if !previous.Steps? {
      assert input.Steps? ==> Preserved(key, previous, input).items == input.items;
      return input;
    }
    var completed := CompletedTasks(key, previous.items);
    if completed == {} || !input.Steps? {
      assert input.Steps? ==> Preserved(key, previous, input).items == input.items;
      return input;
    }
    var items := [];
    for i := 0 to |input.items|
      invariant |items| == i
      invariant forall j :: 0 <= j < i ==> items[j] == PreservedStep(key, previous.items, input.items[j])
    {
      var s := input.items[i];
      if s.Step? && key(s.task) in completed && UnfinishedStatus(s.status) {
        s := s.(status := "done");
      }
      items := items + [s];
    }
    assert Preserved(key, previous, input).items == items;
    r := Steps(items);
  }

  /** A step of the plan with the completion key of this task is done. */
  ghost predicate WasDone(key: string -> string, previous: Plan, task: string) {
    && key(task) != "" && previous.Steps?
    && exists i :: 0 <= i < |previous.items| && DoneFor(key, previous.items[i], task)
  }

  ghost predicate DoneFor(key: string -> string, s: Step, task: string) {
    s.Step? && s.status == "done" && key(s.task) == key(task)
  }

  /** What is stored for an update: the steps as they were sent, except that an unfinished step
      whose task was done in the previous plan is done. */
  ghost predicate StoredAsSent(key: string -> string, previous: Plan, sent: Plan, stored: Plan) {
    if !sent.Steps? then stored == sent
    else
      && stored.Steps? && |stored.items| == |sent.items|
      && forall j :: 0 <= j < |sent.items| ==>
           var s := sent.items[j];
           stored.items[j] ==
             if s.Step? && s.status in {"", "pending", "in_progress"} && WasDone(key, previous, s.task)
             then Step(s.task, s.description, "done") else s
  }

  lemma PreservedIsStoredAsSent(key: string -> string, previous: Plan, input: Plan)
    ensures StoredAsSent(key, previous, input, Preserved(key, previous, input))
  {
    if input.Steps? {
      forall j | 0 <= j < |input.items| && input.items[j].Step?
        ensures Completed(key, Items(previous), key(input.items[j].task)) <==>
                WasDone(key, previous, input.items[j].task)
      {
        var task := input.items[j].task;
        if Completed(key, Items(previous), key(task)) {
          var i :| 0 <= i < |Items(previous)| && Items(previous)[i].Step? && Items(previous)[i].status == "done"
                   && key(Items(previous)[i].task) == key(task);
          assert DoneFor(key, previous.items[i], task);
        }
      }
    }
  }

  /** A task of which no step was done before is stored as it was sent, finished or not. */
  lemma NewTaskIsStoredAsSent(key: string -> string, previous: Plan, input: Plan, j: nat)
    requires input.Steps? && j < |input.items| && input.items[j].Step?
    requires forall i :: 0 <= i < |Items(previous)| && Items(previous)[i].Step? && Items(previous)[i].status == "done"
               ==> key(Items(previous)[i].task) != key(input.items[j].task)
    ensures var r := Preserved(key, previous, input);
            r.Steps? && |r.items| == |input.items| && r.items[j] == input.items[j]
  {
    PreservedIsStoredAsSent(key, previous, input);
  }

  /** A done task that reappears in a plan update is not unfinished in the stored plan;
      nothing else about the update changes. */
  lemma DoneStaysFinished(key: string -> string, previous: Plan, input: Plan, i: nat, j: nat)
    requires previous.Steps? && input.Steps? && i < |previous.items| && j < |input.items|
    requires previous.items[i].Step? && previous.items[i].status == "done" && input.items[j].Step?
    requires key(previous.items[i].task) == key(input.items[j].task) != ""
    ensures var r := Preserved(key, previous, input);
            && r.Steps? && |r.items| == |input.items|
            && !Unfinished(r.items[j])
            && (r.items[j] == input.items[j] || r.items[j] == input.items[j].(status := "done"))
  {
    assert Completed(key, previous.items, key(input.items[j].task));
  }

  lemma NothingToPreserve(key: string -> string, input: Plan)
    ensures Preserved(key, NoPlan, input) == input
  {
    if input.Steps? {
      assert Preserved(key, NoPlan, input).items == input.items;
    }
  }

  /** A done task that is sent again as unfinished stays finished in the store if and only if the
      stored plan could be read for the update. */
  lemma DoneStaysFinishedIff(key: string -> string, stored: Plan, input: Plan, readable: bool, i: nat, j: nat)
    requires stored.Steps? && input.Steps? && i < |stored.items| && j < |input.items|
    requires stored.items[i].Step? && stored.items[i].status == "done" && Unfinished(input.items[j])
    requires key(stored.items[i].task) == key(input.items[j].task) != ""
    ensures var r := Preserved(key, Loaded(stored, readable), input);
            r.Steps? && |r.items| == |input.items| && (!Unfinished(r.items[j]) <==> readable)
  {
    DoneStaysFinished(key, stored, input, i, j);
    NothingToPreserve(key, input);
  }

  /** An update never has more unfinished steps in the store than it was sent with. */
  lemma PreservedHasNoMoreUnfinished(key: string -> string, previous: Plan, input: Plan)
    ensures UnfinishedCount(Items(Preserved(key, previous, input))) <= UnfinishedCount(Items(input))
  {
    if input.Steps? {
      FewerUnfinished(Items(Preserved(key, previous, input)), input.items);
    }
  }

  lemma {:induction false} FewerUnfinished(a: seq<Step>, b: seq<Step>)
    requires |a| == |b| && forall i :: 0 <= i < |a| && Unfinished(a[i]) ==> Unfinished(b[i])
    ensures UnfinishedCount(a) <= UnfinishedCount(b)
  {
    if a != [] {
      FewerUnfinished(a[1..], b[1..]);
    }
  }

  // ----- completing the next step -----

  /** The first unfinished step is done, everything else as before. */
  ghost predicate NextCompleted(before: seq<Step>, after: seq<Step>) {
    if UnfinishedCount(before) == 0 then after == before
    else exists i :: 0 <= i < |before| && Unfinished(before[i])
                  && (forall j :: 0 <= j < i ==> !Unfinished(before[j]))
                  && after == before[i := before[i].(status := "done")]
  }

  lemma {:induction false} NoneUnfinished(items: seq<Step>)
    ensures UnfinishedCount(items) == 0 <==> forall i :: 0 <= i < |items| ==> !Unfinished(items[i])
  {
    if items != [] {
      NoneUnfinished(items[1..]);
      assert forall i :: 1 <= i < |items| ==> items[i] == items[1..][i - 1];
      assert (forall i :: 0 <= i < |items[1..]| ==> !Unfinished(items[1..][i])) <==>
             (forall i :: 1 <= i < |items| ==> !Unfinished(items[i])) by {
        if forall i :: 1 <= i < |items| ==> !Unfinished(items[i]) {
          assert forall i :: 0 <= i < |items[1..]| ==> items[1..][i] == items[i + 1];
        }
      }
    }
  }

  lemma {:induction false} OneLess(items: seq<Step>, i: nat)
    requires i < |items| && Unfinished(items[i])
    ensures UnfinishedCount(items[i := items[i].(status := "done")]) == UnfinishedCount(items) - 1
  {
    var after := items[i := items[i].(status := "done")];
    if i == 0 {
      assert after[1..] == items[1..];
    } else {
      OneLess(items[1..], i - 1);
      assert after[1..] == items[1..][i - 1 := items[i].(status := "done")];
    }
  }

  /** A completed action lowers the number of unfinished steps by exactly one, down to none. */
  lemma CompletionCounts(before: seq<Step>, after: seq<Step>)
    requires NextCompleted(before, after)
    ensures UnfinishedCount(after) == if UnfinishedCount(before) > 0 then UnfinishedCount(before) - 1 else 0
  {
    if UnfinishedCount(before) > 0 {
      var i :| 0 <= i < |before| && Unfinished(before[i]) && after == before[i := before[i].(status := "done")];
      OneLess(before, i);
    }
  }

  /** The plan after the next step was completed, and whether there was one. */
  method CompleteNext(p: Plan) returns (r: Plan, changed: bool)
    ensures p.Steps? ==> r.Steps? && NextCompleted(p.items, r.items)
    ensures !p.Steps? ==> r == p
    ensures changed <==> UnfinishedCount(Items(p)) > 0
    ensures !changed ==> r == p
  {
    NoneUnfinished(Items(p));
    if !p.Steps? {
      return p, false;
    }
    for i := 0 to |p.items|
      invariant forall j :: 0 <= j < i ==> !Unfinished(p.items[j])
    {
      if Unfinished(p.items[i]) {
        return Steps(p.items[i := p.items[i].(status := "done")]), true;
      }
    }
    return p, false;
  }

  // ----- delegation -----

  function TaskOf(s: Step): string
    requires s.Step?
  {
    if s.task != "" then s.task else s.description
  }

  function Label(s: Step): string
    requires s.Step?
  {
    if TaskOf(s) == "" then "<unnamed>" else TaskOf(s)
  }

  /** The labels are those of the unfinished steps, in order, which are at the positions `at`. A
      step is known by its task, else by its description, else it is unnamed. */
  ghost predicate Reports(items: seq<Step>, at: seq<nat>, labels: seq<string>) {
    && |labels| == |at| && (forall m, n :: 0 <= m < n < |at| ==> at[m] < at[n])
    && (forall i: nat :: i in at <==>
          i < |items| && items[i].Step? && items[i].status in {"", "pending", "in_progress"})
    && (forall m :: 0 <= m < |at| && at[m] < |items| ==> IsLabel(items[at[m]], labels[m]))
  }

  ghost predicate IsLabel(s: Step, l: string) {
    && s.Step? && (s.task != "" ==> l == s.task) && (s.task == "" && s.description != "" ==> l == s.description)
    && (s.task == "" && s.description == "" ==> l == "<unnamed>")
  }

  lemma ReportMore(items: seq<Step>, i: nat, at: seq<nat>, labels: seq<string>)
    requires i < |items| && Reports(items[..i], at, labels)
    ensures if Unfinished(items[i]) then Reports(items[..i + 1], at + [i], labels + [Label(items[i])])
            else Reports(items[..i + 1], at, labels)
  {
    forall m | 0 <= m < |at| ensures at[m] < i {
      assert at[m] in at;
    }
  }

  lemma {:induction false} ReportCounts(items: seq<Step>, at: seq<nat>, labels: seq<string>)
    requires Reports(items, at, labels)
    ensures |labels| == UnfinishedCount(items)
  {
    NoneUnfinished(items);
    if at == [] {
      assert forall i: nat :: i < |items| ==> i !in at;
    } else {
      var n := |at| - 1;
      var i := at[n];
      assert i in at;
      forall m | 0 <= m < |at| ensures at[m] <= i {
      }
      ReportPrefix(items, at, labels);
      ReportCounts(items[..i], at[..n], labels[..n]);
      CountSnoc(items, i);
      NoneUnfinished(items[i + 1..]);
      CountConcat(items[..i + 1], items[i + 1..]);
      assert items[..i + 1] + items[i + 1..] == items;
    }
  }

  lemma ReportPrefix(items: seq<Step>, at: seq<nat>, labels: seq<string>)
    requires Reports(items, at, labels) && at != []
    ensures var n := |at| - 1;
            && at[n] < |items| && Reports(items[..at[n]], at[..n], labels[..n])
            && (forall i :: at[n] < i < |items| ==> !Unfinished(items[i]))
  {
    var n := |at| - 1;
    assert at[n] in at;
    forall i: nat | at[n] < i < |items| ensures !Unfinished(items[i]) {
      assert i !in at;
    }
    forall i: nat ensures i in at[..n] <==> i in at && i < at[n] {
      if i in at && i < at[n] {
        var m :| 0 <= m < |at| && at[m] == i;
        assert at[..n][m] == i;
      }
      if i in at[..n] {
        var m :| 0 <= m < n && at[..n][m] == i;
        assert at[m] == i;
      }
    }
  }

  lemma {:induction false} CountConcat(a: seq<Step>, b: seq<Step>)
    ensures UnfinishedCount(a + b) == UnfinishedCount(a) + UnfinishedCount(b)
  {
    if a == [] {
      assert a + b == b;
    } else {
      assert (a + b)[1..] == a[1..] + b;
      CountConcat(a[1..], b);
    }
  }

  predicate IsDelegation(delegates: string -> bool, s: Step) {
    s.Step? && delegates(TaskOf(s))
  }

  /** Every step before the first delegation step is finished. */
  ghost predicate ReadyToDelegate(delegates: string -> bool, items: seq<Step>) {
    forall i :: 0 <= i < |items| && Unfinished(items[i]) ==>
      exists j :: 0 <= j <= i && NamesDelegation(delegates, items[j])
  }

  /** The task of the step, or without one its description, is a delegation. */
  ghost predicate NamesDelegation(delegates: string -> bool, s: Step) {
    s.Step? && ((s.task != "" && delegates(s.task)) || (s.task == "" && delegates(s.description)))
  }

  /** Where the first delegation step is; the end if there is none. */
  function FirstDelegation(delegates: string -> bool, items: seq<Step>): (k: nat)
    ensures k <= |items| && (k < |items| ==> IsDelegation(delegates, items[k]))
    ensures forall j :: 0 <= j < k ==> !IsDelegation(delegates, items[j])
  {
    if items == [] || IsDelegation(delegates, items[0]) then 0 else 1 + FirstDelegation(delegates, items[1..])
  }

  /** How many steps are unfinished before the first delegation step. */
  function Pending(delegates: string -> bool, items: seq<Step>): nat {
    UnfinishedCount(items[..FirstDelegation(delegates, items)])
  }

  lemma ReadyIffNothingPending(delegates: string -> bool, items: seq<Step>)
    ensures ReadyToDelegate(delegates, items) <==> Pending(delegates, items) == 0
  {
    var k := FirstDelegation(delegates, items);
    NoneUnfinished(items[..k]);
    if ReadyToDelegate(delegates, items) {
      forall i | 0 <= i < k ensures !Unfinished(items[..k][i]) {
        assert items[..k][i] == items[i];
      }
    } else {
      var i :| 0 <= i < |items| && Unfinished(items[i])
               && forall j :: 0 <= j <= i ==> !IsDelegation(delegates, items[j]);
      assert i < k && items[..k][i] == items[i];
    }
  }

  /** A delegation goes through the check if and only if nothing is pending before the first
      delegation step or the plan could not be read. */
  lemma DelegationPassesIff(delegates: string -> bool, stored: Plan, readable: bool)
    ensures ReadyToDelegate(delegates, Items(Loaded(stored, readable))) <==>
            !readable || Pending(delegates, Items(stored)) == 0
  {
    ReadyIffNothingPending(delegates, Items(Loaded(stored, readable)));
  }

  lemma DoneKeepsFirstDelegation(delegates: string -> bool, items: seq<Step>, i: nat)
    requires i < |items| && items[i].Step?
    ensures FirstDelegation(delegates, items[i := items[i].(status := "done")]) == FirstDelegation(delegates, items)
  {
    var after := items[i := items[i].(status := "done")];
    forall j | 0 <= j < |items| ensures IsDelegation(delegates, after[j]) <==> IsDelegation(delegates, items[j]) {
    }
  }

  lemma PendingAfter(delegates: string -> bool, items: seq<Step>, i: nat)
    requires i < |items| && Unfinished(items[i])
    ensures Pending(delegates, items[i := items[i].(status := "done")]) ==
            Pending(delegates, items) - if i < FirstDelegation(delegates, items) then 1 else 0
  {
    var after, k := items[i := items[i].(status := "done")], FirstDelegation(delegates, items);
    DoneKeepsFirstDelegation(delegates, items, i);
    if i < k {
      assert after[..k] == items[..k][i := items[i].(status := "done")];
      OneLess(items[..k], i);
    } else {
      assert after[..k] == items[..k];
    }
  }

  /** Completed actions bring the delegation nearer: each takes one step from what is pending
      before it, so that as many of them as steps are pending let the delegation pass. */
  lemma CompletionsBringDelegation(delegates: string -> bool, before: seq<Step>, after: seq<Step>)
    requires NextCompleted(before, after)
    ensures Pending(delegates, after) ==
            if Pending(delegates, before) > 0 then Pending(delegates, before) - 1 else 0
  {
    var k := FirstDelegation(delegates, before);
    NoneUnfinished(before);
    NoneUnfinished(before[..k]);
    if UnfinishedCount(before) > 0 {
      var i :| 0 <= i < |before| && Unfinished(before[i]) && (forall j :: 0 <= j < i ==> !Unfinished(before[j]))
               && after == before[i := before[i].(status := "done")];
      PendingAfter(delegates, before, i);
      assert i < k ==> before[..k][i] == before[i];
    }
  }

  lemma EmptyReportIffReady(delegates: string -> bool, items: seq<Step>, at: seq<nat>, labels: seq<string>)
    requires Reports(items[..FirstDelegation(delegates, items)], at, labels)
    ensures labels == [] <==> ReadyToDelegate(delegates, items)
  {
    ReadyIffNothingPending(delegates, items);
    ReportCounts(items[..FirstDelegation(delegates, items)], at, labels);
  }

  method UnfinishedBeforeDelegation(delegates: string -> bool, p: Plan)
    returns (unfinished: seq<string>, ghost at: seq<nat>)
    ensures unfinished == [] <==> ReadyToDelegate(delegates, Items(p))
    ensures Reports(Items(p)[..FirstDelegation(delegates, Items(p))], at, unfinished)
  {
    unfinished, at := [], [];
    var items := Items(p);
    ghost var first := FirstDelegation(delegates, items);
    for i := 0 to |items|
      invariant i <= first && Reports(items[..i], at, unfinished)
    {
      ReportMore(items, i, at, unfinished);
      if items[i].NotAStep? {
        continue;
      }
      if delegates(TaskOf(items[i])) {
        assert first == i;
        EmptyReportIffReady(delegates, items, at, unfinished);
        return;
      }
      if UnfinishedStatus(items[i].status) {
        unfinished, at := unfinished + [Label(items[i])], at + [i];
      }
    }
    EmptyReportIffReady(delegates, items, at, unfinished);
  }

  method UnfinishedSteps(p: Plan) returns (unfinished: seq<string>, ghost at: seq<nat>)
    ensures |unfinished| == UnfinishedCount(Items(p))
    ensures Reports(Items(p), at, unfinished)
  {
    unfinished, at := [], [];
    var items := Items(p);
    for i := 0 to |items|
      invariant Reports(items[..i], at, unfinished)
    {
      ReportMore(items, i, at, unfinished);
      if Unfinished(items[i]) {
        unfinished, at := unfinished + [Label(items[i])], at + [i];
      }
    }
    assert items[..|items|] == items;
    ReportCounts(items, at, unfinished);
  }

  lemma {:induction false} CountSnoc(items: seq<Step>, i: nat)
    requires i < |items|
    ensures UnfinishedCount(items[..i + 1]) == UnfinishedCount(items[..i]) + if Unfinished(items[i]) then 1 else 0
  {
    if i == 0 {
      assert items[..1] == [items[0]];
    } else {
      CountSnoc(items[1..], i - 1);
      assert items[..i + 1][1..] == items[1..][..i] && items[..i][1..] == items[1..][..i - 1];
    }
  }
}
