/** The step combinators Loop (`flow/loop.go`) and Verify (`flow/verify.go`). Bodies, stop
conditions and graders may answer differently at every call: they are functions of the call
number and the state. */
module Combinators {
  import opened Options

  // ----- states -----

  datatype Value = Text(s: string) | Flag(b: bool) | Count(n: int) | Other(json: string)

  /** The data of a state: nothing, text that is no JSON object, or a JSON object. */
  datatype Data = Empty | Raw(text: string) | Object(fields: map<string, Value>)

  datatype State = State(stage: string, data: Data)

  datatype Result = Ok(state: State) | Err(state: State, error: string)

  /** What a body answers at its n-th call. */
  type Body = (nat, State) -> Result

  // ----- Loop -----

  datatype Stop = Continue | Finish | Broken(error: string)

  /** The state after k passes; an error of the body ends the iteration. */
  function Iterate(body: Body, input: State, k: nat): Result {
    if k == 0 then Ok(input)
    else
      var before := Iterate(body, input, k - 1);
      if before.Err? then before else body(k, before.state)
  }

  /** The first pass at which the loop comes to a decision, `max` if there is none. */
  ghost predicate DecidedAt(body: Body, stop: (nat, State) -> Stop, input: State, max: nat, k: nat) {
    && 1 <= k <= max
    && (forall j :: 1 <= j < k ==> Iterate(body, input, j).Ok? && stop(j, Iterate(body, input, j).state).Continue?)
    && (k == max || Iterate(body, input, k).Err? || !stop(k, Iterate(body, input, k).state).Continue?)
  }

  /** Each pass gets the state that the pass before it has left, the first one the input, and
      `states` are the states in between; only the last may stop or fail. */
  ghost predicate Passed(body: Body, stop: (nat, State) -> Stop, input: State, passes: nat, states: seq<State>) {
    && passes <= |states| <= passes + 1 && states != [] && states[0] == input
    && (forall k :: 1 <= k < |states| ==> body(k, states[k - 1]) == Ok(states[k]))
    && (forall k :: 1 <= k < passes ==> stop(k, states[k]).Continue?)
    && (|states| == passes ==> body(passes, states[passes - 1]).Err?)
  }

  /** Runs the body until a stop condition fires or the iteration cap is reached. */
  method Loop(body: Option<Body>, stop: (nat, State) -> Stop, max: int, input: State)
    returns (r: Result, passes: nat, ghost states: seq<State>)
    ensures body.Some? ==> Passed(body.value, stop, input, passes, states)
    ensures body.Some? && |states| == passes ==>
              r == Err(states[passes - 1], body.value(passes, states[passes - 1]).error)
    ensures body.Some? && |states| == passes + 1 ==>
              && r == (match stop(passes, states[passes])
                       case Broken(error) => Err(states[passes], error)
                       case _ => Ok(states[passes]))
              && (stop(passes, states[passes]).Continue? ==> passes == if max <= 0 then 10 else max)
    ensures body.None? ==> r.Err? && r.state == input && passes == 0
    ensures body.Some? ==> DecidedAt(body.value, stop, input, if max <= 0 then 10 else max, passes)
    ensures body.Some? && Iterate(body.value, input, passes).Ok? ==>
              var s := Iterate(body.value, input, passes).state;
              r == if stop(passes, s).Broken? then Err(s, stop(passes, s).error) else Ok(s)
    ensures body.Some? && Iterate(body.value, input, passes).Err? ==>
              && r.Err? && r.error == Iterate(body.value, input, passes).error
              && Ok(r.state) == Iterate(body.value, input, passes - 1)
  {
    var cap := if max <= 0 then 10 else max;
    passes, states := 0, [input];
    if body.None? {
      return Err(input, "flow: Loop requires a body step"), 0, states;
    }
    var cur := input;
    for iter := 1 to cap + 1
      invariant passes == iter - 1
      invariant Iterate(body.value, input, passes) == Ok(cur)
      invariant |states| == iter && states[passes] == cur && Passed(body.value, stop, input, passes, states)
      invariant passes > 0 ==> stop(passes, cur).Continue?
      invariant forall j :: 1 <= j < iter ==>
                  Iterate(body.value, input, j).Ok? && stop(j, Iterate(body.value, input, j).state).Continue?
    {
      var out := body.value(iter, cur);
      passes := iter;
      if out.Err? {
        return Err(cur, out.error), iter, states;
      }
      cur, states := out.state, states + [out.state];
      match stop(iter, cur) {
        case Broken(error) => return Err(cur, error), iter, states;
        case Finish => return Ok(cur), iter, states;
        case Continue =>
      }
    }
    r := Ok(cur);
  }

  /** The decision point is unique, so the loop's result is a function of body, stop and cap. */
  lemma DecidedOnce(body: Body, stop: (nat, State) -> Stop, input: State, max: nat, k: nat, l: nat)
    requires DecidedAt(body, stop, input, max, k) && DecidedAt(body, stop, input, max, l)
    ensures k == l
  {
    assert k < l ==> Iterate(body, input, k).Ok? && stop(k, Iterate(body, input, k).state).Continue?;
    assert l < k ==> Iterate(body, input, l).Ok? && stop(l, Iterate(body, input, l).state).Continue?;
  }

  // ----- Verify -----

  datatype Grade = Graded(pass: bool, feedback: string) | GradeError(error: string)

  type Grader = (nat, State) -> Grade

  function TextOf(d: Data): string
    requires !d.Object?
  {
    if d.Raw? then d.text else ""
  }

  /** Adds one field; text that is no object moves to the field "data". */
  function WithField(s: State, field: string, value: string): State {
    if s.data.Object? then s.(data := Object(s.data.fields[field := Text(value)]))
    else if s.data.Raw? && s.data.text != "" then
      s.(data := Object(map[field := Text(value)]["data" := Text(s.data.text)]))
    else s.(data := Object(map[field := Text(value)]))
  }

  function WithVerification(s: State, passed: bool, feedback: string, attempts: int): State {
    var base := if s.data.Object? then s.data.fields else map["data" := Text(TextOf(s.data))];
    s.(data := Object(base["verification_passed" := Flag(passed)]
                          ["verification_feedback" := Text(feedback)]
                          ["verification_attempts" := Count(attempts)]))
  }

  const VERIFICATION_FIELDS := {"verification_passed", "verification_feedback", "verification_attempts"}

  /** The annotation can be read back, and everything else is as it was. */
  lemma VerificationReadsBack(s: State, passed: bool, feedback: string, attempts: int)
    ensures var t := WithVerification(s, passed, feedback, attempts);
            && t.stage == s.stage && t.data.Object?
            && VERIFICATION_FIELDS <= t.data.fields.Keys
            && t.data.fields["verification_passed"] == Flag(passed)
            && t.data.fields["verification_feedback"] == Text(feedback)
            && t.data.fields["verification_attempts"] == Count(attempts)
            && (s.data.Object? ==> t.data.fields - VERIFICATION_FIELDS == s.data.fields - VERIFICATION_FIELDS)
            && (!s.data.Object? ==>
                  t.data.fields - VERIFICATION_FIELDS == map["data" := Text(if s.data.Raw? then s.data.text else "")])
  {
    assert "verification_passed"[13] != "verification_feedback"[13];
    assert "verification_passed"[13] != "verification_attempts"[13];
    assert "verification_feedback"[13] != "verification_attempts"[13];
    var t := WithVerification(s, passed, feedback, attempts);
    if s.data.Object? {
      assert t.data.fields - VERIFICATION_FIELDS == s.data.fields - VERIFICATION_FIELDS;
    } else {
      assert "data"[0] != "verification_passed"[0] && "data"[0] != "verification_feedback"[0]
          && "data"[0] != "verification_attempts"[0];
      assert t.data.fields - VERIFICATION_FIELDS == map["data" := Text(if s.data.Raw? then s.data.text else "")];
    }
  }

  /** Feedback is the only thing a retry's input has beyond the original input; for an input
      that is text, the field "data" wins over a feedback field of the same name. */
  lemma FieldIsAllThatIsAdded(s: State, field: string, value: string)
    ensures var t := WithField(s, field, value);
            && t.stage == s.stage && t.data.Object?
            && (s.data.Object? ==> t.data.fields - {field} == s.data.fields - {field})
            && (s.data.Raw? && s.data.text != "" ==>
                  t.data.fields - {field} == map["data" := Text(s.data.text)] - {field})
            && field in t.data.fields
            && (t.data.fields[field] == Text(value) <==>
                  !(s.data.Raw? && s.data.text != "" && field == "data" && s.data.text != value))
  {
    var t := WithField(s, field, value);
    if s.data.Object? {
      assert t.data.fields - {field} == s.data.fields - {field};
    } else if s.data.Raw? && s.data.text != "" {
      assert t.data.fields - {field} == map["data" := Text(s.data.text)] - {field};
    }
  }

  /** The input of the attempt after the first n, given their grades: the original input, plus
      the feedback of the immediately preceding grade unless that is empty. */
  function InputAfter(input: State, field: string, grades: seq<Grade>, n: nat): State
    requires n <= |grades|
  {
    if n > 0 && grades[n - 1].Graded? && grades[n - 1].feedback != "" then
      WithField(input, field, grades[n - 1].feedback)
    else input
  }

  /** A first attempt, and one after an empty feedback, gets the original input; any other has the
      last feedback in the field, and everything else of the original input. */
  lemma RetryInput(input: State, field: string, grades: seq<Grade>, n: nat)
    requires n <= |grades|
    ensures var told := n > 0 && grades[n - 1].Graded? && grades[n - 1].feedback != "";
            var t := InputAfter(input, field, grades, n);
            && t.stage == input.stage
            && (!told ==> t == input)
            && (told ==> t.data.Object? && field in t.data.fields)
            && (told && !(input.data.Raw? && field == "data") ==> t.data.fields[field] == Text(grades[n - 1].feedback))
            && (told && input.data.Object? ==> t.data.fields - {field} == input.data.fields - {field})
            && (told && input.data.Raw? && input.data.text != "" ==>
                  "data" in t.data.fields && t.data.fields["data"] == Text(input.data.text))
  {
    if n > 0 && grades[n - 1].Graded? {
      FieldIsAllThatIsAdded(input, field, grades[n - 1].feedback);
    }
  }

  /** The record of the completed attempts: each body call got its input, produced its output
      and was graded. */
  ghost predicate Consistent(body: Body, grader: Grader, input: State, field: string,
                             outs: seq<State>, grades: seq<Grade>)
  {
    && |outs| == |grades|
    && (forall i :: 0 <= i < |outs| ==> body(i + 1, InputAfter(input, field, grades, i)) == Ok(outs[i]))
    && (forall i :: 0 <= i < |grades| ==> grades[i] == grader(i + 1, outs[i]))
  }

  /** All attempts so far were graded as failed. */
  ghost predicate AllFailed(grades: seq<Grade>) {
    forall i :: 0 <= i < |grades| ==> grades[i].Graded? && !grades[i].pass
  }

  /** The error is that of the last grade, or of the body's attempt after the last grade. */
  ghost predicate Explained(body: Body, input: State, field: string,
                            outs: seq<State>, grades: seq<Grade>, error: string)
  {
    || (|grades| > 0 && grades[|grades| - 1] == GradeError(error))
    || (AllFailed(grades) && body(|outs| + 1, InputAfter(input, field, grades, |grades|)).Err?
        && body(|outs| + 1, InputAfter(input, field, grades, |grades|)).error == error)
  }

  /** Without error: the last output, annotated with the last grade and the number of attempts.
      With an error: the last output, and the error comes from grading, from the body or from the context. */
  ghost predicate Verdict(body: Body, max: nat, input: State, field: string, r: Result, cancelled: bool,
                          outs: seq<State>, grades: seq<Grade>)
    requires |outs| == |grades|
  {
    if r.Ok? then
      && |outs| > 0 && grades[|grades| - 1].Graded? && !cancelled
      && r.state == WithVerification(outs[|outs| - 1], grades[|grades| - 1].pass, grades[|grades| - 1].feedback, |outs|)
      && (!grades[|grades| - 1].pass ==> |outs| == max)
    else
      && r.state == (if outs == [] then input else outs[|outs| - 1])
      && (cancelled || Explained(body, input, field, outs, grades, r.error))
  }

  /** Runs the body until its output passes grading or the attempts are used up. A call
      that ends with `cancelled` was stopped by its context. */
  method VerifyLoop(body: Body, grader: Grader, max: nat, field: string, input: State)
    returns (r: Result, cancelled: bool, outs: seq<State>, grades: seq<Grade>)
    requires max > 0
    ensures |outs| <= max && Consistent(body, grader, input, field, outs, grades)
    ensures forall i :: 0 <= i < |grades| - 1 ==> grades[i].Graded? && !grades[i].pass
    ensures Verdict(body, max, input, field, r, cancelled, outs, grades)
  {
    outs, grades, cancelled := [], [], false;
    var cur, last, feedback := input, input, "";
    for attempt := 1 to max + 1
      invariant |outs| == |grades| == attempt - 1
      invariant Consistent(body, grader, input, field, outs, grades) && AllFailed(grades)
      invariant cur == input && last == (if outs == [] then input else outs[|outs| - 1])
      invariant feedback == if grades == [] then "" else grades[|grades| - 1].feedback
    {
      var stopped: bool := *;
      if stopped {
        return Err(last, "context canceled"), true, outs, grades;
      }
      if feedback != "" {
        cur := WithField(cur, field, feedback);
      }
      assert cur == InputAfter(input, field, grades, |grades|);
      var out := body(attempt, cur);
      if out.Err? {
        return Err(last, out.error), false, outs, grades;
      }
      last := out.state;
      var grade := grader(attempt, last);
      ConsistentMore(body, grader, input, field, outs, grades, last, grade);
      outs, grades := outs + [last], grades + [grade];
      match grade {
        case GradeError(error) => return Err(last, error), false, outs, grades;
        case Graded(pass, fb) =>
          if pass {
            return Ok(WithVerification(last, true, fb, attempt)), false, outs, grades;
          }
          feedback := fb;
      }
      cur := input;
      // A context that ends during the backoff.
      if attempt < max {
        stopped := *;
        if stopped {
          return Err(last, "context canceled"), true, outs, grades;
        }
      }
    }
    r := Ok(WithVerification(last, false, feedback, max));
  }

  function AttemptLimit(maxAttempts: int): nat {
    if maxAttempts <= 0 then 2 else maxAttempts
  }

  function FieldName(feedbackField: string): string {
    if feedbackField == "" then "feedback" else feedbackField
  }

  method Verify(body: Option<Body>, grader: Option<Grader>, maxAttempts: int, feedbackField: string, input: State)
    returns (r: Result, cancelled: bool, outs: seq<State>, grades: seq<Grade>)
    ensures body.None? || grader.None? ==> r.Err? && r.state == input && outs == []
    ensures |outs| <= if maxAttempts <= 0 then 2 else maxAttempts
    ensures forall i :: 0 <= i < |grades| - 1 ==> grades[i].Graded? && !grades[i].pass
    ensures body.Some? && grader.Some? ==>
              var field := if feedbackField == "" then "feedback" else feedbackField;
              && Consistent(body.value, grader.value, input, field, outs, grades)
              && Verdict(body.value, if maxAttempts <= 0 then 2 else maxAttempts, input, field, r, cancelled,
                         outs, grades)
  {
    if body.None? {
      return Err(input, "flow: Verify requires a body step"), false, [], [];
    }
    if grader.None? {
      return Err(input, "flow: Verify requires a grader"), false, [], [];
    }
    r, cancelled, outs, grades :=
      VerifyLoop(body.value, grader.value, AttemptLimit(maxAttempts), FieldName(feedbackField), input);
  }

  lemma ConsistentMore(body: Body, grader: Grader, input: State, field: string,
                       outs: seq<State>, grades: seq<Grade>, out: State, grade: Grade)
    requires Consistent(body, grader, input, field, outs, grades)
    requires body(|outs| + 1, InputAfter(input, field, grades, |grades|)) == Ok(out) && grade == grader(|outs| + 1, out)
    ensures Consistent(body, grader, input, field, outs + [out], grades + [grade])
  {
    var more, gs := outs + [out], grades + [grade];
    forall i | 0 <= i < |more| ensures body(i + 1, InputAfter(input, field, gs, i)) == Ok(more[i]) {
      assert InputAfter(input, field, gs, i) == InputAfter(input, field, grades, i);
    }
  }
}
