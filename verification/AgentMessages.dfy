/** The message of an agent run (`agent/agent.go`, `agent/checkpoint.go`): what a run was asked, and
what it is resumed with. A pause and an unfinished plan put the message of the last model turn in
the place of the run's own. */
module AgentMessages {
  import opened Options
  import opened AgentRun

  /** The message that a record is resumed with. */
  function TextOf(data: Data): Option<string> {
    match data
    case Message(text) => Some(text)
    case InputPause(original, _, stored) => Some(if original == "" then stored else original)
    case Response(_) => None
  }

  /** A resumed run has the saved message, and one that is given input has it followed by that. */
  lemma ResumedWith(h: seq<Event>, ss: seq<Sys>, q: nat)
    requires Behavior(h, ss) && q < |h| && (h[q].Resume? || h[q].ResumeInput?)
    ensures ss[q].saved.Some? && TextOf(ss[q].saved.value.data).Some? && ss[q + 1].live.Some?
    ensures var text := TextOf(ss[q].saved.value.data).value;
            ss[q + 1].live.value.run.data ==
              Message(if h[q].Resume? then text else text + "\n\nHuman input: " + h[q].input)
    // The ask record starts anew, the tool records are kept.
    ensures var before, r := ss[q].saved.value, ss[q + 1].live.value.run;
            && r.id == before.id && r.status == Running && r.stage == AtAsk && before.steps != []
            && r.steps == [Record(ASK, InProgress, before.steps[0].attempts, "", "")] + before.steps[1..]
  {
    HistoryKeepsInv(h, ss, q);
    assert StepAt(h, ss, q);
  }

  /** The saved record of an ending is resumed with the run's message if and only if the ending
      brings no other. A request of input keeps the message apart, and an empty one is lost. */
  lemma EndingKeepsMessageIff(h: seq<Event>, ss: seq<Sys>, q: nat)
    requires Behavior(h, ss) && q < |h| && h[q].End? && h[q].written && !h[q].ending.Answered?
    ensures ss[q].live.Some? && ss[q].live.value.run.data.Message? && ss[q + 1].saved.Some?
    ensures var text := ss[q].live.value.run.data.text;
            TextOf(ss[q + 1].saved.value.data) == Some(text) <==> KeepsMessage(h[q].ending, text)
  {
    HistoryKeepsInv(h, ss, q);
    assert StepAt(h, ss, q);
  }

  /** The ending is resumed with this message. */
  predicate KeepsMessage(e: Ending, text: string) {
    match e
    case ModelFailed(_, _, _) => true
    case ApprovalPause(message, _, _) => message == text
    case PlanUnfinished(message, _) => message == text
    case HumanPause(message, _, _, stored) => if message == "" then stored == text else message == text
    case Answered(_) => true
  }

  ghost predicate FaithfulAt(h: seq<Event>, ss: seq<Sys>, i: nat)
    requires i < |h| && i < |ss|
  {
    h[i].End? && ss[i].live.Some? && ss[i].live.value.run.data.Message? ==>
      KeepsMessage(h[i].ending, ss[i].live.value.run.data.text)
  }

  /** Every ending keeps the message of the run. */
  ghost predicate Faithful(h: seq<Event>, ss: seq<Sys>) {
    |h| < |ss| && forall i: nat :: i < |h| ==> FaithfulAt(h, ss, i)
  }

  /** What a run was told after it was asked: the inputs at these events. */
  function Told(h: seq<Event>, at: seq<nat>): string {
    if at == [] then ""
    else
      var i := at[|at| - 1];
      Told(h, at[..|at| - 1]) + "\n\nHuman input: " + if i < |h| && h[i].ResumeInput? then h[i].input else ""
  }

  /** The run was last asked at q. */
  ghost predicate AskedAt(h: seq<Event>, k: nat, q: nat) {
    q < k <= |h| && h[q].Ask? && forall j :: q < j < k ==> !h[j].Ask?
  }

  /** The text is the message the run was asked with at q, followed by inputs it was given since. */
  ghost predicate Said(h: seq<Event>, k: nat, text: string, q: nat, at: seq<nat>) {
    && AskedAt(h, k, q) && text == h[q].message + Told(h, at)
    && (forall m :: 0 <= m < |at| ==> q < at[m] < k && h[at[m]].ResumeInput?)
    && (forall m, n :: 0 <= m < n < |at| ==> at[m] < at[n])
  }

  ghost predicate SaidBefore(h: seq<Event>, k: nat, data: Data) {
    TextOf(data).Some? ==> exists q: nat, at: seq<nat> :: Said(h, k, TextOf(data).value, q, at)
  }

  lemma SaidStays(h: seq<Event>, k: nat, data: Data)
    requires k < |h| && !h[k].Ask? && SaidBefore(h, k, data)
    ensures SaidBefore(h, k + 1, data)
  {
    if TextOf(data).Some? {
      var q: nat, at: seq<nat> :| Said(h, k, TextOf(data).value, q, at);
      assert Said(h, k + 1, TextOf(data).value, q, at);
    }
  }

  lemma Appended(a: string, b: string, c: string, d: string)
    ensures a + (b + c + d) == a + b + c + d
  {
  }

  lemma SaidMore(h: seq<Event>, k: nat, data: Data, text: string)
    requires k < |h| && h[k].ResumeInput? && SaidBefore(h, k, data) && TextOf(data) == Some(text)
    ensures SaidBefore(h, k + 1, Message(text + "\n\nHuman input: " + h[k].input))
  {
    var q: nat, at: seq<nat> :| Said(h, k, text, q, at);
    var more := at + [k];
    assert more[..|at|] == at;
    Appended(h[q].message, Told(h, at), "\n\nHuman input: ", h[k].input);
    assert Said(h, k + 1, text + "\n\nHuman input: " + h[k].input, q, more);
  }

  /** Where the data of the records after an event come from. */
  lemma DataStep(s: Sys, e: Event, s': Sys)
    requires Inv(s) && Apply(s, e) == Some(s')
    ensures s'.saved.Some? ==>
              || (s.saved.Some? && s'.saved.value.data == s.saved.value.data)
              || (s.live.Some? && s'.saved.value.data == s.live.value.run.data)
              || (e.End? && s.live.Some? && s.live.value.run.data.Message?
                  && (KeepsMessage(e.ending, s.live.value.run.data.text) ==>
                        TextOf(s'.saved.value.data) in {None, Some(s.live.value.run.data.text)}))
    ensures s'.live.Some? ==>
              || (s.live.Some? && s'.live.value.run.data == s.live.value.run.data)
              || (e.Ask? && s'.live.value.run.data == Message(e.message))
              || (e.Resume? && s.saved.Some? && TextOf(s'.live.value.run.data) == TextOf(s.saved.value.data))
              || (e.ResumeInput? && s.saved.Some? && TextOf(s.saved.value.data).Some?
                  && s'.live.value.run.data ==
                     Message(TextOf(s.saved.value.data).value + "\n\nHuman input: " + e.input))
  {
  }

  /** If every ending keeps the message, every record of a run has the message the run was asked
      with, followed by inputs it was given, in order: through pauses, failures and crashes. */
  lemma {:induction false} MessageIsKept(h: seq<Event>, ss: seq<Sys>, k: nat)
    requires Behavior(h, ss) && Faithful(h, ss) && k < |ss|
    ensures ss[k].saved.Some? ==> SaidBefore(h, k, ss[k].saved.value.data)
    ensures ss[k].live.Some? ==> SaidBefore(h, k, ss[k].live.value.run.data)
  {
    if k > 0 {
      MessageIsKept(h, ss, k - 1);
      HistoryKeepsInv(h, ss, k - 1);
      assert StepAt(h, ss, k - 1) && FaithfulAt(h, ss, k - 1);
      DataStep(ss[k - 1], h[k - 1], ss[k]);
      var s := ss[k - 1];
      if h[k - 1].Ask? {
        assert Told(h, []) == "" && Said(h, k, h[k - 1].message, k - 1, []);
      } else {
        if s.saved.Some? {
          SaidStays(h, k - 1, s.saved.value.data);
          if h[k - 1].ResumeInput? {
            SaidMore(h, k - 1, s.saved.value.data, TextOf(s.saved.value.data).value);
          }
        }
        if s.live.Some? {
          SaidStays(h, k - 1, s.live.value.run.data);
        }
      }
    }
  }

  /** A run whose plan is left unfinished after another model turn is resumed with the prompt of that
      turn, and what it was asked is lost. */
  lemma TurnPromptReplacesMessage(id: string, message: string, prompt: string, error: string)
    returns (h: seq<Event>, ss: seq<Sys>)
    ensures h == [Ask(id, message), Begin(true, true), End(PlanUnfinished(prompt, error), true), Resume]
    ensures Behavior(h, ss)
    ensures ss[|h|].live.Some? && ss[|h|].live.value.run.data == Message(prompt)
  {
    var run := NewRun(id, message);
    var e, s := End(PlanUnfinished(prompt, error), true), Sys(Some(Ended(run, PlanUnfinished(prompt, error))), None);
    h, ss := Begun(id, message);
    BehaviorSnoc(h, ss, e, s);
    h, ss := h + [e], ss + [s];
    var s' := Apply(s, Resume).value;
    BehaviorSnoc(h, ss, Resume, s');
    h, ss := h + [Resume], ss + [s'];
  }
}
