/** The manual-acknowledgement dispatcher of `events/memory.go`: senders append to a pending
queue and poke a one-slot channel; one dispatcher takes events off the queue and offers each
until it is acknowledged or its retries are used up. Sends, acks, nacks and timeouts
interleave freely. A queued event is identified by its position in the order of appends. */
module ManualAck {
  import opened Options

  /** One hand-out of an event to the consumer, with the one-slot channel its ack and nack
      functions write to. */
  datatype Attempt = Attempt(event: nat, slot: Option<bool>)

  datatype Dispatcher =
    | Looking                                      // about to look at the queue, under the lock
    | Blocked                                      // the queue was empty, waiting for a token
    | Deciding(event: nat, retries: nat)           // top of the delivery loop
    | Offering(event: nat, retries: nat)           // sending to the unbuffered consumer channel
    | Awaiting(event: nat, retries: nat, attempt: nat) // waiting for the answer or the timer

  datatype State = State(
    sent: nat,               // events appended so far
    pending: seq<nat>,
    token: bool,             // the notify channel holds a token
    toWake: nat,             // senders between their append and their wake
    dispatcher: Dispatcher,
    attempts: seq<Attempt>,
    acked: set<nat>,
    discarded: set<nat>)

  datatype Event =
    | Send                   // append under the lock
    | Wake                   // non-blocking send of a token
    | Look
    | TakeToken
    | Decide
    | Hand                   // the consumer receives the offered copy
    | Ack(attempt: nat)      // the consumer calls Ack on a copy it was handed, any time after
    | Nack(attempt: nat)
    | Answer                 // the dispatcher reads its own attempt's channel
    | Timeout

  const Initial := State(0, [], false, 0, Looking, [], {}, {})

  /** The limit is an int of the source: negative means retry for ever. */
  function Apply(limit: int, s: State, e: Event): Option<State> {
    match (e, s.dispatcher)
    case (Send, _) => Some(s.(sent := s.sent + 1, pending := s.pending + [s.sent], toWake := s.toWake + 1))
    case (Wake, _) => if s.toWake > 0 then Some(s.(toWake := s.toWake - 1, token := true)) else None
    case (Ack(a), _) => if a < |s.attempts| then Some(s.(attempts := Put(s.attempts, a, true))) else None
    case (Nack(a), _) => if a < |s.attempts| then Some(s.(attempts := Put(s.attempts, a, false))) else None
    case (Look, Looking) =>
      if s.pending == [] then Some(s.(dispatcher := Blocked))
      else Some(s.(pending := s.pending[1..], dispatcher := Deciding(s.pending[0], 0)))
    case (TakeToken, Blocked) => if s.token then Some(s.(token := false, dispatcher := Looking)) else None
    case (Decide, Deciding(ev, retries)) =>
      if limit > -1 && retries > limit then Some(s.(dispatcher := Looking, discarded := s.discarded + {ev}))
      else Some(s.(dispatcher := Offering(ev, retries)))
    case (Hand, Offering(ev, retries)) =>
      Some(s.(attempts := s.attempts + [Attempt(ev, None)], dispatcher := Awaiting(ev, retries, |s.attempts|)))
    case (Answer, Awaiting(ev, retries, a)) =>
      if a < |s.attempts| && s.attempts[a].slot.Some? then
        if s.attempts[a].slot.value then Some(s.(dispatcher := Looking, acked := s.acked + {ev}))
        else Some(s.(dispatcher := Deciding(ev, retries + 1)))
      else None
    case (Timeout, Awaiting(ev, retries, _)) => Some(s.(dispatcher := Deciding(ev, retries + 1)))
    case _ => None
  }

  /** A non-blocking send: only the first answer of an attempt is kept. */
  function Put(attempts: seq<Attempt>, a: nat, answer: bool): seq<Attempt>
    requires a < |attempts|
  {
    if attempts[a].slot.None? then attempts[a := attempts[a].(slot := Some(answer))] else attempts
  }

  ghost predicate Behavior(limit: int, h: seq<Event>, ss: seq<State>) {
    && |ss| == |h| + 1
    && ss[0] == Initial
    && (forall i: nat :: i < |h| ==> StepAt(limit, h, ss, i))
  }

  /** The i-th event leads from the i-th state to the next. */
  ghost predicate StepAt(limit: int, h: seq<Event>, ss: seq<State>, i: nat) {
    i < |h| && i + 1 < |ss| && Apply(limit, ss[i], h[i]) == Some(ss[i + 1])
  }

  // ----- the invariant -----

  predicate InDelivery(s: State, ev: nat) {
    (s.dispatcher.Deciding? || s.dispatcher.Offering? || s.dispatcher.Awaiting?) && s.dispatcher.event == ev
  }

  /** How many events have been taken off the queue. */
  function Taken(s: State): int {
    s.sent - |s.pending|
  }

  /** How often an event was handed to the consumer. */
  function Deliveries(attempts: seq<Attempt>, ev: nat): nat {
    if attempts == [] then 0
    else Deliveries(attempts[..|attempts| - 1], ev) + if attempts[|attempts| - 1].event == ev then 1 else 0
  }

  lemma DeliveriesSnoc(attempts: seq<Attempt>, a: Attempt, ev: nat)
    ensures Deliveries(attempts + [a], ev) == Deliveries(attempts, ev) + if a.event == ev then 1 else 0
  {
    assert (attempts + [a])[..|attempts|] == attempts;
  }

  lemma {:induction false} DeliveriesPut(attempts: seq<Attempt>, a: nat, answer: bool, ev: nat)
    requires a < |attempts|
    ensures Deliveries(Put(attempts, a, answer), ev) == Deliveries(attempts, ev)
  {
    var n := |attempts| - 1;
    var p := Put(attempts, a, answer);
    if a < n {
      DeliveriesPut(attempts[..n], a, answer, ev);
      assert p[..n] == Put(attempts[..n], a, answer);
    } else {
      assert p[..n] == attempts[..n];
    }
  }

  /** The queue is first in, first out: pending holds the latest appends in order, and every
      event taken off it is settled or is the one in delivery. */
  ghost predicate QueueOk(s: State) {
    && 0 <= Taken(s)
    && (forall i :: 0 <= i < |s.pending| ==> s.pending[i] == Taken(s) + i)
    && s.acked !! s.discarded
    && (forall ev: nat :: ev in s.acked || ev in s.discarded || InDelivery(s, ev) <==> ev < Taken(s))
    && (forall ev: nat :: InDelivery(s, ev) ==> ev == Taken(s) - 1 && ev !in s.acked && ev !in s.discarded)
  }

  /** Deliveries so far of the event at the dispatcher, by its program counter. */
  ghost predicate CountOk(limit: int, s: State) {
    && (forall ev: nat :: ev >= Taken(s) ==> Deliveries(s.attempts, ev) == 0)
    && (forall ev: nat :: limit >= 0 ==> Deliveries(s.attempts, ev) <= limit + 1)
    && (forall ev: nat :: ev in s.discarded ==> 0 <= limit && Deliveries(s.attempts, ev) == limit + 1)
    && (match s.dispatcher
        case Deciding(ev, retries) => Deliveries(s.attempts, ev) == retries
        case Offering(ev, retries) => Deliveries(s.attempts, ev) == retries && (limit >= 0 ==> retries <= limit)
        case Awaiting(ev, retries, a) =>
          Deliveries(s.attempts, ev) == retries + 1 && a == |s.attempts| - 1 && s.attempts[a].event == ev
        case _ => true)
  }

  ghost predicate WakeOk(s: State) {
    s.dispatcher == Blocked && s.pending != [] ==> s.token || s.toWake > 0
  }

  ghost predicate Inv(limit: int, s: State) {
    QueueOk(s) && CountOk(limit, s) && WakeOk(s)
  }

  lemma HandKeepsCount(limit: int, s: State)
    requires Inv(limit, s) && s.dispatcher.Offering?
    ensures CountOk(limit, Apply(limit, s, Hand).value)
  {
    var ev := s.dispatcher.event;
    assert InDelivery(s, ev);
    forall x: nat
      ensures Deliveries(s.attempts + [Attempt(ev, None)], x) == Deliveries(s.attempts, x) + if x == ev then 1 else 0
    {
      DeliveriesSnoc(s.attempts, Attempt(ev, None), x);
    }
  }

  lemma AnswerKeepsInv(limit: int, s: State, a: nat, answer: bool)
    requires Inv(limit, s) && a < |s.attempts|
    ensures Inv(limit, s.(attempts := Put(s.attempts, a, answer)))
  {
    forall ev: nat ensures Deliveries(Put(s.attempts, a, answer), ev) == Deliveries(s.attempts, ev) {
      DeliveriesPut(s.attempts, a, answer, ev);
    }
    var t := s.(attempts := Put(s.attempts, a, answer));
    assert forall ev :: InDelivery(t, ev) <==> InDelivery(s, ev);
  }

  lemma LookKeepsInv(limit: int, s: State)
    requires Inv(limit, s) && s.dispatcher == Looking
    ensures Inv(limit, Apply(limit, s, Look).value)
  {
    var t := Apply(limit, s, Look).value;
    if s.pending != [] {
      assert Taken(t) == Taken(s) + 1;
      assert s.pending[0] == Taken(s);
      assert forall ev :: InDelivery(t, ev) <==> ev == Taken(s);
      assert forall ev :: !InDelivery(s, ev);
    }
  }

  lemma SettleKeepsInv(limit: int, s: State, e: Event)
    requires Inv(limit, s) && Apply(limit, s, e).Some? && (e == Decide || e == Answer || e == Timeout)
    ensures Inv(limit, Apply(limit, s, e).value)
  {
    var t := Apply(limit, s, e).value;
    assert InDelivery(s, s.dispatcher.event);
    assert forall ev :: InDelivery(s, ev) <==> ev == s.dispatcher.event;
    assert Taken(t) == Taken(s);
  }

  lemma ApplyKeepsInv(limit: int, s: State, e: Event)
    requires Inv(limit, s) && Apply(limit, s, e).Some?
    ensures Inv(limit, Apply(limit, s, e).value)
  {
    var t := Apply(limit, s, e).value;
    match e
    case Hand =>
      HandKeepsCount(limit, s);
      assert forall ev :: InDelivery(t, ev) <==> InDelivery(s, ev);
    case Ack(a) => AnswerKeepsInv(limit, s, a, true);
    case Nack(a) => AnswerKeepsInv(limit, s, a, false);
    case Look => LookKeepsInv(limit, s);
    case Decide => SettleKeepsInv(limit, s, e);
    case Answer => SettleKeepsInv(limit, s, e);
    case Timeout => SettleKeepsInv(limit, s, e);
    case Send => assert forall ev :: InDelivery(t, ev) <==> InDelivery(s, ev);
    case Wake => assert forall ev :: InDelivery(t, ev) <==> InDelivery(s, ev);
    case TakeToken =>
  }

  lemma {:induction false} BehaviorKeepsInv(limit: int, h: seq<Event>, ss: seq<State>, k: nat)
    requires Behavior(limit, h, ss) && k <= |h|
    ensures Inv(limit, ss[k])
  {
    if k > 0 {
      BehaviorKeepsInv(limit, h, ss, k - 1);
      assert StepAt(limit, h, ss, k - 1);
      ApplyKeepsInv(limit, ss[k - 1], h[k - 1]);
    }
  }

  // ----- the theorems, for every interleaving -----

  /** Every appended event is in exactly one of: pending, in delivery, acked, discarded. */
  lemma ExactlyOnePlace(limit: int, h: seq<Event>, ss: seq<State>, k: nat, ev: nat)
    requires Behavior(limit, h, ss) && k <= |h|
    ensures var s := ss[k];
            && (ev < s.sent <==> ev in s.pending || InDelivery(s, ev) || ev in s.acked || ev in s.discarded)
            && !(ev in s.pending && (InDelivery(s, ev) || ev in s.acked || ev in s.discarded))
            && !(InDelivery(s, ev) && (ev in s.acked || ev in s.discarded))
            && !(ev in s.acked && ev in s.discarded)
            && (forall i, j :: 0 <= i < j < |s.pending| ==> s.pending[i] != s.pending[j])
  {
    BehaviorKeepsInv(limit, h, ss, k);
    var s := ss[k];
    if Taken(s) <= ev < s.sent {
      assert s.pending[ev - Taken(s)] == ev;
    }
  }

  /** Events enter delivery in queue order: the k-th event taken is the k-th appended. */
  lemma QueueOrder(limit: int, h: seq<Event>, ss: seq<State>, k: nat)
    requires Behavior(limit, h, ss) && k < |h| && h[k] == Look && ss[k].pending != []
    ensures ss[k + 1].dispatcher == Deciding(ss[k].pending[0], 0)
    ensures ss[k].pending[0] == Taken(ss[k])
    ensures forall ev: nat :: ev < ss[k].pending[0] ==> ev in ss[k].acked || ev in ss[k].discarded
  {
    BehaviorKeepsInv(limit, h, ss, k);
    assert StepAt(limit, h, ss, k);
    assert forall ev :: !InDelivery(ss[k], ev);
  }

  /** At most limit + 1 deliveries for a limit of at least 0; a discarded event had exactly
      that many; under a negative limit nothing is discarded. */
  lemma DeliveryBound(limit: int, h: seq<Event>, ss: seq<State>, k: nat, ev: nat)
    requires Behavior(limit, h, ss) && k <= |h|
    ensures limit >= 0 ==> Deliveries(ss[k].attempts, ev) <= limit + 1
    ensures ev in ss[k].discarded ==> limit >= 0 && Deliveries(ss[k].attempts, ev) == limit + 1
    ensures limit < 0 ==> ss[k].discarded == {}
  {
    BehaviorKeepsInv(limit, h, ss, k);
  }

  /** The first answer given to attempt a, if any was given. */
  ghost predicate FirstAnswer(h: seq<Event>, ss: seq<State>, k: nat, a: nat, p: nat, answer: bool) {
    && p < k <= |h| && |ss| == |h| + 1
    && h[p] == (if answer then Ack(a) else Nack(a))
    && a < |ss[p].attempts| && ss[p].attempts[a].slot.None?
  }

  lemma {:induction false} SlotHasAnswer(limit: int, h: seq<Event>, ss: seq<State>, k: nat, a: nat)
    requires Behavior(limit, h, ss) && k <= |h| && a < |ss[k].attempts| && ss[k].attempts[a].slot.Some?
    ensures exists p: nat :: FirstAnswer(h, ss, k, a, p, ss[k].attempts[a].slot.value)
  {
    if k > 0 {
      assert StepAt(limit, h, ss, k - 1);
      var s := ss[k - 1];
      if a < |s.attempts| && s.attempts[a].slot.Some? {
        SlotHasAnswer(limit, h, ss, k - 1, a);
        var p: nat :| FirstAnswer(h, ss, k - 1, a, p, s.attempts[a].slot.value);
        assert FirstAnswer(h, ss, k, a, p, ss[k].attempts[a].slot.value);
      } else {
        assert FirstAnswer(h, ss, k, a, k - 1, ss[k].attempts[a].slot.value);
      }
    }
  }

  /** An ack only counts for the attempt it was handed out with: an event becomes acked only
      when the dispatcher waits on the event's latest hand-out and the first answer given to
      exactly that hand-out was an ack. */
  lemma AckCountsForItsAttempt(limit: int, h: seq<Event>, ss: seq<State>, k: nat, ev: nat)
    requires Behavior(limit, h, ss) && k < |h| && ev in ss[k + 1].acked && ev !in ss[k].acked
    ensures h[k] == Answer && ss[k].dispatcher.Awaiting? && ss[k].dispatcher.event == ev
    ensures var a := ss[k].dispatcher.attempt;
            && a == |ss[k].attempts| - 1 && ss[k].attempts[a].event == ev
            && exists p: nat :: FirstAnswer(h, ss, k, a, p, true)
  {
    BehaviorKeepsInv(limit, h, ss, k);
    assert StepAt(limit, h, ss, k);
    SlotHasAnswer(limit, h, ss, k, ss[k].dispatcher.attempt);
  }

  // ----- every answer takes effect -----

  lemma AttemptsStep(limit: int, s: State, e: Event, a: nat)
    requires Apply(limit, s, e).Some? && a < |s.attempts|
    ensures var s' := Apply(limit, s, e).value;
            && a < |s'.attempts| && s'.attempts[a].event == s.attempts[a].event
            && (s.attempts[a].slot.Some? ==> s'.attempts[a].slot == s.attempts[a].slot)
            && (s.attempts[a].slot.None? ==>
                  s'.attempts[a].slot == if e == Ack(a) then Some(true) else if e == Nack(a) then Some(false) else None)
  {
  }

  /** The first answer to an attempt stays in its channel. */
  lemma {:induction false} FirstAnswerStays(limit: int, h: seq<Event>, ss: seq<State>, k: nat, a: nat, p: nat,
                                            answer: bool)
    requires Behavior(limit, h, ss) && FirstAnswer(h, ss, k, a, p, answer)
    ensures a < |ss[k].attempts| && ss[k].attempts[a].slot == Some(answer)
  {
    assert StepAt(limit, h, ss, k - 1);
    if p + 1 < k {
      FirstAnswerStays(limit, h, ss, k - 1, a, p, answer);
    }
    AttemptsStep(limit, ss[k - 1], h[k - 1], a);
  }

  /** An answer that the dispatcher reads settles the event if it was an ack, whatever hand-out it
      answers, and sends it back to the delivery loop, counted, if it was a nack. */
  lemma AnswerTakesEffect(limit: int, h: seq<Event>, ss: seq<State>, k: nat)
    requires Behavior(limit, h, ss) && k < |h| && h[k] == Answer
    ensures ss[k].dispatcher.Awaiting?
    ensures var ev, a := ss[k].dispatcher.event, ss[k].dispatcher.attempt;
            && ((exists p: nat :: FirstAnswer(h, ss, k, a, p, true)) <==>
                  ss[k + 1].acked == ss[k].acked + {ev} && ss[k + 1].dispatcher == Looking)
            && ((exists p: nat :: FirstAnswer(h, ss, k, a, p, false)) <==>
                  ss[k + 1].acked == ss[k].acked
                  && ss[k + 1].dispatcher == Deciding(ev, Deliveries(ss[k].attempts, ev)))
  {
    BehaviorKeepsInv(limit, h, ss, k);
    assert StepAt(limit, h, ss, k);
    var a := ss[k].dispatcher.attempt;
    SlotHasAnswer(limit, h, ss, k, a);
    forall p: nat, answer | FirstAnswer(h, ss, k, a, p, answer) ensures ss[k].attempts[a].slot == Some(answer) {
      FirstAnswerStays(limit, h, ss, k, a, p, answer);
    }
    assert InDelivery(ss[k], ss[k].dispatcher.event);
  }

  /** The dispatcher is never stuck: it can always go on, and it can read an answer if and only if
      one was given to the hand-out it waits on. */
  lemma DispatcherGoesOn(limit: int, h: seq<Event>, ss: seq<State>, k: nat)
    requires Behavior(limit, h, ss) && k <= |h|
    ensures match ss[k].dispatcher
            case Looking => Apply(limit, ss[k], Look).Some?
            case Blocked => Apply(limit, ss[k], TakeToken).Some? <==> ss[k].token
            case Deciding(_, _) => Apply(limit, ss[k], Decide).Some?
            case Offering(ev, retries) =>
              Apply(limit, ss[k], Hand) ==
                Some(ss[k].(attempts := ss[k].attempts + [Attempt(ev, None)],
                            dispatcher := Awaiting(ev, retries, |ss[k].attempts|)))
            case Awaiting(_, _, a) =>
              && Apply(limit, ss[k], Timeout).Some?
              && (Apply(limit, ss[k], Answer).Some? <==> exists p: nat, b :: FirstAnswer(h, ss, k, a, p, b))
  {
    BehaviorKeepsInv(limit, h, ss, k);
    if ss[k].dispatcher.Awaiting? {
      var a := ss[k].dispatcher.attempt;
      if ss[k].attempts[a].slot.Some? {
        SlotHasAnswer(limit, h, ss, k, a);
      }
      forall p: nat, b | FirstAnswer(h, ss, k, a, p, b) ensures ss[k].attempts[a].slot.Some? {
        FirstAnswerStays(limit, h, ss, k, a, p, b);
      }
    }
  }

  /** An event whose answer does not come in time is delivered again or discarded, as after a nack. */
  lemma TimeoutTakesEffect(limit: int, h: seq<Event>, ss: seq<State>, k: nat)
    requires Behavior(limit, h, ss) && k < |h| && h[k] == Timeout
    ensures ss[k].dispatcher.Awaiting?
    ensures var ev := ss[k].dispatcher.event;
            ss[k + 1] == ss[k].(dispatcher := Deciding(ev, Deliveries(ss[k].attempts, ev)))
  {
    BehaviorKeepsInv(limit, h, ss, k);
    assert StepAt(limit, h, ss, k);
  }

  /** At the top of the delivery loop an event is discarded if and only if there is a limit and the
      event was handed out once more than that; any other event is offered. */
  lemma DiscardedIff(limit: int, h: seq<Event>, ss: seq<State>, k: nat)
    requires Behavior(limit, h, ss) && k < |h| && h[k] == Decide
    ensures ss[k].dispatcher.Deciding?
    ensures var ev := ss[k].dispatcher.event;
            var n := Deliveries(ss[k].attempts, ev);
            if 0 <= limit < n then ss[k + 1].discarded == ss[k].discarded + {ev} && ss[k + 1].dispatcher == Looking
            else ss[k + 1].discarded == ss[k].discarded && ss[k + 1].dispatcher == Offering(ev, n)
  {
    BehaviorKeepsInv(limit, h, ss, k);
    assert StepAt(limit, h, ss, k);
  }

  lemma SettledStep(limit: int, s: State, e: Event, ev: nat)
    requires Inv(limit, s) && Apply(limit, s, e).Some? && (ev in s.acked || ev in s.discarded)
    ensures var s' := Apply(limit, s, e).value;
            && (ev in s.acked ==> ev in s'.acked) && (ev in s.discarded ==> ev in s'.discarded)
            && Deliveries(s'.attempts, ev) == Deliveries(s.attempts, ev)
  {
    match e {
      case Ack(a) => DeliveriesPut(s.attempts, a, true, ev);
      case Nack(a) => DeliveriesPut(s.attempts, a, false, ev);
      case Hand =>
        assert InDelivery(s, s.dispatcher.event);
        DeliveriesSnoc(s.attempts, Attempt(s.dispatcher.event, None), ev);
      case _ =>
    }
  }

  /** An acked or discarded event stays so and is never handed out again. */
  lemma {:induction false} SettledIsFinal(limit: int, h: seq<Event>, ss: seq<State>, p: nat, q: nat, ev: nat)
    requires Behavior(limit, h, ss) && p <= q <= |h| && (ev in ss[p].acked || ev in ss[p].discarded)
    ensures ev in ss[p].acked ==> ev in ss[q].acked
    ensures ev in ss[p].discarded ==> ev in ss[q].discarded
    ensures Deliveries(ss[q].attempts, ev) == Deliveries(ss[p].attempts, ev)
  {
    if p < q {
      SettledIsFinal(limit, h, ss, p, q - 1, ev);
      BehaviorKeepsInv(limit, h, ss, q - 1);
      assert StepAt(limit, h, ss, q - 1);
      SettledStep(limit, ss[q - 1], h[q - 1], ev);
    }
  }

  /** No lost wake-up: a blocked dispatcher with work pending has a token waiting for it, or a
      sender has still to put one there. */
  lemma NoLostWakeup(limit: int, h: seq<Event>, ss: seq<State>, k: nat)
    requires Behavior(limit, h, ss) && k <= |h| && ss[k].dispatcher == Blocked && ss[k].pending != []
    ensures ss[k].token || ss[k].toWake > 0
    ensures ss[k].token ==> Apply(limit, ss[k], TakeToken).Some?
    ensures !ss[k].token ==>
              Apply(limit, ss[k], Wake).Some? && Apply(limit, Apply(limit, ss[k], Wake).value, TakeToken).Some?
  {
    BehaviorKeepsInv(limit, h, ss, k);
  }
}
