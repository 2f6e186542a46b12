/** The event coalescer: adders note the latest created event and then signal, takers receive the signal
    and then fetch. One step is one critical section or one channel operation. */
module EventCoalescer {
  import opened Text

  datatype Event = Event(kind: string, requestID: string)

  const Created := "request.created"

  function Noted(latest: Option<Event>, e: Event): Option<Event> {
    if e.kind == Created then Some(e) else latest
  }

  // ---------------------------------------------------------------- the object, called by one thread

  class Coalescer {
    /** One token fits in the channel. */
    var signal: bool
    var latestCreated: Option<Event>

    constructor ()
      ensures !signal && latestCreated == None
    {
      signal, latestCreated := false, None;
    }

    method NoteLatest(e: Event)
      modifies this`latestCreated
      ensures latestCreated == Noted(old(latestCreated), e)
    {
      if e.kind == Created {
        latestCreated := Some(e);
      }
    }

    method Add(e: Event)
      modifies this
      ensures latestCreated == Noted(old(latestCreated), e) && signal
    {
      NoteLatest(e);
      if !signal {
        signal := true;
      }
    }

    method Take() returns (batch: Option<Event>, ok: bool)
      modifies this
      ensures ok == old(signal) && !signal
      ensures ok ==> batch == old(latestCreated) && latestCreated == None
      ensures !ok ==> batch == None && latestCreated == old(latestCreated)
    {
      if !signal {
        return None, false;
      }
      signal := false;
      batch, ok := latestCreated, true;
      latestCreated := None;
    }
  }

  // ---------------------------------------------------------------- any number of threads

  /** Adders between unlock and send, takers between receive and lock; and as history the created events
      in lock order and which of them were delivered. */
  datatype State = State(latest: Option<Event>, signal: bool, sending: set<nat>, fetching: set<nat>,
                         created: seq<Event>, delivered: seq<nat>)

  datatype Step = AddLock(a: nat, e: Event) | AddSend(a: nat) | TakeReceive(t: nat) | TakeNothing | TakeLock(t: nat)

  const Initial := State(None, false, {}, {}, [], [])

  predicate Enabled(s: State, step: Step) {
    match step
    case AddLock(a, _) => a !in s.sending
    case AddSend(a) => a in s.sending
    case TakeReceive(t) => s.signal && t !in s.fetching
    case TakeNothing => !s.signal
    case TakeLock(t) => t in s.fetching
  }

  function Apply(s: State, step: Step): State
    requires Enabled(s, step)
  {
    match step
    case AddLock(a, e) =>
      s.(latest := Noted(s.latest, e), sending := s.sending + {a},
         created := if e.kind == Created then s.created + [e] else s.created)
    case AddSend(a) => s.(signal := true, sending := s.sending - {a})
    case TakeReceive(t) => s.(signal := false, fetching := s.fetching + {t})
    case TakeNothing => s
    case TakeLock(t) =>
      s.(latest := None, fetching := s.fetching - {t},
         delivered := if s.latest.Some? && s.created != [] then s.delivered + [|s.created| - 1] else s.delivered)
  }

  ghost predicate CanRun(s: State, steps: seq<Step>)
    decreases |steps|
  {
    steps == [] || (Enabled(s, steps[0]) && CanRun(Apply(s, steps[0]), steps[1..]))
  }

  function Run(s: State, steps: seq<Step>): State
    requires CanRun(s, steps)
    decreases |steps|
  {
    if steps == [] then s else Run(Apply(s, steps[0]), steps[1..])
  }

  /** What waits is the last created event, someone will wake for it, and what was delivered came out in
      lock order, the last one included unless it waits. */
  predicate Inv(s: State) {
    && (s.latest.Some? ==> s.created != [] && s.latest.value == s.created[|s.created| - 1])
    && (s.latest.Some? ==> s.signal || s.sending != {} || s.fetching != {})
    && (forall i, j :: 0 <= i < j < |s.delivered| ==> s.delivered[i] < s.delivered[j])
    && (forall i :: 0 <= i < |s.delivered| ==> s.delivered[i] < |s.created|)
    && (if s.latest.Some? then forall i :: 0 <= i < |s.delivered| ==> s.delivered[i] < |s.created| - 1
        else s.created == [] || (s.delivered != [] && s.delivered[|s.delivered| - 1] == |s.created| - 1))
  }

  lemma StepKept(s: State, step: Step)
    requires Inv(s) && Enabled(s, step)
    ensures Inv(Apply(s, step))
  {
    if step.AddSend? {
      assert Apply(s, step).signal;
    }
  }

  lemma {:induction false} RunKept(s: State, steps: seq<Step>)
    requires Inv(s) && CanRun(s, steps)
    ensures Inv(Run(s, steps))
    decreases |steps|
  {
    if steps != [] {
      StepKept(s, steps[0]);
      RunKept(Apply(s, steps[0]), steps[1..]);
    }
  }

  /** No lost wakeup, in every interleaving of any adders and takers. */
  lemma NoLostWakeup(steps: seq<Step>)
    requires CanRun(Initial, steps)
    ensures var s := Run(Initial, steps);
            s.latest.Some? ==> s.signal || s.sending != {} || s.fetching != {}
  {
    RunKept(Initial, steps);
  }

  /** Deliveries are in lock order, each event at most once. */
  lemma DeliveredInOrder(steps: seq<Step>)
    requires CanRun(Initial, steps)
    ensures var s := Run(Initial, steps);
            forall i, j :: 0 <= i < j < |s.delivered| ==> s.delivered[i] < s.delivered[j] < |s.created|
  {
    RunKept(Initial, steps);
  }

  /** Once the adders are done and a Take comes back empty-handed, the last created event was delivered. */
  lemma LastIsDelivered(steps: seq<Step>)
    requires CanRun(Initial, steps)
    ensures var s := Run(Initial, steps);
            s.sending == {} && s.fetching == {} && !s.signal && s.created != [] ==>
              s.delivered != [] && s.delivered[|s.delivered| - 1] == |s.created| - 1
  {
    RunKept(Initial, steps);
  }

  /** And until then it is one Take away: with the adders done and no taker on its way, an undelivered
      last event is what the next Take returns. */
  lemma NextTakeDelivers(steps: seq<Step>, t: nat)
    requires CanRun(Initial, steps)
    requires var s := Run(Initial, steps);
             s.sending == {} && s.fetching == {} && s.created != []
             && (s.delivered == [] || s.delivered[|s.delivered| - 1] != |s.created| - 1)
    ensures var s := Run(Initial, steps);
            && Enabled(s, TakeReceive(t)) && Enabled(Apply(s, TakeReceive(t)), TakeLock(t))
            && Apply(s, TakeReceive(t)).latest == Some(s.created[|s.created| - 1])
            && Apply(Apply(s, TakeReceive(t)), TakeLock(t)).delivered == s.delivered + [|s.created| - 1]
  {
    RunKept(Initial, steps);
  }

  /** A delivery hands over the event it stands for: a fetch returns what waits, which is the last created. */
  lemma FetchReturnsLast(steps: seq<Step>, t: nat)
    requires CanRun(Initial, steps) && Enabled(Run(Initial, steps), TakeLock(t)) && Run(Initial, steps).latest.Some?
    ensures var s := Run(Initial, steps);
            var u := Apply(s, TakeLock(t));
            u.delivered == s.delivered + [|s.created| - 1] && s.latest.value == s.created[u.delivered[|s.delivered|]]
  {
    RunKept(Initial, steps);
  }

  /** An Add and a Take that nobody interrupts are what the object does. */
  lemma CallsAreSteps(s: State, a: nat, t: nat, e: Event)
    requires a !in s.sending && t !in s.fetching
    ensures Enabled(s, AddLock(a, e)) && Enabled(Apply(s, AddLock(a, e)), AddSend(a))
    ensures var added := Apply(Apply(s, AddLock(a, e)), AddSend(a));
            added.latest == Noted(s.latest, e) && added.signal && added.sending == s.sending
    ensures s.signal ==>
              && Enabled(s, TakeReceive(t)) && Enabled(Apply(s, TakeReceive(t)), TakeLock(t))
              && var taken := Apply(Apply(s, TakeReceive(t)), TakeLock(t));
                 taken.latest == None && !taken.signal && taken.fetching == s.fetching
  {
  }
}
