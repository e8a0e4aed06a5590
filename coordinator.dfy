/** The frame-submission coordinator of `App` (src/App.jsx), as a state
    machine over abstract events.

    The source keeps three cells: the lock `backendLockRef.current`, the
    status string and the last backend result. Three handlers change them:
    the face-detection callback, the settling of a send, and the cooldown
    timer. JavaScript runs each handler to its next `await` without
    interruption, and none of them awaits between reading and writing the
    lock, so each handler is one step here.

    Besides the three cells, a `State` records what the runtime holds on the
    coordinator's behalf: the sends that are awaiting the network, the
    cooldown timers that are scheduled, whether a send died while capturing
    its frame, and two history counters (sends started, timers fired). */
module Coordinator {
  import opened Wrappers
  import opened Reply

  // The four status strings the handlers write.
  const Detecting: string := "🟢 Detecting faces"
  const Sending: string := "⏳ Sending frame to backend..."
  const Processed: string := "✅ Backend processed frame"
  const BackendError: string := "❌ Backend error"

  /** What the face detector reports for one frame: `results.detections`
      may be missing, or a list of `count` faces. */
  datatype Detections = Missing | Faces(count: nat)

  /** What happens when the frame is drawn onto a canvas and encoded
      (src/App.jsx:54-65). This runs before the `try`, so a throw there
      rejects the send without reaching the cooldown. */
  datatype Capture = Captured | CaptureThrew

  /** How a send that reached the `try` settles: the response body parsed as
      JSON (whatever the HTTP status code), or `fetch` or `res.json()` threw. */
  datatype Outcome = Replied(httpStatus: nat, body: Json) | Threw

  datatype State = State(
    lock: bool,             // backendLockRef.current
    status: string,         // the status state
    result: Option<Json>,   // serverResponse; None is its initial null
    inFlight: nat,          // sends awaiting fetch / res.json()
    timerPending: nat,      // cooldown timers scheduled and not yet fired
    stuck: bool,            // a send threw while capturing and never settles
    started: nat,           // sends started so far
    cooled: nat)            // cooldown timers fired so far

  /** The state when `App` mounts (src/App.jsx:7-10). */
  function Init(): (s: State)
    ensures Inv(s) && !s.lock && s.status == Detecting && s.result == None
    ensures s.started == 0
  {
    State(false, Detecting, None, 0, 0, false, 0, 0)
  }

  /** The coordinator's invariant. Exactly one of "a send in flight", "a
      cooldown pending" and "a send stuck in capture" holds while the lock is
      held, and none while it is free; the status says which; every send
      started and not yet cooled down is the one holding the lock. */
  predicate Inv(s: State) {
    && s.inFlight + s.timerPending + (if s.stuck then 1 else 0) == (if s.lock then 1 else 0)
    && (!s.lock ==> s.status == Detecting)
    && (s.inFlight > 0 || s.stuck ==> s.status == Sending)
    && (s.timerPending > 0 ==> s.result.Some? && (s.status == Processed || s.status == BackendError))
    && (s.timerPending > 0 && s.status == BackendError ==> s.result == Some(ErrorReply))
    && s.started == s.cooled + (if s.lock then 1 else 0)
  }

  /** Does the detection callback go on past its first guard
      (src/App.jsx:29)? */
  predicate HasFaces(d: Detections) {
    d.Faces? && d.count > 0
  }

  /** The detection callback (src/App.jsx:28-37) up to the first `await`
      inside `sendFrameToBackend`: missing or empty detections and
      detections while the lock is held change nothing; otherwise the lock
      is taken, the status becomes "Sending" and one send starts, which is
      then in flight, or stuck for good if capturing the frame threw. */
  function Detect(s: State, d: Detections, c: Capture): (t: State)
    ensures !HasFaces(d) || s.lock ==> t == s
    ensures HasFaces(d) && !s.lock ==>
              && t.lock && t.status == Sending && t.result == s.result
              && t.started == s.started + 1 && t.cooled == s.cooled
              && t.timerPending == s.timerPending
              && t.inFlight == s.inFlight + (if c == Captured then 1 else 0)
              && t.stuck == (s.stuck || c == CaptureThrew)
    ensures Inv(s) ==> Inv(t)
  {
    if !HasFaces(d) || s.lock then s
    else
      var taken := s.(lock := true, status := Sending, started := s.started + 1);
      match c
      case Captured => taken.(inFlight := taken.inFlight + 1)
      case CaptureThrew => taken.(stuck := true)
  }

  /** A send settles (src/App.jsx:70-92): the result becomes exactly the
      parsed body, or the error reply if something threw, the status says
      which, and one cooldown timer is scheduled. The lock stays held. */
  function Resolve(s: State, o: Outcome): (t: State)
    requires s.inFlight > 0
    ensures t.result == Some(if o.Replied? then o.body else ErrorReply)
    ensures t.status == (if o.Replied? then Processed else BackendError)
    ensures t.inFlight == s.inFlight - 1 && t.timerPending == s.timerPending + 1
    ensures t.lock == s.lock && t.stuck == s.stuck
    ensures t.started == s.started && t.cooled == s.cooled
    ensures Inv(s) ==> Inv(t)
  {
    var settled := s.(inFlight := s.inFlight - 1, timerPending := s.timerPending + 1);
    match o
    case Replied(_, body) => settled.(result := Some(body), status := Processed)
    case Threw => settled.(result := Some(ErrorReply), status := BackendError)
  }

  /** The cooldown timer fires (src/App.jsx:89-92): the lock is released and
      the status reset; the stored result is left as it is. */
  function Fire(s: State): (t: State)
    requires s.timerPending > 0
    ensures !t.lock && t.status == Detecting && t.result == s.result
    ensures t.timerPending == s.timerPending - 1 && t.inFlight == s.inFlight
    ensures t.stuck == s.stuck && t.started == s.started && t.cooled == s.cooled + 1
    ensures Inv(s) ==> Inv(t)
  {
    s.(lock := false, status := Detecting, timerPending := s.timerPending - 1, cooled := s.cooled + 1)
  }

  /** The events the runtime delivers to the coordinator. */
  datatype Event =
    | Detected(detections: Detections, capture: Capture)
    | Settled(outcome: Outcome)
    | TimerFired

  /** One event. The runtime only settles a send that exists and only fires
      a timer that was scheduled; an event naming neither leaves the state
      as it is, so that every sequence of events is a run. */
  function Step(s: State, e: Event): (t: State)
    ensures Inv(s) ==> Inv(t)
    ensures s.lock && !t.lock ==> e.TimerFired?
    ensures !s.lock && t.lock ==> e.Detected? && t.started == s.started + 1
    ensures e.Detected? && s.lock ==> t == s
    ensures !e.Settled? ==> t.result == s.result
  {
    match e
    case Detected(d, c) => Detect(s, d, c)
    case Settled(o) => if s.inFlight > 0 then Resolve(s, o) else s
    case TimerFired => if s.timerPending > 0 then Fire(s) else s
  }

  /** A sequence of events, one after the other. */
  function Run(s: State, es: seq<Event>): (t: State)
    decreases |es|
  {
    if es == [] then s else Run(Step(s, es[0]), es[1..])
  }

  /** Running two sequences in turn is running their concatenation. */
  lemma {:induction false} RunConcat(s: State, a: seq<Event>, b: seq<Event>)
    ensures Run(s, a + b) == Run(Run(s, a), b)
    decreases |a|
  {
    if a == [] {
      assert a + b == b;
    } else {
      assert (a + b)[1..] == a[1..] + b;
      RunConcat(Step(s, a[0]), a[1..], b);
    }
  }

  /** Every event preserves the invariant, so every run does. */
  lemma {:induction false} RunKeepsInv(s: State, es: seq<Event>)
    requires Inv(s)
    ensures Inv(Run(s, es))
    decreases |es|
  {
    if es != [] {
      RunKeepsInv(Step(s, es[0]), es[1..]);
    }
  }

  /** Single flight, from the initial state and across any event sequence:
      at most one send is in flight or one cooldown pending, never both; a
      free lock means no send and no timer; the status is "Detecting" exactly
      when the lock is free. */
  lemma SingleFlight(es: seq<Event>)
    ensures var t := Run(Init(), es);
      && t.inFlight + t.timerPending <= 1
      && (!t.lock ==> t.inFlight == 0 && t.timerPending == 0 && !t.stuck)
      && (t.status == Detecting <==> !t.lock)
  {
    RunKeepsInv(Init(), es);
  }

  /** Drop, don't queue: any burst of detection events that arrives while
      the lock is held leaves the whole state unchanged, so none of them
      starts a send later. */
  lemma {:induction false} BurstWhileLockedDropped(s: State, es: seq<Event>)
    requires s.lock
    requires forall i :: 0 <= i < |es| ==> es[i].Detected?
    ensures Run(s, es) == s
    decreases |es|
  {
    if es != [] {
      BurstWhileLockedDropped(Step(s, es[0]), es[1..]);
    }
  }

  /** A send that threw while capturing its frame holds the lock forever:
      whatever events follow, nothing changes again. */
  lemma {:induction false} StuckForever(s: State, es: seq<Event>)
    requires Inv(s) && s.stuck
    ensures Run(s, es) == s
    decreases |es|
  {
    if es != [] {
      assert Step(s, es[0]) == s;
      StuckForever(s, es[1..]);
    }
  }

  /** The number of timer events in a sequence. */
  function Fires(es: seq<Event>): (n: nat)
    decreases |es|
  {
    if es == [] then 0 else (if es[0].TimerFired? then 1 else 0) + Fires(es[1..])
  }

  /** Timers fire only when delivered: a run fires at most as many cooldown
      timers as it has timer events. */
  lemma {:induction false} CooledAtMostFires(s: State, es: seq<Event>)
    ensures Run(s, es).cooled <= s.cooled + Fires(es)
    decreases |es|
  {
    if es != [] {
      CooledAtMostFires(Step(s, es[0]), es[1..]);
    }
  }

  /** The request rate is bounded by the cooldown, not by the detector: over
      any window of events, starting from any state that satisfies the
      invariant, the sends started are at most the cooldown expiries in the
      window, plus one if the lock is free when the window opens. */
  lemma RateBound(s: State, es: seq<Event>)
    requires Inv(s)
    ensures Run(s, es).started <= s.started + Fires(es) + (if s.lock then 0 else 1)
  {
    RunKeepsInv(s, es);
    CooledAtMostFires(s, es);
  }

  /** The window that opens at mount: at most one send more than the
      cooldown expiries, however many faces are detected. */
  lemma RateBoundFromMount(es: seq<Event>)
    ensures Run(Init(), es).started <= Fires(es) + 1
  {
    RateBound(Init(), es);
  }

  /** The cooldown leaves the result alone: the result stored by a
      resolution is still the stored result after any run without another
      resolution. */
  lemma {:induction false} ResultPersists(s: State, es: seq<Event>)
    requires forall i :: 0 <= i < |es| ==> !es[i].Settled?
    ensures Run(s, es).result == s.result
    decreases |es|
  {
    if es != [] {
      ResultPersists(Step(s, es[0]), es[1..]);
    }
  }

  /** The HTTP status code plays no part: any reply whose body parses is
      stored and reported "processed", a 500 as much as a 200. */
  lemma StatusCodeIgnored(s: State, code1: nat, code2: nat, body: Json)
    requires s.inFlight > 0
    ensures Resolve(s, Replied(code1, body)) == Resolve(s, Replied(code2, body))
    ensures Resolve(s, Replied(code1, body)).status == Processed
  {
  }
}
