/** The coordinator cells of `App` (src/App.jsx:7-10) as an object whose
    handlers update them in place (src/App.jsx:28-37, 70-92). Each handler is
    proved against the matching transition function of `Coordinator`, and
    every handler keeps the coordinator's invariant. */
module App {
  import opened Wrappers
  import opened Reply
  import opened Coordinator

  class SubmissionCoordinator {
    var lock: bool
    var status: string
    var result: Option<Json>

    // What the runtime holds for the coordinator; not variables of the source.
    ghost var inFlight: nat
    ghost var timerPending: nat
    ghost var stuck: bool
    ghost var started: nat
    ghost var cooled: nat

    /** The abstract state of this object. */
    ghost function Snapshot(): (s: State)
      reads this
    {
      State(lock, status, result, inFlight, timerPending, stuck, started, cooled)
    }

    ghost predicate Valid()
      reads this
    {
      Inv(Snapshot())
    }

    /** Mounting `App`: the lock free, "Detecting", no result yet. */
    constructor ()
      ensures Valid() && Snapshot() == Init()
      ensures !lock && status == Detecting && result == None
    {
      lock := false;
      status := Detecting;
      result := None;
      inFlight, timerPending, stuck, started, cooled := 0, 0, false, 0, 0;
    }

    /** `faceDetection.onResults`: drop the frame when no face was found or
        a send holds the lock; otherwise take the lock, announce the send and
        start it. The lock is read and written in the same step, so no second
        detection can slip in between. */
    method OnDetection(d: Detections, capture: Capture)
      requires Valid()
      modifies this
      ensures Valid() && Snapshot() == Detect(old(Snapshot()), d, capture)
      ensures !HasFaces(d) || old(lock) ==> unchanged(this)
    {
      if !HasFaces(d) {
        return;
      }
      if lock {
        return;
      }
      lock := true;
      status := Sending;
      started := started + 1;
      StartSend(capture);
    }

    /** The synchronous part of `sendFrameToBackend` (src/App.jsx:54-65):
        the frame is captured and the request goes out, or the capture
        throws and the send is lost with the lock still held. */
    method StartSend(capture: Capture)
      modifies this
      ensures lock == old(lock) && status == old(status) && result == old(result)
      ensures timerPending == old(timerPending) && started == old(started) && cooled == old(cooled)
      ensures inFlight == old(inFlight) + (if capture == Captured then 1 else 0)
      ensures stuck == (old(stuck) || capture == CaptureThrew)
    {
      match capture
      case Captured =>
        inFlight := inFlight + 1;
      case CaptureThrew =>
        stuck := true;
    }

    /** The send settles inside the `try` (src/App.jsx:70-86), then the
        cooldown is scheduled (src/App.jsx:89-92). No status code is checked:
        any parsed body is the new result. */
    method OnResolve(outcome: Outcome)
      requires Valid() && inFlight > 0
      modifies this
      ensures Valid() && Snapshot() == Resolve(old(Snapshot()), outcome)
    {
      match outcome {
        case Replied(_, body) =>
          result := Some(body);
          status := Processed;
        case Threw =>
          result := Some(ErrorReply);
          status := BackendError;
      }
      inFlight := inFlight - 1;
      timerPending := timerPending + 1;
    }

    /** The cooldown timer's callback (src/App.jsx:89-92). */
    method OnTimer()
      requires Valid() && timerPending > 0
      modifies this
      ensures Valid() && Snapshot() == Fire(old(Snapshot()))
      ensures result == old(result)
    {
      lock := false;
      status := Detecting;
      timerPending := timerPending - 1;
      cooled := cooled + 1;
    }
  }

  /** A client of the class alone: three detections in a row while the first
      send is out start one send; after it settles and cools down, the next
      detection starts another. */
  method ClientRun(reply: Json)
  {
    var app := new SubmissionCoordinator();
    app.OnDetection(Faces(1), Captured);
    app.OnDetection(Faces(2), Captured);
    app.OnDetection(Faces(1), Captured);
    assert app.started == 1 && app.inFlight == 1 && app.status == Sending;
    app.OnResolve(Replied(200, reply));
    assert app.result == Some(reply) && app.status == Processed;
    app.OnDetection(Faces(1), Captured);
    assert app.started == 1;
    app.OnTimer();
    assert !app.lock && app.status == Detecting && app.result == Some(reply);
    app.OnDetection(Faces(1), Captured);
    assert app.started == 2 && app.lock;
  }
}
