/** End-to-end runs of the coordinator from the initial state: a known face,
    an unknown face, a network error, a burst of detections, the cooldown
    gate and a failed capture. The cooldown interval is not a clock here: "before the cooldown
    elapses" is a detection delivered before `TimerFired`, "after" one
    delivered after it. */
module Scenarios {
  import opened Wrappers
  import opened Reply
  import opened Coordinator

  /** A detection of one face whose frame is captured. */
  function Face(): (e: Event) {
    Detected(Faces(1), Captured)
  }

  /** A reply `{ name, similarity }` with a numeric similarity. */
  function NamedReply(name: string, similarity: real): (v: Json) {
    Object(map["name" := Text(name), "similarity" := Number(similarity)])
  }

  /** A known face: the reply is stored as it came, the status says
      "processed", and the name is shown green. */
  lemma IdentifiedShownGreen()
    ensures var t := Run(Init(), [Face(), Settled(Replied(200, NamedReply("23001", 0.87)))]);
      && t.status == Processed
      && t.result == Some(NamedReply("23001", 0.87))
      && ResultPanel(t.result) == Some(Panel(Some(Text("23001")), Green, Some(Number(0.87))))
  {
  }

  /** No match: the sentinel name is shown red, and the status still says
      "processed". */
  lemma UnknownShownRed()
    ensures var t := Run(Init(), [Face(), Settled(Replied(200, NamedReply("Unknown", 0.41)))]);
      && t.status == Processed
      && ResultPanel(t.result) == Some(Panel(Some(Text("Unknown")), Red, Some(Number(0.41))))
  {
  }

  /** The request throws: the error reply is stored and the status says
      "backend error". */
  lemma NetworkErrorShown()
    ensures var t := Run(Init(), [Face(), Settled(Threw)]);
      && t.status == BackendError
      && t.result == Some(ErrorReply)
  {
  }

  /** Three detections in quick succession start one send; the other two
      are dropped. */
  lemma ThreeDetectionsOneSend()
    ensures var t := Run(Init(), [Face(), Face(), Face()]);
      && t.started == 1 && t.inFlight == 1 && t.status == Sending
  {
  }

  /** A detection during the cooldown is dropped; one after the timer fires
      starts the next send. */
  lemma CooldownGatesNextSend(o: Outcome)
    ensures Run(Init(), [Face(), Settled(o), Face()]).started == 1
    ensures Run(Init(), [Face(), Settled(o), TimerFired, Face()]).started == 2
  {
    var sent := Step(Init(), Face());
    var settled := Step(sent, Settled(o));
    assert settled.lock && settled.timerPending == 1 && settled.started == 1;
    assert Run(Init(), [Face(), Settled(o), Face()]) == Run(settled, [Face()]);
    var cooled := Step(settled, TimerFired);
    assert !cooled.lock && cooled.started == 1;
    var es := [Face(), Settled(o), TimerFired, Face()];
    assert es[1..][1..][1..] == [Face()];
    assert Run(Init(), es) == Run(sent, es[1..]) == Run(settled, es[1..][1..]) == Run(cooled, [Face()]);
  }

  /** A capture that throws leaves the application sending forever: no
      later detection, reply or timer ever frees the lock. */
  lemma CaptureFailureNeverRecovers(es: seq<Event>)
    ensures var t := Run(Init(), [Detected(Faces(1), CaptureThrew)] + es);
      && t.lock && t.status == Sending && t.started == 1 && t.result == None
  {
    var s := Run(Init(), [Detected(Faces(1), CaptureThrew)]);
    RunConcat(Init(), [Detected(Faces(1), CaptureThrew)], es);
    StuckForever(s, es);
  }
}
