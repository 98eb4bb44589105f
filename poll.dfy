/** The service's main loop: read the door pin, log what it shows, remember
    it in the `door` flag.  The pin readings are supplied as a sequence in
    place of the GPIO library, one reading per iteration; `true` is a high
    level (switch open, pulled up), `false` a low one (switch closed). */
module PollLoop {
  import opened Logging

  const OPEN_MESSAGE: string := "Door is open"
  const CLOSED_MESSAGE: string := "Door is closed"

  /** The value the `door` flag has before the first iteration. */
  const INITIAL_DOOR: int := 0

  /** The record one iteration logs for a pin reading. */
  function StepRecord(high: bool): (r: Record)
    ensures r.level == INFO
    ensures r.msg == OPEN_MESSAGE <==> high
    ensures r.msg == CLOSED_MESSAGE <==> !high
  {
    Record(INFO, if high then OPEN_MESSAGE else CLOSED_MESSAGE)
  }

  /** The value one iteration leaves in `door`: 1 for "closed", 0 for "open". */
  function StepDoor(high: bool): (d: int)
    ensures d == 0 || d == 1
    ensures d == 1 <==> !high
  {
    if high then 0 else 1
  }

  /** The records that iterations over `readings` log, in order. */
  function Transcript(readings: seq<bool>): seq<Record>
  {
    if readings == [] then []
    else Transcript(readings[..|readings| - 1]) + [StepRecord(readings[|readings| - 1])]
  }

  /** The value of `door` after iterations over `readings`. */
  function FinalDoor(readings: seq<bool>): int
  {
    if readings == [] then INITIAL_DOOR else StepDoor(readings[|readings| - 1])
  }

  /** One record per reading, and record `i` is determined by reading `i` alone. */
  lemma {:induction false} TranscriptAt(readings: seq<bool>)
    ensures |Transcript(readings)| == |readings|
    ensures forall i :: 0 <= i < |readings| ==> Transcript(readings)[i] == StepRecord(readings[i])
  {
    if readings != [] {
      var init := readings[..|readings| - 1];
      TranscriptAt(init);
      assert forall i :: 0 <= i < |init| ==> init[i] == readings[i];
    }
  }

  /** Iterations never depend on the ones before them: running over `p` and
      then over `q` logs what the two runs log separately. */
  lemma {:induction false} TranscriptAppend(p: seq<bool>, q: seq<bool>)
    ensures Transcript(p + q) == Transcript(p) + Transcript(q)
  {
    if q != [] {
      var q' := q[..|q| - 1];
      assert (p + q)[..|p + q| - 1] == p + q';
      TranscriptAppend(p, q');
    } else {
      assert p + q == p;
    }
  }

  /** `door` ends as 1 exactly when the last reading was low; it is 0 when
      there was no reading or the last one was high. */
  lemma FinalDoorLastReading(readings: seq<bool>)
    ensures FinalDoor(readings) == 1 <==> readings != [] && !readings[|readings| - 1]
    ensures FinalDoor(readings) == 0 <==> readings == [] || readings[|readings| - 1]
  {
  }

  /** After at least one iteration the flag agrees with the last record logged. */
  lemma DoorMatchesLastRecord(readings: seq<bool>)
    requires readings != []
    ensures Transcript(readings) != []
    ensures FinalDoor(readings) == 1 <==> Transcript(readings)[|Transcript(readings)| - 1].msg == CLOSED_MESSAGE
  {
  }

  /** The flag does not stop repeat logging: two equal readings in a row log
      the same record twice. */
  lemma RepeatedReadingRepeatsRecord(readings: seq<bool>, i: int)
    requires 0 < i < |readings| && readings[i - 1] == readings[i]
    ensures |Transcript(readings)| == |readings|
    ensures Transcript(readings)[i] == Transcript(readings)[i - 1]
  {
    TranscriptAt(readings);
  }

  /** Readings high, high, low, high log open, open, closed, open. */
  lemma ExampleRun()
    ensures Transcript([true, true, false, true]) ==
      [Record(INFO, OPEN_MESSAGE), Record(INFO, OPEN_MESSAGE),
       Record(INFO, CLOSED_MESSAGE), Record(INFO, OPEN_MESSAGE)]
    ensures FinalDoor([true, true, false, true]) == 0
  {
    TranscriptAt([true, true, false, true]);
  }

  /** The `while True` loop, run for one iteration per reading: each
      iteration logs one INFO record and overwrites `door`, never reading
      its previous value.  Returns the final `door`. */
  method Poll(logger: Logger, readings: seq<bool>) returns (door: int)
    modifies logger
    ensures logger.records == old(logger.records) + Transcript(readings)
    ensures door == FinalDoor(readings)
  {
    door := INITIAL_DOOR;
    var i := 0;
    while i < |readings|
      invariant 0 <= i <= |readings|
      invariant logger.records == old(logger.records) + Transcript(readings[..i])
      invariant door == FinalDoor(readings[..i])
    {
      if readings[i] {
        logger.Info(OPEN_MESSAGE);
        door := 0;
      } else {
        logger.Info(CLOSED_MESSAGE);
        door := 1;
      }
      assert readings[..i + 1][..i] == readings[..i];
      i := i + 1;
    }
    assert readings[..i] == readings;
  }
}
