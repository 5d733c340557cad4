/** The graceful stop as one operation (src/usb_rx.c:1160-1190): the audio drains,
    whatever happens to the stream meanwhile is what the receiver sees, and then
    the radio is unkeyed. */
module GracefulStop {
  import opened UsbRx
  import Drain

  /** The receiver and its pipeline hold the same stream flags. */
  ghost predicate SameStream(receiver: Receiver, pipeline: Drain.Pipeline)
    reads receiver, pipeline
  {
    && receiver.stream.streaming == pipeline.streaming && receiver.running == pipeline.running
    && receiver.stream.microphone == pipeline.microphone && receiver.stream.accepting == pipeline.accepting
  }

  /** Whatever schedule of completions the drain meets, the transmission ends
      idle and the radio is quiet if the unkey sequence reports no error; and
      the frames requested are those drained and those discarded. */
  method StopGraceful(receiver: Receiver, pipeline: Drain.Pipeline, schedule: seq<Drain.Turn>) returns (ok: bool)
    requires receiver.Valid() && pipeline.Valid() && SameStream(receiver, pipeline)
    requires receiver.Active() && receiver.handleOpen
    modifies receiver, pipeline, pipeline.slots
    modifies pipeline.stream, pipeline.stream.microphone, pipeline.stream.networkIq
    modifies pipeline.stream.dsp, pipeline.stream.dsp.audioHistory, pipeline.stream.dsp.filteredHistory
    ensures receiver.Valid() && receiver.StoppedFromAir(ok) && receiver.PreparationKept()
    ensures receiver.digest.keysAllowed == old(receiver.digest.keysAllowed)
    ensures old(receiver.digest.failures) <= receiver.digest.failures
    ensures ok <==> receiver.digest.failures == old(receiver.digest.failures)
    ensures var (was, now) := (old(pipeline.report), pipeline.report);
            && now.requested == was.requested + old(pipeline.PendingFrames())
            && now.drained + now.discarded - now.requested == was.drained + was.discarded - was.requested
  {
    hide Receiver.Valid, Receiver.Active, Receiver.StoppedFromAir, Drain.InFlight, Drain.Drained;
    pipeline.DrainAudio(schedule);
    ok := receiver.StopAfterDrain(pipeline.streaming, pipeline.running);
  }
}
