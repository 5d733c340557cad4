/** Where a transmission ends up: the word the radio is tuned to and the shift
    the signal path applies (src/usb_rx.c:1020-1027, src/tx_dsp.c:90-101,
    src/tx_audio_stream.c:222-240) together. */
module OnAir {
  import opened Common
  import opened Protocol
  import opened Trace
  import TxDsp

  /** An allowed audio job is tuned below its frequency by exactly as many hertz
      as the signal path turns in the 48000 samples of a second, so its signal
      lies at the frequency its policy admitted; and the Tune carrier lies 600 Hz
      above its word. */
  lemma SignalIsOnFrequency(job: Job, d: TxDsp.Design)
    requires d.Valid() && JobAllowed(job)
    ensures job.Audio? ==>
              var shifted := job.mode == Am || job.translate;
              var turns := if shifted then TxDsp.Turned(d, 48_000) / (2.0 * d.pi) else 0.0;
              exists low: nat ::
                TxWord(job.frequency, Offset(job)) == RxWord(low) && low as real + turns == job.frequency as real
    ensures job.Carrier? ==> TxWord(job.frequency, Offset(job)) == RxWord(job.frequency - 600)
  {
    TxDsp.CarrierTurns(d, 48_000);
    if job.Audio? {
      var low := job.frequency - if job.mode == Am || job.translate then 11_025 else 0;
      assert TxWord(job.frequency, Offset(job)) == RxWord(low);
    }
  }
}
