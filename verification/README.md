# Verified model of the FLEX-1500 daemon

The daemon drives a USB transceiver, shares its transmitter between a Tune
carrier, the microphone and network clients, and streams received samples to
network clients. This project models its three hard parts in Dafny and proves
what they are built to guarantee. `dafny verify dfyconfig.toml` checks it all.

**Transmit safety.** `Protocol` holds the frequency policies and tuning words.
`Trace` is the radio as the host can know it: the history of attempted commands,
each with what the host was told and what the radio did. Any command may fail,
and a failed one may still have taken effect. `TxLifecycle` plans and orders a
cleanup, `UsbRx` runs the nine steps of a key-up and undoes them from any failure
point, `Transmitter` holds the owner machine with the Tune and network leases,
`StationOwner` the station lease, `Calls` the order of start and stop callbacks,
`Events` states what every event has to do, as a relation between plain values,
and `Daemon` composes them all: watchdog passes, PTT edges, API requests, closed
streams and USB faults in any order on a clock that never goes back. `OnAir` ties
the tuning word to the shift of the signal path. The main
result is `Daemon.FlexDaemon.Run`: after every run the whole command history is
disciplined, the callbacks are bracketed, a radio that may still be keyed without
an owner means the fault is latched, nothing outlives its limit by the longest
gap between watchdog passes or more, and every event has exactly its stated effect.

**Sample streams.** Each is a fast, stateful, chunked form of a plain function of
the whole stream, and is proved equal to it: `IqRing`, `Publisher`, `Frame` and
`IqStream` carry samples from the ring to up to four lagging clients and back
out of their decoders bit for bit, none missing but those the daemon discards;
`Fates` tells what became of each sample; `Quantiser` and `Resampler` produce the
rtl_tcp stream; `Signal`, `TxDsp` and `Demodulator` are the circular FIR paths;
`TxAudioStream` is the transmit queue, envelope and limiter, `Drain` is the
pipeline a graceful stop drains and `GracefulStop` joins it to the unkey;
`AudioRing` is the client's lock-free ring under every interleaving of its two
threads with stale indices.

**Configuration.** `Config` is the loader, line by line as `fgets` delivers them,
and the printer; loading what was printed gives it back, and exactly when.

What the model takes from outside are parameters or free choices: results of USB
and socket calls, the clock, the first lease numbers, the designed filters, and
the C library's functions with only the facts needed (a hypotenuse is
non-negative with the right square, the oscillator's functions repeat every turn,
cosine and sine have squares that add to one where an AM bound needs it, rounding
is to the nearest integer with ties to even). Floats are exact reals throughout,
including the tuning word the program computes in `double` (src/protocol.c:130-132).

Results that did not come out as the program's description suggests:

- A start that fails discards the result of its own cleanup (src/usb_rx.c:1006,
  src/usb_rx.c:1092), and the one stop that follows finds nothing to do, so
  `cleanup_failed` is never set by a failed start of any owner the daemon uses
  (`Transmitter.TxControl.Request`), even with the radio left keyed
  (`UnreportedFault.UnreportedKeyedRadio`). After a fault the flag is set exactly
  when the stop of a running transmission failed; `Daemon.FlexDaemon.Run` keeps
  that for every run. The fault itself is always latched.
- A cleanup need not restore the receive word: `TxLifecycle.StaleWordSurvivesCleanup`
  is a history where it does not, and by `TxLifecycle.WordRestoredIff` it does
  exactly when the mute or frequency stage was reached or the host was already
  sure of the word from the results it had seen.
- A shutdown that reports "PA filter 0" resets the filter only if the host holds one
  selected; after a retune that failed at its PA filter it does not
  (`TxLifecycle.UnheldFilterSurvivesShutdown`, `Daemon.FlexDaemon.ShutDown`).
- The second stop of the stream at the end of a carrier stop (src/usb_rx.c:1226-1228)
  never finds a stream; `UsbRx.Receiver.CarrierStop` proves it.
- `graceful_drained_frames` also counts frames lost in transfers that failed, were
  cancelled or could not be resubmitted (`Drain.LostCountsAsDrained`); all of them
  were sent exactly when no transfer carrying audio ended other than completed and
  none refilled with audio failed to resubmit (`Drain.Pipeline.DrainAudio`).
- A second setting of a configuration key is refused, but only after its value has
  been taken (`Config.DuplicateStillAssigns`), and some negative numbers pass for
  ports (`Config.NegativePortWraps`).
- A printed configuration whose path is longer than 482 characters cannot be loaded:
  its title line overruns the line buffer.

## Model

| member | source | states |
|---|---|---|
| Protocol.PolicyImpliesTunable | src/protocol.c:242-363 | any frequency a transmit policy admits has a PA filter and a transmit word for every carrier offset, so no start fails its frequency check after the policy passed; the policies imply one another as listed |
| Protocol.WordFitsAndIsMonotone | src/protocol.c:123-134 | the tuning word fits the packet's 32 bits and never decreases with frequency |
| Protocol.WordTunesTo | src/protocol.c:123-134 | the frequency the word stands for is the requested one to within 0.06 Hz and never above it |
| Protocol.FiltersFollowBounds | src/protocol.c:164-263 | the receive filter numbers are 0 and then 11 down to 1 between the listed bounds, the PA filter numbers 7 down to 1 |
| Protocol.GuardIsContainment | src/protocol.c:305-361 | a frequency passes a guarded policy exactly when everything within the guard is inside the voice allocations |
| Protocol.SidebandIsCustomary | src/protocol.c:325-336 | a station that is not mode aware gets lower sideband below 10 MHz, upper above it and on the 60 m channels, and only where voice is allowed |
| Trace.MayBeKeyedIsExact | src/usb_rx.c:779-784 | "may be keyed" holds exactly when some radio behaviour consistent with all reported results ends keyed |
| Trace.MayHaveWordIsExact | src/usb_rx.c:779-784 | "may have this word" holds exactly when some radio behaviour consistent with all reported results ends on it |
| Trace.WordIsCertain | src/usb_rx.c:779-784 | the host can be sure of the word exactly when its last tuning command reported done was to that word and none to another has failed since |
| Trace.OnlyMutesWhileKeyed | src/usb_rx.c:985-1003 | in a disciplined history only mute, unmute and stream servicing occur between SET_TR(1) and the next SET_TR(0) attempt |
| Trace.AllowedJobStaysInBand | src/protocol.c:242-363 | a job is allowed exactly when its whole emission, 3 kHz either side for AM and 24 kHz for raw samples, stays inside the allocations |
| Trace.ReadyAtKeyUp | src/usb_rx.c:965-990 | at every SET_TR(1) the PA filter and word mapped from the frequency are in force, the amplifier on, the stream started and not released, the transition muted |
| TxLifecycle.MutesArePaired | src/tx_lifecycle.c:5-28 | a plan that mutes also unmutes exactly when keying was never attempted before the mute or the frequency |
| TxLifecycle.CleanedIs | src/tx_lifecycle.c:30-57 | a cleanup whose every action succeeds leaves each field of the radio restored or, if its stage was not attempted, untouched |
| TxLifecycle.WordRestoredIff | src/tx_lifecycle.c:5-57 | after a cleanup whose every command is reported done the radio is on the receive word, whatever it did, if and only if the mute or frequency stage was reached or the host was already sure of that word |
| TxLifecycle.StaleWordSurvivesCleanup | src/usb_rx.c:1275-1278 | a concrete history from preparation on: a retune reported failed but applied, then a Tune start failing at its first command, ends off the held frequency although the cleanup succeeds |
| TxLifecycle.UnheldFilterSurvivesShutdown | src/usb_rx.c:1285-1291 | a concrete history: after a retune that failed at its PA filter, the shutdown's cleanup succeeds without sending PA filter 0 |
| UsbRx.Receiver.constructor | src/usb_rx.c:515-615 | the initialised receiver is idle, unkeyed and at rest |
| UsbRx.Receiver.Send | src/usb_rx.c:779-784 | a command reported done was applied; a failed one may or may not have been; meanwhile the stream or device may be found dead |
| UsbRx.Receiver.StartTxStream | src/usb_rx.c:722-762 | a failed start releases every transfer and leaves no stream |
| UsbRx.Receiver.ServiceTxStream | src/usb_rx.c:677-693 | servicing changes nothing in the radio; if it fails the stream or device may have been lost |
| UsbRx.Receiver.RestoreRxWord | src/usb_rx.c:791-852 | sends the word of the held frequency, if there is one, and reports the servicing that follows |
| UsbRx.Receiver.ResetPa | src/usb_rx.c:791-852 | selects the filter of the held frequency, or 0 when preparation is not preserved, and books it whatever the result |
| UsbRx.Receiver.ExecuteCleanupAction | src/usb_rx.c:791-852 | each action attempts exactly its command and changes only its own bookkeeping |
| UsbRx.Receiver.ExecuteCleanup | src/tx_lifecycle.c:30-57 | every planned action is attempted in the safety order even after errors; success means all succeeded and the radio is the plan's result |
| UsbRx.Receiver.CarrierStop | src/usb_rx.c:1199-1231 | from any stage a stop ends idle with no stream, attempts exactly the planned commands, and if all succeed restores the radio and ends "may be keyed"; with nothing to stop it does nothing |
| UsbRx.Receiver.PrepareStream | src/usb_rx.c:965-975 | filter, amplifier, stream and pre-roll in order up to the first failure, nothing of keying, mute or word touched |
| UsbRx.Receiver.MuteAndRetune | src/usb_rx.c:980-987 | flags are set before their commands, which go out in order up to the first failure; success means muted on the transmit word |
| UsbRx.Receiver.Key | src/usb_rx.c:988-1003 | keys only a radio that is ready; succeeds exactly when nothing in it failed, and is then on the air and unmuted |
| UsbRx.Receiver.KeyUp | src/usb_rx.c:1046-1089 | issues the seven commands of a key-up in order up to the first failure; succeeds exactly when none failed, and then the job is on the air; failure leaves nothing beyond the stage it reached |
| UsbRx.Receiver.StartOrUndo | src/usb_rx.c:965-1008 | succeeds exactly when nothing failed; from any failure point the receiver is idle again, and if the undoing met no error a radio that was at rest is quiet |
| UsbRx.Receiver.TuneCarrierStart | src/usb_rx.c:950-1008 | attempted exactly when the guard allows it, otherwise nothing happens; succeeds exactly when nothing failed, on the word 600 Hz below the frequency |
| UsbRx.Receiver.AudioStart | src/usb_rx.c:1010-1094 | the same for microphone and network transmissions with their mode, raw and translation settings; the word on the air is that of the frequency, or of 11025 Hz below it for AM and translated raw samples |
| UsbRx.Receiver.GracefulStop | src/usb_rx.c:1160-1190 | ends a transmission idle whatever happens to the stream while draining, reports success exactly when nothing failed, and is then quiet; every planned command is attempted |
| UsbRx.Receiver.StopAfterDrain | src/usb_rx.c:1189 | the same from whatever state the drain left the stream in |
| UsbRx.Receiver.Stop | src/usb_rx.c:1142-1145 | the same without draining |
| UsbRx.Receiver.Retune | src/usb_rx.c:1244-1297 | refused while transmitting with nothing changed; otherwise word, receive filter and, if prepared, PA filter go out in order up to the first failure, and success means none failed |
| UsbRx.Receiver.ChangeGain | src/usb_rx.c:1299-1316 | refused while transmitting, or for a gain off the ten-decibel steps from -10 to 30, with nothing sent; otherwise exactly one command outside the key window, and the gain is booked only once it succeeded |
| UsbRx.GainsAreFive | src/usb_rx.c:1305-1308 | five gains, ten decibels apart, numbered from the lowest |
| UsbRx.Receiver.EnablePreparation | src/usb_rx.c:854-903 | antenna, mapped PA filter and amplifier; prepared exactly when nothing failed |
| UsbRx.Receiver.DisablePreparation | src/usb_rx.c:905-933 | ends idle and unprepared; success means the amplifier off if it had been prepared, and PA filter 0 if a filter was held selected, else the filter untouched |
| UsbRx.UndoneIsQuiet | src/usb_rx.c:1005-1007 | from any failure point of a start begun at rest, an error-free cleanup ends unkeyed, unmuted, silent, amplifier off, on the receive word if it was right before |
| UsbRx.UndoneWord | src/usb_rx.c:1005-1007 | after an error-free cleanup of a failed start the host is sure of the receive word exactly when the mute or frequency stage was reached or it was sure before |
| UsbRx.StopIsDone | src/usb_rx.c:1211-1225 | a full cleanup restores the radio field by field, and unkeys it if keying had been attempted |
| UsbRx.MaskedPlanIsDone | src/usb_rx.c:925-932 | a cleanup cut down to filter and amplifier restores just those |
| UnreportedFault.UnreportedKeyedRadio | src/usb_rx.c:1005-1007 | a concrete history of a Tune start and its cleanup after which the radio is keyed and the fault not reported as a failed cleanup |
| StationOwner.Station.Acquire | src/station_owner.c:25-36 | granted exactly when nobody holds the station and the lease is not 0 |
| StationOwner.Station.Keepalive | src/station_owner.c:38-45 | renews exactly the held lease, without looking at its age |
| StationOwner.Station.Release | src/station_owner.c:47-54 | ends exactly the held lease |
| StationOwner.Station.Tick | src/station_owner.c:56-64 | expires a lease exactly when its age, in wrapping 64-bit time, reaches the limit |
| StationOwner.ElapsedIs | src/station_owner.c:59 | 64-bit subtraction gives the time passed, across the wrap of the clock too |
| Calls.Bracketed | src/tx_control.c:13-88 | in an unbroken run of callbacks every start is answered by a stop of the same owner before anything else, and every stop answers such a start |
| Calls.NoStartAfterFailure | src/tx_control.c:58-88 | after a failed start or stop no start ever follows |
| Calls.StepAt | src/tx_control.c:13-88 | the phases of an unbroken run form one path |
| Transmitter.TxContext.ResolvedModeAllowed | src/flex1500d.c:619-652 | a resolved microphone mode satisfies its frequency policy |
| Transmitter.ResolvedModeIs | src/flex1500d.c:619-652 | the microphone mode is the customary sideband for a station that is not mode aware and otherwise the receive mode, exactly where its policy admits it |
| OnAir.SignalIsOnFrequency | src/usb_rx.c:1020-1027 | the word an audio job is tuned to lies below its frequency by exactly as many hertz as the signal path turns in 48000 samples, so the signal is where the policy admitted it |
| Transmitter.TxContext.OwnerStart | src/flex1500d.c:654-727 | attempted exactly when the policy of what the owner would transmit admits the frequency; succeeds exactly when nothing failed and is then on the air for precisely that; otherwise nothing happens |
| Transmitter.TxContext.StartNetwork | src/flex1500d.c:662-705 | the same for the mode and source of the session's profile, translated when the prebuffer looks like a carrier |
| Transmitter.TxContext.StartMicrophone | src/flex1500d.c:706-727 | the same for the resolved mode, with the microphone captured |
| Transmitter.TxContext.OwnerStop | src/flex1500d.c:729-777 | ends every owner's transmission, reports success exactly when nothing failed, quiet then; audio drains exactly for a graceful stop of an audio owner |
| Transmitter.TxControl.StopOwner | src/tx_control.c:13-29 | ownership always ends; exactly one stop of that owner is called; a failed one latches the fault and, only then, sets the failed-cleanup flag |
| Transmitter.TxControl.Request | src/tx_control.c:58-88 | refused without any effect exactly as the refusal says; otherwise one start, which succeeds exactly when it could be attempted and nothing failed, and after a failed one exactly one stop and the fault |
| Transmitter.TxControl.RefusalIs | src/tx_control.c:61-72 | accepted exactly when nobody owns a working transmitter, for the microphone only with PTT armed |
| Transmitter.TxControl.GiveUp | src/tx_control.c:76-82 | the stop after a failed start reports an error for no owner that has a radio to stop |
| Transmitter.TxControl.Release | src/tx_control.c:90-106 | only the owner's release has an effect, and it ends the ownership |
| Transmitter.TxControl.PhysicalPtt | src/tx_control.c:108-134 | the whole table: a release stops the microphone's own transmission, letting audio drain, and nobody else's; an armed press starts the microphone, after ending anybody else's transmission without an error; an unarmed release arms |
| Transmitter.TxControl.Tick | src/tx_control.c:136-151 | stops the owner exactly when the maximum-key time has passed |
| Transmitter.TxControl.Shutdown | src/tx_control.c:153-158 | nobody owns the transmitter afterwards |
| Transmitter.TxControl.SetTimeoutSeconds | src/tx_control.c:160-168 | changes the limit exactly when unowned and between 30 and 1800 seconds |
| Transmitter.TxControl.ArmPhysicalPtt | src/tx_control.c:48-56 | arms PTT exactly when enabled and unowned, and then leaves the start-up inhibit |
| Transmitter.TxControl.OwnerIsOnAir | src/tx_control.c:13-158 | at rest an owner is recorded exactly when transmitting, the radio is on the air for that owner, and without owner or fault it is known to be unkeyed and last tuned to the held frequency; the failed-cleanup flag is set exactly when the stop of a running transmission failed |
| Transmitter.TuneControl.StopActive | src/tune_control.c:7-26 | the lease is gone whatever the radio does, and only the Tune owner is ever stopped |
| Transmitter.TuneControl.Start | src/tune_control.c:39-65 | each refusal in order, with nothing changed; otherwise the start, and a lease exactly if it succeeded |
| Transmitter.TuneControl.Keepalive | src/tune_control.c:67-83 | renews only the held lease, and ends it and its transmission instead when a limit has passed |
| Transmitter.TuneControl.Stop | src/tune_control.c:85-94 | the held lease ends its carrier's transmission; any other changes nothing |
| Transmitter.TuneControl.Tick | src/tune_control.c:96-108 | ends the carrier exactly at its hard limit or lease limit |
| Transmitter.TuneControl.Reconcile | src/tune_control.c:110-123 | afterwards the carrier is active exactly when Tune owns the transmitter |
| Transmitter.NetworkTx.Acquire | src/network_tx.c:58-74 | reserved exactly when enabled, valid, unreserved and the transmitter unowned |
| Transmitter.ProfilesAre | src/network_tx.c:7-22 | the accepted profiles: drive 1 to 100, 48000 samples a second, and raw samples exactly in the IQ mode |
| Transmitter.NetworkTx.Keepalive | src/network_tx.c:76-82 | renews exactly the held lease, without looking at its age |
| Transmitter.NetworkTx.AttachStream | src/network_tx.c:84-93 | one stream per session, starting with an empty prebuffer |
| Transmitter.NetworkTx.RecordData | src/network_tx.c:95-108 | the prebuffer count saturates at 4096 frames |
| Transmitter.NetworkTx.PttStart | src/network_tx.c:110-128 | each refusal in order, with nothing changed; otherwise the start for the session's own profile, keyed exactly if it succeeded |
| Transmitter.NetworkTx.PttStop | src/network_tx.c:130-146 | the held lease ends the network's transmission gracefully and empties the prebuffer; any other changes nothing |
| Transmitter.NetworkTx.Release | src/network_tx.c:148-155 | the held lease ends the session and the network's transmission; any other changes nothing |
| Transmitter.NetworkTx.DisconnectStream | src/network_tx.c:157-165 | unkeys only the network owner and keeps the reservation |
| Transmitter.NetworkTx.Tick | src/network_tx.c:167-177 | ends the session exactly when its lease has run out |
| Transmitter.NetworkTx.Reconcile | src/network_tx.c:179-186 | afterwards the session is keyed exactly when the network owns the transmitter |
| Events.LeasesDiffer | src/api.c:303-305 | no lease number is handed out twice before the counter has gone all the way round |
| Daemon.FlexDaemon.constructor | src/flex1500d.c:895-935 | the daemon after start-up satisfies the invariant, with PTT armed, nobody transmitting and a key limit of 180 seconds |
| Daemon.FlexDaemon.Pass | src/flex1500d.c:941-994 | a transmission ends exactly when its lease, the station's lease or the key limit is over, a session goes with its transmission, and nothing else changes |
| Daemon.PassIs | src/flex1500d.c:941-994 | the station, Tune, owner and network watchdogs one after the other are one pass |
| Daemon.FlexDaemon.MicrophonePtt | src/flex1500d.c:1079-1145 | the microphone's release ends its transmission; a press at an allowed frequency and mode takes the transmitter, at any other changes nothing |
| Daemon.FlexDaemon.PassEdge | src/tx_control.c:108-134 | the edge as the owner machine takes it: a release stops the microphone with one graceful stop and spares every other owner, an armed press starts it, after stopping whoever else transmits |
| Daemon.FlexDaemon.DispatchOwner | src/api.c:292-345 | taking, renewing and giving up the station, with the answer to each; giving it up is refused while anyone transmits |
| Daemon.FlexDaemon.DispatchPtt | src/api.c:382-401 | keying, unkeying and giving up a session happen for its lease, with the answer to each, and nothing happens for any other; it never takes the transmitter from anyone |
| Daemon.FlexDaemon.KeyNetwork | src/api.c:386-399 | a session keys exactly when its stream is open and filled and the transmitter free for it; otherwise nothing moves |
| Daemon.FlexDaemon.UnkeyNetwork | src/network_tx.c:130-142 | the session holding the lease ends unkeyed with the network off the air; any other lease is stale and changes nothing |
| Daemon.FlexDaemon.ReleaseNetwork | src/network_tx.c:144-155 | the session holding the lease is gone with the network off the air; any other lease is stale and changes nothing |
| Daemon.FlexDaemon.DispatchSession | src/api.c:361-438 | reserving, keeping, opening and feeding a session, with the answer to each; the transmitter is never touched |
| Daemon.FlexDaemon.DispatchTune | src/api.c:556-612 | the carrier starts within its policy with the transmitter unowned; its lease keeps or ends it, and any other changes nothing |
| Daemon.FlexDaemon.StartTune | src/api.c:572-584 | the carrier goes on the air under a fresh lease, or one stop follows and the fault is latched |
| Daemon.FlexDaemon.KeepTune | src/api.c:598-600 | the held lease is renewed, or its carrier stopped when over a limit; any other is stale |
| Daemon.FlexDaemon.StopTune | src/api.c:601-607 | the held lease ends with its carrier; any other is stale and changes nothing |
| Daemon.FlexDaemon.DispatchSetting | src/api.c:523-654 | each setting takes effect exactly when it answers 200; key limit, frequency and mode are refused while anyone transmits |
| Daemon.FlexDaemon.DispatchGain | src/api.c:670-682 | a gain request, which no owner check stops, sends nothing and changes nothing while anyone transmits; otherwise it attempts exactly its command |
| Daemon.FlexDaemon.Dispatch | src/api.c:288-654 | the answer and the effect of every request; without the station lease none but station requests has any |
| Daemon.FlexDaemon.CloseNetworkStream | src/flex1500d.c:1446-1457 | a closed stream unkeys the network's transmission and no other, and keeps the reservation |
| Daemon.FlexDaemon.RtlFrequency | src/flex1500d.c:1194-1218 | an rtl_tcp retune is carried out, or ignored while anyone transmits or holds the station |
| Daemon.FlexDaemon.ReceiveNetworkData | src/flex1500d.c:1420-1445 | frames from the open stream fill the prebuffer and do nothing else |
| Daemon.FlexDaemon.ReceiverFault | src/usb_rx.c:402-406 | a dead stream or device is noted and stops nothing by itself |
| Daemon.FlexDaemon.ShutDown | src/flex1500d.c:1488-1501 | nobody owns the transmitter; a radio that may still be keyed has latched the fault; with no error it is unkeyed, unmuted and silent, the amplifier is off and the PA filter 0 or, if none was held selected, untouched |
| Daemon.FlexDaemon.InvIsSafe | src/flex1500d.c:779-788 | the step invariant implies safety on the whole histories and every time limit |
| Daemon.FlexDaemon.Step | src/flex1500d.c:940-1477 | any event keeps the invariant and the fault latch, and has exactly its stated effect and answer |
| Daemon.FlexDaemon.Run | src/flex1500d.c:940-1477 | over every run: only mutes while keyed, every key-up ready and allowed, callbacks bracketed, a possibly keyed radio without an owner means a latched fault, owners hold their sessions and the station, at rest the radio's word is that of the held frequency or of a tuning command that failed since, and nothing outlives its limit by the longest gap between passes; and every event has exactly the effect and the answer stated for it |
| Frame.PayloadRoundTrip | src/network.c:268-294 | the samples of a payload are read back bit for bit |
| Frame.HeaderFields | src/network.c:268-294 | a reader finds magic, sequence, rate and count where the header put them |
| Frame.LoadStore | src/network.c:16-32 | the big- and little-endian stores are undone by their loads |
| Frame.BytesOrder | src/network.c:16-32 | the little-endian store puts the least significant byte first, the big-endian one the reverse |
| Frame.FrameLayout | src/network.c:268-294 | magic, number, rate and count, then eight bytes a sample, I before Q |
| Frame.EncodeIqFrame | src/network.c:268-294 | writes exactly the frame of the samples, or nothing when it does not fit |
| IqRing.Ring.Push | src/iq.c:94-111 | a bounded queue: what fits is appended in order, the rest counted as dropped |
| IqRing.Ring.Pop | src/iq.c:113-123 | takes the oldest samples in order |
| IqRing.Ring.Clear | src/iq.c:125-130 | empties the queue |
| IqStream.StreamReadsBack | client/src/iq_stream.cpp:123-150 | whole consecutive frames and part of the next decode to exactly those frames and then the end, from any starting number, across wrap-around |
| IqStream.DecodeFrame | client/src/iq_stream.cpp:123-150 | a frame at the front is read back sample for sample |
| IqStream.DecodeCutFrame | client/src/iq_stream.cpp:123-150 | a cut frame is not read at all |
| IqStream.DecodeVerdict | client/src/iq_stream.cpp:123-150 | after a whole header the outcome is oversized, disconnected, lost or received exactly as count, length and number say |
| IqStream.ForeignIsInvalid | client/src/iq_stream.cpp:128-133 | a header is invalid exactly when its magic or its rate is another |
| IqStream.Decoder.ReceiveUntil | client/src/iq_stream.cpp:110-121 | loses and reorders nothing, and fails only when the connection ends first |
| IqStream.Decoder.ReadFrame | client/src/iq_stream.cpp:123-150 | the outcome depends on the bytes only, not on their chunking; only a received frame is consumed |
| IqStream.Decoder.ReadAll | client/src/iq_stream.cpp:123-150 | reading to the first failure is decoding the whole byte string |
| Publisher.StreamIgnoresLater | src/publisher.c:9-28 | frames encoded later do not change the bytes of earlier ones |
| Publisher.IqClients.SendToSlot | src/flex1500d.c:413-431 | a client's bytes grow by what its socket took, or it is closed |
| Publisher.IqClients.SendRound | src/flex1500d.c:410-432 | incomplete exactly when some connected client lacks part of the frame |
| Publisher.IqClients.WriteIqClients | src/flex1500d.c:410-447 | done only when every client has the whole frame; otherwise everyone keeps its place |
| Publisher.IqPublisher.PrepareFrame | src/publisher.c:9-28 | keeps an unsent frame, else encodes up to a frame of the oldest samples under the next number |
| Publisher.IqPublisher.Pump | src/publisher.c:45-81 | one step keeps every client on whole consecutive frames plus a prefix, every sample is in a frame or still queued, in order, and the counters tell the outcome |
| Publisher.IqPublisher.Disconnect | src/publisher.c:83-89 | drops the frame being sent and nothing else |
| Publisher.IqServer.Connect | src/flex1500d.c:1315-1340 | a new client starts at a frame boundary; for the first one everything accepted before is discarded or already framed |
| Publisher.IqServer.PumpAll | src/flex1500d.c:1460-1476 | ends with everything sent, or with a client that lags, or with no client; what left the queue is in the frames |
| Publisher.IqServer.ClientReadsBack | src/flex1500d.c:410-447 | in every reachable state a client's bytes decode to exactly the samples of the frames since it joined |
| Publisher.IqServer.ClientHearsAccepted | src/flex1500d.c:410-447 | those frames are one stretch of the samples the queue accepted and the daemon did not discard, bit for bit and with none missing |
| Publisher.ConcatStretch | src/publisher.c:9-28 | consecutive frames hold one stretch of all the samples encoded |
| Publisher.IqServer.Receive | src/iq.c:94-111 | what fits is accepted in order |
| Publisher.IqServer.DiscardQueue | src/iq.c:125-130 | exactly the queued samples are discarded |
| Publisher.IqServer.ReadClient | client/src/iq_stream.cpp:110-150 | the same through the decoder object for any chunking of the connection |
| Publisher.IqServer.HearsAllSince | src/flex1500d.c:1460-1476 | while nothing is discarded, what a client has heard, at most one frame and the queue make up everything accepted since |
| Publisher.IqServer.Run | src/flex1500d.c:1003-1009 | any run of samples, joins, partial sends, drops and recoveries keeps that; the queue accepts what fits of each arrival and counts the rest as dropped; every accepted sample is in a frame, discarded or queued; and without joins or discards every client still connected hears everything accepted meanwhile, up to one frame and the queue |
| Quantiser.Encode | src/rtl_tcp.c:70-82 | byte plus new error is level plus old error, and the error stays within 1/2 |
| Quantiser.LevelIs | src/rtl_tcp.c:70-76 | silence is the middle level, full scale either end, in proportion between |
| Quantiser.RoundInRange | src/rtl_tcp.c:70-82 | the clamp acts on nothing but a tie at the top |
| Quantiser.NoDrift | src/rtl_tcp.c:70-82 | over any run the bytes add up to the ideal levels up to the carried errors, within 1/2 from a reset |
| Resampler.SourceIsStream | src/rtl_tcp.c:153-165 | within the history's reach the block code reads the stream itself, zero before its start |
| Resampler.ReadsInReach | src/rtl_tcp.c:167-190 | every index read is at most 17 before the block and never past it |
| Resampler.OutputIsIdeal | src/rtl_tcp.c:167-241 | an output of a block is the weighted window of the whole stream at its position |
| Resampler.NominalIsPosition | src/rtl_tcp.c:225-228 | the accumulated phase gives exactly position k * 48000 / R - 9 |
| Resampler.NearestIs | src/rtl_tcp.c:171-177 | the tabulated position is within half a table step of the exact one |
| Resampler.OutputPosition | src/rtl_tcp.c:167-228 | output k is interpolated within half a table step of k * 48000 / R - 9 |
| Resampler.WindowIsShares | src/rtl_tcp.c:182-189 | an output is the sum of all input samples, each weighted by its distance from the output's centre |
| Resampler.SecondsMatch | src/rtl_tcp.c:219-242 | a second of input makes exactly a second of output |
| Resampler.ReadIsConjugate | src/rtl_tcp.c:211-216 | clients get the conjugate of the radio's signal |
| Resampler.FramesAreAccepted | src/rtl_tcp.c:192-216 | the daemon's own frames are accepted up to 256 samples and read as sent |
| Resampler.WrongLengthIsRefused | src/rtl_tcp.c:192-210 | a frame whose length disagrees with its count is refused |
| Resampler.InterleaveAt | src/rtl_tcp.c:235-238 | I comes first in every output pair |
| Resampler.WindowIgnoresLater | src/rtl_tcp.c:167-190 | an output does not depend on samples received later |
| Resampler.Interpolate | src/rtl_tcp.c:167-190 | the tap loop computes the window sum |
| Resampler.Remember | src/rtl_tcp.c:244-266 | the history is always the last 64 samples |
| Resampler.RtlResampler.constructor | src/rtl_tcp.c:144-151 | a reset resampler has emitted nothing of an empty stream |
| Resampler.RtlResampler.ProducedIsRatio | src/rtl_tcp.c:219-242 | after N samples exactly the rate ratio times N outputs, rounded up, have been produced |
| Resampler.RtlResampler.ProduceBlock | src/rtl_tcp.c:219-241 | all outputs of a block, or full exactly when they do not fit |
| Resampler.RtlResampler.ResampleIq | src/rtl_tcp.c:192-270 | a refused frame has no effect; an accepted one extends the emitted bytes to those of the whole stream; cut short exactly when the buffer is too small |
| Resampler.BufferIsExact | src/flex1500d.c:334 | every block of at most 256 samples fits the daemon's buffer if and only if the rate is at most 3072000 |
| Resampler.Feed | src/flex1500d.c:363-377 | at the rates the daemon accepts no block is ever cut short |
| Resampler.ResampleAll | src/rtl_tcp.c:192-270 | for every cutting of the input into frames the bytes are those of one pass over all samples |
| AudioRing.AudioRing.StepPush | client/src/audio_ring.cpp:13-27 | stores exactly when a sample is left and room is seen; no slot still to be read is written; the rest is counted as dropped |
| AudioRing.AudioRing.StepPop | client/src/audio_ring.cpp:29-42 | delivers exactly the oldest unread announced sample |
| AudioRing.AudioRing.ClearAll | client/src/audio_ring.cpp:44-48 | moves past exactly what was announced |
| AudioRing.AudioRing.BeginPush | client/src/audio_ring.cpp:15-16 | the loaded read index may be stale but never goes back |
| AudioRing.AudioRing.BeginPop | client/src/audio_ring.cpp:31-32 | the loaded write index may be stale but never goes back |
| Fates.AllKept | client/src/audio_ring.cpp:29-42 | when nothing was cleared the delivered samples are all those passed, in order |
| AudioRing.SlotsDiffer | client/src/audio_ring.cpp:19-23 | positions less than a turn apart use different slots |
| AudioRing.StoreKeeps | client/src/audio_ring.cpp:19-23 | storing the next sample leaves every unread one in its slot |
| AudioRing.ValidIsFaithful | client/src/audio_ring.cpp:9-48 | delivered samples are the accepted ones in order, unread ones are in their slots, at most the capacity is held, and every offered sample was accepted or dropped |
| AudioRing.Take | client/src/audio_ring.cpp:13-48 | one memory access of either thread does to slots and wrapped indices what it does to an unbounded queue of positions |
| AudioRing.OnlyClearDiscards | client/src/audio_ring.cpp:44-48 | without clears no accepted sample is ever discarded |
| AudioRing.AcceptedIsAdmitted | client/src/audio_ring.cpp:13-27 | the accepted samples are the ones handed to pushes, in order, without those counted as dropped |
| AudioRing.Run | client/src/audio_ring.cpp:9-48 | that holds after every interleaving of the two threads with any staleness: the ring ends exactly where the schedule takes the unbounded queue, and without clears the output is a prefix of what was accepted |
| Signal.FilteredAt | src/tx_dsp.c:60-70 | filtering along the signal is convolution of the whole signal, zero before its start |
| Signal.ImpulseResponse | src/tx_dsp.c:60-70 | the filter answers an impulse with its coefficients in order |
| Signal.ConstantDies | src/tx_dsp.c:75-78 | the high pass takes a constant away, half a percent a sample |
| Signal.Fir | src/tx_dsp.c:60-70 | the loop over the circular line computes the convolution over the whole history |
| Signal.RememberNext | src/tx_dsp.c:79-81 | overwriting the oldest slot keeps the last 129 samples in the line |
| TxDsp.AmStaysInside | src/tx_dsp.c:90-96 | an AM sample is never zero and never leaves the unit circle |
| TxDsp.CarrierNext | src/tx_dsp.c:97-101 | the accumulated and wrapped carrier phase is exactly 11025/48000 of a turn per sample |
| TxDsp.CarrierTurns | src/tx_dsp.c:97-101 | the carrier makes 11025 turns in 48000 samples |
| TxDsp.SidebandsTurn | src/tx_dsp.c:103-108 | LSB turns with the audio's phase, USB against it, as the AM carrier does |
| TxDsp.AudioAt | src/tx_dsp.c:74-84 | each audio sample is the band-pass convolution of everything heard before it |
| TxDsp.EnvelopeDepth | src/tx_dsp.c:90-94 | the AM envelope is five ninths of full scale and swings four fifths of itself either way |
| TxDsp.Modulator.Init | src/tx_dsp.c:20-58 | starts over with an empty history |
| TxDsp.Modulator.Process | src/tx_dsp.c:72-111 | each output is the whole-history formula: the filtered audio delayed by 64 samples and its Hilbert convolution, negated for USB and not for LSB, or the AM carrier |
| Demodulator.AudioIsCausal | src/dsp.c:101-134 | audio already produced never depends on later input, so chunks do not matter |
| Demodulator.FilterNext | src/dsp.c:65-71 | the interleaved accumulation is the complex convolution, two real ones for each part |
| Demodulator.ComplexImpulse | src/dsp.c:65-71 | the complex filter answers an impulse with its coefficients, and one a quarter turn ahead a quarter turn ahead |
| Demodulator.OffsetComesToRest | src/dsp.c:106-113 | a tone at the tuning offset comes to rest |
| Demodulator.AmMeasuresLength | src/dsp.c:79-80 | AM detection is the channel's length |
| Demodulator.FmMeasuresTurn | src/dsp.c:81-93 | FM detection is the turn since the last sample in half turns, forward positive, whatever the strength |
| Demodulator.SsbIsInPhase | src/dsp.c:94-96 | either sideband is the channel's in-phase part |
| Demodulator.GainFollows | src/dsp.c:125-127 | the envelope closes one percent of the way up or a hundredth of a percent down, and never overshoots |
| Demodulator.SettledLevel | src/dsp.c:128 | a settled signal comes out at seven tenths; nothing is amplified more than 700000 times |
| Demodulator.DetectedAt | src/dsp.c:76-98 | each detected sample comes from the channel now and one sample before |
| Demodulator.AudioAt | src/dsp.c:119-131 | each audio sample is the high-passed detector output, times the gain when gain control is on |
| Demodulator.PhaseNext | src/dsp.c:115-117 | stepping and wrapping keeps the oscillator within half a turn and a whole number of turns from the unwrapped phase |
| Demodulator.SamePhaseRotates | src/dsp.c:109-113 | so the wrapped oscillator turns every sample as the unwrapped one would |
| Demodulator.Demodulator.FilterSample | src/dsp.c:59-74 | the loop over the circular history is the convolution of the whole shifted input |
| Demodulator.Demodulator.Process | src/dsp.c:101-134 | a chunk yields the next stretch of oscillator, filter, detector, high pass and gain control applied to the whole input |
| TxAudioStream.LimitedIsWithin | src/tx_audio_stream.c:273-279 | the limiter keeps i*i + q*q within the squared limit and leaves samples already inside alone |
| TxAudioStream.FullScaleIsDrive | src/tx_audio_stream.c:210-279 | a sample of unit length leaves with 248.9 steps for every percent of drive |
| TxAudioStream.ShapedScales | src/tx_audio_stream.c:271-272 | before the limiter the output is in proportion to signal and fade |
| TxAudioStream.FadeFollows | src/tx_audio_stream.c:259-270 | the fade rises with the position and falls with the queue of a graceful stop, over 480 frames each |
| TxAudioStream.EnvelopeRises | src/tx_audio_stream.c:11-17 | the envelope rises from zero to one |
| TxAudioStream.CompressorIsThreeToOne | src/tx_audio_stream.c:238-252 | gain, and above a quarter of full scale compression three to one with the sign kept, never louder |
| TxAudioStream.TranslationIsTheCarrier | src/tx_audio_stream.c:217-232 | translation turns a raw carrier as the AM carrier turns and changes no length |
| TxAudioStream.AmIsTranslatedCarrier | src/tx_dsp.c:90-101 | an AM sample is the translated carrier times the envelope |
| TxAudioStream.PcmReadsBack | src/tx_audio_stream.c:139-147 | network audio is read back sample for sample |
| TxAudioStream.SentReadsBack | src/tx_audio_stream.c:305-308 | a sent frame reads back as the numbers sent |
| TxAudioStream.IqReadsBack | src/tx_audio_stream.c:168-187 | raw frames are read back I before Q, microphone frames without their Q |
| TxAudioStream.LowByteFirst | src/tx_audio_stream.c:305-308 | sixteen-bit samples are sent low byte first |
| TxAudioStream.NeverClips | src/tx_audio_stream.c:19-30 | so neither part reaches the 16-bit clamp |
| TxAudioStream.SentWithin | src/tx_audio_stream.c:271-285 | no part of any sample reaches the 16-bit clamp, whatever the drive and fade |
| TxAudioStream.SentIsScaled | src/tx_audio_stream.c:258-285 | a sample inside the unit circle goes out times 248.9 per percent of drive and the fade, to within half a step |
| TxAudioStream.FadedOutIsZero | src/tx_audio_stream.c:271-285 | a faded-out sample is sent as exactly zero |
| TxAudioStream.RenderedInPieces | src/tx_audio_stream.c:207-316 | rendering in pieces is rendering in one go |
| TxAudioStream.SilentTail | src/tx_audio_stream.c:259-282 | in a graceful stop every frame from the one that empties the queue on is zero; so is the first after a start |
| TxAudioStream.TapeQueue | src/tx_audio_stream.c:214-235 | samples leave oldest first, one a frame |
| TxAudioStream.TapeIs | src/tx_audio_stream.c:212-263 | after any number of frames the signal path has heard exactly the queued audio and then silence, and the envelope has moved on to its end |
| TxAudioStream.RenderedAt | src/tx_audio_stream.c:305-308 | every frame of a rendering is that of the tape as it is then |
| TxAudioStream.AudioStream.Init | src/tx_audio_stream.c:32-49 | refuses bad settings without effect, else starts empty |
| TxAudioStream.AudioStream.Reset | src/tx_audio_stream.c:51-64 | empties the queue; the frames it throws away are the only ones not in the counters |
| TxAudioStream.AudioStream.BeginGracefulStop | src/tx_audio_stream.c:72-78 | only audio, not raw samples, drains |
| TxAudioStream.AudioStream.Prepare | src/usb_rx.c:1029-1045 | ready exactly when the settings are good and a prebuffer, if any, holds a frame; the queue then holds the prebuffered frames that fit |
| TxAudioStream.AudioStream.PushPcm16 | src/tx_audio_stream.c:133-161 | a bounded FIFO push with the rest counted as dropped; nothing while raw or stopping |
| TxAudioStream.AudioStream.PushIq16 | src/tx_audio_stream.c:163-205 | the same for four-byte frames, keeping Q only when raw |
| TxAudioStream.AudioStream.NextSample | src/tx_audio_stream.c:213-256 | the oldest sample through gain, compressor and signal path, a raw one past it, silence when none is left |
| TxAudioStream.AudioStream.RenderFrame | src/tx_audio_stream.c:212-311 | the frame the specification gives, never clipped |
| TxAudioStream.AudioStream.Render | src/tx_audio_stream.c:207-316 | the bytes of the specification for any number of frames; output, underrun and limiter counts are exact |
| Drain.InFlightUpdate | src/usb_rx.c:1147-1158 | changing one transfer changes the frames in flight by its own |
| Drain.HandledConserves | src/usb_rx.c:370-407 | whatever the outcome of a transfer and its resubmission every audio frame stays pending, was sent or was lost; frames are lost exactly when the event was not harmless |
| Drain.ReturnsAreRefilled | src/usb_rx.c:370-407 | while the stream runs a transfer that comes back takes the next frames out, and none does once it has stopped |
| Drain.DrainedConserves | src/usb_rx.c:1166-1180 | the same over a whole drain: pending frames never increase |
| Drain.DrainGoesOn | src/usb_rx.c:1166-1180 | the drain handles every event of its turns and ends only with nothing pending, the time over or the stream broken |
| Drain.LostCountsAsDrained | src/usb_rx.c:1182-1183 | a concrete drain of eight transfers in which the audio of a failed one counts as drained |
| Drain.Pipeline.TransferEnds | src/usb_rx.c:370-407 | the callback does exactly that to the queue, the transfers and the flags |
| Drain.Pipeline.PacketArrives | src/usb_rx.c:211-222 | nothing is queued once audio is no longer accepted |
| Drain.Pipeline.HandleEvents | src/usb_rx.c:1171-1175 | the events of a turn, handled one after the other |
| Drain.Pipeline.DrainAudio | src/usb_rx.c:1160-1189 | the specified drain; requested is exactly drained plus discarded, drained exactly sent plus lost, and all sent exactly when every event was harmless |
| GracefulStop.StopGraceful | src/usb_rx.c:1160-1190 | whatever the drain meets, the transmission ends idle, quiet if the unkey reports no error, and the drain's totals add up |
| Config.Trim | src/config.c:50-57 | the loops compute the trimmed text |
| Config.TrimmedSpec | src/config.c:50-57 | trimming leaves a stretch of the text with no white space at its ends, and trimmed text alone |
| Config.ParsePort | src/config.c:156-163 | a port is 1 to 65535 |
| Config.LoadLine | src/config.c:112-195 | one line of the loop is the specified line |
| Config.Load | src/config.c:84-201 | the loop is the specified loader, with its partial result and line number on failure |
| Config.LoadWholeLine | src/config.c:106-112 | a line under 511 characters is read whole |
| Config.LoadLongLine | src/config.c:106-111 | a line of 511 characters or more stops the load |
| Config.LastLineCounts | src/config.c:106-112 | the last line needs no newline |
| Config.FileVerdict | src/config.c:89-96 | a missing file changes nothing when it may be missing; one that cannot be opened is an error |
| Config.HeaderVerdict | src/config.c:112-133 | blank lines and comments do nothing; a header is refused for its form or its name and otherwise changes the section alone |
| Config.SettingVerdict | src/config.c:134-139 | anything else is refused exactly when it has no equals sign or no section |
| Config.KeysOfSections | src/config.c:120-184 | which keys each section knows |
| Config.ValueIsAccepted | src/config.c:146-184 | which values each key accepts |
| Config.SettingIsSeen | src/config.c:186-195 | a setting is accepted only for a key not seen before, and is then seen |
| Config.SecondIsDuplicate | src/config.c:186-190 | a second setting of a key is refused |
| Config.DuplicateStillAssigns | src/config.c:146-190 | yet its value has already been taken |
| Config.PortReadsBack | src/config.c:203-214 | a printed port is read back |
| Config.NegativePortWraps | src/config.c:156-163 | a negative number wraps round 64 bits, so some pass for ports |
| Config.NoPort | src/config.c:156-163 | zero, numbers above 65535 and anything after the number are refused |
| Config.RunHttp | src/config.c:207-210 | the printed http section sets exactly its keys |
| Config.RunRtlTcp | src/config.c:211-213 | the printed rtl_tcp section sets exactly its keys |
| Config.LoadKeepsValid | src/config.c:84-201 | whatever the file holds and wherever loading stops, a valid configuration stays valid |
| Config.RoundTrip | src/config.c:203-214 | loading a printed valid configuration gives it back from any starting value |
| Config.RoundTripIff | src/config.c:84-214 | from any start this holds if and only if the configuration is valid and the path has at most 482 characters |
| Config.LoadedIsValid | src/config.c:84-201 | a printed configuration that loads back, from any start, is valid |

## Left out

- Resampler.ResampleAll: the rtl_tcp slot of `write_iq_clients` (src/flex1500d.c:363-409) is not part of the fan-out model; when an HTTP client lags, a finished rtl_tcp client reaches a zero-length send and is closed.
- Daemon.FlexDaemon.ReceiveNetworkData: counts frames only; the byte tail carried between reads (src/flex1500d.c:1401-1458) is not modelled, and it is not reset on every path that closes the stream.
- Daemon.FlexDaemon.Run: re-initialisation after a USB failure (src/flex1500d.c:996-1076) ends a run; the next one starts from a radio that INITIALIZE has unkeyed.
- Daemon.FlexDaemon.DispatchSetting: bandwidth, squelch, drive, microphone gain and compressor requests, none of which sends a command to the radio.
- UsbRx.Receiver.AudioStart: whether the audio queue is ready (TxAudioStream.AudioStream.Prepare) and whether the prebuffered raw samples look like a carrier (src/tx_audio_stream.c:115-131) come with the event.
- UsbRx.Receiver.GracefulStop: what the drain does to the stream is a free choice there; GracefulStop.StopGraceful takes it from the drain itself.
- TxAudioStream.AudioStream.Render: RMS and peak meters and the largest output step.
- TxAudioStream.AudioStream.SetRaw: switching between audio and raw samples with frames queued, which the program never does.
- Demodulator.Demodulator.Process: what the designed filters pass and stop.
- Quantiser.Encode: samples that are not finite, which the program replaces by zero.
- Resampler.RtlResampler.ResampleIq: wrap-around of the 64-bit sample counter.
- Publisher.IqServer.Run: the number of bytes a socket takes, and the loss of a client, are free choices.
- AudioRing.Run: the clear is a step of the consumer's thread.
- Config.Load: read errors in the middle of a file.
- Protocol.WordFitsAndIsMonotone: floating-point rounding of the tuning word.
- Packet layouts, the command index byte, HTTP and JSON text, Hamlib commands, the web page: string plumbing around the modelled behaviour.
- Filter coefficient design and passband checks: the coefficients are arbitrary.
- Fault-injection stages, diagnostics counters and log output.
- The non-resampling rtl_tcp encoder, the rtl_tcp command parser and the command-line configuration overrides.
