/** Frequency policies, filter maps and tuning words (src/protocol.c).

    Frequencies are in hertz. The tuning word is computed by the program in
    `double`; here it is the exact quotient, truncated as the C cast does. */
module Protocol {

  import opened Common

  const MIN_FREQUENCY := 100_000
  const MAX_FREQUENCY := 54_000_000

  /** Carrier offset of the Tune tone. */
  const TUNE_TONE_HZ := 600

  predicate InRange(frequency: nat) {
    MIN_FREQUENCY <= frequency <= MAX_FREQUENCY
  }

  predicate Within(frequency: nat, low: nat, high: nat, guard: nat) {
    low + guard <= frequency <= high - guard
  }

  /** Inside some voice allocation, at least `guard` hertz from either edge. */
  predicate InVoiceBand(frequency: nat, guard: nat) {
    || Within(frequency, 1_800_000, 2_000_000, guard)
    || Within(frequency, 3_500_000, 4_000_000, guard)
    || Within(frequency, 7_000_000, 7_300_000, guard)
    || Within(frequency, 14_000_000, 14_350_000, guard)
    || Within(frequency, 18_068_000, 18_168_000, guard)
    || Within(frequency, 21_000_000, 21_450_000, guard)
    || Within(frequency, 24_890_000, 24_990_000, guard)
    || Within(frequency, 28_000_000, 29_700_000, guard)
    || Within(frequency, 50_000_000, 54_000_000, guard)
  }

  predicate MicAllowed(frequency: nat, upperSideband: bool) {
    || InVoiceBand(frequency, 0)
    || (upperSideband && 5_351_500 <= frequency <= 5_363_500)
    || (upperSideband && (frequency == 5_330_500 || frequency == 5_346_500 ||
                          frequency == 5_371_500 || frequency == 5_403_500))
  }

  predicate TuneAllowed(frequency: nat) {
    MicAllowed(frequency, true)
  }

  predicate AmAllowed(frequency: nat) {
    InVoiceBand(frequency, 3_000)
  }

  predicate IqAllowed(frequency: nat) {
    InVoiceBand(frequency, 24_000)
  }

  /** The sideband a station that is not mode aware transmits on, if any. */
  function DefaultSideband(frequency: nat): Option<bool> {
    var upper := frequency >= 10_000_000 || 5_330_000 <= frequency <= 5_405_000;
    if MicAllowed(frequency, upper) then Some(upper) else None
  }

  function PaFilter(frequency: nat): Option<nat> {
    if !InRange(frequency) then None
    else if frequency < 2_500_000 then Some(7)
    else if frequency < 5_000_000 then Some(6)
    else if frequency < 8_800_000 then Some(5)
    else if frequency < 17_500_000 then Some(4)
    else if frequency < 24_000_000 then Some(3)
    else if frequency < 35_000_000 then Some(2)
    else Some(1)
  }

  function RxFilter(frequency: nat): Option<nat> {
    if !InRange(frequency) then None
    else if frequency < 480_000 then Some(0)
    else if frequency < 880_000 then Some(11)
    else if frequency < 1_600_000 then Some(10)
    else if frequency < 2_300_000 then Some(9)
    else if frequency < 3_500_000 then Some(8)
    else if frequency < 5_200_000 then Some(7)
    else if frequency < 7_700_000 then Some(6)
    else if frequency < 11_400_000 then Some(5)
    else if frequency < 17_000_000 then Some(4)
    else if frequency < 25_300_000 then Some(3)
    else if frequency < 37_600_000 then Some(2)
    else Some(1)
  }

  function RxWord(frequency: nat): Option<nat> {
    if InRange(frequency) then Some(0xFFFF_FFFF * 2 * frequency / 384_000_000) else None
  }

  function TxWord(carrier: nat, tone: nat): Option<nat> {
    if !InRange(carrier) || tone >= carrier then None else RxWord(carrier - tone)
  }

  /** A tuning word fits in the 32-bit field of the command packet, and a
      higher frequency never gets a lower word. */
  lemma WordFitsAndIsMonotone(f: nat, g: nat)
    requires InRange(f) && InRange(g) && f <= g
    ensures RxWord(f).value <= RxWord(g).value <= 0xFFFF_FFFF
  {
    var scale := 0xFFFF_FFFF * 2;
    assert scale * f <= scale * g <= scale * MAX_FREQUENCY;
  }

  /** Whatever a transmit policy admits, the radio can be put on: a PA filter
      and a transmit word exist for every carrier offset in use, so a start is
      never rejected by the frequency check once the policy has passed. The
      stricter policies imply the voice policy of either sideband. */
  lemma PolicyImpliesTunable(f: nat)
    ensures TuneAllowed(f) || MicAllowed(f, false) || AmAllowed(f) || IqAllowed(f) ==>
              && PaFilter(f).Some?
              && TxWord(f, 0).Some? && TxWord(f, TUNE_TONE_HZ).Some? && TxWord(f, AM_IF_HZ).Some?
    ensures IqAllowed(f) ==> AmAllowed(f)
    ensures AmAllowed(f) ==> MicAllowed(f, false)
    ensures MicAllowed(f, false) ==> MicAllowed(f, true) && TuneAllowed(f)
    ensures DefaultSideband(f).Some? ==> MicAllowed(f, DefaultSideband(f).value)
  {
  }

  /** The radio generates `word` steps of a 192 MHz clock divided by 2^32: what it
      tunes to is the requested frequency to within 0.06 Hz, and never above it. */
  lemma WordTunesTo(f: nat)
    requires InRange(f)
    ensures var tuned := RxWord(f).value as real * 192_000_000.0 / 4_294_967_296.0;
            f as real - 0.06 < tuned <= f as real
  {
    var word := RxWord(f).value;
    assert word * 192_000_000 <= 0xFFFF_FFFF * f < (word + 1) * 192_000_000;
  }

  /** The filter tables as the bounds they are made of. */
  const PA_BOUNDS: seq<nat> := [2_500_000, 5_000_000, 8_800_000, 17_500_000, 24_000_000, 35_000_000]
  const RX_BOUNDS: seq<nat> := [
    480_000, 880_000, 1_600_000, 2_300_000, 3_500_000, 5_200_000,
    7_700_000, 11_400_000, 17_000_000, 25_300_000, 37_600_000]

  /** A frequency lies between two neighbouring bounds of a table. */
  predicate Between(bounds: seq<nat>, i: nat, f: nat) {
    && i <= |bounds|
    && (i > 0 ==> bounds[i - 1] <= f) && (i < |bounds| ==> f < bounds[i])
  }

  /** The PA filter number goes down by one at each bound from 7; the receive
      filters are 0 and then 11 down to 1. */
  lemma FiltersFollowBounds(f: nat, i: nat)
    requires InRange(f)
    ensures Between(PA_BOUNDS, i, f) ==> PaFilter(f) == Some(7 - i)
    ensures Between(RX_BOUNDS, i, f) ==> RxFilter(f) == Some((12 - i) % 12)
  {
  }

  /** A guard means what it is for: everything within it is inside the voice
      allocations too, so a transmission that wide stays inside. */
  lemma GuardIsContainment(f: nat, guard: nat)
    ensures InVoiceBand(f, guard) <==>
              guard <= f && forall g :: f - guard <= g <= f + guard ==> InVoiceBand(g, 0)
  {
    if guard <= f && forall g :: f - guard <= g <= f + guard ==> InVoiceBand(g, 0) {
      assert InVoiceBand(f - guard, 0) && InVoiceBand(f + guard, 0);
      var beyond := BandEnd(f - guard) + 1;
      assert !InVoiceBand(beyond, 0);
    }
  }

  /** The upper edge of the allocation a frequency is in. */
  function BandEnd(f: nat): nat {
    if f <= 2_000_000 then 2_000_000 else if f <= 4_000_000 then 4_000_000 else if f <= 7_300_000 then 7_300_000
    else if f <= 14_350_000 then 14_350_000 else if f <= 18_168_000 then 18_168_000
    else if f <= 21_450_000 then 21_450_000 else if f <= 24_990_000 then 24_990_000
    else if f <= 29_700_000 then 29_700_000 else 54_000_000
  }

  /** A station that is not mode aware uses the customary sideband: lower below
      10 MHz, upper above it and on the 60 m channels. */
  lemma SidebandIsCustomary(f: nat)
    ensures DefaultSideband(f) == Some(false) <==> InVoiceBand(f, 0) && f < 10_000_000
    ensures DefaultSideband(f) == Some(true) <==>
              (InVoiceBand(f, 0) && f >= 10_000_000) || (MicAllowed(f, true) && !InVoiceBand(f, 0))
    ensures MicAllowed(f, true) && !InVoiceBand(f, 0) ==> 5_330_500 <= f <= 5_403_500 && !MicAllowed(f, false)
  {
  }
}
