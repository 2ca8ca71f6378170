/** The spoken-exercise volume button of the audio build: a fixed table of
    five volumes, loudest first, that each press steps through. */
module SpeakVolume {

  /** speak_vols: high, medium, low, lowest, muted. */
  const SpeakVolumes: seq<int> := [1000, 750, 500, 250, 0]

  /** NUM_VOLUMES */
  const NumVolumes: nat := 5

  /** The result of the down-counting search of speak_volume_index started
      at position k: the last position at or below k holding vol, or -1. */
  function SearchDown(vol: int, k: int): (idx: int)
    requires -1 <= k < NumVolumes
    ensures -1 <= idx <= k
    ensures idx >= 0 ==> SpeakVolumes[idx] == vol
    ensures forall j :: idx < j <= k ==> SpeakVolumes[j] != vol
    decreases k + 1
  {
    if k < 0 then -1
    else if SpeakVolumes[k] == vol then k
    else SearchDown(vol, k - 1)
  }

  /** speak_volume_index: the table position of vol, or 0 (the loudest
      entry) for a volume the table does not hold. */
  function SpeakVolumeIndex(vol: int): (idx: nat)
    ensures idx < NumVolumes
    ensures vol in SpeakVolumes ==> SpeakVolumes[idx] == vol
    ensures vol !in SpeakVolumes ==> idx == 0
  {
    var i := SearchDown(vol, NumVolumes - 1);
    if i < 0 then 0 else i
  }

  /** speak_volume_index as the loop it is. */
  method FindSpeakVolumeIndex(vol: int) returns (volIdx: int)
    ensures 0 <= volIdx < NumVolumes
    ensures volIdx == SpeakVolumeIndex(vol)
  {
    volIdx := NumVolumes - 1;
    while volIdx >= 0
      invariant -1 <= volIdx < NumVolumes
      invariant SearchDown(vol, volIdx) == SearchDown(vol, NumVolumes - 1)
      decreases volIdx + 1
    {
      if SpeakVolumes[volIdx] == vol {
        break;
      }
      volIdx := volIdx - 1;
    }
    if volIdx < 0 {
      volIdx := 0;
    }
  }

  /** The volume on_speak_volume stores: the table entry after the current
      one, the muted entry wrapping to the loudest. */
  function NextSpeakVolume(vol: int): (next: int)
    ensures next in SpeakVolumes
    ensures vol in SpeakVolumes ==> next != vol
    ensures next == SpeakVolumes[(SpeakVolumeIndex(vol) + 1) % NumVolumes]
  {
    var idx := SpeakVolumeIndex(vol);
    if idx + 1 == NumVolumes then SpeakVolumes[0] else SpeakVolumes[idx + 1]
  }

  /** Pressing the button on the muted setting turns the volume up to full. */
  lemma MutedWrapsToLoudest()
    ensures NextSpeakVolume(0) == 1000
  {
  }

  /** A volume outside the table counts as the loudest entry, so one press
      gives the second entry. */
  lemma UnknownVolumeStepsToSecond(vol: int)
    requires vol !in SpeakVolumes
    ensures NextSpeakVolume(vol) == 750
  {
  }

  /** The table holds each volume once, so a table volume is found at its
      own position and one press moves to the next position. */
  lemma PressAt(k: nat)
    requires k < NumVolumes
    ensures SpeakVolumeIndex(SpeakVolumes[k]) == k
    ensures NextSpeakVolume(SpeakVolumes[k]) == SpeakVolumes[(k + 1) % NumVolumes]
  {
  }

  /** Five presses from any table volume come back to it. */
  lemma FivePressesReturn(vol: int)
    requires vol in SpeakVolumes
    ensures NextSpeakVolume(NextSpeakVolume(NextSpeakVolume(NextSpeakVolume(NextSpeakVolume(vol))))) == vol
  {
    PressAt(0);
    PressAt(1);
    PressAt(2);
    PressAt(3);
    PressAt(4);
    assert NextSpeakVolume(1000) == 750 && NextSpeakVolume(750) == 500;
    assert NextSpeakVolume(500) == 250 && NextSpeakVolume(250) == 0;
    assert NextSpeakVolume(0) == 1000;
  }
}
