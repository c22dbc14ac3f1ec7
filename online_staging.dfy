/**
 * The result type of online sleep staging and the window constants of the online staging
 * algorithm.  The algorithm itself runs an external classifier and is not part of this model.
 */
module OnlineStaging {
  import opened FrameCodec

  type uint64 = x: int | 0 <= x < 0x1_0000_0000_0000_0000

  /** staging_element_t: one staged epoch.  The stage code is kept as the int it was cast
      from, since the SLEEP_STAGE enumeration is not part of this model. */
  datatype StagingElement = StagingElement(stage: int32, timestamp: uint64)

  /** A value-initialised staging element, as std::vector::resize creates them. */
  const BLANK: StagingElement := StagingElement(0, 0)

  class SleepStagingResult {
    var stages: seq<StagingElement>

    /** The default constructor: no stages. */
    constructor Empty()
      ensures stages == []
    {
      stages := [];
    }

    /** Zips stage codes with timestamps: element i pairs stages[i] with timestamps[i].
        Every timestamp up to |stages| is read; later ones are ignored. */
    constructor Zip(codes: seq<int32>, timestamps: seq<uint64>)
      requires |timestamps| >= |codes|
      ensures |stages| == |codes|
      ensures forall i :: 0 <= i < |codes| ==> stages[i].stage == codes[i]
      ensures forall i :: 0 <= i < |codes| ==> stages[i].timestamp == timestamps[i]
    {
      var filled := seq(|codes|, _ => BLANK);
      for i := 0 to |codes|
        invariant |filled| == |codes|
        invariant forall k :: 0 <= k < i ==> filled[k] == StagingElement(codes[k], timestamps[k])
      {
        filled := filled[i := StagingElement(codes[i], timestamps[i])];
      }
      stages := filled;
    }
  }

  /** Window and step lengths of the online staging algorithm, in samples. */
  const EEG_WINDOW: int := 2048 * 5
  const IR_WINDOW: int := EEG_WINDOW / 5
  const EEG_INTERVAL: int := EEG_WINDOW / 4
  const IR_INTERVAL: int := IR_WINDOW / 4

  /** The constants' values, each interval a quarter of its window and the IR window a
      fifth of the EEG one. */
  lemma StagingWindows()
    ensures EEG_WINDOW == 10240 && IR_WINDOW == 2048
    ensures EEG_INTERVAL == 2560 && IR_INTERVAL == 512
    ensures 4 * EEG_INTERVAL == EEG_WINDOW && 4 * IR_INTERVAL == IR_WINDOW
    ensures 5 * IR_WINDOW == EEG_WINDOW && 5 * IR_INTERVAL == EEG_INTERVAL
  {
  }
}
