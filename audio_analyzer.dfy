/**
  The tap block that MetalCircle's AudioAnalyzer installs on its mixer node:
  it copies every channel's frameLength samples, channel after channel, into
  one array and hands that array to onUpdate on the main queue.

  The main-queue dispatch is not modelled as concurrency: the block's outcome
  says what onUpdate receives when the dispatched closure runs.
*/
module AudioAnalyzer {

  datatype Option<T> = None | Some(value: T)

  /** The parts of an AVAudioPCMBuffer the tap block reads. floatChannelData
      is nil for buffers that do not hold deinterleaved floats. */
  datatype PcmBuffer = PcmBuffer(channelCount: nat, frameLength: nat,
                                 floatChannelData: Option<seq<seq<real>>>)
  {
    /** What AVAudioPCMBuffer guarantees: when the channel data is present it
        has one sample array per channel, each holding frameLength samples
        or more. */
    ghost predicate Valid()
    {
      floatChannelData.Some? ==>
        |floatChannelData.value| >= channelCount &&
        forall i :: 0 <= i < channelCount ==> |floatChannelData.value[i]| >= frameLength
    }
  }

  /** Outcome of one run of the tap block. */
  datatype TapOutcome =
    | Skipped                     // the analyzer is gone, or onUpdate is nil
    | Delivered(data: seq<real>)  // onUpdate was called with data
    | Trapped                     // `sample!` found nil channel data

  /** Reference definition: the first frameLength samples of each channel,
      channel 0 first. */
  function Flattened(channels: seq<seq<real>>, frameLength: nat): seq<real>
    requires forall i :: 0 <= i < |channels| ==> |channels[i]| >= frameLength
  {
    if channels == [] then []
    else
      var last := |channels| - 1;
      Flattened(channels[..last], frameLength) + channels[last][..frameLength]
  }

  lemma {:induction false} FlattenedLength(channels: seq<seq<real>>, frameLength: nat)
    requires forall i :: 0 <= i < |channels| ==> |channels[i]| >= frameLength
    ensures |Flattened(channels, frameLength)| == |channels| * frameLength
  {
    if channels != [] {
      var last := |channels| - 1;
      FlattenedLength(channels[..last], frameLength);
      assert |channels| * frameLength == last * frameLength + frameLength;
    }
  }

  /** Sample j of channel i lands at index i * frameLength + j. */
  lemma {:induction false} FlattenedAt(channels: seq<seq<real>>, frameLength: nat, i: nat, j: nat)
    requires forall c :: 0 <= c < |channels| ==> |channels[c]| >= frameLength
    requires i < |channels| && j < frameLength
    ensures i * frameLength + j < |Flattened(channels, frameLength)|
    ensures Flattened(channels, frameLength)[i * frameLength + j] == channels[i][j]
  {
    var last := |channels| - 1;
    var prefix := channels[..last];
    FlattenedLength(channels, frameLength);
    FlattenedLength(prefix, frameLength);
    assert |Flattened(prefix, frameLength)| == last * frameLength;
    assert i * frameLength + j < (i + 1) * frameLength by {
      assert (i + 1) * frameLength == i * frameLength + frameLength;
    }
    assert (i + 1) * frameLength <= |channels| * frameLength by {
      MultiplyMonotone(i + 1, |channels|, frameLength);
    }
    if i == last {
      assert i * frameLength + j == |Flattened(prefix, frameLength)| + j;
    } else {
      assert (i + 1) * frameLength <= last * frameLength by {
        MultiplyMonotone(i + 1, last, frameLength);
      }
      FlattenedAt(prefix, frameLength, i, j);
    }
  }

  lemma MultiplyMonotone(a: nat, b: nat, n: nat)
    requires a <= b
    ensures a * n <= b * n
  {
    assert b * n == a * n + (b - a) * n;
  }

  /** Channel i occupies the slice [i * frameLength, (i + 1) * frameLength)
      and keeps its sample order. */
  lemma FlattenedChannel(channels: seq<seq<real>>, frameLength: nat, i: nat)
    requires forall c :: 0 <= c < |channels| ==> |channels[c]| >= frameLength
    requires i < |channels|
    ensures (i + 1) * frameLength <= |Flattened(channels, frameLength)|
    ensures Flattened(channels, frameLength)[i * frameLength .. (i + 1) * frameLength]
              == channels[i][..frameLength]
  {
    var data := Flattened(channels, frameLength);
    FlattenedLength(channels, frameLength);
    MultiplyMonotone(i + 1, |channels|, frameLength);
    assert (i + 1) * frameLength == i * frameLength + frameLength;
    forall j | 0 <= j < frameLength
      ensures data[i * frameLength .. (i + 1) * frameLength][j] == channels[i][..frameLength][j]
    {
      FlattenedAt(channels, frameLength, i, j);
    }
  }

  /** Zero channels or zero frames give an empty array. */
  lemma FlattenedEmpty(channels: seq<seq<real>>, frameLength: nat)
    requires forall i :: 0 <= i < |channels| ==> |channels[i]| >= frameLength
    requires |channels| == 0 || frameLength == 0
    ensures Flattened(channels, frameLength) == []
  {
    FlattenedLength(channels, frameLength);
  }

  /** The array the tap block builds from a buffer whose channel data is
      present. */
  function TapData(buffer: PcmBuffer): seq<real>
    requires buffer.Valid() && buffer.floatChannelData.Some?
  {
    Flattened(buffer.floatChannelData.value[..buffer.channelCount], buffer.frameLength)
  }

  /** Sample j of channel i of the buffer is element i * frameLength + j of
      the tap's array, which has channelCount * frameLength elements. */
  lemma TapSampleAt(buffer: PcmBuffer, i: nat, j: nat)
    requires buffer.Valid() && buffer.floatChannelData.Some?
    requires i < buffer.channelCount && j < buffer.frameLength
    ensures |TapData(buffer)| == buffer.channelCount * buffer.frameLength
    ensures i * buffer.frameLength + j < |TapData(buffer)|
    ensures TapData(buffer)[i * buffer.frameLength + j] == buffer.floatChannelData.value[i][j]
  {
    var all := buffer.floatChannelData.value;
    var channels := all[..buffer.channelCount];
    FlattenedLength(channels, buffer.frameLength);
    FlattenedAt(channels, buffer.frameLength, i, j);
    assert channels[i] == all[i];
  }

  /** The installTap block. `analyzerAlive` is whether the weakly captured
      analyzer still exists; `handlerSet` is whether onUpdate is non-nil when
      the main queue runs the dispatched closure. A nil channel-data pointer
      traps on the first sample read, which happens exactly when there is
      at least one channel and one frame. */
  method TapBlock(analyzerAlive: bool, buffer: PcmBuffer, handlerSet: bool)
    returns (outcome: TapOutcome)
    requires buffer.Valid()
    ensures !analyzerAlive ==> outcome == Skipped
    ensures analyzerAlive && buffer.floatChannelData.None? ==>
              outcome == (if buffer.channelCount > 0 && buffer.frameLength > 0 then Trapped
                          else if handlerSet then Delivered([]) else Skipped)
    ensures analyzerAlive && buffer.floatChannelData.Some? ==>
              outcome == (if handlerSet then Delivered(TapData(buffer)) else Skipped)
    ensures outcome.Delivered? ==> |outcome.data| == buffer.channelCount * buffer.frameLength
  {
    if !analyzerAlive {
      return Skipped;
    }
    var channelCount := buffer.channelCount;
    var frameLength := buffer.frameLength;
    var data: seq<real> := [];
    for i := 0 to channelCount
      invariant buffer.floatChannelData.Some? ==>
                  data == Flattened(buffer.floatChannelData.value[..i], frameLength)
      invariant buffer.floatChannelData.None? ==> data == [] && (i > 0 ==> frameLength == 0)
    {
      for j := 0 to frameLength
        invariant buffer.floatChannelData.Some? ==>
                    data == Flattened(buffer.floatChannelData.value[..i], frameLength)
                            + buffer.floatChannelData.value[i][..j]
        invariant buffer.floatChannelData.None? ==> data == [] && j == 0
      {
        match buffer.floatChannelData {
          case None =>
            return Trapped;
          case Some(channels) =>
            data := data + [channels[i][j]];
            assert channels[i][..j + 1] == channels[i][..j] + [channels[i][j]];
        }
      }
      if buffer.floatChannelData.Some? {
        var channels := buffer.floatChannelData.value;
        assert channels[..i + 1][..i] == channels[..i];
      }
    }
    if buffer.floatChannelData.Some? {
      assert buffer.floatChannelData.value[..channelCount][..channelCount] == buffer.floatChannelData.value[..channelCount];
      FlattenedLength(buffer.floatChannelData.value[..channelCount], frameLength);
    }
    outcome := if handlerSet then Delivered(data) else Skipped;
  }
}
