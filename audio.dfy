/** The sceAudio HLE module: a pool of eight hardware output channels that
    guest code reserves, configures, feeds with samples and releases. Every
    entry point answers the guest with an integer code (or with a pending
    playback) and changes at most the one channel it addresses. */
module Audio {
  import opened Common

  /** Number of hardware output lines in the pool. */
  const ChannelCount: nat := 8
  /** Sample count of a channel that has never been configured. */
  const DefaultSampleCount: int := 44100
  /** The two `AudioFormat` values; the guest may pass any integer. */
  const FormatStereo: int := 0x00
  const FormatMono: int := 0x10
  /** Full-scale volume: this volume plays at gain 1. */
  const MaxVolume: int := 32768
  /** Sample counts given to SetChannelDataLen must be multiples of this. */
  const SampleAlignment: int := 64

  /** ChReserve with an explicit id at or above the pool size. */
  const ErrorReserveOutOfRange: int := -1
  /** ChReserve asking for any channel when none is free. */
  const ErrorNoFreeChannel: int := -2
  /** An output call made without a sample buffer. */
  const ErrorMissingBuffer: int := -1
  /** Placeholders for two codes of the kernel error catalog, which is not
      part of this model: only their being negative and distinct from the
      other codes matters here. */
  const ErrorAudioInvalidChannel: int := -0x103
  const ErrorAudioOutputSampleDataSizeNotAligned: int := -0x105
  /** Delay, in milliseconds, of the sceAudioOutput2OutputBlocking stub. */
  const Output2Delay: int := 10

  /** A channel object of the external playback engine (the one
      `context.audio.createChannel()` returns). Only whether it is running
      is modelled. */
  class AudioEngineChannel {
    var started: bool

    constructor ()
      ensures !started
    {
      started := false;
    }

    method Start()
      modifies this
      ensures started
    {
      started := true;
    }

    method Stop()
      modifies this
      ensures !started
    {
      started := false;
    }
  }

  /** One slot of the pool. `engine` is null while the slot has never been
      reserved or after it was released. */
  datatype Channel = Channel(
    id: int,
    isAllocated: bool,
    sampleCount: int,
    format: int,
    engine: AudioEngineChannel?)

  /** A slot as the pool constructor creates it. */
  function NewChannel(id: int): Channel
  {
    Channel(id, false, DefaultSampleCount, FormatStereo, null)
  }

  /** Interleaved channels per frame: two for stereo, one for any other
      format value. */
  function NumberOfChannels(format: int): (n: int)
    ensures n == 2 <==> format == FormatStereo
    ensures n == 1 <==> format != FormatStereo
  {
    if format == FormatStereo then 2 else 1
  }

  /** Samples one output call reads from the guest buffer. */
  function TotalSampleCount(c: Channel): (t: int)
    ensures c.format == FormatStereo ==> t == 2 * c.sampleCount
    ensures c.format != FormatStereo ==> t == c.sampleCount
  {
    c.sampleCount * NumberOfChannels(c.format)
  }

  /** The gain of a volume, in units of 1/MaxVolume: the volume clamped to
      [0, MaxVolume]. */
  function Gain(volume: int): (g: int)
    ensures 0 <= g <= MaxVolume
    ensures 0 <= volume <= MaxVolume ==> g == volume
    ensures volume < 0 ==> g == 0
    ensures volume > MaxVolume ==> g == MaxVolume
  {
    if volume < 0 then 0 else if volume > MaxVolume then MaxVolume else volume
  }

  /** A playback submitted to an engine channel: the number of interleaved
      channels, how many 16-bit samples are read from `buffer`, and the left
      and right gains in units of 1/MaxVolume. */
  datatype PlayRequest = PlayRequest(
    engine: AudioEngineChannel,
    numberOfChannels: int,
    sampleCount: int,
    leftGain: int,
    rightGain: int,
    buffer: Stream)

  /** Whether the scheduler may run guest callbacks on a parked thread. */
  datatype AcceptCallbacks = Yes | No

  /** Tells the scheduler to park the calling thread until the playback
      settles. */
  datatype WaitingThreadInfo = WaitingThreadInfo(
    name: string,
    resourceId: int,
    playback: PlayRequest,
    acceptCallbacks: AcceptCallbacks)

  /** What an output entry point hands back to the syscall dispatcher. */
  datatype HleResult =
    | Immediate(code: int)
    | Playing(playback: PlayRequest)
    | Waiting(info: WaitingThreadInfo)
    | Delayed(milliseconds: int, code: int)

  /** The playback an output call on channel `c` submits. */
  function PlaybackOf(c: Channel, leftVolume: int, rightVolume: int, buffer: Stream): (p: PlayRequest)
    requires c.engine != null
    ensures p.engine == c.engine && p.buffer == buffer
    ensures p.numberOfChannels == NumberOfChannels(c.format)
    ensures p.sampleCount == c.sampleCount * p.numberOfChannels
    ensures p.leftGain == Gain(leftVolume) && p.rightGain == Gain(rightVolume)
  {
    PlayRequest(c.engine, NumberOfChannels(c.format), TotalSampleCount(c),
                Gain(leftVolume), Gain(rightVolume), buffer)
  }

  /** The shape the pool always has: eight slots, slot i with id i. */
  predicate WellFormed(chs: seq<Channel>)
  {
    |chs| == ChannelCount && forall i :: 0 <= i < |chs| ==> chs[i].id == i
  }

  /** Index of the lowest unallocated slot, if any (the search
      `channels.first(channel => !channel.isAllocated)`). */
  function LowestFree(chs: seq<Channel>): (r: Option<nat>)
    ensures r.Some? ==> r.value < |chs| && !chs[r.value].isAllocated
    ensures r.Some? ==> forall j :: 0 <= j < r.value ==> chs[j].isAllocated
    ensures r.None? <==> forall j :: 0 <= j < |chs| ==> chs[j].isAllocated
    decreases |chs|
  {
    if |chs| == 0 then None
    else if !chs[0].isAllocated then Some(0)
    else match LowestFree(chs[1..])
      case None => None
      case Some(k) => Some(k + 1)
  }

  /** How sceAudioChReserve resolves its channel id. */
  datatype Reservation =
    | Reserved(index: nat)
    | Refused(code: int)
    | Crashed   // a JavaScript TypeError escapes the entry point

  /** ChReserve's choice of slot, with exhaustion answered by
      ErrorNoFreeChannel as the code evidently intends. */
  function ChooseSlot(chs: seq<Channel>, channelId: int): (r: Reservation)
    requires WellFormed(chs)
    ensures channelId >= ChannelCount ==> r == Refused(ErrorReserveOutOfRange)
    ensures 0 <= channelId < ChannelCount ==> r == Reserved(channelId)
    ensures channelId < 0 ==>
              (r == Refused(ErrorNoFreeChannel) <==> forall j :: 0 <= j < ChannelCount ==> chs[j].isAllocated)
    ensures channelId < 0 && r.Reserved? ==>
              r.index < ChannelCount && !chs[r.index].isAllocated &&
              forall j :: 0 <= j < r.index ==> chs[j].isAllocated
    ensures channelId < 0 ==> r.Reserved? || r == Refused(ErrorNoFreeChannel)
    ensures !r.Crashed?
  {
    if channelId >= |chs| then Refused(ErrorReserveOutOfRange)
    else if channelId >= 0 then Reserved(channelId)
    else match LowestFree(chs)
      case None => Refused(ErrorNoFreeChannel)
      case Some(k) => Reserved(chs[k].id)
  }

  /** ChReserve's choice of slot as written: the id of the search result is
      read before the result is checked, so an exhausted pool throws and the
      -2 return is never reached. */
  function ChooseSlotAsWritten(chs: seq<Channel>, channelId: int): (r: Reservation)
    requires WellFormed(chs)
    ensures channelId >= ChannelCount ==> r == Refused(ErrorReserveOutOfRange)
    ensures 0 <= channelId < ChannelCount ==> r == Reserved(channelId)
    ensures channelId < 0 ==>
              (r == Crashed <==> forall j :: 0 <= j < ChannelCount ==> chs[j].isAllocated)
    ensures channelId < 0 && r.Reserved? ==>
              r.index < ChannelCount && !chs[r.index].isAllocated &&
              forall j :: 0 <= j < r.index ==> chs[j].isAllocated
    ensures channelId < 0 ==> r.Reserved? || r == Crashed
    ensures r != Refused(ErrorNoFreeChannel)
  {
    if channelId >= |chs| then Refused(ErrorReserveOutOfRange)
    else if channelId >= 0 then Reserved(channelId)
    else match LowestFree(chs)
      case None => Crashed
      case Some(k) => Reserved(chs[k].id)
  }

  /** Asking for any channel of a full pool crashes as written, where the
      corrected choice refuses with ErrorNoFreeChannel. */
  lemma AsWrittenExhaustionCrashes(chs: seq<Channel>, channelId: int)
    requires WellFormed(chs) && channelId < 0
    requires forall j :: 0 <= j < ChannelCount ==> chs[j].isAllocated
    ensures ChooseSlotAsWritten(chs, channelId) == Crashed
    ensures ChooseSlot(chs, channelId) == Refused(ErrorNoFreeChannel)
  {
  }

  /** As written, ErrorNoFreeChannel is never returned; on every input
      where the pool is not exhausted the two choices agree. */
  lemma AsWrittenNeverRefusesExhausted(chs: seq<Channel>, channelId: int)
    requires WellFormed(chs)
    ensures ChooseSlotAsWritten(chs, channelId) != Refused(ErrorNoFreeChannel)
    ensures !ChooseSlotAsWritten(chs, channelId).Crashed? ==>
              ChooseSlotAsWritten(chs, channelId) == ChooseSlot(chs, channelId)
  {
  }

  /** All result codes the pool uses are distinct, and none of them is a
      channel index. */
  lemma ErrorCodesDistinct()
    ensures ErrorReserveOutOfRange < 0 && ErrorNoFreeChannel < 0
    ensures ErrorAudioInvalidChannel < 0 && ErrorAudioOutputSampleDataSizeNotAligned < 0
    ensures ErrorReserveOutOfRange != ErrorNoFreeChannel
    ensures ErrorAudioInvalidChannel != ErrorAudioOutputSampleDataSizeNotAligned
    ensures ErrorAudioInvalidChannel !in {ErrorReserveOutOfRange, ErrorNoFreeChannel, 0}
    ensures ErrorAudioOutputSampleDataSizeNotAligned !in {ErrorReserveOutOfRange, ErrorNoFreeChannel, 0}
  {
  }

  /** The sceAudio module instance: owns the channel pool. */
  class SceAudio {
    var channels: seq<Channel>

    /** The engine channels the pool currently holds. */
    ghost function Engines(): set<AudioEngineChannel?>
      reads this
    {
      set i | 0 <= i < |channels| && channels[i].engine != null :: channels[i].engine
    }

    /** Pool invariant: eight slots with their own ids; a slot holds an
        engine channel exactly while it is allocated, that engine is running,
        and no two slots share one. */
    ghost predicate Valid()
      reads this, Engines()
    {
      && WellFormed(channels)
      && (forall i :: 0 <= i < |channels| ==> (channels[i].isAllocated <==> channels[i].engine != null))
      && (forall i :: 0 <= i < |channels| && channels[i].engine != null ==> channels[i].engine.started)
      && (forall i, j :: 0 <= i < j < |channels| && channels[i].engine != null ==>
            channels[i].engine != channels[j].engine)
    }

    /** Builds the pool by pushing eight fresh slots in id order. */
    constructor ()
      ensures Valid()
      ensures |channels| == ChannelCount
      ensures forall i :: 0 <= i < ChannelCount ==> channels[i] == NewChannel(i)
    {
      var chs: seq<Channel> := [];
      var n := 0;
      while n < ChannelCount
        invariant 0 <= n <= ChannelCount
        invariant |chs| == n
        invariant forall i :: 0 <= i < n ==> chs[i] == NewChannel(i)
      {
        chs := chs + [NewChannel(n)];
        n := n + 1;
      }
      channels := chs;
    }

    predicate IsValidChannel(channelId: int)
      reads this
      ensures WellFormed(channels) ==> (IsValidChannel(channelId) <==> 0 <= channelId < ChannelCount)
    {
      0 <= channelId < |channels|
    }

    /** sceAudioChReserve: an explicit id below the pool size is taken as
        given, a negative id takes the lowest free slot. The slot is marked
        allocated with the requested sample count and format, and gets a
        fresh engine channel that is started at once. */
    method ChReserve(channelId: int, sampleCount: int, format: int) returns (r: int)
      requires Valid()
      modifies this
      ensures Valid()
      ensures ChooseSlot(old(channels), channelId).Refused? ==>
                r == ChooseSlot(old(channels), channelId).code && channels == old(channels)
      ensures ChooseSlot(old(channels), channelId).Reserved? ==>
                var k := ChooseSlot(old(channels), channelId).index;
                && r == k && k < ChannelCount
                && channels[k].engine != null && fresh(channels[k].engine) && channels[k].engine.started
                && channels == old(channels)[k := old(channels)[k].(isAllocated := true,
                                                                  sampleCount := sampleCount,
                                                                  format := format,
                                                                  engine := channels[k].engine)]
    {
      if channelId >= |channels| {
        return ErrorReserveOutOfRange;
      }
      var id := channelId;
      if id < 0 {
        var free := LowestFree(channels);
        if free.None? {
          return ErrorNoFreeChannel;
        }
        id := channels[free.value].id;
      }
      var engine := new AudioEngineChannel();
      engine.Start();
      channels := channels[id := channels[id].(isAllocated := true, sampleCount := sampleCount,
                                               format := format, engine := engine)];
      r := id;
    }

    /** sceAudioChRelease: frees a slot, stopping and dropping its engine
        channel. */
    method ChRelease(channelId: int) returns (r: int)
      requires Valid()
      requires IsValidChannel(channelId) ==> channels[channelId].isAllocated
      modifies this, if IsValidChannel(channelId) then {channels[channelId].engine} else {}
      ensures Valid()
      ensures !(0 <= channelId < ChannelCount) ==> r == ErrorAudioInvalidChannel && channels == old(channels)
      ensures 0 <= channelId < ChannelCount ==>
                && r == 0
                && channels == old(channels)[channelId := old(channels)[channelId].(isAllocated := false, engine := null)]
                && old(channels[channelId].engine) != null
                && !old(channels[channelId].engine).started
    {
      if !IsValidChannel(channelId) {
        return ErrorAudioInvalidChannel;
      }
      var channel := channels[channelId];
      channels := channels[channelId := channel.(isAllocated := false)];
      channel.engine.Stop();
      channels := channels[channelId := channels[channelId].(engine := null)];
      r := 0;
    }

    /** sceAudioChangeChannelConfig: sets a slot's format, keeping its
        engine channel. */
    method ChangeChannelConfig(channelId: int, format: int) returns (r: int)
      requires Valid()
      modifies this
      ensures Valid()
      ensures !(0 <= channelId < ChannelCount) ==> r == ErrorAudioInvalidChannel && channels == old(channels)
      ensures 0 <= channelId < ChannelCount ==>
                r == 0 && channels == old(channels)[channelId := old(channels)[channelId].(format := format)]
    {
      if !IsValidChannel(channelId) {
        return ErrorAudioInvalidChannel;
      }
      channels := channels[channelId := channels[channelId].(format := format)];
      r := 0;
    }

    /** sceAudioSetChannelDataLen: sets a slot's sample count, which must be
        a multiple of SampleAlignment. The id is checked first. (The source's
        `%` truncates, Dafny's does not, but the two remainders are zero for
        the same inputs.) */
    method SetChannelDataLen(channelId: int, sampleCount: int) returns (r: int)
      requires Valid()
      modifies this
      ensures Valid()
      ensures !(0 <= channelId < ChannelCount) ==> r == ErrorAudioInvalidChannel && channels == old(channels)
      ensures 0 <= channelId < ChannelCount && sampleCount % SampleAlignment != 0 ==>
                r == ErrorAudioOutputSampleDataSizeNotAligned && channels == old(channels)
      ensures 0 <= channelId < ChannelCount && sampleCount % SampleAlignment == 0 ==>
                r == 0 && channels == old(channels)[channelId := old(channels)[channelId].(sampleCount := sampleCount)]
    {
      if !IsValidChannel(channelId) {
        return ErrorAudioInvalidChannel;
      }
      if sampleCount % SampleAlignment != 0 {
        return ErrorAudioOutputSampleDataSizeNotAligned;
      }
      channels := channels[channelId := channels[channelId].(sampleCount := sampleCount)];
      r := 0;
    }

    /** _sceAudioOutput: the shared body of the four output calls. A missing
        buffer is refused before the channel id is looked at; otherwise the
        channel's whole frame of samples is submitted to its engine channel. */
    method SubmitOutput(channelId: int, leftVolume: int, rightVolume: int, buffer: Option<Stream>)
      returns (r: HleResult)
      requires Valid()
      requires buffer.Some? && IsValidChannel(channelId) ==> channels[channelId].isAllocated
      ensures buffer.None? ==> r == Immediate(ErrorMissingBuffer)
      ensures buffer.Some? && !(0 <= channelId < ChannelCount) ==> r == Immediate(ErrorAudioInvalidChannel)
      ensures buffer.Some? && 0 <= channelId < ChannelCount ==>
                channels[channelId].engine != null &&
                r == Playing(PlaybackOf(channels[channelId], leftVolume, rightVolume, buffer.value))
    {
      if buffer.None? {
        return Immediate(ErrorMissingBuffer);
      }
      if !IsValidChannel(channelId) {
        return Immediate(ErrorAudioInvalidChannel);
      }
      var channel := channels[channelId];
      r := Playing(PlaybackOf(channel, leftVolume, rightVolume, buffer.value));
    }

    /** sceAudioOutputPannedBlocking: an error code goes back unchanged; a
        submitted playback parks the thread, with callbacks refused. */
    method OutputPannedBlocking(channelId: int, leftVolume: int, rightVolume: int, buffer: Option<Stream>)
      returns (r: HleResult)
      requires Valid()
      requires buffer.Some? && IsValidChannel(channelId) ==> channels[channelId].isAllocated
      ensures buffer.None? ==> r == Immediate(ErrorMissingBuffer)
      ensures buffer.Some? && !(0 <= channelId < ChannelCount) ==> r == Immediate(ErrorAudioInvalidChannel)
      ensures buffer.Some? && 0 <= channelId < ChannelCount ==>
                channels[channelId].engine != null &&
                r == Waiting(WaitingThreadInfo("sceAudioOutputPannedBlocking", channelId,
                                               PlaybackOf(channels[channelId], leftVolume, rightVolume, buffer.value),
                                               No))
    {
      var result := SubmitOutput(channelId, leftVolume, rightVolume, buffer);
      if !result.Playing? {
        return result;
      }
      r := Waiting(WaitingThreadInfo("sceAudioOutputPannedBlocking", channelId, result.playback, No));
    }

    /** sceAudioOutputBlocking: one volume for both sides; the result of the
        submission is handed back as it is, without a waiting descriptor. */
    method OutputBlocking(channelId: int, volume: int, buffer: Option<Stream>) returns (r: HleResult)
      requires Valid()
      requires buffer.Some? && IsValidChannel(channelId) ==> channels[channelId].isAllocated
      ensures buffer.None? ==> r == Immediate(ErrorMissingBuffer)
      ensures buffer.Some? && !(0 <= channelId < ChannelCount) ==> r == Immediate(ErrorAudioInvalidChannel)
      ensures buffer.Some? && 0 <= channelId < ChannelCount ==>
                channels[channelId].engine != null &&
                r == Playing(PlaybackOf(channels[channelId], volume, volume, buffer.value))
      ensures r.Playing? ==> r.playback.leftGain == r.playback.rightGain == Gain(volume)
    {
      r := SubmitOutput(channelId, volume, volume, buffer);
    }

    /** sceAudioOutput: submits like OutputBlocking but always answers 0,
        whether the submission was refused or not. */
    method Output(channelId: int, volume: int, buffer: Option<Stream>) returns (r: int)
      requires Valid()
      requires buffer.Some? && IsValidChannel(channelId) ==> channels[channelId].isAllocated
      ensures r == 0
    {
      var _ := SubmitOutput(channelId, volume, volume, buffer);
      r := 0;
    }

    /** sceAudioOutputPanned: submits with separate volumes and always
        answers 0. */
    method OutputPanned(channelId: int, leftVolume: int, rightVolume: int, buffer: Option<Stream>) returns (r: int)
      requires Valid()
      requires buffer.Some? && IsValidChannel(channelId) ==> channels[channelId].isAllocated
      ensures r == 0
    {
      var _ := SubmitOutput(channelId, leftVolume, rightVolume, buffer);
      r := 0;
    }

    /** sceAudioOutput2Reserve: not implemented; answers 0. */
    method Output2Reserve(sampleCount: int) returns (r: int)
      ensures r == 0
    {
      r := 0;
    }

    /** sceAudioOutput2OutputBlocking: plays nothing; settles to 0 after a
        fixed delay. */
    method Output2OutputBlocking(volume: int, buffer: Option<Stream>) returns (r: HleResult)
      ensures r == Delayed(Output2Delay, 0)
    {
      r := Delayed(Output2Delay, 0);
    }

    /** sceAudioChangeChannelVolume: not implemented; answers 0. */
    method ChangeChannelVolume(channelId: int, volumeLeft: int, volumeRight: int) returns (r: int)
      ensures r == 0
    {
      r := 0;
    }

    /** sceAudioGetChannelRestLen: not implemented; answers 0. */
    method GetChannelRestLen(channelId: int) returns (r: int)
      ensures r == 0
    {
      r := 0;
    }
  }
}
