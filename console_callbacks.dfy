/**
 * The audio side of console_callbacks.py: the module-level player, the
 * carry-over buffer `pending_data`, the two event flags, and the callbacks
 * through which the Spotify library delivers PCM data and playback
 * notifications. The module globals are the fields of one `Callbacks` object.
 */
module ConsoleCallbacks {
  import opened Common
  import opened Playback

  const RATE := 44100
  const CHANNELS := 2
  /** `44100 / 40` under Python 2 integer division: 1102 frames, 0.025 s. */
  const PERIODSIZE := RATE / 40
  /** 16-bit samples. */
  const SAMPLESIZE := 2
  /** `int(0.5 * RATE / PERIODSIZE)`: the number of whole periods in half a second, 20. */
  const MAXPERIODS := (RATE / 2) / PERIODSIZE

  /** `PERIODSIZE * CHANNELS * SAMPLESIZE`, the bytes of one period, the unit handed to the player. */
  const FRAME_BYTES := 4408
  /** `PERIODSIZE * CHANNELS`, the samples of one period, the unit `playback_data` counts in. */
  const PERIOD_SAMPLES := 2204

  /** The values the source's constant expressions evaluate to. */
  lemma ConstantValues()
    ensures PERIODSIZE == 1102 && MAXPERIODS == 20
    ensures FRAME_BYTES == PERIODSIZE * CHANNELS * SAMPLESIZE
    ensures PERIOD_SAMPLES == PERIODSIZE * CHANNELS
  {
  }

  /** The Spotify playback notifications, and any other code as `Unknown`. */
  datatype Notification =
    | NotifyPlay | NotifyPause | NotifyTrackChanged | NotifyNext | NotifyPrev
    | NotifyShuffleEnabled | NotifyShuffleDisabled | NotifyRepeatEnabled | NotifyRepeatDisabled
    | NotifyBecameActive | NotifyBecameInactive | NotifyPlayTokenLost | EventAudioFlush
    | Unknown(code: int)

  /** The sample count cut down so that no frame of interleaved channels is split. */
  function WholeSamples(numSamples: nat): (n: nat)
    ensures n <= numSamples && n % CHANNELS == 0
    ensures numSamples - n < CHANNELS
  {
    numSamples - numSamples % CHANNELS
  }

  /** The bytes of `chunks`, one after the other. */
  function Concat(chunks: seq<Chunk>): (bytes: seq<byte>)
    ensures chunks != [] ==> chunks[0] <= bytes
  {
    if chunks == [] then [] else chunks[0] + Concat(chunks[1..])
  }

  /** The whole periods at the front of `buf`, in order: what the chunking loop enqueues. */
  function Frames(buf: seq<byte>): (frames: seq<Chunk>)
    ensures forall i :: 0 <= i < |frames| ==> |frames[i]| == FRAME_BYTES
    decreases |buf|
  {
    if |buf| < FRAME_BYTES then [] else [buf[..FRAME_BYTES]] + Frames(buf[FRAME_BYTES..])
  }

  /** What is left of `buf` after its whole periods: the next `pending_data`. */
  function Leftover(buf: seq<byte>): (rest: seq<byte>)
    ensures |rest| < FRAME_BYTES
    decreases |buf|
  {
    if |buf| < FRAME_BYTES then buf else Leftover(buf[FRAME_BYTES..])
  }

  /** Chunking loses and invents no byte: the periods and the remainder make up the input. */
  lemma {:induction false} FramesConserveBytes(buf: seq<byte>)
    ensures Concat(Frames(buf)) + Leftover(buf) == buf
    ensures |Frames(buf)| == |buf| / FRAME_BYTES
    ensures |Leftover(buf)| == |buf| % FRAME_BYTES
    decreases |buf|
  {
    if |buf| >= FRAME_BYTES {
      var tail := buf[FRAME_BYTES..];
      FramesConserveBytes(tail);
      calc {
        Concat(Frames(buf)) + Leftover(buf);
        buf[..FRAME_BYTES] + Concat(Frames(tail)) + Leftover(tail);
        { assert Concat(Frames(tail)) + Leftover(tail) == tail; }
        buf[..FRAME_BYTES] + tail;
      }
    }
  }

  /**
   * Two deliveries chunk like one: delivering `a` and then `b`, with the
   * remainder of `a` carried over, enqueues the periods of `a + b` and keeps
   * the same remainder.
   */
  lemma {:induction false} FramesCompose(a: seq<byte>, b: seq<byte>)
    ensures Frames(a) + Frames(Leftover(a) + b) == Frames(a + b)
    ensures Leftover(Leftover(a) + b) == Leftover(a + b)
    decreases |a|
  {
    if |a| >= FRAME_BYTES {
      var tail := a[FRAME_BYTES..];
      assert (a + b)[..FRAME_BYTES] == a[..FRAME_BYTES];
      assert (a + b)[FRAME_BYTES..] == tail + b;
      FramesCompose(tail, b);
    }
  }

  /** A delivery of whole periods leaves nothing pending and enqueues one chunk per period. */
  lemma {:induction false} WholePeriodsLeaveNothing(buf: seq<byte>)
    requires |buf| % FRAME_BYTES == 0
    ensures Leftover(buf) == []
    ensures |Frames(buf)| == |buf| / FRAME_BYTES
  {
    FramesConserveBytes(buf);
  }

  /**
   * Backpressure: when a delivery of `numSamples` samples, carried over
   * behind less than a period, holds more whole periods than the queue has
   * room for, the samples of the periods that fit are fewer than it was given.
   */
  lemma {:induction false} FullQueueConsumesLess(pending: seq<byte>, bytes: seq<byte>, numSamples: nat, room: nat)
    requires |pending| < FRAME_BYTES && |bytes| == numSamples * SAMPLESIZE
    requires room < |Frames(pending + bytes)|
    ensures room * PERIOD_SAMPLES < numSamples
  {
    FramesConserveBytes(pending + bytes);
    assert (room + 1) * FRAME_BYTES <= |pending + bytes|;
  }

  /**
   * On overflow after at least one period went out, the carried-over bytes
   * were queued at the front of the first period, yet `pending_data` keeps
   * them, so the next delivery queues them again.
   */
  lemma {:induction false} OverflowRequeuesCarried(pending: seq<byte>, bytes: seq<byte>, room: nat)
    requires |pending| < FRAME_BYTES
    requires 0 < room < |Frames(pending + bytes)|
    ensures pending <= Concat(Frames(pending + bytes)[..room])
  {
    var input := pending + bytes;
    var sent := Frames(input)[..room];
    assert |input| >= FRAME_BYTES;
    assert sent[0] == input[..FRAME_BYTES];
    assert pending == input[..FRAME_BYTES][..|pending|];
    assert sent[0] <= Concat(sent);
  }

  class Callbacks {
    /** `audio_player` */
    const player: Player
    /** `pending_data`: the bytes of an incomplete period carried to the next delivery. */
    var pendingData: seq<byte>
    /** `play_event.is_set()` */
    var playEvent: bool
    /** `pause_event.is_set()` */
    var pauseEvent: bool

    /**
     * The player is consistent, less than a period is ever pending, and the
     * drain thread only runs with a device open.
     */
    ghost predicate Valid()
      reads this, player
    {
      player.Valid() &&
      |pendingData| < FRAME_BYTES &&
      (player.threadAlive ==> player.device.Some?)
    }

    /** The module's start-up state: an idle player holding at most `MAXPERIODS` periods. */
    constructor (deviceName: string, mixerName: string)
      ensures Valid() && fresh(player)
      ensures player.capacity == MAXPERIODS && player.deviceName == deviceName && player.mixerName == mixerName
      ensures player.rate == RATE && player.channels == CHANNELS && player.periodSize == PERIODSIZE
      ensures player.queue == [] && player.device == None && player.mixer == None
      ensures !player.threadAlive && !player.hasStopSignal
      ensures player.deviceWrites == [] && player.volumeWrites == []
      ensures pendingData == [] && !playEvent && !pauseEvent
    {
      player := new Player(MAXPERIODS, deviceName, RATE, CHANNELS, PERIODSIZE, mixerName);
      pendingData := [];
      playEvent := false;
      pauseEvent := false;
    }

    /**
     * `playback_data`: raise the play flag, cut the sample count to whole
     * channel frames, and enqueue the whole periods of the carried-over
     * bytes followed by the new ones. If the queue has room for all of them
     * the remainder becomes the new `pending_data` and every sample counts
     * as consumed; otherwise the periods that fit are enqueued, only their
     * samples count, and `pending_data` keeps its old value. The backlog
     * reported is always the queue length in samples.
     */
    method PlaybackData(data: seq<byte>, numSamples: nat) returns (consumed: nat, pending: nat)
      requires Valid()
      requires WholeSamples(numSamples) * SAMPLESIZE <= |data|
      modifies this`playEvent, this`pendingData, player`queue
      ensures Valid() && playEvent
      ensures pending == |player.queue| * PERIOD_SAMPLES
      ensures var input := old(pendingData) + data[..WholeSamples(numSamples) * SAMPLESIZE];
              var frames := Frames(input);
              var room := player.capacity - |old(player.queue)|;
              if player.capacity <= 0 || |frames| <= room then
                && consumed == WholeSamples(numSamples)
                && player.queue == old(player.queue) + frames
                && pendingData == Leftover(input)
                && Concat(player.queue[|old(player.queue)|..]) + pendingData == input
              else
                && consumed == room * PERIOD_SAMPLES
                && consumed < WholeSamples(numSamples)
                && player.queue == old(player.queue) + frames[..room]
                && pendingData == old(pendingData)
    {
      playEvent := true;
      var n := WholeSamples(numSamples);
      var buf := pendingData + data[..n * SAMPLESIZE];
      ghost var input := buf;
      ghost var frames := Frames(input);
      ghost var k := 0;
      var total := 0;
      var full := false;
      while |buf| >= FRAME_BYTES
        invariant player.Valid() && playEvent && pendingData == old(pendingData)
        invariant 0 <= k <= |frames|
        invariant Frames(buf) == frames[k..] && Leftover(buf) == Leftover(input)
        invariant player.queue == old(player.queue) + frames[..k]
        invariant total == k * PERIOD_SAMPLES
        invariant full ==> 0 < player.capacity == |old(player.queue)| + k && k < |frames|
        decreases |buf|
      {
        var r := player.Write(buf[..FRAME_BYTES]);
        if r != Pass {
          full := true;
          break;
        }
        assert frames[k..] == [buf[..FRAME_BYTES]] + Frames(buf[FRAME_BYTES..]);
        assert frames[..k + 1] == frames[..k] + [frames[k]];
        buf := buf[FRAME_BYTES..];
        total := total + PERIOD_SAMPLES;
        k := k + 1;
      }
      if full {
        consumed := total;
        FullQueueConsumesLess(old(pendingData), data[..n * SAMPLESIZE], n, k);
      } else {
        assert frames[..k] == frames;
        pendingData := buf;
        consumed := n;
        FramesConserveBytes(input);
        assert player.queue[|old(player.queue)|..] == frames;
      }
      var length := player.BufferLength();
      pending := length * PERIOD_SAMPLES;
    }

    /** `audio_flush`: flush the player and drop the carried-over bytes. */
    method AudioFlush()
      requires Valid()
      modifies this`pendingData, player`queue, player`deviceWrites, player`threadAlive, player`stopSignal
      ensures Valid() && pendingData == [] && player.queue == [] && !player.threadAlive
      ensures old(player.threadAlive) ==> player.stopSignal
      ensures old(player.threadAlive) ==>
                player.deviceWrites == old(player.deviceWrites) + Emitted(WithWakeUp(old(player.queue))[0], player.device)
      ensures !old(player.threadAlive) ==>
                player.stopSignal == old(player.stopSignal) && player.deviceWrites == old(player.deviceWrites)
    {
      player.BufferFlush();
      pendingData := [];
    }

    /**
     * `playback_notify`: Pause and BecameInactive raise the pause flag,
     * AudioFlush flushes, and every other notification changes nothing.
     */
    method PlaybackNotify(kind: Notification)
      requires Valid()
      modifies this`pauseEvent, this`pendingData, player`queue, player`deviceWrites, player`threadAlive, player`stopSignal
      ensures Valid()
      ensures pauseEvent <==> old(pauseEvent) || kind == NotifyPause || kind == NotifyBecameInactive
      ensures kind == EventAudioFlush ==> pendingData == [] && player.queue == [] && !player.threadAlive
      ensures kind == EventAudioFlush && old(player.threadAlive) ==>
                && player.stopSignal
                && player.deviceWrites == old(player.deviceWrites) + Emitted(WithWakeUp(old(player.queue))[0], player.device)
      ensures kind == EventAudioFlush && !old(player.threadAlive) ==>
                player.stopSignal == old(player.stopSignal) && player.deviceWrites == old(player.deviceWrites)
      ensures kind != EventAudioFlush ==> pendingData == old(pendingData) && unchanged(player)
    {
      match kind
      case NotifyPause =>
        pauseEvent := true;
      case NotifyBecameInactive =>
        pauseEvent := true;
      case EventAudioFlush =>
        AudioFlush();
      case _ =>
    }

    /**
     * `playback_volume`: hand the mixer level to the player only when a
     * mixer is loaded. `level` is the library's volume already divided by
     * 655.35 and truncated.
     */
    method PlaybackVolume(level: int)
      requires Valid()
      modifies player`volumeWrites
      ensures player.mixer.Some? ==> player.volumeWrites == old(player.volumeWrites) + [level]
      ensures player.mixer.None? ==> player.volumeWrites == old(player.volumeWrites)
    {
      var loaded := player.MixerLoaded();
      if loaded {
        player.SetVolume(level);
      }
    }
  }
}
