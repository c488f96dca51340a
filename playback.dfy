/**
 * The ALSA player of player.py: a bounded FIFO of PCM chunks drained by a
 * playback thread into an ALSA PCM device, plus an optional ALSA mixer.
 *
 * The drain thread is the flag `threadAlive`. Between two control calls the
 * thread is parked inside its blocking `q.get()`; `PlaybackThread` runs the
 * loop for as long as there is something to take, and the `join` in `Pause`
 * lets the parked thread take exactly one more chunk before it sees the stop
 * flag and exits. ALSA itself is opaque: what it answers is a parameter, and
 * what is handed to it is recorded in `deviceWrites` and `volumeWrites`.
 */
module Playback {
  import opened Common

  /** One byte of 16-bit little-endian PCM data. */
  newtype byte = b: int | 0 <= b < 256

  /** A chunk as it sits in the queue; the empty chunk is the wake-up sentinel. */
  type Chunk = seq<byte>

  /** The exception classes `DeviceError`, `MixerError` and `BufferFull`. */
  datatype PlayerError = DeviceError | MixerError | BufferFull

  /** A call that returns normally or raises one of the player's exceptions. */
  datatype Outcome = Pass | Raise(error: PlayerError)

  /** The configuration calls `acquire` makes on a freshly opened PCM, in this order. */
  datatype PcmSetting = SetChannels(channels: int) | SetRate(rate: int) | SetPeriodSize(frames: int) | SetFormatS16LE

  /** An open ALSA playback handle and the settings it has accepted so far. */
  datatype Pcm = Pcm(name: string, settings: seq<PcmSetting>)

  /**
   * How ALSA answers `acquire`: the PCM cannot be opened, or it opens and
   * then accepts the first `accepted` settings and rejects the next one
   * (all of them are accepted when `accepted` is at least four).
   */
  datatype AlsaAnswer = OpenFails | Opens(accepted: nat)

  /** An open ALSA mixer handle. */
  datatype Mixer = Mixer(name: string)

  /** Python's `Queue.full()`: a queue constructed with maxsize <= 0 is unbounded. */
  predicate IsFull(capacity: int, size: nat)
  {
    0 < capacity <= size
  }

  /** What `pause` leaves queued before the join: one sentinel when the queue was empty. */
  function WithWakeUp(queue: seq<Chunk>): (q: seq<Chunk>)
    ensures q != []
    ensures queue == [] ==> q == [[]]
    ensures queue != [] ==> q == queue
  {
    if queue == [] then [[]] else queue
  }

  /**
   * The `device.write` calls one pass of the drain loop makes for `chunk`:
   * none for the sentinel, none when no device is open (the write raises).
   */
  function Emitted(chunk: Chunk, device: Option<Pcm>): (w: seq<Chunk>)
    ensures |w| <= 1
    ensures w == [] <==> chunk == [] || device.None?
    ensures w != [] ==> w[0] == chunk
  {
    if chunk != [] && device.Some? then [chunk] else []
  }

  /** The device writes that draining `chunks` in order produces on an open device. */
  function Audible(chunks: seq<Chunk>): (w: seq<Chunk>)
    ensures |w| <= |chunks|
  {
    if chunks == [] then []
    else (if chunks[0] == [] then [] else [chunks[0]]) + Audible(chunks[1..])
  }

  /** The drain writes exactly the data chunks: no sentinel, and no data chunk is skipped. */
  lemma {:induction false} AudibleIsTheData(chunks: seq<Chunk>)
    ensures forall i :: 0 <= i < |Audible(chunks)| ==> Audible(chunks)[i] != []
    ensures forall c :: c in Audible(chunks) <==> c in chunks && c != []
    ensures multiset(Audible(chunks)) == multiset(chunks)[[] := 0]
  {
    if chunks != [] {
      AudibleIsTheData(chunks[1..]);
      assert chunks == [chunks[0]] + chunks[1..];
      assert multiset(chunks) == multiset{chunks[0]} + multiset(chunks[1..]);
    }
  }

  /** Draining splits along any cut of the queue. */
  lemma {:induction false} AudibleAppend(a: seq<Chunk>, b: seq<Chunk>)
    ensures Audible(a + b) == Audible(a) + Audible(b)
  {
    if a == [] {
      assert a + b == b;
    } else {
      assert (a + b)[1..] == a[1..] + b;
      AudibleAppend(a[1..], b);
    }
  }

  /** Sentinels alone never reach the device. */
  lemma {:induction false} SentinelsAreSilent(chunks: seq<Chunk>)
    requires forall i :: 0 <= i < |chunks| ==> chunks[i] == []
    ensures Audible(chunks) == []
  {
    if chunks != [] {
      SentinelsAreSilent(chunks[1..]);
    }
  }

  /**
   * What is left queued when a drain thread with no open device dies: it
   * skips sentinels and raises on the first data chunk, which it has taken.
   */
  function AfterFirstData(chunks: seq<Chunk>): (rest: seq<Chunk>)
    ensures |rest| <= |chunks|
    ensures Audible(chunks) == [] ==> rest == []
    ensures Audible(chunks) != [] ==> |rest| < |chunks|
  {
    if chunks == [] then []
    else if chunks[0] == [] then AfterFirstData(chunks[1..])
    else chunks[1..]
  }

  /** A prefix of sentinels does not change where the dying thread stops. */
  lemma {:induction false} AfterFirstDataSkips(silent: seq<Chunk>, rest: seq<Chunk>)
    requires Audible(silent) == []
    ensures AfterFirstData(silent + rest) == AfterFirstData(rest)
  {
    if silent != [] {
      assert silent[0] in silent;
      AudibleIsTheData(silent);
      assert (silent + rest)[1..] == silent[1..] + rest;
      AfterFirstDataSkips(silent[1..], rest);
    } else {
      assert silent + rest == rest;
    }
  }

  class Player {
    /** `buffer_length`, the queue's maxsize. */
    const capacity: int
    const deviceName: string
    const rate: int
    const channels: int
    const periodSize: int
    const mixerName: string

    var queue: seq<Chunk>
    var device: Option<Pcm>
    var mixer: Option<Mixer>
    /** `self.t.isAlive()` */
    var threadAlive: bool
    /** Whether `self.t_stop` exists yet (it is created by the first `play`). */
    var hasStopSignal: bool
    /** `self.t_stop.is_set()` */
    var stopSignal: bool
    /** Every chunk handed to `device.write`, in order. */
    var deviceWrites: seq<Chunk>
    /** Every level handed to `mixer.setvolume`, in order. */
    var volumeWrites: seq<int>

    /**
     * The queue never holds more than its maxsize, and a live drain thread
     * has a stop flag that is not yet set.
     */
    ghost predicate Valid()
      reads this
    {
      (0 < capacity ==> |queue| <= capacity) &&
      (threadAlive ==> hasStopSignal && !stopSignal)
    }

    /** The four PCM settings `acquire` applies, in order. */
    function Configuration(): (settings: seq<PcmSetting>)
      ensures |settings| == 4
    {
      [SetChannels(channels), SetRate(rate), SetPeriodSize(periodSize), SetFormatS16LE]
    }

    constructor (bufferLength: int, deviceName: string, rate: int, channels: int, periodSize: int, mixerName: string)
      ensures Valid()
      ensures capacity == bufferLength && this.deviceName == deviceName && this.rate == rate
      ensures this.channels == channels && this.periodSize == periodSize && this.mixerName == mixerName
      ensures queue == [] && device == None && mixer == None
      ensures !threadAlive && !hasStopSignal
      ensures deviceWrites == [] && volumeWrites == []
    {
      capacity := bufferLength;
      this.deviceName := deviceName;
      this.rate := rate;
      this.channels := channels;
      this.periodSize := periodSize;
      this.mixerName := mixerName;
      queue := [];
      device := None;
      mixer := None;
      threadAlive := false;
      hasStopSignal := false;
      stopSignal := false;
      deviceWrites := [];
      volumeWrites := [];
    }

    /** `mixer_load`: a mixer that ALSA refuses to open raises `MixerError` and leaves the field alone. */
    method MixerLoad(opens: bool) returns (r: Outcome)
      modifies this`mixer
      ensures opens ==> r == Pass && mixer == Some(Mixer(mixerName))
      ensures !opens ==> r == Raise(MixerError) && mixer == old(mixer)
    {
      if opens {
        mixer := Some(Mixer(mixerName));
        r := Pass;
      } else {
        r := Raise(MixerError);
      }
    }

    /** `mixer_unload`: closing a mixer that is not loaded raises, so one must be loaded. */
    method MixerUnload()
      requires mixer.Some?
      modifies this`mixer
      ensures mixer == None
    {
      mixer := None;
    }

    method MixerLoaded() returns (loaded: bool)
      ensures loaded <==> mixer.Some?
    {
      loaded := mixer.Some?;
    }

    /**
     * `acquire`: the handle is stored as soon as the PCM opens, before it is
     * configured, so only a failure to open leaves the player without a
     * device; every failure raises `DeviceError`.
     */
    method Acquire(answer: AlsaAnswer) returns (r: Outcome)
      modifies this`device
      ensures r == Pass || r == Raise(DeviceError)
      ensures r == Pass <==> answer.Opens? && answer.accepted >= 4
      ensures answer.OpenFails? ==> device == old(device)
      ensures answer.Opens? ==> device == Some(Pcm(deviceName, Configuration()[..Min(answer.accepted, 4)]))
      ensures r == Pass ==> device == Some(Pcm(deviceName, Configuration()))
    {
      match answer
      case OpenFails =>
        r := Raise(DeviceError);
      case Opens(accepted) =>
        var settings := Configuration();
        device := Some(Pcm(deviceName, settings[..Min(accepted, |settings|)]));
        r := if accepted < |settings| then Raise(DeviceError) else Pass;
        assert settings[..|settings|] == settings;
    }

    /** `release`: closing requires an open device; afterwards there is none. */
    method Release()
      requires device.Some?
      modifies this`device
      ensures device == None
    {
      device := None;
    }

    method Acquired() returns (acquired: bool)
      ensures acquired <==> device.Some?
    {
      acquired := device.Some?;
    }

    /**
     * One pass of the drain loop's body: take the head chunk and write it to
     * the device unless it is the sentinel. `crashed` is the AttributeError
     * raised when a data chunk meets a closed device.
     */
    method ServeHead() returns (crashed: bool)
      requires queue != []
      modifies this`queue, this`deviceWrites
      ensures queue == old(queue)[1..]
      ensures deviceWrites == old(deviceWrites) + Emitted(old(queue)[0], device)
      ensures crashed <==> old(queue)[0] != [] && device.None?
    {
      var data := queue[0];
      queue := queue[1..];
      crashed := false;
      if data != [] {
        if device.Some? {
          deviceWrites := deviceWrites + [data];
        } else {
          crashed := true;
        }
      }
    }

    /**
     * `playback_thread`: the live thread takes chunks until the queue is
     * empty, where it blocks and stays alive. Sentinels never reach the
     * device. With no device open, the first data chunk kills the thread.
     * The loop tests the stop flag as the source does, but only `Pause`
     * ever sets it: a running thread's flag is clear (`Valid`).
     */
    method PlaybackThread()
      requires Valid() && threadAlive
      modifies this`queue, this`deviceWrites, this`threadAlive
      ensures Valid()
      ensures device.Some? ==> threadAlive && queue == [] && deviceWrites == old(deviceWrites) + Audible(old(queue))
      ensures device.None? ==> deviceWrites == old(deviceWrites)
      ensures device.None? ==> queue == AfterFirstData(old(queue)) && (threadAlive <==> Audible(old(queue)) == [])
    {
      ghost var taken: seq<Chunk> := [];
      var crashed := false;
      while !stopSignal && queue != [] && !crashed
        invariant Valid() && threadAlive
        invariant !crashed ==> old(queue) == taken + queue
        invariant device.Some? ==> !crashed && deviceWrites == old(deviceWrites) + Audible(taken)
        invariant device.None? ==> deviceWrites == old(deviceWrites)
        invariant device.None? && !crashed ==> Audible(taken) == []
        invariant crashed ==> queue == AfterFirstData(old(queue)) && Audible(old(queue)) != []
        decreases |queue|
      {
        ghost var head, rest := queue[0], queue[1..];
        assert queue == [head] + rest;
        crashed := ServeHead();
        AudibleAppend(taken, [head]);
        if crashed {
          AfterFirstDataSkips(taken, [head] + rest);
          AudibleAppend(taken, [head] + rest);
        } else {
          assert taken + [head] + rest == taken + ([head] + rest);
        }
        taken := taken + [head];
      }
      if !crashed {
        assert queue == [];
        assert taken == old(queue) by {
          assert taken + queue == taken;
        }
      }
      if stopSignal || crashed {
        threadAlive := false;
      }
    }

    /**
     * `play`: always makes a fresh, unset stop flag and starts a new drain
     * thread; there is no "already playing" guard.
     */
    method Play()
      modifies this`threadAlive, this`hasStopSignal, this`stopSignal
      ensures threadAlive && hasStopSignal && !stopSignal
    {
      hasStopSignal := true;
      stopSignal := false;
      threadAlive := true;
    }

    /**
     * `pause`: set the stop flag, queue one sentinel exactly when the queue
     * is empty, and join. A live thread, parked in `get`, takes the head
     * chunk, writes it if it is data and exits; a dead one leaves the queue
     * as it is. `self.t_stop` must exist, that is, `play` must have run.
     */
    method Pause()
      requires Valid() && hasStopSignal
      modifies this`queue, this`deviceWrites, this`threadAlive, this`stopSignal
      ensures Valid() && stopSignal && !threadAlive
      ensures old(threadAlive) ==> queue == WithWakeUp(old(queue))[1..]
      ensures old(threadAlive) ==> deviceWrites == old(deviceWrites) + Emitted(WithWakeUp(old(queue))[0], device)
      ensures !old(threadAlive) ==> queue == WithWakeUp(old(queue)) && deviceWrites == old(deviceWrites)
    {
      stopSignal := true;
      if queue == [] {
        queue := queue + [[]];
      }
      if threadAlive {
        var _ := ServeHead();
        threadAlive := false;
      }
    }

    method Playing() returns (playing: bool)
      ensures playing <==> threadAlive
    {
      playing := threadAlive;
    }

    /** `write`: a non-blocking `put` that raises `BufferFull` and changes nothing when the queue is full. */
    method Write(data: Chunk) returns (r: Outcome)
      requires Valid()
      modifies this`queue
      ensures Valid()
      ensures r == Pass <==> !IsFull(capacity, |old(queue)|)
      ensures r == Pass ==> queue == old(queue) + [data]
      ensures r != Pass ==> r == Raise(BufferFull) && queue == old(queue)
    {
      if IsFull(capacity, |queue|) {
        r := Raise(BufferFull);
      } else {
        queue := queue + [data];
        r := Pass;
      }
    }

    /** `queue_clear`: take chunks until the queue is empty, without writing any. */
    method QueueClear()
      requires Valid()
      modifies this`queue
      ensures Valid() && queue == []
    {
      while queue != []
        invariant Valid()
        decreases |queue|
      {
        queue := queue[1..];
      }
    }

    /**
     * `buffer_flush`: pause only when the thread is alive, then discard
     * everything queued (the same loop as `queue_clear`).
     */
    method BufferFlush()
      requires Valid()
      modifies this`queue, this`deviceWrites, this`threadAlive, this`stopSignal
      ensures Valid() && queue == [] && !threadAlive
      ensures old(threadAlive) ==> stopSignal && deviceWrites == old(deviceWrites) + Emitted(WithWakeUp(old(queue))[0], device)
      ensures !old(threadAlive) ==> stopSignal == old(stopSignal) && deviceWrites == old(deviceWrites)
    {
      var playing := Playing();
      if playing {
        Pause();
      }
      QueueClear();
    }

    /** `buffer_length`: the number of queued chunks, never above a positive maxsize. */
    method BufferLength() returns (n: nat)
      requires Valid()
      ensures n == |queue|
      ensures 0 < capacity ==> n <= capacity
    {
      n := |queue|;
    }

    /** `set_volume`: passes the level to the mixer, which must be loaded. */
    method SetVolume(level: int)
      requires mixer.Some?
      modifies this`volumeWrites
      ensures volumeWrites == old(volumeWrites) + [level]
    {
      volumeWrites := volumeWrites + [level];
    }
  }
}
