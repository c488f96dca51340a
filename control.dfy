/**
 * The control side of connect.py: the login precedence of `Connect.login`
 * and the event loop step `Connect.check_events`, which turns the two event
 * flags raised by the callbacks into acquire/play and pause/release steps on
 * the shared player. Calls into the Spotify library are recorded in `calls`.
 */
module Control {
  import opened Common
  import opened Playback
  import opened ConsoleCallbacks

  /** The Spotify library calls this part of the program makes. */
  datatype LibCall =
    | SpPlaybackPause
    | SpConnectionLoginPassword(username: string, password: string)
    | SpConnectionLoginBlob(username: string, blob: string)
    | SpConnectionLoginZeroConf(username: string, blob: string, clientKey: string)

  /** The two `ValueError`s of `login`. */
  datatype LoginError = NoUsername | NoLoginMethod

  /** The `credentials` dictionary; a key stored as `None` is `None` here. */
  datatype Credentials = Credentials(deviceId: string, username: Option<string>, blob: Option<string>)

  /** Python truthiness of an optional string: neither `None` nor empty. */
  predicate Truthy(s: Option<string>)
  {
    s.Some? && s.value != ""
  }

  /** The user a login is made for: an explicit username, else a truthy stored one. */
  function LoginUser(stored: Option<string>, username: Option<string>): (user: Option<string>)
    ensures username.Some? ==> user == username
    ensures username.None? && Truthy(stored) ==> user == stored
    ensures user.None? <==> username.None? && !Truthy(stored)
  {
    if username.Some? then username
    else if Truthy(stored) then stored
    else None
  }

  /**
   * The library call `login` makes: a password wins over a blob, a blob over
   * a zeroconf pair; the username check comes before the method check.
   */
  function ChooseLogin(stored: Option<string>, username: Option<string>, password: Option<string>,
                       blob: Option<string>, zeroconf: Option<(string, string)>): (r: Result<LibCall, LoginError>)
    ensures r == Err(NoUsername) <==> LoginUser(stored, username).None?
    ensures r == Err(NoLoginMethod) <==>
              LoginUser(stored, username).Some? && password.None? && blob.None? && zeroconf.None?
    ensures r.Ok? && password.Some? ==>
              r.value == SpConnectionLoginPassword(LoginUser(stored, username).value, password.value)
    ensures r.Ok? && r.value.SpConnectionLoginBlob? <==>
              LoginUser(stored, username).Some? && password.None? && blob.Some?
    ensures r.Ok? && r.value.SpConnectionLoginZeroConf? <==>
              LoginUser(stored, username).Some? && password.None? && blob.None? && zeroconf.Some?
    ensures r.Ok? && r.value.SpConnectionLoginBlob? ==> r.value.blob == blob.value
    ensures r.Ok? && r.value.SpConnectionLoginZeroConf? ==> (r.value.blob, r.value.clientKey) == zeroconf.value
    ensures r.Ok? ==> r.value.username == LoginUser(stored, username).value
  {
    match LoginUser(stored, username)
    case None => Err(NoUsername)
    case Some(user) =>
      if password.Some? then Ok(SpConnectionLoginPassword(user, password.value))
      else if blob.Some? then Ok(SpConnectionLoginBlob(user, blob.value))
      else if zeroconf.Some? then Ok(SpConnectionLoginZeroConf(user, zeroconf.value.0, zeroconf.value.1))
      else Err(NoLoginMethod)
  }

  class Connect {
    /** The globals of console_callbacks.py that connect.py imports. */
    const audio: Callbacks
    var credentials: Credentials
    /** The library calls made so far, in order. */
    var calls: seq<LibCall>

    /** Argument parsing, the app key and the credentials file are not modelled: the loaded credentials are given. */
    constructor (audio: Callbacks, credentials: Credentials)
      ensures this.audio == audio && this.credentials == credentials && calls == []
    {
      this.audio := audio;
      this.credentials := credentials;
      calls := [];
    }

    /**
     * `login`: an explicit username is stored into the credentials before
     * anything else happens (also when the call then fails for want of a
     * method); the chosen library call is made.
     */
    method Login(username: Option<string>, password: Option<string>, blob: Option<string>,
                 zeroconf: Option<(string, string)>) returns (r: Result<LibCall, LoginError>)
      modifies this`credentials, this`calls
      ensures r == ChooseLogin(old(credentials.username), username, password, blob, zeroconf)
      ensures username.Some? ==> credentials == old(credentials).(username := username)
      ensures username.None? ==> credentials == old(credentials)
      ensures r.Ok? ==> calls == old(calls) + [r.value]
      ensures r.Err? ==> calls == old(calls)
    {
      r := ChooseLogin(credentials.username, username, password, blob, zeroconf);
      if username.Some? {
        credentials := credentials.(username := username);
      }
      if r.Ok? {
        calls := calls + [r.value];
      }
    }

    /**
     * `check_events`: a play request on an idle player acquires the device
     * if needed and starts playback, asking the library to pause when the
     * device cannot be acquired; otherwise a pause request on a playing
     * player pauses and releases the device. Both flags are cleared on every
     * path. `answer` is what ALSA answers if the device is acquired.
     */
    method CheckEvents(answer: AlsaAnswer)
      requires audio.Valid()
      modifies this`calls, audio`playEvent, audio`pauseEvent
      modifies audio.player`device, audio.player`queue, audio.player`deviceWrites
      modifies audio.player`threadAlive, audio.player`hasStopSignal, audio.player`stopSignal
      ensures audio.Valid()
      ensures !audio.playEvent && !audio.pauseEvent
      // A play request on an idle player with no device: acquire, then play only if that succeeded.
      ensures old(audio.playEvent && !audio.player.threadAlive && audio.player.device.None?) ==>
                && (answer.OpenFails? ==> audio.player.device == old(audio.player.device))
                && (answer.Opens? ==>
                      audio.player.device == Some(Pcm(audio.player.deviceName, audio.player.Configuration()[..Min(answer.accepted, 4)])))
                && (audio.player.threadAlive ==> audio.player.hasStopSignal && !audio.player.stopSignal)
                && (!audio.player.threadAlive ==>
                      && audio.player.hasStopSignal == old(audio.player.hasStopSignal)
                      && audio.player.stopSignal == old(audio.player.stopSignal))
                && (audio.player.threadAlive <==> answer.Opens? && answer.accepted >= 4)
                && (audio.player.threadAlive ==> calls == old(calls))
                && (!audio.player.threadAlive ==> calls == old(calls) + [SpPlaybackPause])
                && audio.player.queue == old(audio.player.queue)
                && audio.player.deviceWrites == old(audio.player.deviceWrites)
      // A play request on an idle player whose device is open: play without acquiring again.
      ensures old(audio.playEvent && !audio.player.threadAlive && audio.player.device.Some?) ==>
                && audio.player.threadAlive && audio.player.device == old(audio.player.device)
                && audio.player.hasStopSignal && !audio.player.stopSignal
                && calls == old(calls) && audio.player.queue == old(audio.player.queue)
                && audio.player.deviceWrites == old(audio.player.deviceWrites)
      // Otherwise a pause request on a playing player: pause, then release.
      ensures old(!(audio.playEvent && !audio.player.threadAlive) && audio.pauseEvent && audio.player.threadAlive) ==>
                && !audio.player.threadAlive && audio.player.device == None && calls == old(calls)
                && audio.player.stopSignal && audio.player.hasStopSignal == old(audio.player.hasStopSignal)
                && audio.player.queue == WithWakeUp(old(audio.player.queue))[1..]
                && audio.player.deviceWrites ==
                     old(audio.player.deviceWrites) + Emitted(WithWakeUp(old(audio.player.queue))[0], old(audio.player.device))
      // Neither: the player is left alone.
      ensures old(!(audio.playEvent && !audio.player.threadAlive) && !(audio.pauseEvent && audio.player.threadAlive)) ==>
                unchanged(audio.player) && calls == old(calls)
    {
      var playing := audio.player.Playing();
      if audio.playEvent && !playing {
        var acquired := audio.player.Acquired();
        if !acquired {
          var r := audio.player.Acquire(answer);
          if r == Pass {
            audio.player.Play();
          } else {
            calls := calls + [SpPlaybackPause];
          }
        } else {
          audio.player.Play();
        }
      } else if audio.pauseEvent && playing {
        audio.player.Pause();
        audio.player.Release();
      }
      audio.playEvent := false;
      audio.pauseEvent := false;
    }
  }
}

/**
 * A play/pause cycle as the event loop drives it: two whole periods arrive,
 * the next event-loop step acquires the device and starts the drain thread,
 * the thread writes both periods, a Pause notification arrives, and the next
 * step pauses the thread and releases the device.
 */
module PlayPauseCycle {
  import opened Common
  import opened Playback
  import opened ConsoleCallbacks
  import opened Control

  method TwoPeriodsThenPause(data: seq<byte>)
    requires |data| == 2 * FRAME_BYTES
  {
    ConstantValues();
    var audio := new Callbacks("default", "PCM");
    var connect := new Connect(audio, Credentials("device", None, None));
    var first, second := data[..FRAME_BYTES], data[FRAME_BYTES..];
    assert data == first + second;
    assert Frames(second) == [second] by {
      assert second[..FRAME_BYTES] == second;
      assert Frames(second[FRAME_BYTES..]) == [];
    }
    assert Frames(data) == [first, second] by {
      assert data[FRAME_BYTES..] == second;
    }

    assert WholeSamples(2 * PERIOD_SAMPLES) * SAMPLESIZE == |data|;
    assert audio.pendingData + data[..|data|] == data;
    var consumed, pending := audio.PlaybackData(data, 2 * PERIOD_SAMPLES);
    assert consumed == 2 * PERIOD_SAMPLES && audio.pendingData == [];
    assert audio.player.queue == [first, second] && pending == 2 * PERIOD_SAMPLES;

    connect.CheckEvents(Opens(4));
    assert audio.player.threadAlive && audio.player.device.Some?;

    audio.player.PlaybackThread();
    assert Audible([first, second]) == [first, second] by {
      assert [first, second][1..] == [second];
      assert [second][1..] == [];
    }
    assert audio.player.queue == [] && audio.player.deviceWrites == [first, second];

    audio.PlaybackNotify(NotifyPause);
    connect.CheckEvents(OpenFails);
    assert !audio.player.threadAlive && audio.player.device == None;
    assert audio.player.deviceWrites == [first, second] && audio.player.queue == [];
  }
}
