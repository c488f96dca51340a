# spotify-connect-web audio core, modelled in Dafny

This project models the audio and control core of spotify-connect-web, a
Spotify Connect receiver written in Python 2. The Spotify library delivers
decoded PCM in bursts through a callback (`playback_data`). The callback cuts
the bytes into fixed 4408-byte periods and pushes them into the bounded queue
of an ALSA `Player`, carrying any incomplete period over to the next call. A
drain thread pops periods and writes them to the ALSA PCM device. Playback
notifications raise a play flag or a pause flag, or flush the buffer. The
event loop's `check_events` turns those flags into acquire/play and
pause/release steps. The web front end adds a login-status flag and a few
request checks.

Modules, one per source file:

- `Common` (common.dfy): `Option` and `Result`.
- `Playback` (playback.dfy): player.py. The class `Player` has the queue, the
  device and mixer handles, the drain thread's liveness and stop flag, and a
  record of every chunk handed to `device.write`.
- `ConsoleCallbacks` (console_callbacks.dfy): console_callbacks.py. The
  constants; the pure chunking functions `Frames`/`Leftover` and their
  lemmas; the class `Callbacks`, which holds the module globals
  (`audio_player`, `pending_data`, `play_event`, `pause_event`) and the
  callbacks.
- `Control` (control.dfy): connect.py. The login precedence and
  `check_events`. `PlayPauseCycle` is a client that drives one full
  play/pause cycle through the contracts.
- `WebApp` (web_app.dfy): main.py. Pure route decisions and the
  `invalid_login` flag.

How threads and hardware are read:

- The drain thread is the boolean `threadAlive`.
- Between two control calls the live thread is taken to be parked inside its
  blocking `q.get()`. `PlaybackThread` runs the loop while there is something
  to take. The `join` in `Pause` lets the parked thread take exactly one more
  chunk before it sees the stop flag and exits. That chunk is the sentinel
  when the queue was empty.
- ALSA's answers are parameters: `AlsaAnswer` for `acquire`, a boolean for
  `mixer_load`.

Behaviour of the code worth knowing, modelled as written unless the line says otherwise:

- `play` has no "already playing" guard.
- A Python `Queue` built with maxsize <= 0 is unbounded.
- `acquire` stores the handle before configuring it. A rejected setting
  leaves a half-configured device open, and a later play request plays on it
  without acquiring again.
- `str()` of a missing form field is the text "None". The empty checks of
  `login_password` and the display-name route therefore catch only fields
  that are present and empty.
- The volume route accepts any non-zero integer, negative ones included.
- `set_volume` hands the level straight to the mixer.
- Form values are unicode text and the program runs under Python 2, whose
  `str()` raises `UnicodeEncodeError` on a non-ASCII value. The display-name
  route then answers 500 without setting the name, and `login_password`
  clears `invalid_login`, then raises before flashing or logging in.
- When the queue overflows in `playback_data` after at least one period was
  queued, the carried-over `pending_data` bytes went out at the front of the
  first period but `pending_data` keeps them, so the next delivery queues
  them again. The library is told 2204 samples per queued period, which
  counts |pending_data|/2 samples of its data that were never queued.
- console_callbacks.py:18 calls `player.Player` with five positional
  arguments. The constructor at player.py:6 takes six, so the call as written
  raises `TypeError`. `Callbacks.constructor` builds the player with the
  intended arguments: buffer length `MAXPERIODS`, the device, `RATE`,
  `CHANNELS`, `PERIODSIZE` and the mixer.

## Model

| member | source | states |
|---|---|---|
| `Playback.Player.constructor` | player.py:6-17 | the queue is empty with maxsize `buffer_length`; no device, no mixer, no live thread, no stop flag yet |
| `Playback.Player.MixerLoad` | player.py:19-23 | success stores a mixer for the configured name; failure raises `MixerError` and leaves the mixer field unchanged |
| `Playback.Player.MixerUnload` | player.py:25-27 | a loaded mixer is required (closing `None` raises); afterwards none is loaded |
| `Playback.Player.MixerLoaded` | player.py:29-33 | true iff the mixer field is set |
| `Playback.Player.Configuration` | player.py:38-41 | `acquire` applies exactly four settings: channels, rate, period size, S16_LE |
| `Playback.Player.Acquire` | player.py:35-43 | passes iff the PCM opens and accepts all four settings; every failure is `DeviceError`; only a failure to open leaves the device field unchanged; an opened PCM is stored with the settings it accepted |
| `Playback.Player.Release` | player.py:45-47 | an open device is required; afterwards `acquired()` is false |
| `Playback.Player.Acquired` | player.py:49-53 | true iff a device handle is stored |
| `Playback.Emitted` | player.py:58-59 | one drain pass writes a chunk iff it is non-empty and a device is open, and writes that chunk |
| `Playback.Audible` | player.py:56-60 | draining writes at most as many chunks as it takes |
| `Playback.AudibleIsTheData` | player.py:58-59 | the drained writes are exactly the non-empty chunks: no sentinel reaches the device, and each data chunk is written as many times as it was queued (multiset equality with the sentinels removed) |
| `Playback.AudibleAppend` | player.py:56-60 | draining two stretches of queue writes the writes of each, in order |
| `Playback.SentinelsAreSilent` | player.py:58 | a queue of sentinels alone produces no device write |
| `Playback.AfterFirstData` | player.py:56-60 | with no device open, the thread takes everything if there is no data chunk; otherwise it leaves strictly fewer chunks than it was given (it takes up to and including the first data chunk) |
| `Playback.AfterFirstDataSkips` | player.py:56-59 | leading sentinels do not change where a thread without a device dies |
| `Playback.Player.ServeHead` | player.py:57-60 | one loop pass removes the head chunk, writes it if it is data and a device is open, and raises iff it is data and no device is open |
| `Playback.Player.PlaybackThread` | player.py:55-60 | with a device: takes every queued chunk, writes exactly the non-empty ones in order, stays alive blocked on the empty queue; without one: writes nothing and dies on the first data chunk |
| `Playback.Player.Play` | player.py:62-66 | always creates a fresh unset stop flag and a live thread, with no already-playing guard |
| `Playback.WithWakeUp` | player.py:71-72 | `pause` queues one sentinel when the queue is empty and nothing otherwise |
| `Playback.Player.Pause` | player.py:68-74 | sets the stop flag and queues one sentinel iff the queue was empty; a live thread takes the head chunk, writes it only if it is data, and exits; afterwards `playing()` is false |
| `Playback.Player.Playing` | player.py:76-80 | true iff the drain thread is alive |
| `Playback.Player.Write` | player.py:82-86 | appends the chunk iff the queue is not full; otherwise raises `BufferFull` and leaves the queue unchanged; the queue never exceeds a positive maxsize |
| `Playback.Player.QueueClear` | player.py:88-91 | empties the queue without writing to the device |
| `Playback.Player.BufferFlush` | player.py:93-99 | the queue is empty and `playing()` false afterwards, from any state; pauses only when the thread was alive; a paused player's stop flag and device writes are untouched |
| `Playback.Player.BufferLength` | player.py:101-102 | the number of queued chunks, never above a positive maxsize |
| `Playback.Player.SetVolume` | player.py:107-108 | needs a loaded mixer and hands it the level unchanged |
| `ConsoleCallbacks.ConstantValues` | console_callbacks.py:7-11 | `PERIODSIZE` is 1102 under integer division, `MAXPERIODS` is 20, and a period is 4408 bytes or 2204 samples |
| `ConsoleCallbacks.WholeSamples` | console_callbacks.py:115 | the sample count is cut down to the largest multiple of `CHANNELS` not above it |
| `ConsoleCallbacks.Frames` | console_callbacks.py:121-123 | every chunk cut off is exactly one period of 4408 bytes |
| `ConsoleCallbacks.Leftover` | console_callbacks.py:121-126 | the bytes carried over are fewer than one period |
| `ConsoleCallbacks.FramesConserveBytes` | console_callbacks.py:117-126 | periods followed by the remainder are the input; there are length/4408 periods and length mod 4408 bytes remain |
| `ConsoleCallbacks.FramesCompose` | console_callbacks.py:117-126 | two deliveries with the remainder carried over enqueue the same periods and keep the same remainder as one delivery of both |
| `ConsoleCallbacks.WholePeriodsLeaveNothing` | console_callbacks.py:121-126 | input of whole periods leaves nothing pending and gives one chunk per period |
| `ConsoleCallbacks.OverflowRequeuesCarried` | console_callbacks.py:113-129 | on overflow after at least one period was queued, the carried-over `pending_data` bytes are at the front of what was queued, while `pending_data` keeps them |
| `ConsoleCallbacks.FullQueueConsumesLess` | console_callbacks.py:119-129 | when the queue has room for fewer periods than a delivery holds, the samples reported consumed are fewer than the samples delivered |
| `ConsoleCallbacks.Callbacks.constructor` | console_callbacks.py:18-21 | an idle player with maxsize `MAXPERIODS` and the module's rate, channels and period size; both flags clear; nothing pending |
| `ConsoleCallbacks.Callbacks.PlaybackData` | console_callbacks.py:109-131 | sets the play flag. If everything fits: all periods of pending+input are enqueued, the remainder becomes `pending_data`, the truncated count is returned, and no byte is lost. On `BufferFull`: the periods that fit are enqueued, 2204 samples each are reported, fewer than given, and `pending_data` is kept. The backlog is always queue length × 2204 |
| `ConsoleCallbacks.Callbacks.AudioFlush` | console_callbacks.py:99-103 | the player queue and `pending_data` are empty and `playing()` is false afterwards; a live thread is stopped after writing the head chunk if it is data, and an idle player's stop flag and writes are untouched |
| `ConsoleCallbacks.Callbacks.PlaybackNotify` | console_callbacks.py:66-97 | the pause flag is raised exactly for Pause and BecameInactive; AudioFlush flushes, with the same stop-flag and device-write outcome as `audio_flush`; every other notification changes nothing |
| `ConsoleCallbacks.Callbacks.PlaybackVolume` | console_callbacks.py:140-143 | the mixer receives the level only when a mixer is loaded |
| `Control.LoginUser` | connect.py:98-103 | an explicit username wins; otherwise a non-empty stored one; otherwise there is none |
| `Control.ChooseLogin` | connect.py:97-112 | no username gives the first `ValueError` before any method is looked at; then password, blob and zeroconf are tried in that order, each call carrying the chosen user and the given password, blob or zeroconf pair; none gives the second `ValueError` |
| `Control.Connect.constructor` | connect.py:32-36 | the connection starts with the loaded credentials and no library calls |
| `Control.Connect.Login` | connect.py:97-112 | an explicit username is stored into the credentials even if the call then fails; the chosen login call is made exactly on success |
| `Control.Connect.CheckEvents` | connect.py:114-132 | play request, idle, no device: acquire, and play only on success, else request a pause upstream and leave the stop flag as it was; an opened device keeps the settings ALSA accepted, even when it rejected one. Play request, idle, device open: play without acquiring again. Otherwise pause request while playing: pause (the stop flag is set) then release, so both `playing()` and `acquired()` are false. Neither: the player is unchanged. Both flags are cleared on every path, and a live thread always has an open device |
| `WebApp.PyStr` | main.py:118 | `str` of a missing field is the non-empty text "None"; an ASCII value is kept; `UnicodeEncodeError` is raised exactly for a value with a non-ASCII character |
| `WebApp.Action` | main.py:165 | the query-string action is used when it is non-empty, otherwise the form's |
| `WebApp.LoginZeroconf` | main.py:163-179 | no action gives 301 ERROR-MISSING-ACTION; getInfo+GET goes to `get_info`; addUser+POST goes to `add_user`; every other pair gives 301 ERROR-INVALID-ACTION |
| `WebApp.PlaybackVolumePost` | main.py:79-87 | the volume is sent, with 204, iff the value is a non-zero integer; zero gives 400 "value must be set"; a missing or non-integer value is an uncaught error |
| `WebApp.InfoDisplayNamePost` | main.py:116-124 | 500 with no call iff the value is not ASCII; 400 iff the field is present and empty; otherwise the value, or "None" for a missing field, becomes the display name, with 204 |
| `WebApp.Web.constructor` | main.py:19 | `invalid_login` starts false |
| `WebApp.Web.WebErrorCallback` | main.py:21-25 | `invalid_login` is set by the bad-credentials error and by no other |
| `WebApp.Web.CheckLogin` | main.py:148-161 | finished iff invalid or logged in; success iff logged in and not invalid; success implies finished |
| `WebApp.Web.LoginPassword` | main.py:132-146 | `invalid_login` is cleared first; a field `str` cannot encode raises with no flash and no login; otherwise the password login is made iff neither stringified field is empty, and the username is then stored |

## Left out

- Threads are not interleaved. `PlaybackData` runs with no concurrent drain. A real busy drain thread may finish zero or one more chunk after the stop flag is set; the model takes the parked reading, exactly one.
- Play: a second `play` while the thread is alive orphans the old thread, which keeps draining with its own stop flag. The model tracks only the newest thread. `check_events` never does this.
- Playback.Player.PlaybackThread: `device.write` always succeeds and never blocks. An ALSA write error, which would end the thread, is not modelled; ALSA is opaque.
- `get_volume` (player.py:104-105) reads the hardware mixer and is not modelled. It is used only at start-up in connect.py, together with floating-point scaling.
- The volume scaling by 655.35 (console_callbacks.py:143, connect.py:77) is floating point. `PlaybackVolume` takes the level already scaled.
- The 32-bit unsigned types of the data callback are not modelled. Its counts stay in range for any `num_samples` the library can pass.
- `int()` parsing of the volume form value is taken as given (`FormInt`). Python's integer-literal grammar is not modelled.
- `Connect.__init__` beyond storing the credentials is not modelled: argument parsing, the app key file, the credentials JSON file, library initialisation, callback registration, start-up mixer load, bitrate and auto-login. Neither are the signal handler and the console error callback (which uses an undefined `msg`).
- console_callbacks.py's printing-only callbacks (`error_callback`, `connection_notify`, `debug_message`, `playback_seek`) and `connection_new_credentials` (file I/O) are not modelled. Neither is the FFI `userdata_wrapper`.
- main.py's pass-through routes (play, pause, prev, next, shuffle, repeat, the GET routes, metadata, status, image URL, logout) are not modelled. Neither are the bodies of `get_info` and `add_user` (`add_user` uses an undefined `username`), `pump_events` or the HTTP server.
