# Direct-sound playback state machine

A Dafny model of the playback and timing logic of a Game Boy Advance demo
that streams a two-channel 8-bit PCM track to the direct-sound hardware.
Pressing A starts playback unless a track is already playing, and pressing B
stops it. A global counter, `samplesLeft`, tracks how much of the track is
left. The vblank interrupt handler lowers it once per display refresh and
stops playback when it runs out.

The model is one module, `Pcm`, in `pcm.dfy`:

- `Machine` is the state the program writes. It holds the counter, whether
  timer 0, DMA channels 1 and 2 and the sound circuit are enabled, timer 0's
  reload register, and which buffer and FIFO each DMA channel is routed to.
- `Played`, `Stopped`, `Ticked` and `Step` are the pure specifications of
  `playSound`, `stopSound`, the vblank handler and one iteration of `main`'s
  loop. `Run` applies `Step` once per frame in a sequence of button inputs.
- `Inv` is the invariant. It says the counter lies in `0..TRACK_LENGTH`, the
  four enables switch on and off together, samples are left only while the
  timer runs, the timer runs only while samples are left (for a non-empty
  track), and while it runs the timer and both DMA channels are programmed.
- Class `Player` keeps that state in mutable fields, as the program keeps it
  in a global and in hardware registers. Its methods `PlaySound`,
  `StopSound`, `Tick`, `Frame` and `RunFrames` update the fields in place.
  Each one is proved against the matching specification function and keeps
  `Valid()`, which is `Inv` of the fields.

`TRACK_LENGTH` is `TrackLength(leftSize, rightSize)`, where the two buffer
sizes are arguments of `Player`'s constructor. The floating-point per-vblank
decrement is the integer constant `SamplesPerTick = 549`. The lemma
`SamplesPerTickIsNearest` proves, in integer arithmetic, that 549 is the
exactly rounded value of 32768 · 280896 / 16777216 = 548.625: it is strictly
the nearest integer to that quotient.

The button state is an input: `Frame(a, b)` receives the two bits of
`keysDown()` for that frame. `RunFrames` receives a finite sequence of them,
which models a finite prefix of the endless `for (;;)` loop. Each vblank is
one `Tick` followed by the loop body, because `VBlankIntrWait` returns only
after the interrupt handler has run.

## Model

| member | source | states |
|---|---|---|
| `Pcm.U16` | directsound/source/pcm.c:40 | storing an int in a 16-bit register keeps it modulo 2^16: the result is below 65536 and congruent to the input |
| `Pcm.TimerReloadValue` | directsound/source/pcm.c:8-9 | the reload value is -(16777216 / 32768) = -512, held as 65024; the timer overflows every 512 cycles, exactly 32768 times per second |
| `Pcm.RoundQuotient` | directsound/source/pcm.c:67 | rounding a quotient to nearest, ties upward: 2n - d < 2rd <= 2n + d |
| `Pcm.SamplesPerTickIsNearest` | directsound/source/pcm.c:10 | 549 is the rounded value of 32768 · 280896 / 16777216; that quotient is exactly 4389/8, and every other integer is strictly farther from it |
| `Pcm.TrackLength` | directsound/source/pcm.c:12 | the track length is the mean of the two buffer sizes, rounded down; it equals the size when both are equal |
| `Pcm.TicksToDrain` | directsound/source/pcm.c:64-71 | the number of 549-sample ticks that use up a counter is its ceiling quotient: n · 549 >= samples > (n - 1) · 549 |
| `Pcm.Played` | directsound/source/pcm.c:16-42 | after playSound the counter is the full track, the timer, both DMA channels and the sound are on, the reload and routes are programmed, and the invariant holds |
| `Pcm.Stopped` | directsound/source/pcm.c:44-56 | after stopSound the counter is zero and all four enables are off; registers stopSound does not write keep their values |
| `Pcm.Ticked` | directsound/source/pcm.c:58-73 | with the timer stopped a tick changes nothing; with it running the machine keeps running exactly when more than 549 samples were left, it then holds 549 fewer, and it is otherwise stopped; a non-negative counter stays non-negative |
| `Pcm.Step` | directsound/source/pcm.c:96-107 | B leaves the machine stopped, even when A is pressed in the same frame; A plays from the start only when the counter is zero after the tick; while samples are left A is ignored; with no button a frame is just a tick |
| `Pcm.PowerOnInv` | directsound/source/pcm.c:14 | the zero-initialised counter and cleared registers satisfy the invariant |
| `Pcm.StopPreservesInv` | directsound/source/pcm.c:44-56 | stopSound establishes the invariant from any state |
| `Pcm.StopIdempotent` | directsound/source/pcm.c:44-56 | stopping a stopped machine changes nothing |
| `Pcm.StopWhileIdle` | directsound/source/pcm.c:105-107 | under the invariant, stopping an idle machine (also at power-on, before any playback) changes nothing |
| `Pcm.TickPreservesInv` | directsound/source/pcm.c:64-71 | the vblank handler preserves the invariant |
| `Pcm.StepPreservesInv` | directsound/source/pcm.c:101-107 | one iteration of the main loop preserves the invariant, whatever the buttons |
| `Pcm.RunPreservesInv` | directsound/source/pcm.c:93-108 | any number of frames with any button presses preserves the invariant, so the counter is never negative |
| `Pcm.RunningIffSamplesLeft` | directsound/source/pcm.c:64-71 | for a non-empty track, under the invariant, timer 0 runs if and only if samples are left |
| `Pcm.ReachableRunningIffSamplesLeft` | directsound/source/pcm.c:93-108 | in every state the main loop reaches from power-on, for a non-empty track, the counter is non-negative and timer 0 runs if and only if samples are left |
| `Pcm.IdleCountdown` | directsound/source/pcm.c:67-71 | with no button pressed, a running machine loses 549 samples per frame until its counter is used up, then is stopped and stays stopped |
| `Pcm.PlaybackDuration` | directsound/source/pcm.c:64-71 | after playSound, with no button pressed, playback runs for exactly ceil(TRACK_LENGTH / 549) vblanks, then the counter is zero and every enable is off |
| `Pcm.PlaybackDurationExample` | directsound/source/pcm.c:67 | after playSound on a 65536-sample track with no button pressed, timer 0 runs exactly during the first 120 vblanks |
| `Pcm.Player.constructor` | directsound/source/pcm.c:14 | the counter starts at zero with every register clear, the invariant holds, and the track length is fixed from the two buffer sizes |
| `Pcm.Player.PlaySound` | directsound/source/pcm.c:16-42 | the counter is set to the full track, even during playback; the sound, both DMA channels and timer 0 are switched on; the reload and routes are programmed |
| `Pcm.Player.StopSound` | directsound/source/pcm.c:44-56 | the counter is zero and timer 0, both DMA channels and the sound are off; the reload and routes are untouched; the invariant holds from any prior state |
| `Pcm.Player.Tick` | directsound/source/pcm.c:58-73 | with the timer stopped nothing changes; with it running the counter drops by exactly 549, and stopSound runs when it reaches zero or below; the invariant is kept |
| `Pcm.Player.Frame` | directsound/source/pcm.c:96-107 | the vblank handler runs, then the button rules apply; B always leaves everything stopped with a zero counter; the invariant is kept |
| `Pcm.Player.RunFrames` | directsound/source/pcm.c:93-108 | running the main loop over a sequence of frames yields the state `Run` specifies, keeps the invariant, and leaves the counter non-negative |

## Left out

- Register bit encodings: the `DSOUNDCTRL_*`, `DMA32`, `DMA_SPECIAL`, `DMA_REPEAT`, `DMA_SRC_INC`, `DMA_DST_INC`, `SNDSTAT_ENABLE` and `TIMER_START` values (pcm.c:22-41). They come from `gba.h`, which is not part of this model. Each enable is a boolean, and the timer-running test at pcm.c:64 reads that boolean.
- The direct-sound mixer setup at pcm.c:25-27 (volume, left/right routing, timer selection and FIFO reset). It is written only by playSound and never read, so it is not part of the state.
- libgba calls: `irqInit`, `irqSet`, `irqEnable`, `consoleDemoInit`, `iprintf`, `VBlankIntrWait`, `scanKeys` and `keysDown` (pcm.c:61, 80-99). These are interrupt plumbing and console I/O. The keys pressed in each frame are parameters of `Frame` and `RunFrames`.
- Floating point: the `round(...)` expression at pcm.c:10 and 67 is replaced by the constant 549, which `SamplesPerTickIsNearest` proves is the exactly rounded value. Single-precision error in the program's own computation is not modelled.
- Interrupt preemption: each vblank is one atomic `Tick` followed by the loop body, not an interrupt that can arrive anywhere in the loop body.
- Machine integer widths: `samplesLeft` is an unbounded integer. The `s32`/`u32` mixing at pcm.c:67 is modelled as signed subtraction. Possible overflow of `left_bin_size + right_bin_size` at pcm.c:12 is not modelled. For any real buffer size these values stay far inside 32-bit range.
- The sample data: `left_bin` and `right_bin` appear only as the names the DMA source registers point to and through their sizes in `TrackLength`.
- The endless `for (;;)` loop: `RunFrames` runs any finite number of frames.
