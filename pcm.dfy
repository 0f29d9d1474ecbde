/**
 * The playback and timing state machine of the Game Boy Advance direct-sound
 * demo: a counter of samples still to play, the timer and the two DMA
 * channels that stream the left and right sample buffers into the audio
 * FIFOs, the sound-enable flag, the once-per-vblank countdown and the
 * per-frame button rules.
 *
 * The pure functions below (Played, Stopped, Ticked, Step, Run) are the
 * specification of one state; class Player keeps that state in mutable
 * fields, the way the program keeps it in a global and in hardware registers,
 * and each of its methods is proved against one of those functions.
 */
module Pcm {

  // ---------------------------------------------------------------------
  // Constants
  // ---------------------------------------------------------------------

  /** Output sample rate, in Hz. */
  const SampleRate: nat := 32768

  /** CPU clock, in Hz. */
  const CpuClock: nat := 16777216

  /** CPU cycles between two vertical blanks (one display refresh). */
  const RefreshCycles: nat := 280896

  /**
   * Samples the DMA channels consume between two vertical blanks: the value
   * the program computes in floating point as
   * round(SampleRate / (CpuClock / RefreshCycles)), here as an integer.
   */
  const SamplesPerTick: nat := 549

  function Abs(x: int): nat { if x < 0 then -x else x }

  /** The value a 16-bit hardware register holds after an int is stored in it. */
  function U16(x: int): (r: nat)
    ensures r < 0x1_0000
    ensures (x - r) % 0x1_0000 == 0
  {
    x % 0x1_0000
  }

  /** The reload value written to timer 0's counter register. */
  const TimerReload: nat := U16(-(CpuClock / SampleRate))

  /**
   * The timer counts up from the reload value and overflows after
   * 0x10000 - TimerReload = 512 cycles, that is, exactly SampleRate times
   * per second.
   */
  lemma TimerReloadValue()
    ensures CpuClock / SampleRate == 512
    ensures TimerReload == 65024
    ensures (0x1_0000 - TimerReload) * SampleRate == CpuClock
  {
  }

  /** n / d rounded to the nearest integer, halves rounded up (C's round for n >= 0). */
  function RoundQuotient(n: nat, d: nat): (r: nat)
    requires d > 0
    ensures 2 * n - d < 2 * r * d <= 2 * n + d
  {
    var q := (2 * n + d) / (2 * d);
    assert (2 * d) * q + (2 * n + d) % (2 * d) == 2 * n + d;
    assert 2 * q * d == (2 * d) * q;
    q
  }

  /**
   * 549 is the rounded per-vblank sample count: the exact quotient
   * SampleRate * RefreshCycles / CpuClock is 548.625 = 4389 / 8, and 549 is
   * strictly closer to it than any other integer.
   */
  lemma SamplesPerTickIsNearest(n: int)
    ensures SamplesPerTick == RoundQuotient(SampleRate * RefreshCycles, CpuClock)
    ensures 8 * (SampleRate * RefreshCycles) == 4389 * CpuClock
    ensures n != SamplesPerTick ==>
      Abs(SamplesPerTick * CpuClock - SampleRate * RefreshCycles)
      < Abs(n * CpuClock - SampleRate * RefreshCycles)
  {
    if n > SamplesPerTick {
      assert n * CpuClock >= (SamplesPerTick + 1) * CpuClock;
    } else if n < SamplesPerTick {
      assert n * CpuClock <= (SamplesPerTick - 1) * CpuClock;
    }
  }

  /** TRACK_LENGTH: the two buffer sizes averaged, rounded down. */
  function TrackLength(leftSize: nat, rightSize: nat): (t: nat)
    ensures 2 * t <= leftSize + rightSize < 2 * t + 2
    ensures leftSize == rightSize ==> t == leftSize
  {
    (leftSize + rightSize) / 2
  }

  /** The number of vblank ticks that wear down a counter of `samples`: ceil(samples / 549). */
  function TicksToDrain(samples: nat): (n: nat)
    ensures samples <= n * SamplesPerTick
    ensures n > 0 ==> (n - 1) * SamplesPerTick < samples
  {
    (samples + SamplesPerTick - 1) / SamplesPerTick
  }

  // ---------------------------------------------------------------------
  // State
  // ---------------------------------------------------------------------

  /** The two sample buffers linked into the program. */
  datatype Sample = LeftBin | RightBin

  /** The two direct-sound FIFOs. */
  datatype Fifo = FifoA | FifoB

  /** Where a DMA channel's source and destination registers point. */
  datatype Route = Unrouted | Routed(source: Sample, fifo: Fifo)

  /** The left buffer into FIFO A, for DMA channel 1. */
  const LeftRoute := Routed(LeftBin, FifoA)

  /** The right buffer into FIFO B, for DMA channel 2. */
  const RightRoute := Routed(RightBin, FifoB)

  /**
   * The global counter of samples left and the hardware state that the
   * program writes: whether timer 0, DMA channels 1 and 2 and the sound
   * circuit are enabled, timer 0's reload register and the DMA routes.
   */
  datatype Machine = Machine(
    samplesLeft: int,
    timerRunning: bool,
    dma1Enabled: bool,
    dma2Enabled: bool,
    soundEnabled: bool,
    timerReload: int,
    dma1Route: Route,
    dma2Route: Route)

  /** The buttons newly pressed in one frame. */
  datatype Keys = Keys(a: bool, b: bool)

  const NoKeys := Keys(false, false)

  predicate AllOn(m: Machine)
  {
    m.timerRunning && m.dma1Enabled && m.dma2Enabled && m.soundEnabled
  }

  predicate AllOff(m: Machine)
  {
    !m.timerRunning && !m.dma1Enabled && !m.dma2Enabled && !m.soundEnabled
  }

  /**
   * The invariant of a machine playing a track of t samples: the counter lies
   * in 0..t, the four enables switch together, a non-zero counter means the
   * timer runs, a running timer means a non-zero counter (for a non-empty
   * track), and while the timer runs the timer and DMA channels are
   * programmed as playback programs them.
   */
  predicate Inv(m: Machine, t: nat)
  {
    && 0 <= m.samplesLeft <= t
    && m.dma1Enabled == m.timerRunning
    && m.dma2Enabled == m.timerRunning
    && m.soundEnabled == m.timerRunning
    && (m.samplesLeft > 0 ==> m.timerRunning)
    && (t > 0 && m.timerRunning ==> m.samplesLeft > 0)
    && (m.timerRunning ==>
          m.timerReload == TimerReload && m.dma1Route == LeftRoute && m.dma2Route == RightRoute)
  }

  /** The state at power-on: the counter is zero and every register is clear. */
  const PowerOn := Machine(0, false, false, false, false, 0, Unrouted, Unrouted)

  // ---------------------------------------------------------------------
  // Operations, as functions of the state
  // ---------------------------------------------------------------------

  /** playSound: the whole track is left and everything is switched on. */
  function Played(t: nat): (r: Machine)
    ensures r.samplesLeft == t && AllOn(r)
    ensures r.timerReload == TimerReload && r.dma1Route == LeftRoute && r.dma2Route == RightRoute
    ensures Inv(r, t)
  {
    Machine(t, true, true, true, true, TimerReload, LeftRoute, RightRoute)
  }

  /**
   * stopSound: no samples are left and everything is switched off; the
   * reload and address registers, which stopSound does not write, keep
   * their values.
   */
  function Stopped(m: Machine): (r: Machine)
    ensures r.samplesLeft == 0 && AllOff(r)
    ensures r.timerReload == m.timerReload && r.dma1Route == m.dma1Route && r.dma2Route == m.dma2Route
  {
    m.(samplesLeft := 0, timerRunning := false, dma1Enabled := false,
       dma2Enabled := false, soundEnabled := false)
  }

  /**
   * The vblank interrupt handler: while timer 0 runs, one tick's worth of
   * samples is subtracted and playback is stopped once the counter is
   * exhausted.
   */
  function Ticked(m: Machine): (r: Machine)
    ensures !m.timerRunning ==> r == m
    ensures m.timerRunning ==> (r.timerRunning <==> m.samplesLeft > SamplesPerTick)
    ensures r.timerRunning ==> r == m.(samplesLeft := m.samplesLeft - SamplesPerTick)
    ensures m.timerRunning && !r.timerRunning ==> r == Stopped(m)
    ensures m.samplesLeft >= 0 ==> r.samplesLeft >= 0
  {
    if !m.timerRunning then m
    else
      var decremented := m.(samplesLeft := m.samplesLeft - SamplesPerTick);
      if decremented.samplesLeft <= 0 then Stopped(decremented) else decremented
  }

  /**
   * One iteration of the main loop: the vblank handler runs, then A starts
   * playback when nothing is playing and B stops it.
   */
  function Step(m: Machine, t: nat, keys: Keys): (r: Machine)
    ensures keys.b ==> r.samplesLeft == 0 && AllOff(r)
    ensures !keys.b && keys.a && Ticked(m).samplesLeft == 0 ==> r == Played(t)
    ensures !keys.b && Ticked(m).samplesLeft != 0 ==> r == Ticked(m)
    ensures !keys.a && !keys.b ==> r == Ticked(m)
  {
    var ticked := Ticked(m);
    var played := if keys.a && ticked.samplesLeft == 0 then Played(t) else ticked;
    if keys.b then Stopped(played) else played
  }

  /** The state after the main loop has run once per element of `frames`. */
  function Run(m: Machine, t: nat, frames: seq<Keys>): Machine
    decreases |frames|
  {
    if frames == [] then m
    else Step(Run(m, t, frames[..|frames| - 1]), t, frames[|frames| - 1])
  }

  /** No button is pressed in any of the frames. */
  predicate NoPresses(frames: seq<Keys>)
  {
    forall i | 0 <= i < |frames| :: frames[i] == NoKeys
  }

  // ---------------------------------------------------------------------
  // Properties
  // ---------------------------------------------------------------------

  lemma PowerOnInv(t: nat)
    ensures Inv(PowerOn, t)
  {
  }

  lemma StopPreservesInv(m: Machine, t: nat)
    ensures Inv(Stopped(m), t)
  {
  }

  /** Stopping a stopped machine changes nothing. */
  lemma StopIdempotent(m: Machine)
    ensures Stopped(Stopped(m)) == Stopped(m)
  {
  }

  /** Stopping an idle machine, for instance at power-on before A was ever pressed, changes nothing. */
  lemma StopWhileIdle(m: Machine, t: nat)
    requires Inv(m, t) && !m.timerRunning
    ensures Stopped(m) == m
  {
  }

  lemma TickPreservesInv(m: Machine, t: nat)
    requires Inv(m, t)
    ensures Inv(Ticked(m), t)
  {
  }

  lemma StepPreservesInv(m: Machine, t: nat, keys: Keys)
    requires Inv(m, t)
    ensures Inv(Step(m, t, keys), t)
  {
    TickPreservesInv(m, t);
    StopPreservesInv(if keys.a && Ticked(m).samplesLeft == 0 then Played(t) else Ticked(m), t);
  }

  /** Whatever buttons are pressed, every frame keeps the invariant; in particular the counter is never negative. */
  lemma {:induction false} RunPreservesInv(m: Machine, t: nat, frames: seq<Keys>)
    requires Inv(m, t)
    ensures Inv(Run(m, t, frames), t)
    ensures Run(m, t, frames).samplesLeft >= 0
    decreases |frames|
  {
    if frames != [] {
      RunPreservesInv(m, t, frames[..|frames| - 1]);
      StepPreservesInv(Run(m, t, frames[..|frames| - 1]), t, frames[|frames| - 1]);
    }
  }

  /** For a non-empty track, timer 0 runs exactly when samples are left. */
  lemma RunningIffSamplesLeft(m: Machine, t: nat)
    requires t > 0 && Inv(m, t)
    ensures m.timerRunning <==> m.samplesLeft > 0
  {
  }

  /**
   * In every state reachable from power-on, for a non-empty track, the
   * counter is non-negative and timer 0 runs exactly when samples are left.
   */
  lemma {:induction false} ReachableRunningIffSamplesLeft(t: nat, frames: seq<Keys>)
    requires t > 0
    ensures Run(PowerOn, t, frames).samplesLeft >= 0
    ensures Run(PowerOn, t, frames).timerRunning <==> Run(PowerOn, t, frames).samplesLeft > 0
  {
    PowerOnInv(t);
    RunPreservesInv(PowerOn, t, frames);
  }

  /**
   * Left alone, a running machine counts down by 549 per frame and stops in
   * the frame where its counter runs out, staying stopped afterwards.
   */
  lemma {:induction false} IdleCountdown(m: Machine, t: nat, frames: seq<Keys>)
    requires m.timerRunning && m.samplesLeft > 0
    requires NoPresses(frames)
    ensures Run(m, t, frames) ==
      if |frames| < TicksToDrain(m.samplesLeft)
      then m.(samplesLeft := m.samplesLeft - |frames| * SamplesPerTick)
      else Stopped(m)
    decreases |frames|
  {
    if frames != [] {
      var k := |frames|;
      var prefix := frames[..k - 1];
      assert NoPresses(prefix) by {
        forall i | 0 <= i < |prefix| ensures prefix[i] == NoKeys {
          assert prefix[i] == frames[i];
        }
      }
      IdleCountdown(m, t, prefix);
      assert frames[k - 1] == NoKeys;
      var before := Run(m, t, prefix);
      assert Run(m, t, frames) == Ticked(before);
      if k - 1 < TicksToDrain(m.samplesLeft) {
        assert before.samplesLeft == m.samplesLeft - (k - 1) * SamplesPerTick;
        assert before.samplesLeft - SamplesPerTick == m.samplesLeft - k * SamplesPerTick;
      }
    }
  }

  /**
   * After playSound, with no button pressed, playback runs for exactly
   * ceil(t / 549) vblanks and then has stopped, with counter zero and every
   * enable off.
   */
  lemma {:induction false} PlaybackDuration(t: nat, frames: seq<Keys>)
    requires t > 0
    requires NoPresses(frames)
    ensures Run(Played(t), t, frames).timerRunning <==> |frames| < TicksToDrain(t)
    ensures |frames| < TicksToDrain(t) ==>
      Run(Played(t), t, frames).samplesLeft == t - |frames| * SamplesPerTick
    ensures |frames| >= TicksToDrain(t) ==>
      Run(Played(t), t, frames).samplesLeft == 0 && AllOff(Run(Played(t), t, frames))
  {
    IdleCountdown(Played(t), t, frames);
  }

  /** A track of 65536 samples, left alone after playSound, plays for exactly 120 vblanks. */
  lemma {:induction false} PlaybackDurationExample(frames: seq<Keys>)
    requires NoPresses(frames)
    ensures TicksToDrain(65536) == 120
    ensures Run(Played(65536), 65536, frames).timerRunning <==> |frames| < 120
  {
    PlaybackDuration(65536, frames);
  }

  // ---------------------------------------------------------------------
  // The program's state, updated in place
  // ---------------------------------------------------------------------

  /**
   * The global counter and the hardware registers, as mutable fields; the
   * track length is fixed by the sizes of the two linked sample buffers.
   */
  class Player {
    const trackLength: nat
    var samplesLeft: int
    var timerRunning: bool
    var dma1Enabled: bool
    var dma2Enabled: bool
    var soundEnabled: bool
    var timerReload: int
    var dma1Route: Route
    var dma2Route: Route

    /** The abstract value of the fields. */
    function State(): Machine
      reads this
    {
      Machine(samplesLeft, timerRunning, dma1Enabled, dma2Enabled, soundEnabled,
              timerReload, dma1Route, dma2Route)
    }

    ghost predicate Valid()
      reads this
    {
      Inv(State(), trackLength)
    }

    constructor (leftSize: nat, rightSize: nat)
      ensures trackLength == TrackLength(leftSize, rightSize)
      ensures State() == PowerOn
      ensures Valid()
    {
      trackLength := TrackLength(leftSize, rightSize);
      samplesLeft := 0;
      timerRunning, dma1Enabled, dma2Enabled, soundEnabled := false, false, false, false;
      timerReload := 0;
      dma1Route, dma2Route := Unrouted, Unrouted;
    }

    /** playSound: restart the track from the beginning and switch on the sound, the DMA channels and the timer. */
    method PlaySound()
      modifies this
      ensures samplesLeft == trackLength
      ensures timerRunning && dma1Enabled && dma2Enabled && soundEnabled
      ensures timerReload == TimerReload && dma1Route == LeftRoute && dma2Route == RightRoute
      ensures State() == Played(trackLength)
      ensures Valid()
    {
      samplesLeft := trackLength;
      soundEnabled := true;
      dma1Route := LeftRoute;
      dma1Enabled := true;
      dma2Route := RightRoute;
      dma2Enabled := true;
      timerReload := U16(-(CpuClock / SampleRate));
      timerRunning := true;
    }

    /** stopSound: zero the counter, then switch off the timer, the DMA channels and the sound. */
    method StopSound()
      modifies this
      ensures samplesLeft == 0
      ensures !timerRunning && !dma1Enabled && !dma2Enabled && !soundEnabled
      ensures timerReload == old(timerReload) && dma1Route == old(dma1Route) && dma2Route == old(dma2Route)
      ensures State() == Stopped(old(State()))
      ensures Valid()
    {
      samplesLeft := 0;
      timerRunning := false;
      dma1Enabled := false;
      dma2Enabled := false;
      soundEnabled := false;
      StopPreservesInv(State(), trackLength);
    }

    /** irqHandler: account for one vblank's worth of samples while timer 0 runs. */
    method Tick()
      requires Valid()
      modifies this
      ensures !old(timerRunning) ==> State() == old(State())
      ensures old(timerRunning) ==> (timerRunning <==> old(samplesLeft) > SamplesPerTick)
      ensures timerRunning ==> samplesLeft == old(samplesLeft) - SamplesPerTick
      ensures !timerRunning ==> samplesLeft == 0
      ensures State() == Ticked(old(State()))
      ensures Valid()
    {
      TickPreservesInv(State(), trackLength);
      if timerRunning {
        samplesLeft := samplesLeft - SamplesPerTick;
        if samplesLeft <= 0 {
          StopSound();
        }
      }
    }

    /**
     * One iteration of the main loop: wait for the vblank (whose handler runs
     * first), then A plays when nothing is playing and B stops.
     */
    method Frame(a: bool, b: bool)
      requires Valid()
      modifies this
      ensures b ==> samplesLeft == 0 && !timerRunning && !dma1Enabled && !dma2Enabled && !soundEnabled
      ensures State() == Step(old(State()), trackLength, Keys(a, b))
      ensures Valid()
    {
      Tick();
      if a && samplesLeft == 0 {
        PlaySound();
      }
      if b {
        StopSound();
      }
    }

    /** The main loop, run for one frame per element of `frames`. */
    method RunFrames(frames: seq<Keys>)
      requires Valid()
      modifies this
      ensures State() == Run(old(State()), trackLength, frames)
      ensures Valid() && samplesLeft >= 0
    {
      var i := 0;
      while i < |frames|
        invariant 0 <= i <= |frames|
        invariant Valid()
        invariant State() == Run(old(State()), trackLength, frames[..i])
      {
        assert frames[..i + 1][..i] == frames[..i];
        Frame(frames[i].a, frames[i].b);
        i := i + 1;
      }
      assert frames[..|frames|] == frames;
    }
  }
}
