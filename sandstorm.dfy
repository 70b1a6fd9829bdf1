/** The sandstorm of the desert scene (SandstormController): a mode that
    cycles On, Off, Random, a label showing the mode, and the audio sources
    and particle systems it switches on and off. Fades are modelled by the
    state they end in, and the random routine by whether it runs. */
module Sandstorm {
  import opened Ui

  datatype Mode = On | Off | Random

  /** The enum's underlying value. */
  function Ordinal(m: Mode): (k: int)
    ensures 0 <= k < 3
  {
    match m
    case On => 0
    case Off => 1
    case Random => 2
  }

  function FromOrdinal(k: int): (m: Mode)
    requires 0 <= k < 3
    ensures Ordinal(m) == k
  {
    if k == 0 then On else if k == 1 then Off else Random
  }

  /** ToggleSandstormState's step: the next value of the enum, modulo 3. */
  function Next(m: Mode): (r: Mode)
    ensures m == On ==> r == Off
    ensures m == Off ==> r == Random
    ensures m == Random ==> r == On
  {
    FromOrdinal((Ordinal(m) + 1) % 3)
  }

  /** The label text: the enum member's name. */
  function Name(m: Mode): (text: string)
    ensures text == "On" || text == "Off" || text == "Random"
  {
    match m
    case On => "On"
    case Off => "Off"
    case Random => "Random"
  }

  /** Three toggles come back to the starting mode, and no toggle keeps it. */
  lemma CycleOfThree(m: Mode)
    ensures Next(Next(Next(m))) == m
    ensures Next(m) != m && Next(Next(m)) != m
  {
  }

  /** Different modes are shown with different labels. */
  lemma NamesAreDistinct(m: Mode, n: Mode)
    ensures Name(m) == Name(n) <==> m == n
  {
  }

  /** An audio slot of the inspector array: unset, or a source. */
  datatype AudioSlot = NoAudio | AudioSource(playing: bool, volume: real)

  /** A particle slot of the inspector array: unset, or a system. */
  datatype ParticleSlot = NoParticles | ParticleSystem(emitting: bool)

  /** Where a fade of one source ends: a fade-in plays it at its own volume,
      or at 1 when that volume is not positive; a fade-out stops it at
      volume 0. An unset slot is skipped. */
  function Faded(a: AudioSlot, on: bool): (r: AudioSlot)
    ensures a.NoAudio? <==> r.NoAudio?
    ensures r.AudioSource? ==> r.playing == on
    ensures r.AudioSource? && on ==> r.volume > 0.0 && (a.volume > 0.0 ==> r.volume == a.volume)
    ensures r.AudioSource? && on && a.volume <= 0.0 ==> r.volume == 1.0
    ensures r.AudioSource? && !on ==> r.volume == 0.0
  {
    match a
    case NoAudio => NoAudio
    case AudioSource(_, volume) =>
      if on then AudioSource(true, if volume > 0.0 then volume else 1.0)
      else AudioSource(false, 0.0)
  }

  /** Play or Stop on one particle system; an unset slot is skipped. */
  function Emitted(p: ParticleSlot, on: bool): (r: ParticleSlot)
    ensures p.NoParticles? <==> r.NoParticles?
    ensures r.ParticleSystem? ==> r.emitting == on
  {
    match p
    case NoParticles => NoParticles
    case ParticleSystem(_) => ParticleSystem(on)
  }

  /** ToggleSystems on the audio array: every slot faded, in place. */
  function AudioSwitched(slots: seq<AudioSlot>, on: bool): (r: seq<AudioSlot>)
    ensures |r| == |slots|
    ensures forall i :: 0 <= i < |slots| ==> r[i] == Faded(slots[i], on)
  {
    if slots == [] then []
    else
      var n := |slots| - 1;
      AudioSwitched(slots[..n], on) + [Faded(slots[n], on)]
  }

  /** ToggleSystems on the particle array: every slot played or stopped. */
  function ParticlesSwitched(slots: seq<ParticleSlot>, on: bool): (r: seq<ParticleSlot>)
    ensures |r| == |slots|
    ensures forall i :: 0 <= i < |slots| ==> r[i] == Emitted(slots[i], on)
  {
    if slots == [] then []
    else
      var n := |slots| - 1;
      ParticlesSwitched(slots[..n], on) + [Emitted(slots[n], on)]
  }

  /** Switching twice the same way is switching once. */
  lemma SwitchingIsIdempotent(audio: seq<AudioSlot>, particles: seq<ParticleSlot>, on: bool)
    ensures AudioSwitched(AudioSwitched(audio, on), on) == AudioSwitched(audio, on)
    ensures ParticlesSwitched(ParticlesSwitched(particles, on), on) == ParticlesSwitched(particles, on)
  {
  }

  /** A full storm of the random routine (on, then off) leaves every system
      as a plain switch-off would. */
  lemma StormEndsSwitchedOff(audio: seq<AudioSlot>, particles: seq<ParticleSlot>)
    ensures AudioSwitched(AudioSwitched(audio, true), false) == AudioSwitched(audio, false)
    ensures ParticlesSwitched(ParticlesSwitched(particles, true), false) == ParticlesSwitched(particles, false)
  {
  }

  class SandstormController {
    const audioSources: array<AudioSlot>
    const particleSystems: array<ParticleSlot>
    const stateDisplay: TextLabel?
    var currentState: Mode
    /** Whether SandstormRoutine is running. */
    var randomRoutineRunning: bool

    constructor (audioSources: array<AudioSlot>, particleSystems: array<ParticleSlot>, stateDisplay: TextLabel?)
      ensures this.audioSources == audioSources && this.particleSystems == particleSystems
      ensures this.stateDisplay == stateDisplay
      ensures currentState == On && !randomRoutineRunning
    {
      this.audioSources := audioSources;
      this.particleSystems := particleSystems;
      this.stateDisplay := stateDisplay;
      currentState := On;
      randomRoutineRunning := false;
    }

    /** Start: shows the mode; On switches the systems on (through
        InitializeSystemsSmoothly) and Random starts the random routine. */
    method Start()
      modifies this, stateDisplay, audioSources, particleSystems
      ensures currentState == old(currentState)
      ensures stateDisplay != null ==> stateDisplay.text == Name(currentState)
      ensures randomRoutineRunning == (old(randomRoutineRunning) || currentState == Random)
      ensures currentState == On ==>
        audioSources[..] == AudioSwitched(old(audioSources[..]), true) &&
        particleSystems[..] == ParticlesSwitched(old(particleSystems[..]), true)
      ensures currentState != On ==> unchanged(audioSources, particleSystems)
    {
      UpdateStateDisplay();
      if currentState == On {
        ToggleSystems(true);
      } else if currentState == Random {
        randomRoutineRunning := true;
      }
    }

    /** Moves to the next mode, shows it, cancels the running routines, then
        switches the systems on (On) or off (Off), or starts the random
        routine (Random). */
    method ToggleSandstormState()
      modifies this, stateDisplay, audioSources, particleSystems
      ensures currentState == Next(old(currentState))
      ensures stateDisplay != null ==> stateDisplay.text == Name(currentState)
      ensures randomRoutineRunning <==> currentState == Random
      ensures currentState == On ==>
        audioSources[..] == AudioSwitched(old(audioSources[..]), true) &&
        particleSystems[..] == ParticlesSwitched(old(particleSystems[..]), true)
      ensures currentState == Off ==>
        audioSources[..] == AudioSwitched(old(audioSources[..]), false) &&
        particleSystems[..] == ParticlesSwitched(old(particleSystems[..]), false)
      ensures currentState == Random ==> unchanged(audioSources, particleSystems)
    {
      currentState := FromOrdinal((Ordinal(currentState) + 1) % 3);
      UpdateStateDisplay();
      randomRoutineRunning := false;
      if currentState == On {
        ToggleSystems(true);
      } else if currentState == Off {
        ToggleSystems(false);
      } else if currentState == Random {
        randomRoutineRunning := true;
      }
    }

    method UpdateStateDisplay()
      modifies stateDisplay
      ensures stateDisplay != null ==> stateDisplay.text == Name(currentState)
    {
      if stateDisplay != null {
        stateDisplay.text := Name(currentState);
      }
    }

    /** Fades every audio source and plays or stops every particle system,
        skipping unset slots. */
    method ToggleSystems(on: bool)
      modifies audioSources, particleSystems
      ensures audioSources[..] == AudioSwitched(old(audioSources[..]), on)
      ensures particleSystems[..] == ParticlesSwitched(old(particleSystems[..]), on)
    {
      ToggleAudio(on);
      ToggleParticles(on);
    }

    /** The first loop of ToggleSystems. */
    method ToggleAudio(on: bool)
      modifies audioSources
      ensures audioSources[..] == AudioSwitched(old(audioSources[..]), on)
    {
      for i := 0 to audioSources.Length
        invariant forall j :: 0 <= j < i ==> audioSources[j] == Faded(old(audioSources[j]), on)
        invariant forall j :: i <= j < audioSources.Length ==> audioSources[j] == old(audioSources[j])
      {
        if audioSources[i] != NoAudio {
          audioSources[i] := Faded(audioSources[i], on);
        }
      }
    }

    /** The second loop of ToggleSystems. */
    method ToggleParticles(on: bool)
      modifies particleSystems
      ensures particleSystems[..] == ParticlesSwitched(old(particleSystems[..]), on)
    {
      for i := 0 to particleSystems.Length
        invariant forall j :: 0 <= j < i ==> particleSystems[j] == Emitted(old(particleSystems[j]), on)
        invariant forall j :: i <= j < particleSystems.Length ==> particleSystems[j] == old(particleSystems[j])
      {
        if particleSystems[i] != NoParticles {
          particleSystems[i] := Emitted(particleSystems[i], on);
        }
      }
    }

    /** One storm of SandstormRoutine, after its random wait: the systems
        come on and, after the storm's random length, go off again. The
        routine only runs in Random mode. */
    method RandomStorm()
      requires randomRoutineRunning && currentState == Random
      modifies audioSources, particleSystems
      ensures audioSources[..] == AudioSwitched(old(audioSources[..]), false)
      ensures particleSystems[..] == ParticlesSwitched(old(particleSystems[..]), false)
    {
      ToggleSystems(true);
      ToggleSystems(false);
      StormEndsSwitchedOff(old(audioSources[..]), old(particleSystems[..]));
    }
  }
}
