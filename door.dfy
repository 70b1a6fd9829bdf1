/** A door opened and closed by touch (SimpleDoorTouch). A touch by a hand
    flips the door between open and closed, picks the target angle by the
    side it was touched from and plays a sound; a rotation coroutine then
    runs frame by frame until the door rests at the target angle. The
    coroutine is modelled by its state between frames: the first loop pass
    runs inside the touch, each later frame resumes it once. */
module Doors {

  const PlayerHandTag := "PlayerHand"

  datatype Side = Inside | Outside

  datatype Clip = OpenSound | CloseSound

  /** GetInteractionSide, given the dot product of the door-to-touch vector
      with the door's forward vector. */
  function SideOf(dot: real): (side: Side)
    ensures side == Outside <==> dot > 0.0
  {
    if dot > 0.0 then Outside else Inside
  }

  /** The angle ToggleDoor rotates to: closing goes to the closed angle,
      opening to the open angle from inside and to its mirror from outside. */
  function TargetAngle(isOpen: bool, side: Side, openAngle: real, closedAngle: real): (angle: real)
    ensures isOpen ==> angle == closedAngle
    ensures !isOpen && side == Inside ==> angle == openAngle
    ensures !isOpen && side == Outside ==> angle == -openAngle
  {
    var angle := if isOpen then closedAngle else openAngle;
    if !isOpen && side == Outside then -openAngle else angle
  }

  /** Opening from either side swings the door the same amount, in
      opposite directions. */
  lemma OpeningSidesAreMirrored(openAngle: real, closedAngle: real)
    ensures TargetAngle(false, Outside, openAngle, closedAngle) == -TargetAngle(false, Inside, openAngle, closedAngle)
    ensures TargetAngle(true, Outside, openAngle, closedAngle) == TargetAngle(true, Inside, openAngle, closedAngle)
  {
  }

  /** PlayDoorSound's choice of clip. */
  function DoorClip(opening: bool): (clip: Clip)
    ensures clip == OpenSound <==> opening
  {
    if opening then OpenSound else CloseSound
  }

  /** The rotation coroutine's state between frames, with the door's angle. */
  datatype Motion = Motion(
    moving: bool,            // isMoving
    elapsed: real,           // the coroutine's elapsedTime
    closeSoundPlayed: bool,  // the coroutine's closeSoundPlayed
    target: real,            // the coroutine's targetAngle
    angle: real)             // the door's resting angle

  /** Whether a loop pass plays the close sound: the door reads as closed,
      the sound has not played yet in this rotation and the advanced time
      has reached the offset before the end. */
  predicate CloseDue(m: Motion, isOpen: bool, speed: real, offset: real, delta: real)
  {
    !isOpen && !m.closeSoundPlayed && m.elapsed + delta * speed >= 1.0 + offset
  }

  /** One pass of the loop body: time advances by the frame time scaled by
      the rotation speed, and the close-sound flag records a close sound. */
  function LoopPass(m: Motion, isOpen: bool, speed: real, offset: real, delta: real): (r: Motion)
    ensures r.elapsed == m.elapsed + delta * speed
    ensures r.closeSoundPlayed <==> m.closeSoundPlayed || CloseDue(m, isOpen, speed, offset, delta)
    ensures r.moving == m.moving && r.target == m.target && r.angle == m.angle
  {
    var e := m.elapsed + delta * speed;
    m.(elapsed := e, closeSoundPlayed := m.closeSoundPlayed || (!isOpen && e >= 1.0 + offset))
  }

  /** StartCoroutine(RotateDoor(target)): the coroutine marks the door moving
      and runs its first loop pass before returning. */
  function Begin(m: Motion, target: real, isOpen: bool, speed: real, offset: real, delta: real): (r: Motion)
    ensures r.moving && r.target == target && r.angle == m.angle
    ensures r.elapsed == delta * speed
    ensures r.closeSoundPlayed <==> !isOpen && delta * speed >= 1.0 + offset
  {
    LoopPass(Motion(true, 0.0, false, target, m.angle), isOpen, speed, offset, delta)
  }

  /** One later frame of a running rotation: another pass while the time is
      below 1, otherwise the door is set to the target angle and stops. */
  function Resume(m: Motion, isOpen: bool, speed: real, offset: real, delta: real): (r: Motion)
    requires m.moving
    ensures m.elapsed < 1.0 ==> r == LoopPass(m, isOpen, speed, offset, delta)
    ensures m.elapsed >= 1.0 ==> !r.moving && r.angle == m.target
    ensures r.target == m.target
  {
    if m.elapsed < 1.0 then LoopPass(m, isOpen, speed, offset, delta)
    else m.(moving := false, angle := m.target)
  }

  /** The sounds one frame of a running rotation plays. */
  function ResumeSounds(m: Motion, isOpen: bool, speed: real, offset: real, delta: real): (clips: seq<Clip>)
    ensures clips == [] || clips == [CloseSound]
    ensures clips != [] <==> m.elapsed < 1.0 && CloseDue(m, isOpen, speed, offset, delta)
  {
    if m.elapsed < 1.0 && CloseDue(m, isOpen, speed, offset, delta) then [CloseSound] else []
  }

  /** The sounds a touch plays: the close sound from the coroutine's first
      pass, if due, then the clip PlayDoorSound picks from the state before
      the flip. */
  function ToggleSounds(isOpen: bool, speed: real, offset: real, delta: real): (clips: seq<Clip>)
    ensures 1 <= |clips| <= 2 && clips[|clips| - 1] == DoorClip(isOpen)
    ensures |clips| == 2 <==> !isOpen && delta * speed >= 1.0 + offset
    ensures |clips| == 2 ==> clips[0] == CloseSound
  {
    (if !isOpen && delta * speed >= 1.0 + offset then [CloseSound] else []) + [DoorClip(isOpen)]
  }

  /** The clip choice is inverted: opening the door never plays the opening
      sound, and closing it plays the opening sound, whatever the offset,
      speed and frame time. With the default offset
      of -1 and a frame time that is not negative, opening calls Play with
      the closing sound twice. */
  lemma ToggleSoundIsInverted(speed: real, offset: real, delta: real)
    ensures OpenSound !in ToggleSounds(false, speed, offset, delta)
    ensures ToggleSounds(true, speed, offset, delta) == [OpenSound]
    ensures delta >= 0.0 && speed >= 0.0 ==> ToggleSounds(false, speed, -1.0, delta) == [CloseSound, CloseSound]
  {
    if delta >= 0.0 && speed >= 0.0 {
      assert delta * speed >= 0.0;
    }
  }

  /** The other half of the inversion: the touch that closes the door plays
      only the opening sound, and with the default offset of -1 the next
      frame of that rotation plays the closing sound, since the coroutine
      then reads the flipped state. */
  lemma ClosingPlaysCloseSoundNextFrame(m: Motion, target: real, speed: real, d0: real, d1: real)
    requires speed >= 0.0 && d0 >= 0.0 && d1 >= 0.0 && d0 * speed < 1.0
    ensures ToggleSounds(true, speed, -1.0, d0) == [OpenSound]
    ensures FrameSounds(Begin(m, target, true, speed, -1.0, d0), false, speed, -1.0, [d1]) == [CloseSound]
  {
    var b := Begin(m, target, true, speed, -1.0, d0);
    assert !b.closeSoundPlayed && b.elapsed < 1.0;
    assert d1 * speed >= 0.0;
    assert CloseDue(b, false, speed, -1.0, d1);
    assert [d1][..0] == [];
  }

  /** The rotation after a sequence of frames; a stopped rotation stays put. */
  function Frames(m: Motion, isOpen: bool, speed: real, offset: real, deltas: seq<real>): Motion
  {
    if deltas == [] then m
    else
      var n := |deltas| - 1;
      var prev := Frames(m, isOpen, speed, offset, deltas[..n]);
      if prev.moving then Resume(prev, isOpen, speed, offset, deltas[n]) else prev
  }

  /** The sounds those frames play. */
  function FrameSounds(m: Motion, isOpen: bool, speed: real, offset: real, deltas: seq<real>): seq<Clip>
  {
    if deltas == [] then []
    else
      var n := |deltas| - 1;
      var prev := Frames(m, isOpen, speed, offset, deltas[..n]);
      FrameSounds(m, isOpen, speed, offset, deltas[..n]) +
        (if prev.moving then ResumeSounds(prev, isOpen, speed, offset, deltas[n]) else [])
  }

  /** Within one rotation the frames play the close sound at most once, and
      exactly when they set the close-sound flag; they play nothing else. */
  lemma {:induction false} CloseSoundAtMostOnce(m: Motion, isOpen: bool, speed: real, offset: real, deltas: seq<real>)
    ensures forall c :: c in FrameSounds(m, isOpen, speed, offset, deltas) ==> c == CloseSound
    ensures |FrameSounds(m, isOpen, speed, offset, deltas)| ==
      (if Frames(m, isOpen, speed, offset, deltas).closeSoundPlayed && !m.closeSoundPlayed then 1 else 0)
    ensures m.closeSoundPlayed ==> Frames(m, isOpen, speed, offset, deltas).closeSoundPlayed
  {
    if deltas != [] {
      var n := |deltas| - 1;
      CloseSoundAtMostOnce(m, isOpen, speed, offset, deltas[..n]);
    }
  }

  /** A rotation keeps its target, and once it has stopped the door rests at
      that target. */
  lemma {:induction false} StoppedAtTarget(m: Motion, isOpen: bool, speed: real, offset: real, deltas: seq<real>)
    requires m.moving
    ensures Frames(m, isOpen, speed, offset, deltas).target == m.target
    ensures !Frames(m, isOpen, speed, offset, deltas).moving ==>
      Frames(m, isOpen, speed, offset, deltas).angle == m.target
  {
    if deltas != [] {
      var n := |deltas| - 1;
      StoppedAtTarget(m, isOpen, speed, offset, deltas[..n]);
    }
  }

  /** The audio source, recording the clips it is asked to play. */
  class AudioPlayer {
    var played: seq<Clip>

    constructor ()
      ensures played == []
    {
      played := [];
    }

    method Play(clip: Clip)
      modifies this
      ensures played == old(played) + [clip]
    {
      played := played + [clip];
    }
  }

  class SimpleDoorTouch {
    const openAngle: real
    const closedAngle: real
    const rotationSpeed: real
    const closeSoundOffset: real
    const audioSource: AudioPlayer?
    var isOpen: bool
    var isMoving: bool
    var elapsedTime: real
    var closeSoundPlayed: bool
    var targetAngle: real
    var doorAngle: real

    function State(): Motion
      reads this
    {
      Motion(isMoving, elapsedTime, closeSoundPlayed, targetAngle, doorAngle)
    }

    /** A closed door at rest; the inspector defaults are -120, 0, 3 and -1. */
    constructor (openAngle: real, closedAngle: real, rotationSpeed: real, closeSoundOffset: real,
                 audioSource: AudioPlayer?, doorAngle: real)
      ensures this.openAngle == openAngle && this.closedAngle == closedAngle
      ensures this.rotationSpeed == rotationSpeed && this.closeSoundOffset == closeSoundOffset
      ensures this.audioSource == audioSource
      ensures !isOpen && State() == Motion(false, 0.0, false, doorAngle, doorAngle)
    {
      this.openAngle := openAngle;
      this.closedAngle := closedAngle;
      this.rotationSpeed := rotationSpeed;
      this.closeSoundOffset := closeSoundOffset;
      this.audioSource := audioSource;
      isOpen := false;
      isMoving := false;
      elapsedTime := 0.0;
      closeSoundPlayed := false;
      targetAngle := doorAngle;
      this.doorAngle := doorAngle;
    }

    /** A touch, from a collider with the given tag, at a point whose dot
        product with the door's forward vector is dot, in a frame of length
        delta. Touches while the door moves, and touches by anything but a
        hand, change nothing. */
    method OnTriggerEnter(otherTag: string, dot: real, delta: real)
      modifies this, audioSource
      ensures old(isMoving) || otherTag != PlayerHandTag ==>
        unchanged(this) && (audioSource != null ==> unchanged(audioSource))
      ensures !old(isMoving) && otherTag == PlayerHandTag ==>
        isOpen == !old(isOpen) &&
        State() == Begin(old(State()), TargetAngle(old(isOpen), SideOf(dot), openAngle, closedAngle),
                         old(isOpen), rotationSpeed, closeSoundOffset, delta) &&
        (audioSource != null ==>
          audioSource.played == old(audioSource.played) + ToggleSounds(old(isOpen), rotationSpeed, closeSoundOffset, delta))
    {
      if isMoving {
        return;
      }
      if otherTag == PlayerHandTag {
        var side := SideOf(dot);
        ToggleDoor(side, delta);
      }
    }

    /** Starts the rotation to the target angle, plays the clip chosen from
        the state before the flip, then flips the door. */
    method ToggleDoor(side: Side, delta: real)
      modifies this, audioSource
      ensures isOpen == !old(isOpen)
      ensures State() == Begin(old(State()), TargetAngle(old(isOpen), side, openAngle, closedAngle),
                               old(isOpen), rotationSpeed, closeSoundOffset, delta)
      ensures audioSource != null ==>
        audioSource.played == old(audioSource.played) + ToggleSounds(old(isOpen), rotationSpeed, closeSoundOffset, delta)
    {
      var target := if isOpen then closedAngle else openAngle;
      if !isOpen && side == Outside {
        target := -openAngle;
      }
      StartRotateDoor(target, delta);
      PlayDoorSound(isOpen);
      isOpen := !isOpen;
    }

    method PlayDoorSound(opening: bool)
      modifies audioSource
      ensures audioSource != null ==> audioSource.played == old(audioSource.played) + [DoorClip(opening)]
    {
      if audioSource == null {
        return;
      }
      audioSource.Play(if opening then OpenSound else CloseSound);
    }

    /** The part of RotateDoor that runs inside StartCoroutine: the door is
        marked moving and the first loop pass runs. */
    method StartRotateDoor(target: real, delta: real)
      modifies this, audioSource
      ensures State() == Begin(old(State()), target, isOpen, rotationSpeed, closeSoundOffset, delta)
      ensures isOpen == old(isOpen)
      ensures audioSource != null ==>
        audioSource.played == old(audioSource.played) +
          (if !isOpen && delta * rotationSpeed >= 1.0 + closeSoundOffset then [CloseSound] else [])
    {
      isMoving := true;
      elapsedTime := 0.0;
      closeSoundPlayed := false;
      targetAngle := target;
      RunLoopPass(delta);
    }

    /** The loop body of RotateDoor. */
    method RunLoopPass(delta: real)
      modifies this, audioSource
      ensures State() == LoopPass(old(State()), isOpen, rotationSpeed, closeSoundOffset, delta)
      ensures isOpen == old(isOpen)
      ensures audioSource != null ==>
        audioSource.played == old(audioSource.played) +
          (if CloseDue(old(State()), isOpen, rotationSpeed, closeSoundOffset, delta) then [CloseSound] else [])
    {
      elapsedTime := elapsedTime + delta * rotationSpeed;
      if !isOpen && !closeSoundPlayed && elapsedTime >= 1.0 + closeSoundOffset {
        PlayDoorSound(false);
        closeSoundPlayed := true;
      }
    }

    /** One later frame of the running coroutine. */
    method ResumeRotateDoor(delta: real)
      requires isMoving
      modifies this, audioSource
      ensures State() == Resume(old(State()), isOpen, rotationSpeed, closeSoundOffset, delta)
      ensures isOpen == old(isOpen)
      ensures audioSource != null ==>
        audioSource.played == old(audioSource.played) +
          ResumeSounds(old(State()), isOpen, rotationSpeed, closeSoundOffset, delta)
    {
      if elapsedTime < 1.0 {
        RunLoopPass(delta);
      } else {
        doorAngle := targetAngle;
        isMoving := false;
      }
    }

    /** The frames after a touch, one per frame time, until the rotation
        ends; frames after the end change nothing. */
    method RunFrames(deltas: seq<real>)
      modifies this, audioSource
      ensures State() == Frames(old(State()), isOpen, rotationSpeed, closeSoundOffset, deltas)
      ensures isOpen == old(isOpen)
      ensures audioSource != null ==>
        audioSource.played == old(audioSource.played) +
          FrameSounds(old(State()), isOpen, rotationSpeed, closeSoundOffset, deltas)
    {
      for i := 0 to |deltas|
        invariant isOpen == old(isOpen)
        invariant State() == Frames(old(State()), isOpen, rotationSpeed, closeSoundOffset, deltas[..i])
        invariant audioSource != null ==>
          audioSource.played == old(audioSource.played) +
            FrameSounds(old(State()), isOpen, rotationSpeed, closeSoundOffset, deltas[..i])
      {
        assert deltas[..i + 1][..i] == deltas[..i];
        if isMoving {
          ResumeRotateDoor(deltas[i]);
        }
      }
      assert deltas[..|deltas|] == deltas;
    }
  }
}
