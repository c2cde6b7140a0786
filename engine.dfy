/** The program's state and its main-loop handlers (midibox360.py:154-162,
    233-317): the mode, the internal base note and the "chord held" flag are
    updated in place, and each handler returns the messages it sends, in
    sending order. */
module Engine {
  import opened Scale
  import opened Signals
  import opened Resolver
  import opened Intent

  class Engine {
    /** Loaded once from the configuration (channel stored 0-based). */
    const channel: int
    const configNote: int
    const bindings: Bindings

    /** The mode 0..6 (ionian .. locrian), the internal base note and
        whether a chord is held. */
    var mode: int
    var baseNote: int
    var playing: bool

    ghost predicate Valid()
      reads this
    {
      0 <= channel <= 15 && 0 <= mode <= 6 && bindings.Valid()
    }

    /** Startup: the configured mode 1..7 and channel 1..16 become 0-based,
        the base note is the configured note minus the mode's table offset,
        so that the tonic sounds the configured note, and the signal names
        are derived from the [controls] table (the program stops when they
        cannot be). */
    constructor (configMode: int, configChannel: int, configNote: int, controls: Controls)
      requires 1 <= configMode <= 7 && 1 <= configChannel <= 16
      requires |controls.axisInv| == 6 && Bind(controls).Some?
      ensures Valid()
      ensures mode == configMode - 1 && channel == configChannel - 1
      ensures this.configNote == configNote && bindings == Bind(controls).value
      ensures baseNote == configNote - NOTES[mode] && !playing
      ensures NoteNumber(Context(channel, baseNote, mode, 0, 0), 0, 0) == configNote % 128
    {
      mode := configMode - 1;
      channel := configChannel - 1;
      this.configNote := configNote;
      bindings := Bind(controls).value;
      baseNote := configNote - NOTES[configMode - 1];
      playing := false;
      new;
      TonicIsConfiguredNote(configNote, channel, mode);
    }

    /** A hat motion: up, down, left and right are read in that order, each
        moving the base note as soon as it is read. ok is false when a read
        fails, where the program raises and stops. */
    method HatMotion(js: Snapshot) returns (ok: bool)
      requires Valid()
      modifies this`baseNote
      ensures Valid()
      ensures var up, down := GetEvent(bindings.hatUp, bindings.inv, js), GetEvent(bindings.hatDown, bindings.inv, js);
        var left, right := GetEvent(bindings.hatLeft, bindings.inv, js), GetEvent(bindings.hatRight, bindings.inv, js);
        && (ok <==> up.Some? && down.Some? && left.Some? && right.Some?)
        && (ok ==> baseNote == HatShift(old(baseNote), up.value, down.value, left.value, right.value))
    {
      var up := GetEvent(bindings.hatUp, bindings.inv, js);
      if up.None? { return false; }
      if up.value {
        baseNote := (baseNote + 12) % 128;
      }
      var down := GetEvent(bindings.hatDown, bindings.inv, js);
      if down.None? { return false; }
      if down.value {
        baseNote := (baseNote - 12) % 128;
      }
      var left := GetEvent(bindings.hatLeft, bindings.inv, js);
      if left.None? { return false; }
      if left.value {
        baseNote := (baseNote - 1) % 128;
      }
      var right := GetEvent(bindings.hatRight, bindings.inv, js);
      if right.None? { return false; }
      if right.value {
        baseNote := (baseNote + 1) % 128;
      }
      ok := true;
    }

    /** A button-down: reads the signals, builds the selector and shifts,
        then (unless a chord is held or no chord button is pressed) changes
        the mode or sends the chord's note-on messages one by one, and marks
        a chord as held. ok is false when a read fails. */
    method ButtonDown(js: Snapshot) returns (sent: seq<Message>, ok: bool)
      requires Valid()
      modifies this`mode, this`baseNote, this`playing
      ensures Valid()
      ensures ok <==> Read(bindings, js).Some?
      ensures !ok ==> sent == [] && mode == old(mode) && baseNote == old(baseNote) && playing == old(playing)
      ensures ok ==> (Response(mode, baseNote, playing, sent) ==
        Press(channel, configNote, old(mode), old(baseNote), old(playing), Read(bindings, js).value))
    {
      var reading := Read(bindings, js);
      if reading.None? {
        return [], false;
      }
      sent := Respond(reading.value);
      ok := true;
    }

    /** The part of a button-down after every signal has been read. */
    method Respond(r: Reading) returns (sent: seq<Message>)
      requires Valid()
      modifies this`mode, this`baseNote, this`playing
      ensures Valid()
      ensures Response(mode, baseNote, playing, sent) == Press(channel, configNote, old(mode), old(baseNote), old(playing), r)
    {
      var root := r.a || r.b || r.x || r.y;
      var chord := r.b || r.x;
      var seventh := r.b;
      var setMode := r.y;
      var chordMode := r.leftThumb;
      var majChord, minChord, domChord, dimChord := r.y, r.a, r.b, r.x;

      var play, octave, semitone := Shifts(r);

      ghost var p := Press(channel, configNote, mode, baseNote, playing, r);
      sent := [];
      if !playing && root {
        var c := Context(channel, baseNote, mode, play, octave);
        assert c == PressContext(channel, mode, baseNote, r);
        if !chordMode {
          if setMode {
            mode := play % 7;
            baseNote := configNote - NOTES[mode];
          } else {
            sent := SoundDiatonic(c, chord, seventh, semitone);
            assert Voiced(DiatonicSteps(chord, seventh), semitone) == DiatonicTones(r);
          }
        } else {
          sent := SoundQuality(c, majChord, minChord, domChord, dimChord, semitone);
          assert Chorded(Choose(majChord, minChord, domChord, dimChord), semitone) == QualityTones(r);
        }
        playing := true;
      }
      assert Response(mode, baseNote, playing, sent) == p;
    }

    /** A button-up: the chord is no longer held, and note-off is sent for
        every note from 0 to 126, one by one. */
    method ButtonUp() returns (sent: seq<Message>)
      requires Valid()
      modifies this`playing
      ensures Valid() && !playing
      ensures sent == Release(channel)
    {
      playing := false;
      sent := [];
      for i := 0 to 127
        invariant sent == Release(channel)[..i]
      {
        sent := sent + [NoteOff(channel, i)];
      }
    }
  }

  /** The selector and the two shifts, built up one signal at a time: the
      left trigger, left bumper and right bumper add 1, 2 and 4; stick down
      overrides stick up; stick right overrides stick left. */
  method Shifts(r: Reading) returns (play: int, octave: int, semitone: int)
    ensures play == Selector(r) && octave == OctaveShift(r) && semitone == SemitoneShift(r)
  {
    play, octave, semitone := 0, 0, 0;
    if r.leftTrigger { play := play + 1; }
    if r.leftBumper { play := play + 2; }
    if r.rightBumper { play := play + 4; }
    if r.stickUp { octave := 1; }
    if r.stickDown { octave := -1; }
    if r.stickLeft { semitone := -1; }
    if r.stickRight { semitone := 1; }
  }

  /** The diatonic branch's sends: the root, then third and fifth when the
      chord signal is on, then the seventh when the seventh signal is on. */
  method SoundDiatonic(c: Context, chord: bool, seventh: bool, semitone: int) returns (sent: seq<Message>)
    requires c.Valid()
    ensures TonesFit(Voiced(DiatonicSteps(chord, seventh), semitone))
    ensures sent == Play(c, Voiced(DiatonicSteps(chord, seventh), semitone))
  {
    PositionInTable(c, 0); PositionInTable(c, 2); PositionInTable(c, 4); PositionInTable(c, 6);
    sent := [Msg(c, 0, semitone)];
    if chord {
      sent := sent + [Msg(c, 2, semitone)];
      sent := sent + [Msg(c, 4, semitone)];
    }
    if seventh {
      sent := sent + [Msg(c, 6, semitone)];
    }
    ghost var tones := Voiced(DiatonicSteps(chord, seventh), semitone);
    assert |sent| == |tones|;
    forall i | 0 <= i < |sent|
      ensures sent[i] == Play(c, tones)[i]
    {
    }
  }

  /** The chord-mode branch's sends: the first of major, minor, dominant
      and diminished that is on, each tone on the root shifted by the
      quality's offset plus the semitone shift. */
  method SoundQuality(c: Context, maj: bool, min: bool, dom: bool, dim: bool, semitone: int)
    returns (sent: seq<Message>)
    requires c.Valid()
    ensures sent == Play(c, Chorded(Choose(maj, min, dom, dim), semitone))
  {
    PositionInTable(c, 0);
    sent := [];
    if maj {
      sent := sent + [Msg(c, 0, 0 + semitone)];
      sent := sent + [Msg(c, 0, 4 + semitone)];
      sent := sent + [Msg(c, 0, 7 + semitone)];
    } else if min {
      sent := sent + [Msg(c, 0, 0 + semitone)];
      sent := sent + [Msg(c, 0, 3 + semitone)];
      sent := sent + [Msg(c, 0, 7 + semitone)];
    } else if dom {
      sent := sent + [Msg(c, 0, 0 + semitone)];
      sent := sent + [Msg(c, 0, 4 + semitone)];
      sent := sent + [Msg(c, 0, 7 + semitone)];
      sent := sent + [Msg(c, 0, 10 + semitone)];
    } else if dim {
      sent := sent + [Msg(c, 0, 0 + semitone)];
      sent := sent + [Msg(c, 0, 3 + semitone)];
      sent := sent + [Msg(c, 0, 6 + semitone)];
      sent := sent + [Msg(c, 0, 9 + semitone)];
    }
    ghost var tones := Chorded(Choose(maj, min, dom, dim), semitone);
    assert |sent| == |tones|;
    forall i | 0 <= i < |sent|
      ensures sent[i] == Play(c, tones)[i]
    {
    }
  }
}
