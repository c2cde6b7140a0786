/** Worked sessions that tie the pieces together: the default key of middle
    C (configured note 60) in the ionian mode on configured channel 4. */
module Scenarios {
  import opened Scale
  import opened Signals
  import opened Resolver
  import opened Intent

  /** Only the named buttons held, the stick centred. */
  function Buttons(a: bool, b: bool, x: bool, y: bool, leftThumb: bool): Reading {
    Reading(a, b, x, y, leftThumb, false, false, false, false, false, false, false)
  }

  /** The first octave of the table, entry by entry. */
  lemma FirstOctave()
    ensures NOTES[0] == 0 && NOTES[2] == 4 && NOTES[3] == 5 && NOTES[4] == 7 && NOTES[6] == 11
  {
  }

  /** In the ionian mode on middle C, A sounds C alone, X the C major triad
      and B the C major seventh chord. Channel 4 is channel 3 on the wire. */
  lemma DiatonicOnC()
    ensures Press(3, 60, 0, 60, false, Buttons(true, false, false, false, false)).sent
      == [NoteOn(3, 60)]
    ensures Press(3, 60, 0, 60, false, Buttons(false, false, true, false, false)).sent
      == [NoteOn(3, 60), NoteOn(3, 64), NoteOn(3, 67)]
    ensures Press(3, 60, 0, 60, false, Buttons(false, true, false, false, false)).sent
      == [NoteOn(3, 60), NoteOn(3, 64), NoteOn(3, 67), NoteOn(3, 71)]
  {
    IonianDegrees(60);
    DiatonicIonian(60, Buttons(true, false, false, false, false));
    DiatonicIonian(60, Buttons(false, false, true, false, false));
    DiatonicIonian(60, Buttons(false, true, false, false, false));
  }

  /** The ionian root, third, fifth and seventh above an internal base note. */
  lemma IonianDegrees(base: int)
    requires 0 <= base <= 116
    ensures var c := Context(3, base, 0, 0, 0);
      && Msg(c, 0, 0) == NoteOn(3, base) && Msg(c, 2, 0) == NoteOn(3, base + 4)
      && Msg(c, 4, 0) == NoteOn(3, base + 7) && Msg(c, 6, 0) == NoteOn(3, base + 11)
  {
    FirstOctave();
  }

  /** A diatonic press in the ionian mode with no selector or shift. */
  lemma DiatonicIonian(base: int, r: Reading)
    requires Root(r) && !r.leftThumb && !r.y
    requires Selector(r) == 0 && OctaveShift(r) == 0 && SemitoneShift(r) == 0
    ensures var c := Context(3, base, 0, 0, 0);
      Press(3, 60, 0, base, false, r).sent
      == [Msg(c, 0, 0)] + (if r.b || r.x then [Msg(c, 2, 0), Msg(c, 4, 0)] else []) + (if r.b then [Msg(c, 6, 0)] else [])
  {
    assert PressContext(3, 0, base, r) == Context(3, base, 0, 0, 0);
    DiatonicChord(3, 60, 0, base, r);
  }

  /** On middle C in the ionian mode, the root shifted by k semitones is
      note 60 + k. */
  lemma RootOnC(k: int)
    requires 0 <= k <= 67
    ensures Msg(Context(3, 60, 0, 0, 0), 0, k) == NoteOn(3, 60 + k)
  {
  }

  /** In chord mode, with no selector or shift, each quality is sounded as
      its offsets above middle C. */
  lemma QualityOnC(r: Reading, q: Quality)
    requires Root(r) && r.leftThumb && PickQuality(r) == Some(q)
    requires Selector(r) == 0 && OctaveShift(r) == 0 && SemitoneShift(r) == 0
    ensures var p := Press(3, 60, 0, 60, false, r).sent;
      |p| == |Offsets(q)| && forall i :: 0 <= i < |p| ==> p[i] == NoteOn(3, 60 + Offsets(q)[i])
  {
    assert PressContext(3, 0, 60, r) == Context(3, 60, 0, 0, 0);
    QualityChord(3, 60, 0, 60, r);
    var p := Press(3, 60, 0, 60, false, r).sent;
    forall i | 0 <= i < |p|
      ensures p[i] == NoteOn(3, 60 + Offsets(q)[i])
    {
      assert Offsets(q)[i] in {0, 3, 4, 6, 7, 9, 10};
      RootOnC(Offsets(q)[i]);
    }
  }

  /** In chord mode (left thumb held) Y sounds the major triad on middle C. */
  lemma MajorOnC(r: Reading)
    requires r == Buttons(false, false, false, true, true)
    ensures Press(3, 60, 0, 60, false, r).sent == [NoteOn(3, 60), NoteOn(3, 64), NoteOn(3, 67)]
  {
    QualityOnC(r, Major);
  }

  /** In chord mode A sounds the minor triad on middle C. */
  lemma MinorOnC(r: Reading)
    requires r == Buttons(true, false, false, false, true)
    ensures Press(3, 60, 0, 60, false, r).sent == [NoteOn(3, 60), NoteOn(3, 63), NoteOn(3, 67)]
  {
    QualityOnC(r, Minor);
  }

  /** Startup on middle C in the ionian mode leaves the internal base note at
      60; hat up moves it an octave, and A then sounds the C above. */
  lemma OctaveUp(r: Reading)
    requires r == Buttons(true, false, false, false, false)
    ensures 60 - NOTES[0] == 60
    ensures HatShift(60, true, false, false, false) == 72
    ensures Press(3, 60, 0, 72, false, r).sent == [NoteOn(3, 72)]
  {
    IonianDegrees(72);
    DiatonicIonian(72, r);
  }

  /** Y with the left bumper held (selector 2) switches to the phrygian mode
      and sends nothing. */
  lemma PhrygianSwitch(r: Reading)
    requires r == Reading(false, false, false, true, false, false, true, false, false, false, false, false)
    ensures var p := Press(3, 60, 0, 60, false, r);
      && p.sent == [] && p.mode == 2 && p.baseNote == 56
  {
    FirstOctave();
    ModeChange(3, 60, 0, 60, r);
  }

  /** In the phrygian mode X sounds its tonic triad, the minor triad
      C, E flat, G: the tonic is still middle C. */
  lemma PhrygianTriad(r: Reading)
    requires r == Buttons(false, false, true, false, false)
    ensures Press(3, 60, 2, 56, false, r).sent == [NoteOn(3, 60), NoteOn(3, 63), NoteOn(3, 67)]
  {
    var c := Context(3, 56, 2, 0, 0);
    FirstOctave();
    assert PressContext(3, 2, 56, r) == c;
    DiatonicChord(3, 60, 2, 56, r);
    assert Msg(c, 0, 0) == NoteOn(3, 60) && Msg(c, 2, 0) == NoteOn(3, 63) && Msg(c, 4, 0) == NoteOn(3, 67);
  }
}
