/** What the main loop's handlers do, as functions of the state they start
    from: the button-down intent and chord builder (midibox360.py:245-310),
    the hat transposition (midibox360.py:234-242) and the note-off flood of a
    button-up (midibox360.py:312-317). The engine's methods are proved to
    follow these; the lemmas here state what the program promises. */
module Intent {
  import opened Scale
  import opened Signals
  import opened Resolver

  /** The twelve signals a button-down reads. */
  datatype Reading = Reading(
    a: bool, b: bool, x: bool, y: bool, leftThumb: bool,
    leftTrigger: bool, leftBumper: bool, rightBumper: bool,
    stickUp: bool, stickDown: bool, stickLeft: bool, stickRight: bool)

  /** The bindings behind those signals, in the order the program reads them. */
  function Used(bd: Bindings): seq<Setting> {
    [bd.a, bd.b, bd.x, bd.y, bd.leftThumb, bd.leftTrigger, bd.leftBumper, bd.rightBumper,
     bd.leftStickUp, bd.leftStickDown, bd.leftStickLeft, bd.leftStickRight]
  }

  function Flags(r: Reading): seq<bool> {
    [r.a, r.b, r.x, r.y, r.leftThumb, r.leftTrigger, r.leftBumper, r.rightBumper,
     r.stickUp, r.stickDown, r.stickLeft, r.stickRight]
  }

  /** Reads a list of signals in order; None as soon as one of them cannot
      be read. */
  function ReadAll(vs: seq<Setting>, inv: seq<int>, js: Snapshot): (r: Option<seq<bool>>)
    requires |inv| == 6
    ensures r.Some? ==> |r.value| == |vs|
  {
    if vs == [] then Some([])
    else match GetEvent(vs[0], inv, js)
      case None => None
      case Some(v) =>
        match ReadAll(vs[1..], inv, js)
        case None => None
        case Some(rest) => Some([v] + rest)
  }

  /** ReadAll fails exactly when one of the signals cannot be read, and
      otherwise gives each signal's value at its own position. */
  lemma {:induction false} ReadAllSound(vs: seq<Setting>, inv: seq<int>, js: Snapshot)
    requires |inv| == 6
    ensures var r := ReadAll(vs, inv, js);
      && (r.Some? <==> forall i :: 0 <= i < |vs| ==> GetEvent(vs[i], inv, js).Some?)
      && (r.Some? ==> forall i :: 0 <= i < |vs| ==> GetEvent(vs[i], inv, js) == Some(r.value[i]))
  {
    if vs != [] {
      ReadAllSound(vs[1..], inv, js);
      var r := ReadAll(vs, inv, js);
      if GetEvent(vs[0], inv, js).Some? && ReadAll(vs[1..], inv, js).Some? {
        forall i | 0 <= i < |vs|
          ensures GetEvent(vs[i], inv, js) == Some(r.value[i])
        {
          if i > 0 { assert vs[i] == vs[1..][i - 1]; }
        }
      } else if GetEvent(vs[0], inv, js).Some? {
        var i :| 0 <= i < |vs[1..]| && GetEvent(vs[1..][i], inv, js).None?;
        assert vs[1..][i] == vs[i + 1];
      }
    }
  }

  /** Reads the twelve signals. Every one of them is read on every
      button-down, so the press fails (the program raises) exactly when one
      of them cannot be read. */
  function Read(bd: Bindings, js: Snapshot): (r: Option<Reading>)
    requires |bd.inv| == 6
    ensures r.Some? <==> ReadAll(Used(bd), bd.inv, js).Some?
    ensures r.Some? ==> Flags(r.value) == ReadAll(Used(bd), bd.inv, js).value
  {
    match ReadAll(Used(bd), bd.inv, js)
    case None => None
    case Some(v) =>
      FromFlags(v);
      Some(Reading(v[0], v[1], v[2], v[3], v[4], v[5], v[6], v[7], v[8], v[9], v[10], v[11]))
  }

  lemma FromFlags(v: seq<bool>)
    requires |v| == 12
    ensures Flags(Reading(v[0], v[1], v[2], v[3], v[4], v[5], v[6], v[7], v[8], v[9], v[10], v[11])) == v
  {
  }

  /** A press sounds (or changes mode) only when one of A, B, X, Y is held. */
  predicate Root(r: Reading) {
    r.a || r.b || r.x || r.y
  }

  /** The scale-step selector: left trigger, left bumper and right bumper
      weigh 1, 2 and 4. */
  function Selector(r: Reading): (p: int)
    ensures 0 <= p <= 7
  {
    (if r.leftTrigger then 1 else 0) + (if r.leftBumper then 2 else 0) + (if r.rightBumper then 4 else 0)
  }

  /** The octave shift of the left stick's vertical axis: down wins over up. */
  function OctaveShift(r: Reading): (o: int)
    ensures o in {-1, 0, 1}
    ensures o == -1 <==> r.stickDown
    ensures o == 1 <==> r.stickUp && !r.stickDown
  {
    if r.stickDown then -1 else if r.stickUp then 1 else 0
  }

  /** The semitone shift of the left stick's horizontal axis: right wins
      over left. */
  function SemitoneShift(r: Reading): (s: int)
    ensures s in {-1, 0, 1}
    ensures s == 1 <==> r.stickRight
    ensures s == -1 <==> r.stickLeft && !r.stickRight
  {
    if r.stickRight then 1 else if r.stickLeft then -1 else 0
  }

  /** The three weighted bits can be read back from the selector: every
      combination of trigger and bumpers gives a different value 0..7. */
  lemma SelectorBits(r: Reading)
    ensures Selector(r) % 2 == 1 <==> r.leftTrigger
    ensures Selector(r) / 2 % 2 == 1 <==> r.leftBumper
    ensures Selector(r) >= 4 <==> r.rightBumper
  {
  }

  lemma {:induction false} SelectorInjective(r1: Reading, r2: Reading)
    requires Selector(r1) == Selector(r2)
    ensures r1.leftTrigger == r2.leftTrigger
    ensures r1.leftBumper == r2.leftBumper
    ensures r1.rightBumper == r2.rightBumper
  {
    SelectorBits(r1);
    SelectorBits(r2);
  }

  /** One chord tone: a diatonic step (a table offset: 0 root, 2 third,
      4 fifth, 6 seventh) and a semitone shift. */
  datatype Tone = Tone(diastep: int, semitone: int)

  /** The diatonic steps sounded outside chord mode: the root always, third
      and fifth when the chord signal is on, the seventh when the seventh
      signal is on, in that order. */
  function DiatonicSteps(chord: bool, seventh: bool): (steps: seq<int>)
    ensures |steps| == 1 + (if chord then 2 else 0) + (if seventh then 1 else 0)
    ensures steps[0] == 0
    ensures forall i :: 0 <= i < |steps| ==> steps[i] in {0, 2, 4, 6}
    ensures forall i, j :: 0 <= i < j < |steps| ==> steps[i] < steps[j]
    ensures (2 in steps <==> chord) && (4 in steps <==> chord) && (6 in steps <==> seventh)
  {
    [0] + (if chord then [2, 4] else []) + (if seventh then [6] else [])
  }

  /** The chord qualities of chord mode. */
  datatype Quality = Major | Minor | Dominant | Diminished

  /** Semitone offsets above the root of each quality. */
  function Offsets(q: Quality): seq<int> {
    match q
    case Major => [0, 4, 7]
    case Minor => [0, 3, 7]
    case Dominant => [0, 4, 7, 10]
    case Diminished => [0, 3, 6, 9]
  }

  /** The quality chosen in chord mode: the first of the major, minor,
      dominant and diminished signals (Y, A, B, X) that is on. */
  function Choose(maj: bool, min: bool, dom: bool, dim: bool): Option<Quality> {
    if maj then Some(Major)
    else if min then Some(Minor)
    else if dom then Some(Dominant)
    else if dim then Some(Diminished)
    else None
  }

  function PickQuality(r: Reading): Option<Quality> {
    Choose(r.y, r.a, r.b, r.x)
  }

  /** Diatonic steps sounded with one semitone shift. */
  function Voiced(steps: seq<int>, semitone: int): seq<Tone> {
    seq(|steps|, i requires 0 <= i < |steps| => Tone(steps[i], semitone))
  }

  /** A quality's offsets sounded on the root, on top of the semitone shift. */
  function Chorded(q: Option<Quality>, semitone: int): seq<Tone> {
    match q
    case None => []
    case Some(q) => seq(|Offsets(q)|, i requires 0 <= i < |Offsets(q)| => Tone(0, Offsets(q)[i] + semitone))
  }

  function DiatonicTones(r: Reading): seq<Tone> {
    Voiced(DiatonicSteps(r.b || r.x, r.b), SemitoneShift(r))
  }

  function QualityTones(r: Reading): seq<Tone> {
    Chorded(PickQuality(r), SemitoneShift(r))
  }

  predicate TonesFit(tones: seq<Tone>) {
    forall i :: 0 <= i < |tones| ==> 0 <= tones[i].diastep <= 6
  }

  /** The note-on messages for a list of tones, in order. */
  function Play(c: Context, tones: seq<Tone>): seq<Message>
    requires c.Valid() && TonesFit(tones)
  {
    seq(|tones|, i requires 0 <= i < |tones| =>
      PositionInTable(c, tones[i].diastep);
      Msg(c, tones[i].diastep, tones[i].semitone))
  }

  /** The state a handler leaves behind and the messages it sends. */
  datatype Response = Response(mode: int, baseNote: int, playing: bool, sent: seq<Message>)

  /** The context of a press: `msg` reads the selector and octave shift the
      press has just computed. */
  function PressContext(channel: int, mode: int, baseNote: int, r: Reading): (c: Context)
    requires 0 <= channel <= 15 && 0 <= mode <= 6
    ensures c.Valid()
  {
    Context(channel, baseNote, mode, Selector(r), OctaveShift(r))
  }

  /** A button-down. While a chord is held, or when none of A, B, X, Y is
      pressed, nothing happens. Otherwise the press is remembered as held,
      and: outside chord mode Y changes the mode (to the selector modulo 7,
      rebasing the base note on the configured note) and sends nothing,
      anything else sounds a diatonic chord; in chord mode (left thumb held)
      a chord of the chosen quality is sounded on the root. */
  function Press(channel: int, configNote: int, mode: int, baseNote: int, playing: bool, r: Reading): (p: Response)
    requires 0 <= channel <= 15 && 0 <= mode <= 6
    ensures 0 <= p.mode <= 6
    ensures p.playing == (playing || Root(r))
    ensures p.mode != mode || p.baseNote != baseNote ==> !playing && Root(r) && !r.leftThumb && r.y && p.sent == []
  {
    if playing || !Root(r) then Response(mode, baseNote, playing, [])
    else if !r.leftThumb && r.y then
      var m := Selector(r) % 7;
      Response(m, configNote - NOTES[m], true, [])
    else
      var c := PressContext(channel, mode, baseNote, r);
      var tones := if r.leftThumb then QualityTones(r) else DiatonicTones(r);
      assert TonesFit(tones);
      Response(mode, baseNote, true, Play(c, tones))
  }

  /** Gating: a press while a chord is held, or without A, B, X or Y,
      changes nothing and sends nothing; any other press leaves a chord held. */
  lemma PressGate(channel: int, configNote: int, mode: int, baseNote: int, playing: bool, r: Reading)
    requires 0 <= channel <= 15 && 0 <= mode <= 6
    ensures var p := Press(channel, configNote, mode, baseNote, playing, r);
      p.playing == (playing || Root(r)) &&
      ((playing || !Root(r)) ==> p == Response(mode, baseNote, playing, []))
  {
  }

  /** Mode change: Y outside chord mode sends nothing, sets the mode to the
      selector modulo 7 and rebases the base note so that the tonic still
      sounds the configured note. */
  lemma ModeChange(channel: int, configNote: int, mode: int, baseNote: int, r: Reading)
    requires 0 <= channel <= 15 && 0 <= mode <= 6
    requires Root(r) && !r.leftThumb && r.y
    ensures var p := Press(channel, configNote, mode, baseNote, false, r);
      && p.sent == [] && p.playing
      && 0 <= p.mode <= 6 && p.mode == Selector(r) % 7
      && p.baseNote == configNote - NOTES[p.mode]
      && NoteNumber(Context(channel, p.baseNote, p.mode, 0, 0), 0, 0) == configNote % 128
  {
    TonicIsConfiguredNote(configNote, channel, Selector(r) % 7);
  }

  /** Diatonic chords: the root, then third and fifth exactly when B or X is
      held, then the seventh exactly when B is held; so A alone sounds one
      note, X three and B four. The mode and base note do not change. */
  lemma DiatonicChord(channel: int, configNote: int, mode: int, baseNote: int, r: Reading)
    requires 0 <= channel <= 15 && 0 <= mode <= 6
    requires Root(r) && !r.leftThumb && !r.y
    ensures var p := Press(channel, configNote, mode, baseNote, false, r);
      var c := PressContext(channel, mode, baseNote, r);
      var s := SemitoneShift(r);
      && p.mode == mode && p.baseNote == baseNote && p.playing
      && p.sent == [Msg(c, 0, s)]
                   + (if r.b || r.x then [Msg(c, 2, s), Msg(c, 4, s)] else [])
                   + (if r.b then [Msg(c, 6, s)] else [])
      && |p.sent| == (if r.b then 4 else if r.x then 3 else 1)
  {
    var p := Press(channel, configNote, mode, baseNote, false, r);
    var c := PressContext(channel, mode, baseNote, r);
    var s := SemitoneShift(r);
    PositionInTable(c, 0); PositionInTable(c, 2); PositionInTable(c, 4); PositionInTable(c, 6);
    var expected := [Msg(c, 0, s)]
                   + (if r.b || r.x then [Msg(c, 2, s), Msg(c, 4, s)] else [])
                   + (if r.b then [Msg(c, 6, s)] else []);
    var steps := DiatonicSteps(r.b || r.x, r.b);
    assert |p.sent| == |expected| == |steps|;
    forall i | 0 <= i < |steps|
      ensures p.sent[i] == expected[i]
    {
      assert p.sent[i] == Msg(c, steps[i], s);
    }
  }

  /** The first matching quality wins: Y gives a major triad even when A,
      B or X are held too, and so on down the chain. */
  lemma QualityPriority(r: Reading)
    ensures PickQuality(r) == Some(Major) <==> r.y
    ensures PickQuality(r) == Some(Minor) <==> !r.y && r.a
    ensures PickQuality(r) == Some(Dominant) <==> !r.y && !r.a && r.b
    ensures PickQuality(r) == Some(Diminished) <==> !r.y && !r.a && !r.b && r.x
    ensures PickQuality(r) == None <==> !Root(r)
  {
  }

  /** Chord mode: every tone of the chosen quality is the root (diatonic
      step 0) shifted by the quality's offset plus the stick's semitone
      shift; the mode and base note do not change. */
  lemma QualityChord(channel: int, configNote: int, mode: int, baseNote: int, r: Reading)
    requires 0 <= channel <= 15 && 0 <= mode <= 6
    requires Root(r) && r.leftThumb
    ensures var p := Press(channel, configNote, mode, baseNote, false, r);
      var c := PressContext(channel, mode, baseNote, r);
      && PickQuality(r).Some?
      && p.mode == mode && p.baseNote == baseNote && p.playing
      && |p.sent| == |Offsets(PickQuality(r).value)|
      && forall i :: 0 <= i < |p.sent| ==> p.sent[i] == Msg(c, 0, Offsets(PickQuality(r).value)[i] + SemitoneShift(r))
  {
    PositionInTable(PressContext(channel, mode, baseNote, r), 0);
  }

  /** The four qualities as a musician knows them: triads on a major or
      minor third with a perfect fifth, the dominant seventh adding a minor
      seventh to the major triad, the diminished seventh stacking minor
      thirds. */
  lemma QualityIntervals()
    ensures Offsets(Major) == [0, 4, 7] && Offsets(Minor) == [0, 3, 7]
    ensures Offsets(Dominant) == Offsets(Major) + [10]
    ensures Offsets(Diminished) == [0, 3, 6, 9]
    ensures forall i :: 0 < i < |Offsets(Diminished)| ==> Offsets(Diminished)[i] - Offsets(Diminished)[i - 1] == 3
  {
  }

  /** Everything a press sends is a note-on on the configured channel that
      the output library accepts, and a qualifying press that is not a mode
      change always sounds at least one note. */
  lemma PressSendsValidNotes(channel: int, configNote: int, mode: int, baseNote: int, playing: bool, r: Reading)
    requires 0 <= channel <= 15 && 0 <= mode <= 6
    ensures var p := Press(channel, configNote, mode, baseNote, playing, r);
      && (forall i :: 0 <= i < |p.sent| ==> p.sent[i].NoteOn? && p.sent[i].channel == channel && Sendable(p.sent[i]))
      && (!playing && Root(r) && (r.leftThumb || !r.y) ==> |p.sent| >= 1)
  {
    var p := Press(channel, configNote, mode, baseNote, playing, r);
    if !playing && Root(r) && (r.leftThumb || !r.y) {
      if r.leftThumb {
        QualityChord(channel, configNote, mode, baseNote, r);
      } else {
        DiatonicChord(channel, configNote, mode, baseNote, r);
      }
    }
  }

  /** A hat motion: each of up, down, left and right that is active moves
      the base note by +12, -12, -1 or +1, reduced modulo 128 each time.
      Once any move happens the base note is back in 0..127; with no move it
      is left as it was (it can be negative when the loaded mode's offset
      exceeds the configured note). */
  function HatShift(baseNote: int, up: bool, down: bool, left: bool, right: bool): (n: int)
    ensures (up || down || left || right) ==> 0 <= n <= 127
    ensures !(up || down || left || right) ==> n == baseNote
  {
    var b1 := if up then (baseNote + 12) % 128 else baseNote;
    var b2 := if down then (b1 - 12) % 128 else b1;
    var b3 := if left then (b2 - 1) % 128 else b2;
    if right then (b3 + 1) % 128 else b3
  }

  function Bit(b: bool): int {
    if b then 1 else 0
  }

  /** The net shift is the sum of the active moves, modulo 128. */
  lemma {:induction false} HatShiftNet(baseNote: int, up: bool, down: bool, left: bool, right: bool)
    ensures (HatShift(baseNote, up, down, left, right)
             - (baseNote + 12 * Bit(up) - 12 * Bit(down) - Bit(left) + Bit(right))) % 128 == 0
  {
    var b1 := if up then (baseNote + 12) % 128 else baseNote;
    var b2 := if down then (b1 - 12) % 128 else b1;
    var b3 := if left then (b2 - 1) % 128 else b2;
    var n := if right then (b3 + 1) % 128 else b3;
    assert n == HatShift(baseNote, up, down, left, right);
    var d1 := 12 * Bit(up);
    var d2 := d1 - 12 * Bit(down);
    var d3 := d2 - Bit(left);
    Congruent(b1, baseNote + d1, baseNote, d1, up);
    Congruent(b2, baseNote + d2, b1, -12, down);
    Congruent(b3, baseNote + d3, b2, -1, left);
    Congruent(n, baseNote + d3 + Bit(right), b3, 1, right);
  }

  /** One step of HatShift keeps the running value congruent to the running sum. */
  lemma Congruent(after: int, sum: int, before: int, d: int, active: bool)
    requires after == if active then (before + d) % 128 else before
    requires (before - (sum - (if active then d else 0))) % 128 == 0
    ensures (after - sum) % 128 == 0
  {
    var s0 := sum - (if active then d else 0);
    var k := (before - s0) / 128;
    assert before == s0 + 128 * k;
    if active {
      ModShift(before, d);
      assert (before + d) % 128 == (s0 + d + 128 * k) % 128 == (s0 + d) % 128;
    }
  }

  /** A button-up: note-off for every note from 0 to 126 on the channel. */
  function Release(channel: int): (s: seq<Message>)
    ensures |s| == 127
    ensures forall m :: m in s ==> m.NoteOff? && m.channel == channel && 0 <= m.note <= 126
  {
    seq(127, n requires 0 <= n < 127 => NoteOff(channel, n))
  }

  /** The flood releases each of the notes 0..126 once, in increasing order,
      and never note 127. */
  lemma ReleaseCovers(channel: int, n: int)
    ensures NoteOff(channel, n) in Release(channel) <==> 0 <= n <= 126
    ensures |Release(channel)| == 127
    ensures forall i, j :: 0 <= i < j < 127 ==> Release(channel)[i].note < Release(channel)[j].note
    ensures forall m :: m in Release(channel) ==> m.NoteOff? && m.channel == channel
  {
    if 0 <= n <= 126 {
      assert Release(channel)[n] == NoteOff(channel, n);
    }
  }

  /** Note 127 can be sounded but is never released: with the configured
      note 0 in the ionian mode, A with the stick pushed left sounds 127, and
      the next button-up sends no note-off for it. */
  lemma StuckTopNote(channel: int)
    requires 0 <= channel <= 15
    ensures var r := Reading(true, false, false, false, false, false, false, false, false, false, true, false);
      && Press(channel, 0, 0, 0 - NOTES[0], false, r).sent == [NoteOn(channel, 127)]
      && NoteOff(channel, 127) !in Release(channel)
  {
    var r := Reading(true, false, false, false, false, false, false, false, false, false, true, false);
    DiatonicChord(channel, 0, 0, 0, r);
    var c := PressContext(channel, 0, 0, r);
    assert c == Context(channel, 0, 0, 0, 0);
    WrapsBelowZero(c);
    ReleaseCovers(channel, 127);
  }

  /** The release the handler's comment asks for ("release all notes"):
      note-off for every note from 0 to 127. */
  function ReleaseAll(channel: int): (s: seq<Message>)
    ensures |s| == 128
    ensures forall n :: 0 <= n <= 127 ==> s[n] == NoteOff(channel, n)
  {
    seq(128, n requires 0 <= n < 128 => NoteOff(channel, n))
  }

  /** The full release silences whatever any press sounded, and the flood
      as written is that release with its last message dropped. */
  lemma ReleaseAllSilences(channel: int, configNote: int, mode: int, baseNote: int, playing: bool, r: Reading)
    requires 0 <= channel <= 15 && 0 <= mode <= 6
    ensures forall m :: m in Press(channel, configNote, mode, baseNote, playing, r).sent ==>
      NoteOff(channel, m.note) in ReleaseAll(channel)
    ensures Release(channel) == ReleaseAll(channel)[..127]
  {
    var sent := Press(channel, configNote, mode, baseNote, playing, r).sent;
    PressSendsValidNotes(channel, configNote, mode, baseNote, playing, r);
    forall m | m in sent
      ensures NoteOff(channel, m.note) in ReleaseAll(channel)
    {
      var i :| 0 <= i < |sent| && sent[i] == m;
      assert ReleaseAll(channel)[m.note] == NoteOff(channel, m.note);
    }
  }
}
