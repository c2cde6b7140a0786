/** The note resolver (`msg`, midibox360.py:92-94): which MIDI note a chord
    tone becomes, given the current key, mode, selector and shifts. */
module Resolver {
  import opened Scale

  /** A message handed to the MIDI output. Velocity is left to the output
      library's default. */
  datatype Message = NoteOn(channel: int, note: int) | NoteOff(channel: int, note: int)

  /** What the output library accepts: a channel 0..15 and a note 0..127. */
  predicate Sendable(m: Message) {
    0 <= m.channel <= 15 && 0 <= m.note <= 127
  }

  /** The values `msg` reads besides its two arguments: the output channel,
      the internal base note, the mode (0..6), the scale-step selector (0..7)
      and the octave shift. */
  datatype Context = Context(channel: int, baseNote: int, mode: int, play: int, octave: int)
  {
    predicate Valid() {
      0 <= channel <= 15 && 0 <= mode <= 6 && 0 <= play <= 7
    }
  }

  /** The table position `msg` looks up: selector + diatonic step + mode. */
  function Position(c: Context, diastep: int): int {
    c.play + diastep + c.mode
  }

  /** The raw sum before reduction modulo 128. */
  function RawPitch(c: Context, diastep: int, semitone: int): int
    requires 0 <= Position(c, diastep) < |NOTES|
  {
    c.baseNote + semitone + 12 * c.octave + NOTES[Position(c, diastep)]
  }

  /** The MIDI note number of a tone: the raw sum reduced modulo 128. The
      program uses a floor modulo, which for the divisor 128 is the same as
      Dafny's: the result is never negative. */
  function NoteNumber(c: Context, diastep: int, semitone: int): (n: int)
    requires 0 <= Position(c, diastep) < |NOTES|
    ensures 0 <= n <= 127
    ensures (n - RawPitch(c, diastep, semitone)) % 128 == 0
  {
    RawPitch(c, diastep, semitone) % 128
  }

  /** The note-on message `msg` builds. */
  function Msg(c: Context, diastep: int, semitone: int): (m: Message)
    requires 0 <= Position(c, diastep) < |NOTES|
    ensures m.NoteOn? && m.channel == c.channel
    ensures c.Valid() ==> Sendable(m)
  {
    NoteOn(c.channel, NoteNumber(c, diastep, semitone))
  }

  /** Any valid context and diatonic step 0..6 (root, third, fifth, seventh
      all lie in that range) stays inside the table: the furthest position
      is 7 + 6 + 6 = 19 of 75. */
  lemma PositionInTable(c: Context, diastep: int)
    requires c.Valid() && 0 <= diastep <= 6
    ensures 0 <= Position(c, diastep) <= 19 < |NOTES|
  {
  }

  /** The reduction is the one a musician expects: the note is the unique
      value in 0..127 congruent to the raw sum, so a sum just below zero wraps
      to the top of the range. */
  lemma WrapsBelowZero(c: Context)
    requires c.baseNote == 0 && c.octave == 0 && c.play == 0 && c.mode == 0
    ensures NoteNumber(c, 0, -1) == 127
    ensures NoteNumber(c, 0, -12) == 116
  {
  }

  /** The top selector value 7 plays the degree one octave above selector 0. */
  lemma {:induction false} SelectorSevenIsOctave(c: Context, diastep: int, semitone: int)
    requires 0 <= c.mode <= 6 && c.play == 0 && 0 <= diastep <= 6
    ensures 0 <= Position(c.(play := 7), diastep) < |NOTES|
    ensures NoteNumber(c.(play := 7), diastep, semitone) == (NoteNumber(c, diastep, semitone) + 12) % 128
  {
    var i := Position(c, diastep);
    Periodic(i);
    assert RawPitch(c.(play := 7), diastep, semitone) == RawPitch(c, diastep, semitone) + 12;
    ModShift(RawPitch(c, diastep, semitone), 12);
  }

  /** Raising the octave shift by one raises the note by 12 modulo 128. */
  lemma OctaveShiftIsTwelve(c: Context, diastep: int, semitone: int)
    requires 0 <= Position(c, diastep) < |NOTES|
    ensures NoteNumber(c.(octave := c.octave + 1), diastep, semitone) == (NoteNumber(c, diastep, semitone) + 12) % 128
  {
    ModShift(RawPitch(c, diastep, semitone), 12);
  }

  /** Reducing before or after adding a shift gives the same note. */
  lemma ModShift(x: int, d: int)
    ensures (x % 128 + d) % 128 == (x + d) % 128
  {
    var q := x / 128;
    assert x == 128 * q + x % 128;
    assert x + d == (x % 128 + d) + 128 * q;
  }

  /** The tonic of the configured scale: with the internal base note set to
      the configured note minus the mode's table offset, selector 0 with no
      shifts sounds the configured note itself (reduced modulo 128). */
  lemma TonicIsConfiguredNote(configNote: int, channel: int, mode: int)
    requires 0 <= mode <= 6
    ensures NoteNumber(Context(channel, configNote - NOTES[mode], mode, 0, 0), 0, 0) == configNote % 128
  {
  }
}
