/** The diatonic scale table that every played note is looked up in
    (midibox360.py, `notes`): semitone offsets of the major-scale degrees,
    repeated octave after octave until the MIDI range is used up. */
module Scale {

  /** The seven semitone offsets of one octave of the major (ionian) scale. */
  const PATTERN: seq<int> := [0, 2, 4, 5, 7, 9, 11]

  /** The table as the program writes it out, one source line per row. */
  const TABLE: seq<int> :=
    [0, 2, 4, 5, 7, 9, 11, 12, 14, 16, 17, 19, 21, 23, 24, 26, 28, 29, 31, 33, 35] +
    [36, 38, 40, 41, 43, 45, 47, 48, 50, 52, 53, 55, 57, 59, 60, 62, 64, 65, 67, 69, 71] +
    [72, 74, 76, 77, 79, 81, 83, 84, 86, 88, 89, 91, 93, 95, 96, 98, 100, 101, 103, 105, 107] +
    [108, 110, 112, 113, 115, 117, 119, 120, 122, 124, 125, 127]

  /** Scale degree i % 7 of the major scale, in octave i / 7. */
  function Degree(i: nat): (v: int)
    ensures 12 * (i / 7) <= v < 12 * (i / 7) + 12
    ensures v % 12 == PATTERN[i % 7]
  {
    12 * (i / 7) + PATTERN[i % 7]
  }

  /** The table the model looks notes up in: the major-scale pattern
      repeated over 75 positions. */
  const NOTES: seq<int> := Repeated(75)

  /** The first n entries of the repeated pattern. */
  function Repeated(n: nat): (s: seq<int>)
    ensures |s| == n && forall i :: 0 <= i < n ==> s[i] == Degree(i)
  {
    seq(n, i requires 0 <= i < n => Degree(i))
  }

  /** The pattern description and the written-out table agree entry by
      entry, starting 0, 2, 4, 5, 7, 9, 11. */
  lemma AsWritten()
    ensures NOTES == TABLE
    ensures NOTES[..7] == PATTERN
  {
    forall i | 0 <= i < 75
      ensures NOTES[i] == TABLE[i]
    {
      // Entry by entry: the solver evaluates each case on its own.
      assert i in {0, 1, 2, 3, 4, 5, 6, 7, 8, 9, 10, 11, 12, 13, 14, 15, 16, 17, 18, 19,
                   20, 21, 22, 23, 24, 25, 26, 27, 28, 29, 30, 31, 32, 33, 34, 35, 36, 37,
                   38, 39, 40, 41, 42, 43, 44, 45, 46, 47, 48, 49, 50, 51, 52, 53, 54, 55,
                   56, 57, 58, 59, 60, 61, 62, 63, 64, 65, 66, 67, 68, 69, 70, 71, 72, 73, 74};
    }
    assert |TABLE| == 75;
    assert NOTES == TABLE;
    assert NOTES[..7] == TABLE[..7] == PATTERN;
  }

  /** Octave periodicity: seven entries further on is the same degree an
      octave (12 semitones) higher. */
  lemma Periodic(i: nat)
    requires i + 7 < |NOTES|
    ensures NOTES[i + 7] == NOTES[i] + 12
  {
    assert (i + 7) / 7 == i / 7 + 1 && (i + 7) % 7 == i % 7;
  }

  /** Neighbouring entries are a whole or a half tone apart. */
  lemma Steps(i: nat)
    requires i + 1 < |NOTES|
    ensures NOTES[i + 1] - NOTES[i] in {1, 2}
  {
    var q, r := i / 7, i % 7;
    if r < 6 {
      assert (i + 1) / 7 == q && (i + 1) % 7 == r + 1;
    } else {
      assert (i + 1) / 7 == q + 1 && (i + 1) % 7 == 0;
    }
  }

  /** The table is strictly increasing. */
  lemma {:induction false} Increasing(i: nat, j: nat)
    requires i < j < |NOTES|
    ensures NOTES[i] < NOTES[j]
    decreases j - i
  {
    Steps(i);
    if i + 1 < j {
      Increasing(i + 1, j);
    }
  }

  /** Every entry is a MIDI note number, from 0 up to 127. */
  lemma InMidiRange(i: nat)
    requires i < |NOTES|
    ensures 0 <= NOTES[i] <= 127
    ensures i == 0 <==> NOTES[i] == 0
    ensures i == |NOTES| - 1 <==> NOTES[i] == 127
  {
    if 0 < i {
      Increasing(0, i);
    }
    if i < |NOTES| - 1 {
      Increasing(i, |NOTES| - 1);
    }
  }
}
