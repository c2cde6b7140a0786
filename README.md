# midiBox360 input-to-MIDI engine in Dafny

midiBox360 turns a game controller into a MIDI instrument. A button-down plays
a note or a chord. Which one depends on:

- the current key (the internal base note);
- the mode (ionian … locrian);
- which face buttons are held (A, B, X, Y);
- the scale-step selector (left trigger, left bumper, right bumper);
- the left stick's octave and semitone shifts.

The hat transposes the key. A button-up floods note-off messages.

This project models that engine and proves what it promises:

| file | module | what it models |
|---|---|---|
| `scale.dfy` | `Scale` | the 75-entry diatonic table `notes` |
| `resolver.dfy` | `Resolver` | the note resolver `msg` and the MIDI messages |
| `signals.dfy` | `Signals` | the derivation of signal names from the `[controls]` table, and `get_event`, which reads one signal from a snapshot of the controller |
| `intent.dfy` | `Intent` | what each handler of the main loop does, as pure functions of the state it starts from (Reading, Press, HatShift, Release), with the lemmas about them |
| `engine.dfy` | `Engine` | the program's state as a class whose fields the handlers update in place, and the handlers as methods proved against those functions. Each method returns the messages it sends, in order. |
| `scenarios.dfy` | `Scenarios` | worked sessions on the default key, middle C |

### How the program is mapped

- The configuration values become constructor parameters.
- A controller snapshot is a value: button states, axis positions as reals, and hat positions.
- Sending a message means appending it to the returned sequence.
- A read the program cannot do is `None`, and the handler returns `ok == false`. In the program this raises and stops it. There are two causes:
  - a name that is not a button number;
  - a button, axis or hat the controller lacks.

### Behaviour worth knowing

- An axis signal is active beyond 0.5 in its direction (midibox360.py:99-121).
- Chord mode is the left thumb button (midibox360.py:252).
- The table has 75 entries, from 0 to 127 (midibox360.py:150-153).
- A button-down is ignored whenever a chord is already held (midibox360.py:277).
- A button-up releases notes 0..126 only (midibox360.py:315; see Findings).

## Model

| member | source | states |
|---|---|---|
| Scale.Repeated | midibox360.py:150-153 | the first n entries of the repeated major pattern, entry i being Degree(i) |
| Scale.Degree | midibox360.py:149-153 | entry i lies in octave i / 7 and is the major-scale degree i % 7 above it |
| Scale.AsWritten | midibox360.py:150-153 | the table as written equals the major pattern repeated over 75 positions and starts 0,2,4,5,7,9,11 |
| Scale.Periodic | midibox360.py:150-153 | seven entries on is the same degree 12 semitones higher |
| Scale.Steps | midibox360.py:150-153 | neighbouring entries differ by a whole or a half tone |
| Scale.Increasing | midibox360.py:150-153 | the table is strictly increasing |
| Scale.InMidiRange | midibox360.py:149-153 | every entry is in 0..127; 0 only first, 127 only last |
| Resolver.NoteNumber | midibox360.py:92-94 | the note is in 0..127 and congruent modulo 128 to base + semitone + 12*octave + notes[play+diastep+mode] |
| Resolver.Msg | midibox360.py:92-94 | a note-on on the output channel that the output accepts when channel, mode and selector are in range |
| Resolver.PositionInTable | midibox360.py:94 | with selector 0..7, mode 0..6 and diatonic step 0..6 the table index is at most 19, inside the table |
| Resolver.WrapsBelowZero | midibox360.py:92-94 | a negative sum wraps to the top: base 0, semitone -1 gives 127; -12 gives 116 |
| Resolver.SelectorSevenIsOctave | midibox360.py:94 | selector 7 plays the degree of selector 0 an octave higher |
| Resolver.OctaveShiftIsTwelve | midibox360.py:93-94 | raising the octave shift by one raises the note by 12 modulo 128 |
| Resolver.TonicIsConfiguredNote | midibox360.py:160-162 | with base note = configured note - notes[mode], the tonic resolves to the configured note modulo 128 |
| Signals.WithNeg | midibox360.py:179-188 | adding "_neg" works exactly on names, and the result is the name followed by "_neg" |
| Signals.Sign | midibox360.py:196-201 | an inversion flag becomes -1, otherwise 1 |
| Signals.Bind | midibox360.py:165-201 | naming succeeds exactly when every stick axis is a name and a shared trigger axis is a name; buttons and hat pass through; stick up/left are the stick's axis + "_neg", down/right the axis itself; a right trigger sharing the left trigger's axis gets "_neg"; the signs are ±1, -1 exactly where the flag is set |
| Signals.Classify | midibox360.py:97-131 | a button number is passed on unchanged and nothing else is a button; recognised axes are 0..5 |
| Signals.GetEvent | midibox360.py:97-132 | a button number reads that button, failing exactly when the controller lacks it; an unrecognised name cannot be read |
| Signals.HatReads | midibox360.py:122-129 | up/down/left/right are the first hat equal to (0,1), (0,-1), (-1,0), (1,0); without a hat they cannot be read |
| Signals.BoundAxes | midibox360.py:176-201 | with a stick or the left trigger on axis k, stick up/left read signed axis < -0.5, down/right > 0.5, the left trigger > 0.5 and a sharing right trigger < -0.5, the sign set by axis k's flag |
| Signals.AxisNamesRecognised | midibox360.py:98-121 | axis_N stands for the positive half of axis N, axis_N_neg for the negative half |
| Signals.OnlyExactNames | midibox360.py:97-131 | only the twelve exact axis names read an axis, only up/down/left/right read the hat, and no name is a button number |
| Signals.AxisThreshold | midibox360.py:98-121 | an axis signal is active exactly when axis*sign > 0.5, or < -0.5 for the _neg half |
| Signals.InversionSwapsHalves | midibox360.py:99-121 | flipping an axis's sign swaps its positive and negative signals |
| Signals.HalvesExclusive | midibox360.py:98-121 | a signal and its _neg twin are never both active |
| Signals.StickHalvesExclusive | midibox360.py:176-184 | left stick up/down, left stick left/right, and triggers that share an axis are never active together |
| Signals.CompassExclusive | midibox360.py:122-129 | two hat directions active in one snapshot are the same direction |
| Intent.ReadAll | midibox360.py:247-275 | a successful read gives one value per signal |
| Intent.ReadAllSound | midibox360.py:247-275 | the reads fail exactly when one signal cannot be read; otherwise each value is that signal's reading |
| Intent.Read | midibox360.py:247-275 | the twelve signals the handler reads, failing exactly when one of them cannot be read |
| Intent.Selector | midibox360.py:258-267 | the selector is in 0..7 |
| Intent.OctaveShift | midibox360.py:268-271 | -1 exactly when stick down, +1 exactly when stick up without down, else 0 |
| Intent.SemitoneShift | midibox360.py:272-275 | +1 exactly when stick right, -1 exactly when stick left without right, else 0 |
| Intent.SelectorBits | midibox360.py:262-267 | each of the three inputs can be read back from the selector's bits |
| Intent.SelectorInjective | midibox360.py:262-267 | equal selectors mean the same trigger and bumper inputs |
| Intent.DiatonicSteps | midibox360.py:284-289 | root first, then 2 and 4 exactly with the chord signal, then 6 exactly with the seventh signal, increasing |
| Intent.Press | midibox360.py:277-310 | the mode stays in 0..6, a chord is held afterwards exactly when one was or a root button is down, and only a mode change alters mode or base note, sending nothing |
| Intent.PressGate | midibox360.py:277-310 | while a chord is held, or with none of A/B/X/Y, nothing changes and nothing is sent; otherwise a chord is held afterwards |
| Intent.ModeChange | midibox360.py:280-282 | Y outside chord mode sends nothing, sets the mode to selector % 7 and rebases so the tonic is the configured note |
| Intent.DiatonicChord | midibox360.py:284-289 | msg(0), then msg(2), msg(4) exactly when B or X, then msg(6) exactly when B; A alone one note, X three, B four |
| Intent.QualityPriority | midibox360.py:292-309 | Y major wins over A minor over B dominant over X diminished |
| Intent.QualityChord | midibox360.py:292-309 | each tone of the chosen quality is msg(0, offset + semitone), in offset order |
| Intent.QualityIntervals | midibox360.py:293-309 | the offsets are [0,4,7], [0,3,7], major + [10], and [0,3,6,9], stacked minor thirds |
| Intent.PressSendsValidNotes | midibox360.py:277-310 | every message a press sends is an acceptable note-on on the channel; a qualifying press that is not a mode change sends at least one |
| Intent.HatShiftNet | midibox360.py:234-242 | after a hat motion the base note is congruent to base + 12·up - 12·down - left + right modulo 128 |
| Intent.HatShift | midibox360.py:234-242 | after any active direction the base note is in 0..127; with none it is unchanged |
| Intent.Release | midibox360.py:315-317 | 127 note-offs, all on the channel, for notes in 0..126 |
| Intent.ReleaseCovers | midibox360.py:312-317 | a button-up sends exactly 127 note-offs on the channel, notes 0..126 increasing, never 127 |
| Intent.StuckTopNote | midibox360.py:312-317 | note 127 can be sounded (key 0, A, stick left) but is never released |
| Intent.ReleaseAll | midibox360.py:313-317 | 128 note-offs on the channel, entry n for note n, 0..127 |
| Intent.ReleaseAllSilences | midibox360.py:313-317 | a release of notes 0..127 turns off every note any press sends; the flood as written is it without the last message |
| Engine.Engine.constructor | midibox360.py:154-201 | 0-based mode and channel, base note = configured note - notes[mode], no chord held, tonic = configured note, signal names derived by Bind |
| Engine.Engine.HatMotion | midibox360.py:234-242 | the four directions are read in order; on success the base note is HatShift of the old one |
| Engine.Engine.ButtonDown | midibox360.py:245-310 | succeeds exactly when every signal can be read; then mode, base note, held flag and messages are those of Press |
| Engine.Engine.Respond | midibox360.py:258-310 | from a reading, the new state and the messages sent, one by one, are those of Press |
| Engine.Engine.ButtonUp | midibox360.py:312-317 | clears the held flag and sends Release, one note-off at a time |
| Engine.Shifts | midibox360.py:258-275 | the selector and shifts built up step by step equal Selector, OctaveShift and SemitoneShift |
| Engine.SoundDiatonic | midibox360.py:284-289 | the diatonic sends, one by one, are the tones of DiatonicSteps played in order |
| Engine.SoundQuality | midibox360.py:292-309 | the if/elif chain's sends are the chosen quality's tones played in order |
| Scenarios.DiatonicOnC | midibox360.py:284-289 | on middle C in the ionian mode A gives 60, X gives 60 64 67, B gives 60 64 67 71 |
| Scenarios.QualityOnC | midibox360.py:292-309 | in chord mode on middle C each quality sounds its offsets above 60 |
| Scenarios.MajorOnC | midibox360.py:292-295 | in chord mode Y sounds 60 64 67 |
| Scenarios.MinorOnC | midibox360.py:296-299 | in chord mode A sounds 60 63 67 |
| Scenarios.OctaveUp | midibox360.py:234-236 | startup leaves base 60; hat up makes it 72; A then sounds 72 |
| Scenarios.PhrygianSwitch | midibox360.py:280-282 | Y with the left bumper selects the phrygian mode, base 56, and sends nothing |
| Scenarios.PhrygianTriad | midibox360.py:284-287 | in the phrygian mode X sounds the minor triad 60 63 67 on the same tonic |

## Left out

- Configuration file I/O: finding, reading, generating and writing the file, and the path logic. The parsed values are constructor parameters.
- pygame setup: the window, the logo, opening the joystick and the frame clock. The controller is a snapshot value passed to each handler.
- If no controller is connected, the program has no joystick object and every read fails. A snapshot with no buttons, axes or hats behaves the same way.
- The mido output port: opening it, choosing it by name, and the send call. Sending means appending to the returned sequence. Velocity is left at the library's default and is not modelled.
- The event queue, the QUIT event and the polling loop. Each handler is called once per event it handles.
- Floating-point axis values are modelled as reals. Only the comparisons with 0.5 and -0.5 depend on them.
- Exception kinds: a TypeError (a name used as a button number, or "_neg" added to a number) and a pygame.error (a missing button, axis or hat) are both "cannot be read". The program stops on either.
- The back, start, right thumb, right trigger and right stick signals are derived but never read by the handlers. Their derivation is in Bind; no handler uses them.
- `joystick_id` and `port` configuration values: they only choose devices.
- Python's negative list indices are not modelled. Engine.Engine.constructor requires the configured mode to be 1..7 and the channel 1..16, the documented ranges. The program does not check them. Outside them the program indexes the table from the end (mode 0), uses entries beyond the seven modes (mode 8 and up), or fails inside the output library (channel).
- Engine.Engine.HatMotion: when a read fails, the base note is not pinned. The program raises at that point, and the moves already made stay applied.

## Findings

| source | as written | input that shows it | evidently intended | confidence | as-written member | corrected member |
|---|---|---|---|---|---|---|
| midibox360.py:313-317 | `range(0, 127)` releases notes 0..126 | configured note 0, ionian mode, A held with the stick pushed left: sounds note 127, which no button-up turns off | "Release all notes": note-offs for 0..127 | medium, not executed | Intent.StuckTopNote | Intent.ReleaseAllSilences |

The engine's button-up keeps the program's behaviour: Engine.Engine.ButtonUp sends Release, notes 0..126. The corrected release is ReleaseAll. Intent.ReleaseAllSilences proves that ReleaseAll turns off every note a press can send.
