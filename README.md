# Piano-roll viewer core, modelled in Dafny

This project models the sequential core of a WPF MIDI piano-roll viewer (WpfMidiFileSelector):

- **PianoRollRenderer** (the final revision of the renderer). `Render` clears a canvas and rebuilds it from an ordered note list. It draws one rectangle per note, fills a `(NoteNumber, Time) → rectangle` dictionary and sizes the canvas from the latest note end. `SetNoteColor` recolours the one indexed rectangle of a note. `ResetAllNoteColors` recolours every indexed rectangle.
- **ColorSettingsManager**. It resolves a colour option (a preset, a custom hex code or anything else) to the colour of one of three roles, with a per-role fallback, and stores it in that role's brush. Its hex converter adds a missing `#` and maps every failure to `false` and Black.
- **MainWindow** (the older revision, which draws the roll itself). `DrawPianoRoll` uses the same geometry as the renderer but builds no index. The note-started and note-finished handlers find a note's rectangle by a linear first-match search over the canvas. `ResetNoteColors` repaints note rectangles. The Play and Stop buttons are enabled and disabled across load, play, stop and finish.

Modules:

- `Options`: a value that may be null.
- `Colors`: ARGB colours and the WPF named colours the program uses.
- `Notes`: notes and their `(NoteNumber, Time)` key.
- `Layout`: geometry and canvas extent, plus the `Rectangle` and `Canvas` objects.
- `Renderer`: the renderer.
- `ColorSettings`: the option names, the hex converter and the settings manager.
- `Window`: the main window.

Both drawing paths share the geometry:

- left = Time·0.1 + 50
- top = (127 − NoteNumber)·10
- width = max(1, Length·0.1)
- height = 10

The canvas is 1280 high. Its width is MaxEnd·0.1 + 150, where MaxEnd is the largest Time + Length. An empty note list gives a 0 × 0 canvas.

Behaviour worth knowing, as the code has it:

- **Duplicate keys in the renderer: the last note wins.** The renderer fills its index with the dictionary indexer, which overwrites and never throws, so the `catch (ArgumentException)` around it is dead code. When two notes share `(NoteNumber, Time)`, the index holds the later note's rectangle. The earlier rectangle stays on the canvas, but neither `SetNoteColor` nor `ResetAllNoteColors` can reach it. The `catch` at PianoRollRenderer.cs:91-94 logs that a rectangle for the key already exists, which shows that keeping the first rectangle and logging the collision was intended; the model follows the code as written.
- **Duplicate keys in the window: the first rectangle wins.** The window's `FirstOrDefault` search finds the first rectangle in canvas order, the opposite of the renderer's index. `Window.FirstMatchVersusIndex` states that the two agree exactly when a key occurs once.
- **Stop and finish do not reset colours.** Nothing in MainWindow.xaml.cs calls `ResetNoteColors`, so a stop or a finish does not repaint highlighted notes.
- **Loading a file during playback does not stop it.** It disables Stop without stopping the running session. The invariant kept is weaker: Stop is enabled only while a session this window started is running, and then Play is disabled (`MainWindow.Valid`).

## Model

| member | source | states |
|---|---|---|
| `Layout.MaxEnd` | WpfMidiFileSelector/PianoRollRenderer.cs:104-106 | the maxTime accumulator's final value: at least every note's Time+Length, equal to one of them, and 0 for no notes |
| `Layout.NoteBounds` | WpfMidiFileSelector/PianoRollRenderer.cs:69-75 | a note's rectangle starts at Time·0.1+50, is max(1, Length·0.1) wide (at least both, equal to one), 10 high and inside the 1280-high pitch range |
| `Layout.CanvasWidth` | WpfMidiFileSelector/PianoRollRenderer.cs:110-111 | the canvas width is at least the two paddings and reaches past the right edge of every note's rectangle |
| `Layout.NoteBoundsPlacement` | WpfMidiFileSelector/PianoRollRenderer.cs:69-75 | a note's rectangle has top (127−NoteNumber)·10 within the 1280-high pitch range, left at least the 50 padding, width at least 1, height 10 |
| `Layout.DistinctPitchesDistinctRows` | WpfMidiFileSelector/PianoRollRenderer.cs:69 | notes of different pitches are drawn in non-overlapping rows |
| `Layout.NoteFitsCanvas` | WpfMidiFileSelector/PianoRollRenderer.cs:69-113 | every rectangle drawn for a list lies inside the canvas extent computed for that list |
| `Layout.MaxEndPermutation` | WpfMidiFileSelector/PianoRollRenderer.cs:104-113 | the canvas width is the same for every permutation of the note list |
| `Layout.Rectangle.ForNote` | WpfMidiFileSelector/PianoRollRenderer.cs:66-85 | a new note rectangle has the note's geometry, the given fill and the note as its tag |
| `Renderer.IndexPositions` | WpfMidiFileSelector/PianoRollRenderer.cs:87-94 | the index's key set is exactly the set of (NoteNumber, Time) keys of the list, and each key holds the position of the LAST note with that key |
| `Renderer.ShadowedNoteUnreachable` | WpfMidiFileSelector/PianoRollRenderer.cs:87-94 | a note followed later by a note with the same key is not reachable from the index |
| `Renderer.IndexedExactlyLastOfKey` | WpfMidiFileSelector/PianoRollRenderer.cs:87-94 | a position is reachable from the index if and only if no later note has its key |
| `Renderer.PianoRollRenderer.constructor` | WpfMidiFileSelector/PianoRollRenderer.cs:21-26 | a new renderer has no index (null) |
| `Renderer.PianoRollRenderer.Render` | WpfMidiFileSelector/PianoRollRenderer.cs:35-117 | a null canvas changes nothing, index included; otherwise the background is set, the canvas holds one fresh distinct rectangle per note in input order with the shared geometry, the normal fill and the note as tag, the canvas is 0×0 for no notes and 1280 high and MaxEnd·0.1+150 wide otherwise, and the index is a fresh map sending each key to the rectangle of the last note with that key |
| `Renderer.PianoRollRenderer.DrawAndIndex` | WpfMidiFileSelector/PianoRollRenderer.cs:64-107 | the drawing loop leaves the canvas showing one fresh distinct rectangle per note in order, the index sending each key to the rectangle of the last note with that key, and returns the latest end tick MaxEnd |
| `Renderer.PianoRollRenderer.SetNoteColor` | WpfMidiFileSelector/PianoRollRenderer.cs:124-149 | only the fill of the one rectangle indexed under the note's key may change, and it becomes the colour; the index, all geometry and every other fill stay; with no index, a null note or an absent key nothing changes (the frame is empty) |
| `Renderer.PianoRollRenderer.ResetAllNoteColors` | WpfMidiFileSelector/PianoRollRenderer.cs:155-166 | every indexed rectangle gets the colour and keeps its geometry and the index stays; only indexed rectangles' fills may change, so shadowed rectangles keep theirs; with no index nothing changes |
| `Renderer.HighlightAfterRender` | WpfMidiFileSelector/PianoRollRenderer.cs:87-135 | after a render and one SetNoteColor, exactly the rectangle of the last note with the played key has the new colour and every other rectangle has the normal colour |
| `Renderer.ResetAfterRender` | WpfMidiFileSelector/PianoRollRenderer.cs:155-166 | after a render and ResetAllNoteColors(c), a rectangle has c exactly when the index reaches it; shadowed rectangles keep the normal colour |
| `Renderer.DuplicateKeyScenario` | WpfMidiFileSelector/PianoRollRenderer.cs:87-94 | two notes with key (60, 0): highlighting that key recolours only the second rectangle |
| `ColorSettings.OptionNamesDistinct` | WpfMidiFileSelector/ColorOptionNames.cs:8-11 | the four option names are pairwise distinct |
| `ColorSettings.ConvertFromString` | WpfMidiFileSelector/ColorSettingsManager.cs:166-175 | the converter as assumed here: it succeeds exactly on a '#' followed by 6 or 8 hex digits, a 6-digit code is opaque, and a failure is false with Black |
| `ColorSettings.TryConvertHexToColor` | WpfMidiFileSelector/ColorSettingsManager.cs:154-182 | a failure reports Black, the empty string fails, and a success came from a code of 6 or 8 characters after the '#', which is added when missing |
| `ColorSettings.FailureIsBlack` | WpfMidiFileSelector/ColorSettingsManager.cs:156-158 | a failed conversion reports Black, and the empty (or null) string fails |
| `ColorSettings.MissingHashAdded` | WpfMidiFileSelector/ColorSettingsManager.cs:160-164 | a code not starting with '#' converts exactly as the same code with '#' in front |
| `ColorSettings.ArgbCodeRoundTrip` | WpfMidiFileSelector/ColorSettingsManager.cs:154-182 | every colour converts back from its "#AARRGGBB" code, with or without the '#' |
| `ColorSettings.RgbCodeRoundTrip` | WpfMidiFileSelector/ColorSettingsManager.cs:154-182 | a "#RRGGBB" code, with or without '#', converts to the opaque colour with those channels |
| `ColorSettings.ConvertedForms` | WpfMidiFileSelector/ColorSettingsManager.cs:151-175 | under the two-form converter assumed here, a successful conversion came from a 7- or 9-character '#' code, and the 7-character form gives alpha 255 |
| `ColorSettings.MagentaCode` | WpfMidiFileSelector/ColorSettingsManager.cs:154-182 | "FF00FF" and "#FF00FF" both convert to magenta |
| `ColorSettings.BackgroundPresets` | WpfMidiFileSelector/ColorSettingsManager.cs:57-69 | outside CustomHex the background is Blue if and only if the option is Blue, and Green for every other option |
| `ColorSettings.NoteRolePresets` | WpfMidiFileSelector/ColorSettingsManager.cs:96-139 | outside CustomHex the normal-note colour is LightGray and the playing colour White, whatever the option (Default, "緑" or anything else) |
| `ColorSettings.CustomHexFallbacks` | WpfMidiFileSelector/ColorSettingsManager.cs:47-129 | a custom code that fails to convert gives Green, LightGray and White for the three roles |
| `ColorSettings.CustomHexConverted` | WpfMidiFileSelector/ColorSettingsManager.cs:47-129 | a custom code that converts gives every role the converted colour |
| `ColorSettings.EveryColorSelectable` | WpfMidiFileSelector/ColorSettingsManager.cs:47-182 | every colour can be chosen for every role by entering its "#AARRGGBB" code (for the playing role, without the '#') |
| `ColorSettings.ColorSettingsManager.constructor` | WpfMidiFileSelector/ColorSettingsManager.cs:29-35 | the brushes start as Green, LightGray and White |
| `ColorSettings.ColorSettingsManager.ApplyBackgroundColorSetting` | WpfMidiFileSelector/ColorSettingsManager.cs:43-74 | returns the resolved background colour and stores exactly it in the background brush; the other two brushes are outside the frame |
| `ColorSettings.ColorSettingsManager.ApplyNormalNoteColorSetting` | WpfMidiFileSelector/ColorSettingsManager.cs:82-109 | returns the resolved normal-note colour and stores exactly it in the normal-note brush only |
| `ColorSettings.ColorSettingsManager.ApplyPlayingColorSetting` | WpfMidiFileSelector/ColorSettingsManager.cs:117-144 | returns the resolved playing colour and stores exactly it in the playing brush only |
| `Window.FirstMatch` | WpfMidiFileSelector/MainWindow.xaml.cs:322-336 | the search result is the least position whose tagged note has the key, or none when no tag matches |
| `Window.RecolorAt` | WpfMidiFileSelector/MainWindow.xaml.cs:316-358 | after a handler's loop, a rectangle has the new colour exactly when it is the first match of some played note, and keeps its fill otherwise |
| `Window.RecolorWithoutMatch` | WpfMidiFileSelector/MainWindow.xaml.cs:338-357 | played notes that match no rectangle change nothing |
| `Window.FirstMatchVersusIndex` | WpfMidiFileSelector/MainWindow.xaml.cs:322-336 | for a key of the list, the window's search finds a position no later than the renderer's index, and the two coincide if and only if the key occurs once |
| `Window.MainWindow.constructor` | WpfMidiFileSelector/MainWindow.xaml.cs:34-75 | the colours start as Black, DodgerBlue and Yellow, no file or session, both buttons disabled, an empty canvas |
| `Window.MainWindow.SelectFileButtonClick` | WpfMidiFileSelector/MainWindow.xaml.cs:103-155 | a cancelled dialog changes nothing; a failed load clears notes and file, empties the canvas to 0×0, keeps its background and disables both buttons; a successful load enables Play exactly when a file and a device are present, disables Stop and draws the notes; the session and colours are kept |
| `Window.MainWindow.DrawPianoRoll` | WpfMidiFileSelector/MainWindow.xaml.cs:159-219 | the canvas shows one fresh distinct rectangle per note in order, with the renderer's geometry, the normal colour and the note as tag, sized 0×0 for no notes and 1280 by MaxEnd·0.1+150 otherwise |
| `Window.DrawNoteRectangles` | WpfMidiFileSelector/MainWindow.xaml.cs:180-208 | the drawing loop appends one fresh distinct rectangle per note in order, with the shared geometry, the normal colour and the note as tag, and returns the latest end tick MaxEnd |
| `Window.MainWindow.PlayButtonClick` | WpfMidiFileSelector/MainWindow.xaml.cs:221-259 | without a file or device nothing changes; a successful start runs a session with Play off and Stop on; a failed start drops the session with Play on and Stop off |
| `Window.MainWindow.PlaybackFinished` | WpfMidiFileSelector/MainWindow.xaml.cs:261-275 | Play on, Stop off, session dropped |
| `Window.MainWindow.StopButtonClick` | WpfMidiFileSelector/MainWindow.xaml.cs:277-294 | a running session is stopped with Play on and Stop off; otherwise nothing changes |
| `Window.MainWindow.FindFirstMatch` | WpfMidiFileSelector/MainWindow.xaml.cs:322-336 | returns the first rectangle in canvas order whose tagged note has the key, or null when there is none |
| `Window.MainWindow.RecolorNote` | WpfMidiFileSelector/MainWindow.xaml.cs:318-343 | one pass of a handler loop: the fills change only at the first match of the note's key, which takes the colour, and not at all without a match |
| `Window.MainWindow.RecolorFirstMatches` | WpfMidiFileSelector/MainWindow.xaml.cs:316-358 | the canvas fills become Recolor of the old fills: for each played note in turn, its first match takes the colour |
| `Window.MainWindow.NotesPlaybackStarted` | WpfMidiFileSelector/MainWindow.xaml.cs:295-361 | each started note's first matching rectangle takes the playing colour; no notes or no match change nothing |
| `Window.MainWindow.NotesPlaybackFinished` | WpfMidiFileSelector/MainWindow.xaml.cs:362-407 | each finished note's first matching rectangle takes the normal colour; no notes or no match change nothing |
| `Window.MainWindow.ResetNoteColors` | WpfMidiFileSelector/MainWindow.xaml.cs:411-423 | every note-tagged rectangle has the normal colour afterwards; untagged rectangles keep their fill |
| `Window.MainWindow.ColorComboBoxSelectionChanged` | WpfMidiFileSelector/MainWindow.xaml.cs:425-458 | a background choice repaints the canvas background and keeps its rectangles and size; a normal-note choice redraws every rectangle in the new colour on the current background; a playing choice touches no rectangle; no sender or no selection changes nothing; notes, loaded file, session and buttons are kept in every case |
| `Window.HighlightAfterLoad` | WpfMidiFileSelector/MainWindow.xaml.cs:316-343 | after a load and one notes-started event, exactly the first rectangle with the played key is highlighted and all others keep the normal colour |
| `Window.DuplicateKeyFirstMatchScenario` | WpfMidiFileSelector/MainWindow.xaml.cs:322-343 | two notes with key (60, 0): the window highlights the first rectangle, where the renderer would reach the second |
| `Window.ButtonSequence` | WpfMidiFileSelector/MainWindow.xaml.cs:103-294 | with a device, load, play, stop, play and finish leave (Play, Stop) at (on, off), (off, on), (on, off), (off, on), (on, off); without one, Play stays disabled after load and play |

## Left out

- File dialog, file reading and MIDI parsing (MidiDataManager, DryWetMidi): a load is an input, either cancelled, failed, or the loaded note list. A null note list is modelled as the empty list; the source handles both on the same branch.
- PlaybackManager, the DryWetMidi `Playback` and output device: a session is a running or stopped flag, and whether the start throws is an input. `Dispose` calls, the closing handler and event subscription (including the second registration of `Playback_Finished`) are resource handling and event wiring.
- `Dispatcher.Invoke` and the playback thread: the handler bodies are sequential calls. Cross-thread ordering and session-scoped filtering of late events are not modelled; the source does not do such filtering.
- Device enumeration at start-up: device presence is a constructor input. The buttons' initial `IsEnabled` comes from the XAML, which is not part of this model; both are taken as disabled.
- The colour combo boxes' reflection over `Colors`: the chosen colour is an input. A null sender and an empty selection return early.
- `ColorConverter.ConvertFromString` internals: the converter accepts only the two documented forms, `#RRGGBB` and `#AARRGGBB`, with case-insensitive hex digits. Other forms the real converter may accept (such as `#RGB`, `#ARGB` or `sc#` codes) are not modelled. `StartsWith("#")` is modelled as a first-character test.
- Null option and hex strings are modelled as "": every comparison and `IsNullOrEmpty` treats them alike.
- Brushes are their colours: a new `SolidColorBrush` per assignment is not distinguished from another with the same colour.
- IEEE double rounding: geometry and extent are exact reals. The running maximum end tick is kept as an integer; every value it takes is a sum of two tick counts.
- `Stroke = null`, `Canvas.SetLeft/SetTop` as attached properties, and `Debug.WriteLine` diagnostics (including the lookup-miss and parse-failure messages): no state of the core depends on them.
- ColorConstants.cs is not part of this model; no file of the program references it.
