/**
 * The older revision of the main window, which draws the piano roll itself, finds a note's
 * rectangle by a linear first-match search over the canvas, and enables the Play and Stop
 * buttons as files load and playback starts, stops and finishes. The playback thread's
 * notifications are modelled as plain sequential calls of the handler bodies.
 */
module Window {

  import opened Options
  import opened Colors
  import opened Notes
  import opened Layout
  import Renderer

  /** A rectangle's tag is a note with the given (NoteNumber, Time). */
  predicate Matches(tag: Option<Note>, key: NoteKey)
  {
    tag.Some? && tag.value.noteNumber == key.noteNumber && tag.value.time == key.time
  }

  /** The position of the first tag matching `key`, as the FirstOrDefault search finds it. */
  function FirstMatch(tags: seq<Option<Note>>, key: NoteKey): (r: Option<nat>)
    ensures r.Some? ==> r.value < |tags| && Matches(tags[r.value], key)
    ensures r.Some? ==> forall j :: 0 <= j < r.value ==> !Matches(tags[j], key)
    ensures r.None? ==> forall j :: 0 <= j < |tags| ==> !Matches(tags[j], key)
  {
    if tags == [] then None
    else if Matches(tags[0], key) then Some(0)
    else
      match FirstMatch(tags[1..], key)
      case None => None
      case Some(i) => Some(i + 1)
  }

  /**
   * The fills after recolouring, note by note, the first rectangle matching each played
   * note's key with `color`; played notes that match nothing change nothing.
   */
  function Recolor(fills: seq<Color>, tags: seq<Option<Note>>, played: seq<Note>, color: Color): (r: seq<Color>)
    requires |fills| == |tags|
    ensures |r| == |fills|
  {
    if played == [] then fills
    else
      var prev := Recolor(fills, tags, played[..|played| - 1], color);
      match FirstMatch(tags, KeyOf(played[|played| - 1]))
      case None => prev
      case Some(i) => prev[i := color]
  }

  /** One more played note recolours its first match, if any, in the fills reached so far. */
  lemma RecolorStep(fills: seq<Color>, tags: seq<Option<Note>>, played: seq<Note>, i: nat, color: Color)
    requires |fills| == |tags| && i < |played|
    ensures Recolor(fills, tags, played[..i + 1], color) ==
      match FirstMatch(tags, KeyOf(played[i]))
      case None => Recolor(fills, tags, played[..i], color)
      case Some(m) => Recolor(fills, tags, played[..i], color)[m := color]
  {
    assert played[..i + 1][..i] == played[..i];
  }

  /** Position `i` is the first match of some played note. */
  ghost predicate Hit(tags: seq<Option<Note>>, played: seq<Note>, i: nat)
  {
    exists j :: 0 <= j < |played| && FirstMatch(tags, KeyOf(played[j])) == Some(i)
  }

  /** After recolouring, a rectangle has the new colour exactly when it is the first match of a played note. */
  lemma {:induction false} RecolorAt(fills: seq<Color>, tags: seq<Option<Note>>, played: seq<Note>, color: Color, i: nat)
    requires |fills| == |tags| && i < |fills|
    ensures Recolor(fills, tags, played, color)[i] == if Hit(tags, played, i) then color else fills[i]
  {
    if played != [] {
      var init := played[..|played| - 1];
      RecolorAt(fills, tags, init, color, i);
      if Hit(tags, init, i) {
        var j :| 0 <= j < |init| && FirstMatch(tags, KeyOf(init[j])) == Some(i);
        assert played[j] == init[j];
      }
      if Hit(tags, played, i) {
        var j :| 0 <= j < |played| && FirstMatch(tags, KeyOf(played[j])) == Some(i);
        if j < |init| {
          assert init[j] == played[j];
        }
      }
    }
  }

  /** When no played note matches any tag, recolouring changes nothing. */
  lemma RecolorWithoutMatch(fills: seq<Color>, tags: seq<Option<Note>>, played: seq<Note>, color: Color)
    requires |fills| == |tags|
    requires forall j, i :: 0 <= j < |played| && 0 <= i < |tags| ==> !Matches(tags[i], KeyOf(played[j]))
    ensures Recolor(fills, tags, played, color) == fills
  {
    forall i | 0 <= i < |fills| ensures Recolor(fills, tags, played, color)[i] == fills[i] {
      RecolorAt(fills, tags, played, color, i);
      forall j | 0 <= j < |played| ensures FirstMatch(tags, KeyOf(played[j])).None? {
      }
    }
  }

  /** One played note recolours its first match, if there is one, and nothing else. */
  lemma RecolorOne(fills: seq<Color>, tags: seq<Option<Note>>, played: Note, color: Color)
    requires |fills| == |tags|
    ensures Recolor(fills, tags, [played], color) ==
      match FirstMatch(tags, KeyOf(played))
      case None => fills
      case Some(i) => fills[i := color]
  {
    assert [played][..0] == [];
  }

  /** On rectangles all of one colour, one played note leaves exactly its first match in the new colour. */
  lemma RecolorUniform(fills: seq<Color>, tags: seq<Option<Note>>, played: Note, color: Color, normal: Color)
    requires |fills| == |tags| && forall i :: 0 <= i < |fills| ==> fills[i] == normal
    ensures forall i :: 0 <= i < |fills| ==>
      Recolor(fills, tags, [played], color)[i] == if FirstMatch(tags, KeyOf(played)) == Some(i) then color else normal
  {
    RecolorOne(fills, tags, played, color);
  }

  /** The tags the drawing loop gives the rectangles of `notes`. */
  function NoteTags(notes: seq<Note>): (tags: seq<Option<Note>>)
    ensures |tags| == |notes| && forall i :: 0 <= i < |notes| ==> tags[i] == Some(notes[i])
  {
    seq(|notes|, i requires 0 <= i < |notes| => Some(notes[i]))
  }

  /**
   * For a key of the list, the window's search finds the FIRST note with that key and the
   * renderer's index holds the LAST; the two agree exactly when the key occurs once.
   */
  lemma FirstMatchVersusIndex(notes: seq<Note>, k: NoteKey)
    requires k in KeySet(notes)
    ensures FirstMatch(NoteTags(notes), k).Some?
    ensures FirstMatch(NoteTags(notes), k).value <= Renderer.IndexPositions(notes)[k]
    ensures FirstMatch(NoteTags(notes), k).value == Renderer.IndexPositions(notes)[k] <==>
      forall i, j :: 0 <= i < j < |notes| && KeyOf(notes[i]) == k ==> KeyOf(notes[j]) != k
  {
    var tags := NoteTags(notes);
    var last := Renderer.IndexPositions(notes)[k];
    assert Renderer.LastWithKey(notes, k, last);
    assert Matches(tags[last], k);
    var first := FirstMatch(tags, k).value;
    assert KeyOf(notes[first]) == k;
    if first == last {
      forall i, j | 0 <= i < j < |notes| && KeyOf(notes[i]) == k ensures KeyOf(notes[j]) != k {
        assert Matches(tags[i], k);
      }
    } else {
      assert first < last && KeyOf(notes[last]) == k;
    }
  }

  /** Recolouring one of a list of distinct rectangles changes the fills at its position only. */
  lemma FillsAfterRecolor(children: seq<Rectangle>, fills: seq<Color>, m: nat, color: Color)
    requires |fills| == |children| && m < |children| && children[m].fill == color
    requires forall j :: 0 <= j < |children| && j != m ==> children[j].fill == fills[j]
    ensures Fills(children) == fills[m := color]
  {
  }

  /** The drawing loop of DrawPianoRoll: one rectangle per note appended to the emptied canvas; the result is the latest end tick. */
  method DrawNoteRectangles(canvas: Canvas, notes: seq<Note>, normalNoteColor: Color) returns (maxTime: nat)
    requires canvas.children == []
    modifies canvas
    ensures canvas.background == old(canvas.background)
    ensures DrawsNotes(canvas.children, notes, normalNoteColor)
    ensures forall j :: 0 <= j < |canvas.children| ==> fresh(canvas.children[j])
    ensures maxTime == MaxEnd(notes)
  {
    maxTime := 0;
    var i := 0;
    while i < |notes|
      invariant 0 <= i <= |notes|
      invariant canvas.background == old(canvas.background)
      invariant DrawsNotes(canvas.children, notes[..i], normalNoteColor)
      invariant forall j :: 0 <= j < |canvas.children| ==> fresh(canvas.children[j])
      invariant maxTime == MaxEnd(notes[..i])
    {
      var note := notes[i];
      var noteRectangle := AppendNoteRectangle(canvas, notes, i, normalNoteColor);
      var noteEndTime := note.time + note.length;
      MaxEndStep(notes, i);
      if noteEndTime > maxTime {
        maxTime := noteEndTime;
      }
      i := i + 1;
    }
    assert notes[..i] == notes;
  }

  /** The playback object of the window: none, or a session that is running or stopped. */
  datatype PlaybackHandle = NoPlayback | Playback(running: bool)

  /** What choosing a file produced: a cancelled dialog, a failed load, or the loaded notes. */
  datatype FileChoice = Cancelled | LoadFailed | Loaded(notes: seq<Note>)

  /** The sender of a colour selection change. */
  datatype ColorSender = NotAComboBox | BackgroundBox | NormalNoteBox | PlayingNoteBox | OtherComboBox

  class MainWindow {
    /** pianoRollCanvas */
    const canvas: Canvas
    /** The notes of the loaded file; a null list is the empty list here. */
    var notes: seq<Note>
    /** A MIDI file is loaded. */
    var fileLoaded: bool
    /** An output device was found at start-up. */
    const deviceAvailable: bool
    var playback: PlaybackHandle
    var playEnabled: bool
    var stopEnabled: bool
    var backgroundColor: Color
    var normalNoteColor: Color
    var playingNoteColor: Color

    /**
     * The canvas holds distinct rectangles, and Stop is enabled only while a session this
     * window started is running, and then Play is disabled.
     */
    ghost predicate Valid()
      reads this, canvas
    {
      && Distinct(canvas.children)
      && (stopEnabled ==> !playEnabled && playback == Playback(true))
    }

    /** The window after start-up, with the default colours and both buttons disabled. */
    constructor (deviceAvailable: bool)
      ensures Valid() && fresh(canvas) && canvas.children == []
      ensures this.deviceAvailable == deviceAvailable
      ensures notes == [] && !fileLoaded && playback == NoPlayback && !playEnabled && !stopEnabled
      ensures backgroundColor == Black && normalNoteColor == DodgerBlue && playingNoteColor == Yellow
    {
      canvas := new Canvas(Black);
      notes := [];
      fileLoaded := false;
      this.deviceAvailable := deviceAvailable;
      playback := NoPlayback;
      playEnabled := false;
      stopEnabled := false;
      backgroundColor := Black;
      normalNoteColor := DodgerBlue;
      playingNoteColor := Yellow;
    }

    /**
     * Loading a file: a cancelled dialog changes nothing; a failed load clears the data and the
     * canvas and disables both buttons; a successful load enables Play exactly when a file and a
     * device are present, disables Stop and draws the notes.
     */
    method SelectFileButtonClick(choice: FileChoice)
      requires Valid()
      modifies this, canvas
      ensures Valid()
      ensures choice.Cancelled? ==> unchanged(this) && unchanged(canvas)
      ensures choice.LoadFailed? ==>
        && notes == [] && !fileLoaded && !playEnabled && !stopEnabled
        && canvas.children == [] && canvas.width == 0.0 && canvas.height == 0.0
        && canvas.background == old(canvas.background)
      ensures choice.Loaded? ==>
        && notes == choice.notes && fileLoaded && !stopEnabled
        && playEnabled == deviceAvailable
        && canvas.background == backgroundColor
        && ShowsNotes(canvas, notes, normalNoteColor)
        && (forall i :: 0 <= i < |canvas.children| ==> fresh(canvas.children[i]))
      ensures playback == old(playback)
      ensures backgroundColor == old(backgroundColor) && normalNoteColor == old(normalNoteColor)
      ensures playingNoteColor == old(playingNoteColor)
    {
      match choice
      case Cancelled =>
        return;
      case LoadFailed =>
        notes := [];
        fileLoaded := false;
        canvas.children := [];
        canvas.width := 0.0;
        canvas.height := 0.0;
        playEnabled := false;
        stopEnabled := false;
      case Loaded(loaded) =>
        notes := loaded;
        fileLoaded := true;
        if fileLoaded && deviceAvailable {
          playEnabled := true;
          stopEnabled := false;
        } else {
          playEnabled := false;
          stopEnabled := false;
        }
        DrawPianoRoll();
    }

    /**
     * Clears the canvas and draws one fresh rectangle per note, with the renderer's geometry and
     * the normal-note colour, sizing the canvas to the notes (0 by 0 for no notes).
     */
    method DrawPianoRoll()
      requires Valid()
      modifies canvas
      ensures Valid()
      ensures canvas.background == backgroundColor
      ensures ShowsNotes(canvas, notes, normalNoteColor)
      ensures forall i :: 0 <= i < |canvas.children| ==> fresh(canvas.children[i])
    {
      canvas.children := [];
      canvas.background := backgroundColor;
      if |notes| == 0 {
        canvas.width := 0.0;
        canvas.height := 0.0;
        return;
      }
      var maxTime := DrawNoteRectangles(canvas, notes, normalNoteColor);
      canvas.height := TotalNoteRangeHeight;
      canvas.width := maxTime as real * TimeScale + LeftPadding + RightPadding;
    }

    /**
     * Play: without a file or a device nothing changes; otherwise the previous session is
     * replaced, and a successful start disables Play and enables Stop while a failed start
     * enables Play, disables Stop and drops the session.
     */
    method PlayButtonClick(startFails: bool)
      requires Valid()
      modifies `playback, `playEnabled, `stopEnabled
      ensures Valid()
      ensures !(fileLoaded && deviceAvailable) ==>
        playback == old(playback) && playEnabled == old(playEnabled) && stopEnabled == old(stopEnabled)
      ensures fileLoaded && deviceAvailable && !startFails ==>
        playback == Playback(true) && !playEnabled && stopEnabled
      ensures fileLoaded && deviceAvailable && startFails ==>
        playback == NoPlayback && playEnabled && !stopEnabled
    {
      if !fileLoaded || !deviceAvailable {
        return;
      }
      if startFails {
        playEnabled := true;
        stopEnabled := false;
        playback := NoPlayback;
      } else {
        playback := Playback(true);
        playEnabled := false;
        stopEnabled := true;
      }
    }

    /** Playback finished: Play on, Stop off, session dropped. */
    method PlaybackFinished()
      requires Valid()
      modifies `playback, `playEnabled, `stopEnabled
      ensures Valid()
      ensures playEnabled && !stopEnabled && playback == NoPlayback
    {
      playEnabled := true;
      stopEnabled := false;
      playback := NoPlayback;
    }

    /** Stop acts only on a running session: it stops it, enables Play and disables Stop. */
    method StopButtonClick()
      requires Valid()
      modifies `playback, `playEnabled, `stopEnabled
      ensures Valid()
      ensures old(playback) == Playback(true) ==> playback == Playback(false) && playEnabled && !stopEnabled
      ensures old(playback) != Playback(true) ==>
        playback == old(playback) && playEnabled == old(playEnabled) && stopEnabled == old(stopEnabled)
    {
      if playback.Playback? && playback.running {
        playback := Playback(false);
        playEnabled := true;
        stopEnabled := false;
      }
    }

    /** The first rectangle in canvas order whose tagged note has the key, or null. */
    method FindFirstMatch(key: NoteKey) returns (target: Rectangle?)
      ensures match FirstMatch(Tags(canvas.children), key)
        case None => target == null
        case Some(i) => target == canvas.children[i]
    {
      var i := 0;
      while i < |canvas.children|
        invariant 0 <= i <= |canvas.children|
        invariant forall j :: 0 <= j < i ==> !Matches(canvas.children[j].tag, key)
      {
        var rect := canvas.children[i];
        if Matches(rect.tag, key) {
          return rect;
        }
        i := i + 1;
      }
      return null;
    }

    /** The assignment to the found rectangle's Fill: the fills change at its position only. */
    method Repaint(target: Rectangle, ghost m: nat, color: Color)
      requires Valid() && m < |canvas.children| && canvas.children[m] == target
      modifies target`fill
      ensures Fills(canvas.children) == old(Fills(canvas.children))[m := color]
    {
      ghost var fills := Fills(canvas.children);
      target.fill := color;
      FillsAfterRecolor(canvas.children, fills, m, color);
    }

    /** One pass of the handlers' loop: the first rectangle matching the note's key, if any, takes `color`. */
    method RecolorNote(note: Note, color: Color)
      requires Valid()
      modifies canvas.children`fill
      ensures Fills(canvas.children) ==
        match FirstMatch(Tags(canvas.children), KeyOf(note))
        case None => old(Fills(canvas.children))
        case Some(m) => old(Fills(canvas.children))[m := color]
    {
      var target := FindFirstMatch(KeyOf(note));
      if target != null {
        ghost var m := FirstMatch(Tags(canvas.children), KeyOf(note)).value;
        Repaint(target, m, color);
      }
    }

    /** For each played note in turn, gives the first matching rectangle `color`. */
    method RecolorFirstMatches(played: seq<Note>, color: Color)
      requires Valid()
      modifies canvas.children`fill
      ensures Fills(canvas.children) == Recolor(old(Fills(canvas.children)), Tags(canvas.children), played, color)
    {
      ghost var before := Fills(canvas.children);
      ghost var tags := Tags(canvas.children);
      var i := 0;
      while i < |played|
        invariant 0 <= i <= |played|
        invariant Valid() && Tags(canvas.children) == tags
        invariant Fills(canvas.children) == Recolor(before, tags, played[..i], color)
      {
        RecolorNote(played[i], color);
        RecolorStep(before, tags, played, i, color);
        i := i + 1;
      }
      assert played[..i] == played;
    }

    /** Notes started: each played note's first matching rectangle takes the playing colour. */
    method NotesPlaybackStarted(played: seq<Note>)
      requires Valid()
      modifies canvas.children`fill
      ensures Fills(canvas.children) == Recolor(old(Fills(canvas.children)), Tags(canvas.children), played, playingNoteColor)
    {
      if |played| == 0 {
        return;
      }
      RecolorFirstMatches(played, playingNoteColor);
    }

    /** Notes finished: each finished note's first matching rectangle takes the normal colour again. */
    method NotesPlaybackFinished(played: seq<Note>)
      requires Valid()
      modifies canvas.children`fill
      ensures Fills(canvas.children) == Recolor(old(Fills(canvas.children)), Tags(canvas.children), played, normalNoteColor)
    {
      if |played| == 0 {
        return;
      }
      RecolorFirstMatches(played, normalNoteColor);
    }

    /** Every rectangle tagged with a note takes the normal colour; untagged ones keep theirs. */
    method ResetNoteColors()
      requires Valid()
      modifies canvas.children`fill
      ensures forall i :: 0 <= i < |canvas.children| ==>
        canvas.children[i].fill == if canvas.children[i].tag.Some? then normalNoteColor else old(canvas.children[i].fill)
    {
      var i := 0;
      while i < |canvas.children|
        invariant 0 <= i <= |canvas.children|
        invariant forall j :: 0 <= j < i ==>
          canvas.children[j].fill == if canvas.children[j].tag.Some? then normalNoteColor else old(canvas.children[j].fill)
        invariant forall j :: i <= j < |canvas.children| ==> canvas.children[j].fill == old(canvas.children[j].fill)
      {
        var child := canvas.children[i];
        if child.tag.Some? && child.fill != normalNoteColor {
          child.fill := normalNoteColor;
        }
        i := i + 1;
      }
    }

    /**
     * A colour chosen in one of the three boxes: the background repaints the canvas background,
     * the normal-note colour redraws every rectangle in it, the playing colour touches no
     * rectangle. No sender or no selection changes nothing.
     */
    method ColorComboBoxSelectionChanged(sender: ColorSender, selected: Option<Color>)
      requires Valid()
      modifies this, canvas
      ensures Valid()
      ensures sender.NotAComboBox? || selected.None? || sender.OtherComboBox? ==> unchanged(this) && unchanged(canvas)
      ensures sender.BackgroundBox? && selected.Some? ==>
        && backgroundColor == selected.value && canvas.background == selected.value
        && canvas.children == old(canvas.children)
        && canvas.width == old(canvas.width) && canvas.height == old(canvas.height)
        && normalNoteColor == old(normalNoteColor) && playingNoteColor == old(playingNoteColor)
      ensures sender.NormalNoteBox? && selected.Some? ==>
        && normalNoteColor == selected.value
        && canvas.background == backgroundColor
        && ShowsNotes(canvas, notes, selected.value)
        && (forall i :: 0 <= i < |canvas.children| ==> fresh(canvas.children[i]))
        && backgroundColor == old(backgroundColor) && playingNoteColor == old(playingNoteColor)
      ensures sender.PlayingNoteBox? && selected.Some? ==>
        && playingNoteColor == selected.value && unchanged(canvas)
        && backgroundColor == old(backgroundColor) && normalNoteColor == old(normalNoteColor)
      ensures notes == old(notes) && fileLoaded == old(fileLoaded) && playback == old(playback)
      ensures playEnabled == old(playEnabled) && stopEnabled == old(stopEnabled)
    {
      if sender.NotAComboBox? || selected.None? {
        return;
      }
      var selectedColor := selected.value;
      match sender
      case BackgroundBox =>
        backgroundColor := selectedColor;
        canvas.background := backgroundColor;
      case NormalNoteBox =>
        normalNoteColor := selectedColor;
        DrawPianoRoll();
      case PlayingNoteBox =>
        playingNoteColor := selectedColor;
      case OtherComboBox =>
    }
  }

  /** A window started up and then given `notes` through the file button: every rectangle drawn in the default normal colour. */
  method LoadedWindow(deviceAvailable: bool, notes: seq<Note>) returns (window: MainWindow)
    ensures fresh(window) && fresh(window.canvas) && window.Valid()
    ensures window.deviceAvailable == deviceAvailable && window.fileLoaded && window.notes == notes
    ensures window.playback == NoPlayback && window.playEnabled == deviceAvailable && !window.stopEnabled
    ensures window.normalNoteColor == DodgerBlue && window.playingNoteColor == Yellow
    ensures Tags(window.canvas.children) == NoteTags(notes)
    ensures forall i :: 0 <= i < |window.canvas.children| ==>
      fresh(window.canvas.children[i]) && window.canvas.children[i].fill == DodgerBlue
  {
    window := new MainWindow(deviceAvailable);
    window.SelectFileButtonClick(Loaded(notes));
    assert Tags(window.canvas.children) == NoteTags(notes);
  }

  /**
   * Loading a file and then one notes-started event for `played`: exactly the FIRST rectangle
   * whose note has the played key takes the playing colour; all others keep the normal colour.
   */
  method HighlightAfterLoad(notes: seq<Note>, played: Note) returns (fills: seq<Color>)
    ensures |fills| == |notes|
    ensures forall i :: 0 <= i < |notes| ==>
      fills[i] == if FirstMatch(NoteTags(notes), KeyOf(played)) == Some(i) then Yellow else DodgerBlue
  {
    var window := LoadedWindow(true, notes);
    ghost var tags := Tags(window.canvas.children);
    ghost var drawn := Fills(window.canvas.children);
    window.NotesPlaybackStarted([played]);
    fills := Fills(window.canvas.children);
    assert fills == Recolor(drawn, tags, [played], Yellow);
    RecolorUniform(drawn, tags, played, Yellow, DodgerBlue);
  }

  /** Two notes with key (60, 0): the window highlights the first, where the renderer's index reaches the second. */
  method DuplicateKeyFirstMatchScenario() returns (fills: seq<Color>)
    ensures fills == [Yellow, DodgerBlue]
  {
    var first := Note(60, 0, 480, 100);
    var second := Note(60, 0, 240, 90);
    var notes := [first, second];
    assert Matches(NoteTags(notes)[0], KeyOf(second));
    fills := HighlightAfterLoad(notes, second);
  }

  /**
   * The buttons through load, play, stop, play and finish with a device present, and through a
   * load and a play without one: (Play enabled, Stop enabled) after each step.
   */
  method ButtonSequence(notes: seq<Note>) returns (withDevice: seq<(bool, bool)>, withoutDevice: seq<(bool, bool)>)
    ensures withDevice == [(true, false), (false, true), (true, false), (false, true), (true, false)]
    ensures withoutDevice == [(false, false), (false, false)]
  {
    var window := LoadedWindow(true, notes);
    withDevice := [(window.playEnabled, window.stopEnabled)];
    window.PlayButtonClick(false);
    withDevice := withDevice + [(window.playEnabled, window.stopEnabled)];
    window.StopButtonClick();
    withDevice := withDevice + [(window.playEnabled, window.stopEnabled)];
    window.PlayButtonClick(false);
    withDevice := withDevice + [(window.playEnabled, window.stopEnabled)];
    window.PlaybackFinished();
    withDevice := withDevice + [(window.playEnabled, window.stopEnabled)];

    var silent := LoadedWindow(false, notes);
    withoutDevice := [(silent.playEnabled, silent.stopEnabled)];
    silent.PlayButtonClick(false);
    withoutDevice := withoutDevice + [(silent.playEnabled, silent.stopEnabled)];
  }

}
