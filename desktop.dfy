/** The application shell: a desktop holding the open sub-windows in order, the
    menu actions that add windows or save the layout, and the two-prompt exit
    workflow that optionally saves every window and then disposes the shell. */
module Desktop {
  import opened Titles
  import opened Persistence

  /** Distance of the main frame from each screen edge. */
  const Indent := 50

  /** Title of the game window. */
  const GameTitle := "Игровое поле"

  /** An answer to a confirmation dialog; Closed is the dialog closed without one. */
  datatype Answer = Yes | No | Cancel | Closed

  /** What exitApplication does: nothing, or dispose after an optional save. */
  datatype ExitOutcome = Stay | Close(save: bool)

  /** The exit decision: any first answer but "yes" keeps the application open;
      after a first "yes" the shell is always disposed, and it saves only when the
      second answer is "yes" too (cancelling the save prompt does not abort). */
  function ExitDecision(confirmation: Answer, saveConfirmation: Answer): (d: ExitOutcome)
    ensures d.Close? <==> confirmation == Yes
    ensures d == Close(true) <==> confirmation == Yes && saveConfirmation == Yes
    ensures d == Close(false) <==> confirmation == Yes && saveConfirmation != Yes
  {
    if confirmation == Yes then Close(saveConfirmation == Yes) else Stay
  }

  /** One window's contribution to a save: its normalised title and bounds. */
  datatype Record = Record(key: string, bounds: Bounds)

  /** The records of the frames, in desktop order. */
  function Records(ws: seq<Window>): seq<Record>
    reads ws
  {
    seq(|ws|, i reads ws requires 0 <= i < |ws| => Record(ws[i].Key(), ws[i].bounds))
  }

  /** Every key written by saving the records. */
  function AllKeys(rs: seq<Record>): set<string> {
    if rs == [] then {} else AllKeys(rs[..|rs| - 1]) + RecordKeys(rs[|rs| - 1].key)
  }

  /** The table after saving each record in turn, in order. */
  function SaveAll(m: map<string, int>, rs: seq<Record>): (r: map<string, int>)
    ensures r.Keys == m.Keys + AllKeys(rs)
    ensures forall k :: k in m && k !in AllKeys(rs) ==> r[k] == m[k]
  {
    if rs == [] then m
    else
      var last := rs[|rs| - 1];
      Saved(SaveAll(m, rs[..|rs| - 1]), last.key, last.bounds)
  }

  /** After saving all windows, each window whose normalised title no later window
      shares loads back its own bounds (unless they hold the sentinel). */
  lemma {:induction false} SaveAllLastWriter(m: map<string, int>, rs: seq<Record>, i: nat)
    requires i < |rs|
    requires forall j :: i < j < |rs| ==> rs[j].key != rs[i].key
    ensures Lookup(SaveAll(m, rs), rs[i].key) == Restorable(rs[i].bounds)
  {
    var init, last := rs[..|rs| - 1], rs[|rs| - 1];
    if i == |rs| - 1 {
      RoundTrip(SaveAll(m, init), last.key, last.bounds);
    } else {
      SaveAllLastWriter(m, init, i);
      SavedElsewhere(SaveAll(m, init), last.key, last.bounds, rs[i].key);
    }
  }

  /** Saving all windows leaves what any other normalised title loads unchanged. */
  lemma {:induction false} SaveAllElsewhere(m: map<string, int>, rs: seq<Record>, key: string)
    requires forall j :: 0 <= j < |rs| ==> rs[j].key != key
    ensures Lookup(SaveAll(m, rs), key) == Lookup(m, key)
  {
    if rs != [] {
      var init, last := rs[..|rs| - 1], rs[|rs| - 1];
      SaveAllElsewhere(m, init, key);
      SavedElsewhere(SaveAll(m, init), last.key, last.bounds, key);
    }
  }

  /** Saving two windows with different normalised titles into an empty table
      leaves exactly eight entries, from which each window's bounds load back. */
  lemma SaveTwoWindows(k1: string, b1: Bounds, k2: string, b2: Bounds)
    requires k1 != k2
    ensures |SaveAll(map[], [Record(k1, b1), Record(k2, b2)])| == 8
    ensures Lookup(SaveAll(map[], [Record(k1, b1), Record(k2, b2)]), k1) == Restorable(b1)
    ensures Lookup(SaveAll(map[], [Record(k1, b1), Record(k2, b2)]), k2) == Restorable(b2)
  {
    var rs := [Record(k1, b1), Record(k2, b2)];
    assert rs[..1] == [Record(k1, b1)] && rs[..1][..0] == [];
    assert AllKeys(rs[..1]) == RecordKeys(k1);
    assert AllKeys(rs) == RecordKeys(k1) + RecordKeys(k2);
    RecordKeysCount(k1);
    RecordKeysCount(k2);
    RecordKeysDisjoint(k1, k2);
    SaveAllLastWriter(map[], rs, 0);
    SaveAllLastWriter(map[], rs, 1);
  }

  /** callCloseDialog with putInt's argument check: the saves in desktop order,
      where the first save that fails ends the loop with its exception. It
      completes exactly when every record is storable (and then it is SaveAll,
      TrySaveAllComplete). */
  function TrySaveAll(m: map<string, int>, rs: seq<Record>): (o: SaveOutcome)
    ensures o.ok <==> forall i :: 0 <= i < |rs| ==> Storable(rs[i].key)
  {
    if rs == [] then SaveOutcome(true, m)
    else
      var init, last := rs[..|rs| - 1], rs[|rs| - 1];
      var o := TrySaveAll(m, init);
      assert forall i :: 0 <= i < |init| ==> init[i] == rs[i];
      if !o.ok then o else TrySave(o.table, last.key, last.bounds)
  }

  /** A save of all records that completes leaves the table SaveAll describes. */
  lemma {:induction false} TrySaveAllComplete(m: map<string, int>, rs: seq<Record>)
    requires TrySaveAll(m, rs).ok
    ensures TrySaveAll(m, rs).table == SaveAll(m, rs)
  {
    if rs != [] {
      TrySaveAllComplete(m, rs[..|rs| - 1]);
    }
  }

  /** Once a save has failed, the records after it change nothing. */
  lemma {:induction false} FailureStops(m: map<string, int>, rs: seq<Record>, i: nat)
    requires i <= |rs| && !TrySaveAll(m, rs[..i]).ok
    ensures TrySaveAll(m, rs) == TrySaveAll(m, rs[..i])
    decreases |rs|
  {
    if i < |rs| {
      var init := rs[..|rs| - 1];
      assert init[..i] == rs[..i];
      FailureStops(m, init, i);
    } else {
      assert rs[..i] == rs;
    }
  }

  /** When record j is the first one that cannot be stored, the records before it
      are saved completely, record j only as far as its accepted keys go, and none
      after it. */
  lemma FirstFailure(m: map<string, int>, rs: seq<Record>, j: nat)
    requires j < |rs| && !Storable(rs[j].key)
    requires forall i :: 0 <= i < j ==> Storable(rs[i].key)
    ensures TrySaveAll(m, rs) == TrySave(SaveAll(m, rs[..j]), rs[j].key, rs[j].bounds)
  {
    var pre := rs[..j + 1];
    assert pre[..|pre| - 1] == rs[..j] && pre[|pre| - 1] == rs[j];
    assert TrySaveAll(m, rs[..j]).ok by {
      assert forall i :: 0 <= i < j ==> rs[..j][i] == rs[i];
    }
    TrySaveAllComplete(m, rs[..j]);
    FailureStops(m, rs, j + 1);
  }

  /** The main frame (MainApplicationFrame). */
  class MainFrame {
    const prefs: Preferences
    /** Title of the log window, which the log window's own class supplies; that
        class is not part of this model, and a log window is taken to start like
        any internal frame, at the origin. */
    const logTitle: string
    var bounds: Bounds
    /** The desktop pane's frames, front-most first, the order getAllFrames lists
        them in. */
    var frames: seq<Window>
    var disposed: bool

    /** No window is on the desktop twice. */
    ghost predicate Valid()
      reads this
    {
      forall i, j :: 0 <= i < j < |frames| ==> frames[i] != frames[j]
    }

    /** The shell is inset by Indent from every screen edge; the desktop starts with
        the game window in front of the log window, each restored from the table
        when all four of its entries are stored, otherwise at its default size. */
    constructor (screenWidth: int, screenHeight: int, prefs: Preferences, logTitle: string)
      ensures Valid() && this.prefs == prefs && this.logTitle == logTitle && !disposed
      ensures bounds == Bounds(50, 50, screenWidth - 100, screenHeight - 100)
      ensures |frames| == 2 && fresh(frames[0]) && fresh(frames[1])
      ensures frames[0].title == GameTitle && frames[1].title == logTitle
      ensures frames[0].bounds == Restored(Bounds(0, 0, 400, 400), Lookup(prefs.entries, FormatTitle(GameTitle)))
      ensures frames[1].bounds == Restored(Bounds(0, 0, 300, 800), Lookup(prefs.entries, FormatTitle(logTitle)))
      ensures frames[0].visible && frames[1].visible
      ensures prefs.entries == old(prefs.entries)
    {
      this.prefs := prefs;
      this.logTitle := logTitle;
      var indent := Indent;
      bounds := Bounds(indent, indent, screenWidth - indent * 2, screenHeight - indent * 2);
      frames := [];
      disposed := false;
      new;
      CreateDesktopPane();
    }

    /** createDesktopPane: a new desktop with the two initial windows, then every
        frame on it loads its stored geometry. */
    method CreateDesktopPane()
      modifies this`frames
      ensures Valid()
      ensures |frames| == 2 && fresh(frames[0]) && fresh(frames[1])
      ensures frames[0].title == GameTitle && frames[1].title == logTitle
      ensures frames[0].bounds == Restored(Bounds(0, 0, 400, 400), Lookup(prefs.entries, FormatTitle(GameTitle)))
      ensures frames[1].bounds == Restored(Bounds(0, 0, 300, 800), Lookup(prefs.entries, FormatTitle(logTitle)))
      ensures frames[0].visible && frames[1].visible
    {
      frames := [];
      var logWindow := new Window(logTitle);
      AddWindow(logWindow, 300, 800);
      var gameWindow := new Window(GameTitle);
      AddWindow(gameWindow, 400, 400);
      ghost var before := [gameWindow.bounds, logWindow.bounds];
      assert frames == [gameWindow, logWindow];
      for i := 0 to |frames|
        invariant frames == [gameWindow, logWindow]
        invariant forall j :: 0 <= j < i ==>
          frames[j].bounds == Restored(before[j], Lookup(prefs.entries, frames[j].Key()))
        invariant forall j :: i <= j < |frames| ==> frames[j].bounds == before[j]
        invariant logWindow.visible && gameWindow.visible
      {
        frames[i].LoadWindow(prefs);
      }
    }

    /** addWindow: the frame joins the desktop, sized and shown; showing a new
        internal frame brings it to the front. The frames already there are
        untouched and keep their order behind it. */
    method AddWindow(frame: Window, width: int, height: int)
      requires Valid() && frame !in frames
      modifies this`frames, frame
      ensures Valid() && frames == [frame] + old(frames)
      ensures frame.bounds == old(frame.bounds).(width := width, height := height)
      ensures frame.visible
    {
      frames := frames + [frame];
      frame.SetSize(width, height);
      frame.SetVisible(true);
      frames := [frame] + frames[..|frames| - 1];
    }

    /** The "new game window" menu action: one more game window, 400 by 400, in
        front. */
    method NewGameWindow()
      requires Valid()
      modifies this`frames
      ensures Valid() && |frames| == |old(frames)| + 1 && frames[1..] == old(frames)
      ensures fresh(frames[0])
      ensures frames[0].title == GameTitle
      ensures frames[0].bounds == Bounds(0, 0, 400, 400)
      ensures frames[0].visible
    {
      var window := new Window(GameTitle);
      AddWindow(window, 400, 400);
    }

    /** The "log window" menu action: one more log window, 150 by 350, in front. */
    method NewLogWindow()
      requires Valid()
      modifies this`frames
      ensures Valid() && |frames| == |old(frames)| + 1 && frames[1..] == old(frames)
      ensures fresh(frames[0])
      ensures frames[0].title == logTitle
      ensures frames[0].bounds == Bounds(0, 0, 150, 350)
      ensures frames[0].visible
    {
      var window := new Window(logTitle);
      AddWindow(window, 150, 350);
    }

    /** callCloseDialog: saveWindow on every frame, in desktop order; ok is false
        when a save throws, which ends the loop. */
    method CallCloseDialog() returns (ok: bool)
      modifies prefs
      ensures SaveOutcome(ok, prefs.entries) == TrySaveAll(old(prefs.entries), Records(frames))
    {
      ghost var rs := Records(frames);
      ok := true;
      var i := 0;
      while i < |frames| && ok
        invariant 0 <= i <= |frames|
        invariant SaveOutcome(ok, prefs.entries) == TrySaveAll(old(prefs.entries), rs[..i])
      {
        ok := frames[i].SaveWindow(prefs);
        assert rs[..i + 1][..i] == rs[..i];
        i := i + 1;
      }
      if ok {
        assert rs[..i] == rs;
      } else {
        FailureStops(old(prefs.entries), rs, i);
      }
    }

    /** The "save" menu action: persist every frame, and keep the application open. */
    method SaveLayout() returns (ok: bool)
      modifies prefs
      ensures SaveOutcome(ok, prefs.entries) == TrySaveAll(old(prefs.entries), Records(frames))
      ensures disposed == old(disposed)
    {
      ok := CallCloseDialog();
    }

    /** dispose: the main frame is released. */
    method Dispose()
      modifies this`disposed
      ensures disposed
    {
      disposed := true;
    }

    /** exitApplication, given the answers to the exit prompt and the save prompt
        (the second is asked only after a "yes" to the first). A save that throws
        ends exitApplication before dispose. */
    method ExitApplication(confirmation: Answer, saveConfirmation: Answer)
      modifies prefs, this`disposed
      ensures ExitDecision(confirmation, saveConfirmation) == Close(true) ==>
                prefs.entries == TrySaveAll(old(prefs.entries), Records(frames)).table
      ensures ExitDecision(confirmation, saveConfirmation) != Close(true) ==>
                prefs.entries == old(prefs.entries)
      ensures disposed == (old(disposed) ||
                ExitDecision(confirmation, saveConfirmation) == Close(false) ||
                (ExitDecision(confirmation, saveConfirmation) == Close(true) &&
                 TrySaveAll(old(prefs.entries), Records(frames)).ok))
    {
      if confirmation == Yes {
        if saveConfirmation == Yes {
          var ok := CallCloseDialog();
          if !ok {
            return;
          }
        }
        Dispose();
      }
    }
  }
}
