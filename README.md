# Robots desktop: window-geometry persistence, exit workflow, robot observer

A Dafny model of the core of the Robots Swing desktop application:

- **Title-keyed geometry persistence** (`AbstractWindow`). Every sub-window stores
  its x, y, width and height in the application's preferences node. The four keys are
  a field prefix (`POSITION_X`, `POSITION_Y`, `SIZE_WIDTH`, `SIZE_HEIGHT`) followed by
  the window's normalised title. A title is normalised by upper-casing it and
  replacing each run of spaces by one `_`. Loading reads the four keys with `-1` as
  the default. It applies them only when none of the four reads is `-1`.
- **The main frame** (`MainApplicationFrame`). It holds an ordered desktop of
  sub-windows and creates a log window and a game window. It restores their
  geometry, offers menu actions that add windows or save the layout, and runs a
  two-prompt exit workflow: exit yes/no, then save yes/no/cancel.
- **The robot observer** (`CoordinatsWindow`). A window registers with a robot. It
  refreshes its text from the robot's current state when that robot reports
  `"robot moved"`.

Modules:

- `Titles` (titles.dfy) models `formatTitle`.
- `Persistence` (persistence.dfy) models the key layout and the preferences node. The
  node is a class `Preferences` over a `map<string, int>`. A sub-window is a class
  `Window` with a fixed title and mutable bounds. The module also has the
  specification functions `Saved` (the table after one complete save), `TrySave` (one
  save including putInt's key check) and `Lookup` (what one load finds).
- `Desktop` (desktop.dfy) models the main frame as a class `MainFrame`. Its desktop
  is a `seq<Window>`, front-most first. `SaveAll` is the table after saving a sequence
  of windows in order, `TrySaveAll` the same loop stopped by the first failing save,
  and `ExitDecision` is the exit workflow's decision table.
- `RobotObserver` (robot_observer.dfy) models the robot as a class `Robot` with an
  observer set and its reported state, and the window as a class `CoordinatsWindow`.

Two behaviours of the exit workflow and the observer are worth stating plainly:

- Answering "cancel" (or closing the dialog) at the save prompt still disposes the
  main frame. Only "yes" saves.
- The observer checks both the sender (with `equals`) and the tag `"robot moved"`.

`java.util.prefs` rejects a key longer than 80 characters or containing U+0000 with
an exception. The model carries this as an error path. A normalised title of 70
characters fits the three ten-character prefixes but not `SIZE_HEIGHT`, so its save
stops after three writes (`Persistence.PartialSave`). Its 81-character height key is
never stored, so in a table written only through putInt the window is never restored
from that record (`Persistence.PartialSaveNotRestored`). The exception ends
`callCloseDialog` at the first such window, and `exitApplication` then never reaches
`dispose()`.

Two details of the source do not fit together as written. `AbstractWindow` declares
only a no-argument constructor, yet its subclasses call `super(title)`. Likewise
`GameWindow` takes a robot, yet the main frame calls `new GameWindow()`. The model
treats a window's title as a value fixed at construction and gives the game window
no robot.

Saving a window that stands at x = -1 (or has another field equal to -1) writes
that -1. A later load then treats the record as absent. `Persistence.RoundTrip`
states this: loading gives back `Restorable(b)`, which is empty exactly when a
field of `b` is -1.

## Model

| member | source | states |
|---|---|---|
| Titles.UpperChar | robots/src/main/gui/AbstractWindow.java:31 | upper-casing maps a space to a space, `_` to `_` and U+0000 to U+0000, and nothing else to any of them (scope of the mapping under Left out) |
| Titles.ToUpper | robots/src/main/gui/AbstractWindow.java:31 | upper-casing keeps the length, maps each character by `UpperChar`, and gives a string that is upper-case (upper-casing it again changes nothing) |
| Titles.CollapseSpaces | robots/src/main/gui/AbstractWindow.java:33 | the rewritten string contains no space, and each of its characters is `_` or comes from the input |
| Titles.FormatTitle | robots/src/main/gui/AbstractWindow.java:30-34 | a normalised title contains no space and only characters that upper-casing leaves unchanged |
| Titles.CollapseShorter | robots/src/main/gui/AbstractWindow.java:33 | replacing runs of spaces never lengthens a string |
| Titles.FormatTitleShape | robots/src/main/gui/AbstractWindow.java:30-34 | a normalised title is no longer than the title, and contains U+0000 only if the title does |
| Titles.CollapseNoSpaces | robots/src/main/gui/AbstractWindow.java:33 | a string without spaces is left as it is by the run replacement |
| Titles.UpperFixed | robots/src/main/gui/AbstractWindow.java:31 | a string of upper-case characters is left as it is by upper-casing |
| Titles.FormatTitleIdempotent | robots/src/main/gui/AbstractWindow.java:30-34 | normalising an already normalised title returns it unchanged |
| Titles.CollapseLeadingRun | robots/src/main/gui/AbstractWindow.java:33 | a run of n > 0 spaces before a non-space becomes exactly one `_` |
| Titles.CollapseRun | robots/src/main/gui/AbstractWindow.java:33 | a maximal run of n > 0 spaces becomes exactly one `_`, and the text on either side is rewritten independently |
| Titles.FormatTwoWords | robots/src/main/gui/AbstractWindow.java:30-34 | two space-free words joined by any run of spaces normalise to the upper-cased words joined by one `_` |
| Titles.LogWindowTitlesCollide | robots/src/main/gui/AbstractWindow.java:30-34 | "Log Window" and "Log   Window" both normalise to `LOG_WINDOW` |
| Persistence.Prefix | robots/src/main/gui/AbstractWindow.java:9-19 | the four key prefixes have ten characters each, eleven for the height, and contain no U+0000 |
| Persistence.PrefixFromTitle | robots/src/main/gui/AbstractWindow.java:14-20 | each field's prefix is the normalised form of its title, as the static initialiser computes it (`POSITION_X`, `POSITION_Y`, `SIZE_WIDTH`, `SIZE_HEIGHT`) |
| Persistence.NodeNameFromTitle | robots/src/main/gui/AbstractWindow.java:15 | the shared preferences node is named `WINDOW_PREFERENCES` |
| Persistence.KeyInjective | robots/src/main/gui/AbstractWindow.java:42-45 | two store keys are equal if and only if they are for the same field and the same normalised title; the four keys of a window never collide |
| Persistence.RecordKeysCount | robots/src/main/gui/AbstractWindow.java:42-45 | one save writes four distinct keys |
| Persistence.RecordKeysDisjoint | robots/src/main/gui/AbstractWindow.java:40-45 | windows with different normalised titles write disjoint sets of keys |
| Persistence.Get | robots/src/main/gui/AbstractWindow.java:55-58 | a read gives the stored value when the key is present and the caller's default otherwise |
| Persistence.StorableIff | robots/src/main/gui/AbstractWindow.java:42-45 | all four keys of a record are accepted by putInt if and only if the normalised title has at most 69 characters and no U+0000 |
| Persistence.ShortTitleStorable | robots/src/main/gui/AbstractWindow.java:40-45 | a title of at most 69 characters without U+0000 can always be saved completely |
| Persistence.Saved | robots/src/main/gui/AbstractWindow.java:37-46 | after a complete save the table holds the old keys plus the four keys of the title; those four hold x, y, width and height, and every other entry is unchanged |
| Persistence.TrySave | robots/src/main/gui/AbstractWindow.java:37-46 | a save completes if and only if the title is storable, and then gives `Saved`; complete or not, it adds no key and changes no entry outside the record, and a table holding only accepted keys keeps holding only accepted keys |
| Persistence.PartialSave | robots/src/main/gui/AbstractWindow.java:42-45 | with a 70-character normalised title, x, y and width are written and the fourth write throws; a later load finds the new position and width together with whatever the table held under the height key before |
| Persistence.PartialSaveNotRestored | robots/src/main/gui/AbstractWindow.java:42-62 | in a table holding only keys putInt accepts, the height key of a 70-character normalised title is absent, so after the failed save the window is never restored from that record |
| Persistence.RejectedSave | robots/src/main/gui/AbstractWindow.java:42 | a normalised title over 70 characters or containing U+0000 fails on the first write and leaves the table unchanged |
| Persistence.Lookup | robots/src/main/gui/AbstractWindow.java:49-62 | a load finds a geometry exactly when none of the four reads (absent key read as -1) is -1, and that geometry is made of the four reads |
| Persistence.RoundTrip | robots/src/main/gui/AbstractWindow.java:37-65 | loading right after a save under the same normalised title gives the saved bounds back, unless one of them is -1, in which case nothing is found |
| Persistence.SavedElsewhere | robots/src/main/gui/AbstractWindow.java:40-45 | saving one window does not change what a different normalised title loads |
| Persistence.LaterSaveWins | robots/src/main/gui/AbstractWindow.java:40-45 | two saves under the same normalised title leave the table as the later save alone would |
| Persistence.Preferences.PutInt | robots/src/main/gui/AbstractWindow.java:42-45 | a write of an accepted key (at most 80 characters, no U+0000) sets that key and leaves the rest of the table as it was; any other key is rejected and nothing is written, so a table of accepted keys stays one |
| Persistence.Window.constructor | robots/src/main/gui/AbstractWindow.java:22-24 | a new window has its title, sits at the origin with no size, and is hidden |
| Persistence.Window.SetSize | robots/src/main/gui/MainApplicationFrame.java:63 | the width and height become the requested ones; the position is unchanged |
| Persistence.Window.SetVisible | robots/src/main/gui/MainApplicationFrame.java:64 | the window's visibility becomes the requested one |
| Persistence.Window.SaveWindow | robots/src/main/gui/AbstractWindow.java:37-46 | the outcome and the table are `TrySave` of the old table, the window's normalised title and its current bounds; the window's bounds are unchanged |
| Persistence.Window.LoadWindow | robots/src/main/gui/AbstractWindow.java:49-65 | the bounds become the stored ones when `Lookup` finds them and stay as they were otherwise; the table is not changed |
| Desktop.ExitDecision | robots/src/main/gui/MainApplicationFrame.java:174-190 | the frame is disposed if and only if the first answer is yes; it saves if and only if both answers are yes; a first yes followed by no, cancel or a closed dialog disposes without saving |
| Desktop.SaveAll | robots/src/main/gui/MainApplicationFrame.java:103-107 | saving frames in order adds exactly their keys and leaves every other entry unchanged |
| Desktop.SaveAllLastWriter | robots/src/main/gui/MainApplicationFrame.java:103-107 | after saving all frames, each frame that no later frame shares a normalised title with loads back its own bounds (unless they hold -1) |
| Desktop.SaveAllElsewhere | robots/src/main/gui/MainApplicationFrame.java:103-107 | saving all frames does not change what a title that none of them normalises to loads |
| Desktop.SaveTwoWindows | robots/src/main/gui/MainApplicationFrame.java:103-107 | saving two windows with different normalised titles into an empty table leaves exactly eight entries, from which each loads back its own bounds |
| Desktop.TrySaveAll | robots/src/main/gui/MainApplicationFrame.java:103-107 | the save loop completes if and only if every frame's normalised title is storable |
| Desktop.TrySaveAllComplete | robots/src/main/gui/MainApplicationFrame.java:103-107 | a save loop that completes leaves exactly the table `SaveAll` describes |
| Desktop.FailureStops | robots/src/main/gui/MainApplicationFrame.java:103-107 | once one frame's save has thrown, the frames after it write nothing |
| Desktop.FirstFailure | robots/src/main/gui/MainApplicationFrame.java:103-107 | when frame j is the first unstorable one, the frames before it are fully saved, frame j is saved as far as `TrySave` gets, and no frame after it is saved |
| Desktop.MainFrame.constructor | robots/src/main/gui/MainApplicationFrame.java:18-27 | the main frame's bounds are (50, 50, screen width - 100, screen height - 100); the desktop holds the game window in front of the log window, each with its stored bounds if all four entries are present and not -1, else with its default size (400 x 400, 300 x 800); the table is unchanged |
| Desktop.MainFrame.CreateDesktopPane | robots/src/main/gui/MainApplicationFrame.java:40-51 | a new desktop with the game window in front of the log window, both shown, each loaded from the table or kept at its default size |
| Desktop.MainFrame.AddWindow | robots/src/main/gui/MainApplicationFrame.java:61-65 | the frame is put in front of the desktop, given the requested size and shown; the desktop stays free of duplicates and the frames already on it keep their order behind it |
| Desktop.MainFrame.NewGameWindow | robots/src/main/gui/MainApplicationFrame.java:84-87 | exactly one new game window is put in front, at 400 x 400 and shown; the existing frames stay behind it in their order |
| Desktop.MainFrame.NewLogWindow | robots/src/main/gui/MainApplicationFrame.java:90-93 | exactly one new log window is put in front, at 150 x 350 and shown; the existing frames stay behind it in their order |
| Desktop.MainFrame.CallCloseDialog | robots/src/main/gui/MainApplicationFrame.java:103-107 | the outcome and the table are `TrySaveAll` over the desktop's frames in order; no frame is added, removed or moved |
| Desktop.MainFrame.SaveLayout | robots/src/main/gui/MainApplicationFrame.java:95-97 | the save action persists the frames as `CallCloseDialog` does, and does not dispose |
| Desktop.MainFrame.Dispose | robots/src/main/gui/MainApplicationFrame.java:188 | the main frame is disposed |
| Desktop.MainFrame.ExitApplication | robots/src/main/gui/MainApplicationFrame.java:174-190 | yes then yes runs the save loop and disposes only if it completes; yes then anything else disposes and leaves the table unchanged; anything but yes first leaves the table and the disposed flag unchanged |
| RobotObserver.Robot.constructor | robots/src/main/gui/CoordinatsWindow.java:26 | stands for the constructor of `model.Robot`, which is not part of this model: as a `java.util.Observable`, a new robot has an empty observer list, the list the registration adds to |
| RobotObserver.Robot.AddObserver | robots/src/main/gui/CoordinatsWindow.java:26 | the observer is added to the robot's observer set |
| RobotObserver.CoordinatsWindow.constructor | robots/src/main/gui/CoordinatsWindow.java:15-27 | the window keeps the given robot (a constant, never reassigned), is registered as one of its observers, and starts with empty text |
| RobotObserver.CoordinatsWindow.Update | robots/src/main/gui/CoordinatsWindow.java:29-35 | a notification from another observable, or from its robot with a tag other than "robot moved", leaves the text unchanged; "robot moved" from its robot sets the text to the robot's current report, never to the argument; a null tag from its robot is excluded, because the source fails on it |
| RobotObserver.CoordinatsWindow.OnRobotMoved | robots/src/main/gui/CoordinatsWindow.java:37-39 | the text becomes the robot's current report |
| RobotObserver.RepeatedMove | robots/src/main/gui/CoordinatsWindow.java:37-39 | two "robot moved" notifications with the robot's state unchanged leave the same text as one |

## Left out

- Titles.UpperChar: upper-cases only ASCII letters and the basic Cyrillic block (U+0430-U+045F), the scripts the window titles use. Java's `toUpperCase` covers all of Unicode and the default locale. That includes mappings that change the length (such as ß to SS), which are not modelled.
- Swing widget construction, layouts, `pack()`, menu mnemonics and accelerators, and `ResourceBundle` localisation are left out as toolkit glue. So are the `UIManager.put` calls that set the button labels.
- Look-and-feel switching (`setLookAndFeel`) is a foreign toolkit call whose exceptions the source swallows.
- The test menu's log message and `createLogWindow`'s debug log line are left out. Logging is an external collaborator.
- The `java.util.prefs` backing store is left out: its durability, its own failures (`BackingStoreException`, `IllegalStateException` for a removed node) and its node hierarchy. putInt's argument check on keys is modelled; values are integers and always accepted. The single node is an in-memory `map<string, int>`. `NodeName` records the node's name.
- The screen size and the dialog answers come from toolkit calls. They are parameters here: the screen size of the constructor, and the two `Answer`s of `ExitApplication`.
- Process termination through `EXIT_ON_CLOSE` and the window-closing listener that calls `exitApplication` are left out. `dispose()` is the `disposed` flag.
- The log window's class is not part of this model, so its title is a parameter (`logTitle`). A log window is assumed to start like any internal frame, at the origin: `NewLogWindow` and the constructor's log-window position rest on that. The game window's visualiser and rendering are not modelled.
- The robot's movement, its notification of observers and `getInfo`'s formatting are not shown in the source. The robot is reduced to its observer set and the text its `getInfo` reports (`info`).
- The desktop is a sequence in stacking order, front-most first, as `getAllFrames` lists it. Showing a new internal frame brings it to the front, so the newest frame comes first. The user raising a frame by clicking it reorders the stack in Swing; the model does not capture that reordering.
- A second `add` of a frame already on the desktop is excluded by `AddWindow`'s precondition. Every caller passes a window it has just created.
- Closing a sub-window (removal from the desktop) happens in the toolkit, and no shown code handles it, so the model has none.
- Java's 32-bit `int` is modelled as an unbounded integer. The only arithmetic is the screen size minus 100, which does not overflow for real screen sizes.
- `robots/src/gui/MainApplicationFrame.java` is an older variant without persistence. Its exit handler rests entirely on Swing window lookup, so it is not part of this model.
- Persistence.Window.LoadWindow: `getInt` also throws for a key containing U+0000. The model reads such a key as absent and keeps the bounds. In the source the exception would end the main frame's constructor.
- Persistence.Preferences.PutInt: the 80-character limit counts characters, where Java counts UTF-16 code units. The two agree for every title in the Basic Multilingual Plane, which includes the application's titles.
- An exception from a save in the "save" menu action goes to Swing's event dispatch. The model returns it as `ok` being false and leaves the table as far as the failed save got.
- RobotObserver.CoordinatsWindow.Update: the sender is compared with `o.equals(robot)`. `model.Robot` is not part of this model; the comparison is modelled as object identity, which is what `equals` means unless that class overrides it.
