/** The geometry persistence every sub-window inherits: a window's position and
    size are stored in the application's preferences node under four keys built
    from the window's normalised title, and read back when the window is created. */
module Persistence {
  import opened Titles

  datatype Option<T> = None | Some(value: T)

  /** Position and size of a window, as reported by getX/getY/getWidth/getHeight. */
  datatype Bounds = Bounds(x: int, y: int, width: int, height: int)

  /** The four stored fields of a window's geometry. */
  datatype Field = PositionX | PositionY | SizeWidth | SizeHeight

  /** The value loadWindow reads for an absent key, and the one it treats as "unset". */
  const Missing := -1

  function FieldOf(b: Bounds, f: Field): int {
    match f
    case PositionX => b.x
    case PositionY => b.y
    case SizeWidth => b.width
    case SizeHeight => b.height
  }

  /** A geometry with a field equal to the sentinel cannot be restored. */
  predicate HasSentinel(b: Bounds) {
    b.x == Missing || b.y == Missing || b.width == Missing || b.height == Missing
  }

  /** What loading gives back for a saved geometry. */
  function Restorable(b: Bounds): Option<Bounds> {
    if HasSentinel(b) then None else Some(b)
  }

  /** The title each key prefix is derived from in the static initialiser. */
  function PrefixTitle(f: Field): string {
    match f
    case PositionX => "position x"
    case PositionY => "position y"
    case SizeWidth => "size width"
    case SizeHeight => "size height"
  }

  /** The key prefixes, as the static initialiser computes them from their titles
      (PrefixFromTitle): ten characters each, eleven for the height. */
  function Prefix(f: Field): (p: string)
    ensures |p| == if f == SizeHeight then 11 else 10
    ensures '\0' !in p
  {
    match f
    case PositionX => "POSITION_X"
    case PositionY => "POSITION_Y"
    case SizeWidth => "SIZE_WIDTH"
    case SizeHeight => "SIZE_HEIGHT"
  }

  /** The name of the preferences node all windows share (NodeNameFromTitle). */
  const NodeName := "WINDOW_PREFERENCES"

  /** Each prefix is the normalised form of its title. */
  lemma PrefixFromTitle(f: Field)
    ensures Prefix(f) == FormatTitle(PrefixTitle(f))
  {
    match f
    case PositionX =>
      assert ToUpper("position") + "_" + ToUpper("x") == "POSITION_X" by {
        assert ToUpper("position") == "POSITION" && ToUpper("x") == "X";
      }
      assert "position x" == "position" + Spaces(1) + "x";
      FormatTwoWords("position", 1, "x");
    case PositionY =>
      assert ToUpper("position") + "_" + ToUpper("y") == "POSITION_Y" by {
        assert ToUpper("position") == "POSITION" && ToUpper("y") == "Y";
      }
      assert "position y" == "position" + Spaces(1) + "y";
      FormatTwoWords("position", 1, "y");
    case SizeWidth =>
      assert ToUpper("size") + "_" + ToUpper("width") == "SIZE_WIDTH" by {
        assert ToUpper("size") == "SIZE" && ToUpper("width") == "WIDTH";
      }
      assert "size width" == "size" + Spaces(1) + "width";
      FormatTwoWords("size", 1, "width");
    case SizeHeight =>
      assert ToUpper("size") + "_" + ToUpper("height") == "SIZE_HEIGHT" by {
        assert ToUpper("size") == "SIZE" && ToUpper("height") == "HEIGHT";
      }
      assert "size height" == "size" + Spaces(1) + "height";
      FormatTwoWords("size", 1, "height");
  }

  lemma NodeNameFromTitle()
    ensures NodeName == FormatTitle("window preferences")
  {
    assert ToUpper("window") + "_" + ToUpper("preferences") == NodeName by {
      assert ToUpper("window") == "WINDOW" && ToUpper("preferences") == "PREFERENCES";
    }
    assert "window preferences" == "window" + Spaces(1) + "preferences";
    FormatTwoWords("window", 1, "preferences");
  }

  /** The store key of one field of the window whose normalised title is key. */
  function Key(f: Field, key: string): string {
    Prefix(f) + key
  }

  /** Distinct fields never share a store key, whatever the titles; the same field
      shares a key only for the same normalised title. */
  lemma KeyInjective(f1: Field, k1: string, f2: Field, k2: string)
    ensures Key(f1, k1) == Key(f2, k2) <==> f1 == f2 && k1 == k2
  {
    var p1, p2 := Prefix(f1), Prefix(f2);
    var s1, s2 := Key(f1, k1), Key(f2, k2);
    if f1 == f2 {
      if s1 == s2 {
        assert k1 == s1[|p1|..] == s2[|p2|..] == k2;
      }
    } else {
      // an index inside both prefixes at which they differ
      var i :=
        if (f1 == PositionX && f2 == PositionY) || (f1 == PositionY && f2 == PositionX) then 9
        else if (f1 == SizeWidth && f2 == SizeHeight) || (f1 == SizeHeight && f2 == SizeWidth) then 5
        else 0;
      assert s1[i] == p1[i] && s2[i] == p2[i];
    }
  }

  /** The four keys of one window's record. */
  function RecordKeys(key: string): set<string> {
    {Key(PositionX, key), Key(PositionY, key), Key(SizeWidth, key), Key(SizeHeight, key)}
  }

  lemma RecordKeysCount(key: string)
    ensures |RecordKeys(key)| == 4
  {
    KeyInjective(PositionX, key, PositionY, key);
    KeyInjective(PositionX, key, SizeWidth, key);
    KeyInjective(PositionX, key, SizeHeight, key);
    KeyInjective(PositionY, key, SizeWidth, key);
    KeyInjective(PositionY, key, SizeHeight, key);
    KeyInjective(SizeWidth, key, SizeHeight, key);
  }

  /** Two windows with different normalised titles have disjoint record keys. */
  lemma RecordKeysDisjoint(k1: string, k2: string)
    requires k1 != k2
    ensures RecordKeys(k1) !! RecordKeys(k2)
  {
    forall f1: Field, f2: Field ensures Key(f1, k1) != Key(f2, k2) {
      KeyInjective(f1, k1, f2, k2);
    }
  }

  /** Preferences.getInt: the stored value, or the caller's default when absent. */
  function Get(m: map<string, int>, k: string, default: int): (v: int)
    ensures k in m ==> v == m[k]
    ensures k !in m ==> v == default
  {
    if k in m then m[k] else default
  }

  /** The longest key putInt accepts (Preferences.MAX_KEY_LENGTH). */
  const MaxKeyLength := 80

  /** A key putInt accepts: at most MaxKeyLength characters and no U+0000. */
  predicate KeyAccepted(k: string) {
    |k| <= MaxKeyLength && '\0' !in k
  }

  /** A normalised title under which all four keys of a record are accepted. */
  predicate Storable(key: string) {
    forall f :: KeyAccepted(Key(f, key))
  }

  /** A record can be written completely exactly when its normalised title leaves
      room for the longest prefix and contains no U+0000. */
  lemma StorableIff(key: string)
    ensures Storable(key) <==> |key| <= MaxKeyLength - 11 && '\0' !in key
  {
    if |key| <= MaxKeyLength - 11 && '\0' !in key {
      forall f ensures KeyAccepted(Key(f, key)) {
        assert '\0' !in Prefix(f);
      }
    } else {
      assert !KeyAccepted(Key(SizeHeight, key));
    }
  }

  /** A title of at most 69 characters without U+0000 can always be saved. */
  lemma ShortTitleStorable(title: string)
    requires |title| <= MaxKeyLength - 11 && '\0' !in title
    ensures Storable(FormatTitle(title))
  {
    FormatTitleShape(title);
    StorableIff(FormatTitle(title));
  }

  /** The table after saveWindow: exactly the four keys of the record are set to
      the geometry; every other entry is untouched. */
  function Saved(m: map<string, int>, key: string, b: Bounds): (r: map<string, int>)
    ensures r.Keys == m.Keys + RecordKeys(key)
    ensures forall f :: Key(f, key) in r && r[Key(f, key)] == FieldOf(b, f)
    ensures forall k :: k in m && k !in RecordKeys(key) ==> r[k] == m[k]
  {
    var r := m[Key(PositionX, key) := b.x][Key(PositionY, key) := b.y]
              [Key(SizeWidth, key) := b.width][Key(SizeHeight, key) := b.height];
    forall f ensures r[Key(f, key)] == FieldOf(b, f) {
      KeyInjective(f, key, PositionX, key);
      KeyInjective(f, key, PositionY, key);
      KeyInjective(f, key, SizeWidth, key);
    }
    r
  }

  /** The geometry loadWindow finds under a normalised title: present exactly when
      none of the four reads yields the sentinel, and then made of those reads. */
  function Lookup(m: map<string, int>, key: string): (r: Option<Bounds>)
    ensures r.Some? <==> forall f :: Get(m, Key(f, key), Missing) != Missing
    ensures r.Some? ==> forall f :: FieldOf(r.value, f) == Get(m, Key(f, key), Missing)
  {
    var x := Get(m, Key(PositionX, key), Missing);
    var y := Get(m, Key(PositionY, key), Missing);
    var width := Get(m, Key(SizeWidth, key), Missing);
    var height := Get(m, Key(SizeHeight, key), Missing);
    if x == Missing || y == Missing || width == Missing || height == Missing then None
    else Some(Bounds(x, y, width, height))
  }

  /** The bounds a window ends with after loading: the stored ones, if any. */
  function Restored(current: Bounds, stored: Option<Bounds>): Bounds {
    match stored
    case Some(b) => b
    case None => current
  }

  /** Round trip: loading what was just saved under the same normalised title gives
      the saved geometry back, unless one of its fields is the sentinel. */
  lemma RoundTrip(m: map<string, int>, key: string, b: Bounds)
    ensures Lookup(Saved(m, key, b), key) == Restorable(b)
  {
  }

  /** Saving one window does not change what another normalised title loads. */
  lemma SavedElsewhere(m: map<string, int>, saved: string, b: Bounds, key: string)
    requires saved != key
    ensures Lookup(Saved(m, saved, b), key) == Lookup(m, key)
  {
    RecordKeysDisjoint(saved, key);
    var r := Saved(m, saved, b);
    forall f ensures Get(r, Key(f, key), Missing) == Get(m, Key(f, key), Missing) {
      assert Key(f, key) in RecordKeys(key) by {
        match f
        case PositionX =>
        case PositionY =>
        case SizeWidth =>
        case SizeHeight =>
      }
    }
    assert Get(r, Key(PositionX, key), Missing) == Get(m, Key(PositionX, key), Missing);
    assert Get(r, Key(PositionY, key), Missing) == Get(m, Key(PositionY, key), Missing);
    assert Get(r, Key(SizeWidth, key), Missing) == Get(m, Key(SizeWidth, key), Missing);
    assert Get(r, Key(SizeHeight, key), Missing) == Get(m, Key(SizeHeight, key), Missing);
  }

  /** Two windows whose titles normalise alike share their entries: the later save
      replaces the earlier one entirely. */
  lemma LaterSaveWins(m: map<string, int>, key: string, b1: Bounds, b2: Bounds)
    ensures Saved(Saved(m, key, b1), key, b2) == Saved(m, key, b2)
  {
  }

  /** What saveWindow leaves: whether all four writes went through, and the table
      after the writes that did. */
  datatype SaveOutcome = SaveOutcome(ok: bool, table: map<string, int>)

  /** saveWindow with putInt's argument check: the four writes happen in field
      order, and the first key putInt rejects raises an exception that skips the
      writes after it. A complete save is Saved; a failed one never touches a key
      outside the record. */
  function TrySave(m: map<string, int>, key: string, b: Bounds): (o: SaveOutcome)
    ensures o.ok <==> Storable(key)
    ensures o.ok ==> o.table == Saved(m, key, b)
    ensures forall k :: k in m && k !in RecordKeys(key) ==> k in o.table && o.table[k] == m[k]
    ensures o.table.Keys <= m.Keys + RecordKeys(key)
    ensures AllAccepted(m) ==> AllAccepted(o.table)
  {
    var m1 := m[Key(PositionX, key) := b.x];
    var m2 := m1[Key(PositionY, key) := b.y];
    var m3 := m2[Key(SizeWidth, key) := b.width];
    if !KeyAccepted(Key(PositionX, key)) then SaveOutcome(false, m)
    else if !KeyAccepted(Key(PositionY, key)) then SaveOutcome(false, m1)
    else if !KeyAccepted(Key(SizeWidth, key)) then SaveOutcome(false, m2)
    else if !KeyAccepted(Key(SizeHeight, key)) then SaveOutcome(false, m3)
    else SaveOutcome(true, m3[Key(SizeHeight, key) := b.height])
  }

  /** A table putInt could have written: every key in it is accepted. */
  predicate AllAccepted(m: map<string, int>) {
    forall k :: k in m ==> KeyAccepted(k)
  }

  /** A normalised title of exactly 70 characters fits the three ten-character
      prefixes but not SIZE_HEIGHT: the save fails after three writes, and a later
      load finds the new position and width with the height stored before. */
  lemma PartialSave(m: map<string, int>, key: string, b: Bounds)
    requires |key| == MaxKeyLength - 10 && '\0' !in key
    ensures !TrySave(m, key, b).ok
    ensures Lookup(TrySave(m, key, b).table, key)
              == Restorable(b.(height := Get(m, Key(SizeHeight, key), Missing)))
  {
    StorableIff(key);
    var t := TrySave(m, key, b).table;
    KeyInjective(SizeHeight, key, PositionX, key);
    KeyInjective(SizeHeight, key, PositionY, key);
    KeyInjective(SizeHeight, key, SizeWidth, key);
    KeyInjective(PositionX, key, PositionY, key);
    KeyInjective(PositionX, key, SizeWidth, key);
    KeyInjective(PositionY, key, SizeWidth, key);
    assert KeyAccepted(Key(PositionX, key)) && KeyAccepted(Key(PositionY, key));
    assert KeyAccepted(Key(SizeWidth, key)) && !KeyAccepted(Key(SizeHeight, key));
    assert Get(t, Key(PositionX, key), Missing) == b.x;
    assert Get(t, Key(PositionY, key), Missing) == b.y;
    assert Get(t, Key(SizeWidth, key), Missing) == b.width;
    assert Get(t, Key(SizeHeight, key), Missing) == Get(m, Key(SizeHeight, key), Missing);
  }

  /** The consequence for a table written only through putInt: the height key of a
      70-character normalised title is never stored, so after the failed save the
      window still finds nothing to restore. */
  lemma PartialSaveNotRestored(m: map<string, int>, key: string, b: Bounds)
    requires |key| == MaxKeyLength - 10 && '\0' !in key
    requires AllAccepted(m)
    ensures Lookup(TrySave(m, key, b).table, key) == None
  {
    PartialSave(m, key, b);
    assert Key(SizeHeight, key) !in m by {
      assert !KeyAccepted(Key(SizeHeight, key));
    }
  }

  /** A normalised title too long for even the shortest prefix, or one containing
      U+0000, makes the first write fail: the table is left as it was. */
  lemma RejectedSave(m: map<string, int>, key: string, b: Bounds)
    requires |key| > MaxKeyLength - 10 || '\0' in key
    ensures TrySave(m, key, b) == SaveOutcome(false, m)
  {
    assert !KeyAccepted(Key(PositionX, key));
  }

  /** The application's preferences node (java.util.prefs), as an in-memory table. */
  class Preferences {
    var entries: map<string, int>

    constructor (entries: map<string, int>)
      ensures this.entries == entries
    {
      this.entries := entries;
    }

    /** putInt: a key longer than MaxKeyLength or containing U+0000 is rejected
        with an exception (ok is false) and nothing is written. */
    method PutInt(key: string, value: int) returns (ok: bool)
      modifies this
      ensures ok <==> KeyAccepted(key)
      ensures entries == if ok then old(entries)[key := value] else old(entries)
      ensures AllAccepted(old(entries)) ==> AllAccepted(entries)
    {
      if |key| > MaxKeyLength || '\0' in key {
        return false;
      }
      entries := entries[key := value];
      return true;
    }
  }

  /** A sub-window: a title fixed at construction and live, mutable bounds. */
  class Window {
    const title: string
    var bounds: Bounds
    var visible: bool

    /** AbstractWindow's constructor builds a plain internal frame: at the origin,
        with no size, and hidden. */
    constructor (title: string)
      ensures this.title == title && bounds == Bounds(0, 0, 0, 0) && !visible
    {
      this.title := title;
      bounds := Bounds(0, 0, 0, 0);
      visible := false;
    }

    /** The normalised title the window's entries are stored under. */
    function Key(): string {
      FormatTitle(title)
    }

    /** setSize: the width and height change, the position stays. */
    method SetSize(width: int, height: int)
      modifies this`bounds
      ensures bounds == old(bounds).(width := width, height := height)
    {
      bounds := bounds.(width := width, height := height);
    }

    /** setVisible: shows or hides the frame. */
    method SetVisible(visible: bool)
      modifies this`visible
      ensures this.visible == visible
    {
      this.visible := visible;
    }

    /** saveWindow: four writes, one per field, under the window's normalised title;
        ok is false when putInt rejects a key, and the writes after it are skipped. */
    method SaveWindow(prefs: Preferences) returns (ok: bool)
      modifies prefs
      ensures SaveOutcome(ok, prefs.entries) == TrySave(old(prefs.entries), Key(), bounds)
      ensures bounds == old(bounds)
    {
      var key := FormatTitle(title);
      ok := prefs.PutInt(Prefix(PositionX) + key, bounds.x);
      if !ok {
        return;
      }
      ok := prefs.PutInt(Prefix(PositionY) + key, bounds.y);
      if !ok {
        return;
      }
      ok := prefs.PutInt(Prefix(SizeWidth) + key, bounds.width);
      if !ok {
        return;
      }
      ok := prefs.PutInt(Prefix(SizeHeight) + key, bounds.height);
    }

    /** loadWindow: four reads with the sentinel as default; the bounds change only
        when none of them is the sentinel. The table is only read. (getInt's own
        rejection of a key containing U+0000 is not modelled: such a key is never
        stored, so it reads as absent here.) */
    method LoadWindow(prefs: Preferences)
      modifies this`bounds
      ensures bounds == Restored(old(bounds), Lookup(prefs.entries, Key()))
      ensures prefs.entries == old(prefs.entries)
    {
      var missing := Missing;
      var key := FormatTitle(title);
      var x := Get(prefs.entries, Prefix(PositionX) + key, missing);
      var y := Get(prefs.entries, Prefix(PositionY) + key, missing);
      var width := Get(prefs.entries, Prefix(SizeWidth) + key, missing);
      var height := Get(prefs.entries, Prefix(SizeHeight) + key, missing);
      if x == -1 || y == -1 || width == -1 || height == -1 {
        return;
      }
      bounds := Bounds(x, y, width, height);
    }
  }
}
