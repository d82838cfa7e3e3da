/**
 * The design canvas component: a live scene of fabric objects, and the
 * bounded linear undo/redo history kept beside it.
 *
 * The history is a list of serialised scene snapshots and a cursor that
 * starts at -1. A capture prunes the entries after the cursor, appends the
 * new snapshot, and evicts the oldest entry once there are more than 50.
 * Undo and redo only move the cursor and reload the snapshot under it; a
 * "replaying" flag keeps the reload itself out of the history.
 *
 * Serialisation and loading belong to the fabric library: they are the
 * functions `encode` and `parse` a canvas is created with, and nothing is
 * assumed about them.
 */
module DesignCanvas {
  import opened Wrappers

  // ---------------------------------------------------------------------
  // Scene
  // ---------------------------------------------------------------------

  /** A property value of a canvas object. */
  datatype Value = Num(n: real) | Str(s: string) | Flag(b: bool)

  type Props = map<string, Value>

  /** A fabric object: its type tag ("i-text", "rect", "circle", ...), its text (empty for shapes) and its properties. */
  datatype FabricObject = FabricObject(kind: string, text: string, props: Props)

  /** What the canvas paints: the objects in stacking order and the background colour. */
  datatype Scene = Scene(objects: seq<FabricObject>, background: string)

  /** A serialised scene, as JSON.stringify(canvas.toJSON()) produces it. */
  type Snapshot = string

  // ---------------------------------------------------------------------
  // History: the list of snapshots and the cursor
  // ---------------------------------------------------------------------

  /** The most entries the history keeps. */
  const Capacity: nat := 50

  datatype History = History(entries: seq<Snapshot>, index: int)

  /** The cursor points at an entry, or is -1 while the list is empty; the list holds at most 50 entries. */
  predicate WellFormed(h: History) {
    && |h.entries| <= Capacity
    && -1 <= h.index < |h.entries|
    && (h.index == -1 ==> h.entries == [])
  }

  /** The history before the first capture. */
  const Empty := History([], -1)

  /** The last `n` elements of `s` (all of `s` when it is shorter). */
  function LastN(s: seq<Snapshot>, n: nat): (r: seq<Snapshot>)
    ensures |r| == if |s| <= n then |s| else n
    ensures r == s[|s| - |r|..]
  {
    if |s| <= n then s else s[|s| - n..]
  }

  /**
   * saveHistory once its guard has passed: keep the entries up to the
   * cursor, append `s`, and drop the oldest entry when the list exceeds the
   * capacity.
   */
  function Capture(h: History, s: Snapshot): (r: History)
    requires WellFormed(h)
    ensures WellFormed(r) && r.entries != []
    ensures r.index == |r.entries| - 1 && r.entries[r.index] == s
  {
    var pushed := h.entries[..h.index + 1] + [s];
    if |pushed| > Capacity then History(pushed[1..], |pushed| - 2)
    else History(pushed, |pushed| - 1)
  }

  /** undo: a no-op at the first entry (or with an empty list); otherwise the cursor moves back one. */
  function UndoHistory(h: History): (r: History)
    requires WellFormed(h)
    ensures WellFormed(r) && r.entries == h.entries
    ensures h.index <= 0 ==> r == h
    ensures h.index > 0 ==> r.index == h.index - 1
  {
    if h.index <= 0 then h else History(h.entries, h.index - 1)
  }

  /** redo: a no-op at the last entry; otherwise the cursor moves forward one. */
  function RedoHistory(h: History): (r: History)
    requires WellFormed(h)
    ensures WellFormed(r) && r.entries == h.entries
    ensures h.index >= |h.entries| - 1 ==> r == h
    ensures h.index < |h.entries| - 1 ==> r.index == h.index + 1
  {
    if h.index >= |h.entries| - 1 then h else History(h.entries, h.index + 1)
  }

  /** `k` undos in a row. */
  function UndoTimes(h: History, k: nat): (r: History)
    requires WellFormed(h)
    decreases k
    ensures WellFormed(r)
  {
    if k == 0 then h else UndoTimes(UndoHistory(h), k - 1)
  }

  /** `k` redos in a row. */
  function RedoTimes(h: History, k: nat): (r: History)
    requires WellFormed(h)
    decreases k
    ensures WellFormed(r)
  {
    if k == 0 then h else RedoTimes(RedoHistory(h), k - 1)
  }

  /** Captures of `ss`, one after the other. */
  function CaptureAll(h: History, ss: seq<Snapshot>): (r: History)
    requires WellFormed(h)
    decreases ss
    ensures WellFormed(r)
  {
    if ss == [] then h else CaptureAll(Capture(h, ss[0]), ss[1..])
  }

  /**
   * What a capture keeps: the newest 50 of the entries up to the cursor
   * followed by the new snapshot.
   */
  lemma CaptureKeepsNewest(h: History, s: Snapshot)
    requires WellFormed(h)
    ensures Capture(h, s).entries == LastN(h.entries[..h.index + 1] + [s], Capacity)
  {
  }

  /** The baseline capture on a fresh history: one entry, under the cursor. */
  lemma FirstCapture(s: Snapshot)
    ensures Capture(Empty, s) == History([s], 0)
  {
    var r := Capture(Empty, s);
    assert Empty.entries[..Empty.index + 1] + [s] == [s];
    assert r.entries == [s];
  }

  /** A capture leaves the cursor on the newest entry, so a redo right after it does nothing. */
  lemma RedoAfterCaptureIsNoOp(h: History, s: Snapshot)
    requires WellFormed(h)
    ensures RedoHistory(Capture(h, s)) == Capture(h, s)
  {
  }

  /**
   * A capture after undos forgets the undone entries: before the new
   * snapshot stand the newest 49 entries up to the cursor, and nothing
   * that was after it.
   */
  lemma CaptureDropsRedoBranch(h: History, s: Snapshot)
    requires WellFormed(h)
    ensures var r := Capture(h, s);
      r.entries[..r.index] == LastN(h.entries[..h.index + 1], Capacity - 1)
  {
    CaptureKeepsNewest(h, s);
    LastNSnoc(h.entries[..h.index + 1], s, Capacity - 1);
  }

  lemma LastNSnoc(p: seq<Snapshot>, x: Snapshot, n: nat)
    ensures LastN(p + [x], n + 1) == LastN(p, n) + [x]
  {
    var l := LastN(p, n);
    assert (p + [x])[|p| - |l|..] == l + [x];
  }

  /** An undo is reversed by a redo. */
  lemma RedoUndoesUndo(h: History)
    requires WellFormed(h) && h.index > 0
    ensures RedoHistory(UndoHistory(h)) == h
  {
  }

  /** A redo is reversed by an undo. */
  lemma UndoUndoesRedo(h: History)
    requires WellFormed(h) && h.index < |h.entries| - 1
    ensures UndoHistory(RedoHistory(h)) == h
  {
  }

  /** `k` undos move the cursor back `k` places, stopping at the first entry, and keep the list. */
  lemma {:induction false} UndosIndex(h: History, k: nat)
    requires WellFormed(h) && h.index >= 0
    decreases k
    ensures UndoTimes(h, k).entries == h.entries
    ensures UndoTimes(h, k).index == if k <= h.index then h.index - k else 0
  {
    if k > 0 {
      UndosIndex(UndoHistory(h), k - 1);
    }
  }

  /**
   * `k` undos followed by `k` redos, with no capture in between, return to
   * the same cursor, hence to the same snapshot.
   */
  lemma {:induction false} UndosThenRedos(h: History, k: nat)
    requires WellFormed(h) && k <= h.index
    decreases k
    ensures RedoTimes(UndoTimes(h, k), k) == h
  {
    if k > 0 {
      var u := UndoHistory(h);
      UndosThenRedos(u, k - 1);
      // UndoTimes(h, k) == UndoTimes(u, k - 1), and the last of the k redos undoes the first undo.
      RedosLast(UndoTimes(u, k - 1), k - 1);
    }
  }

  /** `k + 1` redos are `k` redos and then one more. */
  lemma {:induction false} RedosLast(h: History, k: nat)
    requires WellFormed(h)
    decreases k
    ensures RedoTimes(h, k + 1) == RedoHistory(RedoTimes(h, k))
  {
    if k > 0 {
      RedosLast(RedoHistory(h), k - 1);
    }
  }

  /** Captures made at the newest entry keep exactly the newest 50 snapshots. */
  lemma {:induction false} CaptureAllKeepsNewest(h: History, ss: seq<Snapshot>)
    requires WellFormed(h) && h.index == |h.entries| - 1
    decreases ss
    ensures CaptureAll(h, ss).entries == LastN(h.entries + ss, Capacity)
    ensures ss != [] ==> CaptureAll(h, ss).index == |CaptureAll(h, ss).entries| - 1
  {
    if ss != [] {
      var rest := ss[1..];
      assert h.entries + [ss[0]] + rest == h.entries + ss by {
        assert ss == [ss[0]] + rest;
      }
      var c := Capture(h, ss[0]);
      assert h.entries[..h.index + 1] == h.entries;
      CaptureKeepsNewest(h, ss[0]);
      CaptureAllKeepsNewest(c, rest);
      LastNAppend(h.entries + [ss[0]], rest, Capacity);
    }
  }

  lemma LastNAppend(a: seq<Snapshot>, b: seq<Snapshot>, n: nat)
    ensures LastN(LastN(a, n) + b, n) == LastN(a + b, n)
  {
    var la := LastN(a, n);
    assert la + b == (a + b)[|a| - |la|..];
  }

  /**
   * The capacity scenario (the baseline history is `Capture(Empty, base)`,
   * see FirstCapture): sixty captures after the baseline leave exactly
   * fifty entries, and forty-nine undos reach the oldest entry still kept,
   * which is the eleventh of the sixty, not the baseline.
   */
  lemma SixtyCapturesKeepFifty(base: Snapshot, ss: seq<Snapshot>)
    requires |ss| == 60
    ensures var h := CaptureAll(History([base], 0), ss);
      && |h.entries| == Capacity && h.index == Capacity - 1
      && h.entries == ss[10..]
      && UndoTimes(h, h.index) == History(ss[10..], 0)
  {
    var b := History([base], 0);
    CaptureAllKeepsNewest(b, ss);
    var h := CaptureAll(b, ss);
    var all := [base] + ss;
    assert |all| == 61;
    assert all[11..] == ss[10..];
    assert h.entries == all[11..];
    UndosIndex(h, h.index);
  }

  // ---------------------------------------------------------------------
  // New objects: defaults merged with the caller's options
  // ---------------------------------------------------------------------

  /** `{ ...defaults, ...options }`: every option overrides, every other default stays. */
  predicate Merged(props: Props, defaults: Props, options: Props) {
    && props.Keys == defaults.Keys + options.Keys
    && (forall k | k in options :: props[k] == options[k])
    && (forall k | k in defaults && k !in options :: props[k] == defaults[k])
  }

  function Centred(width: nat, height: nat): Props {
    map["left" := Num(width as real / 2.0), "top" := Num(height as real / 2.0),
        "originX" := Str("center"), "originY" := Str("center")]
  }

  function TextDefaults(width: nat, height: nat): Props {
    Centred(width, height)["fontSize" := Num(32.0)]["fontFamily" := Str("Inter, sans-serif")]["fill" := Str("#000000")]
  }

  function RectDefaults(width: nat, height: nat): Props {
    Centred(width, height)["width" := Num(150.0)]["height" := Num(100.0)]["fill" := Str("#3B82F6")]
  }

  function CircleDefaults(width: nat, height: nat): Props {
    Centred(width, height)["radius" := Num(60.0)]["fill" := Str("#FCD34D")]
  }

  /** The IText addText builds on a `width` x `height` canvas. */
  function NewText(text: string, width: nat, height: nat, options: Props): (o: FabricObject)
    ensures o.kind == "i-text" && o.text == text
    ensures Merged(o.props, TextDefaults(width, height), options)
  {
    FabricObject("i-text", text, TextDefaults(width, height) + options)
  }

  /** The Rect addRect builds. */
  function NewRect(width: nat, height: nat, options: Props): (o: FabricObject)
    ensures o.kind == "rect" && o.text == ""
    ensures Merged(o.props, RectDefaults(width, height), options)
  {
    FabricObject("rect", "", RectDefaults(width, height) + options)
  }

  /** The Circle addCircle builds. */
  function NewCircle(width: nat, height: nat, options: Props): (o: FabricObject)
    ensures o.kind == "circle" && o.text == ""
    ensures Merged(o.props, CircleDefaults(width, height), options)
  {
    FabricObject("circle", "", CircleDefaults(width, height) + options)
  }

  /** Without options, addText makes 32px black Inter text at the centre of the canvas. */
  lemma TextDefaultsWithoutOptions(text: string, width: nat, height: nat)
    ensures var t := NewText(text, width, height, map[]).props;
      && t["left"] == Num(width as real / 2.0) && t["top"] == Num(height as real / 2.0)
      && t["originX"] == Str("center") && t["originY"] == Str("center")
      && t["fontSize"] == Num(32.0) && t["fill"] == Str("#000000")
      && t["fontFamily"] == Str("Inter, sans-serif")
  {
    assert TextDefaults(width, height) + map[] == TextDefaults(width, height);
  }

  /** Without options, addRect makes a 150x100 blue rectangle at the centre. */
  lemma RectDefaultsWithoutOptions(width: nat, height: nat)
    ensures var r := NewRect(width, height, map[]).props;
      && r["left"] == Num(width as real / 2.0) && r["top"] == Num(height as real / 2.0)
      && r["width"] == Num(150.0) && r["height"] == Num(100.0) && r["fill"] == Str("#3B82F6")
  {
    assert RectDefaults(width, height) + map[] == RectDefaults(width, height);
  }

  /** Without options, addCircle makes a yellow circle of radius 60 at the centre. */
  lemma CircleDefaultsWithoutOptions(width: nat, height: nat)
    ensures var c := NewCircle(width, height, map[]).props;
      && c["left"] == Num(width as real / 2.0) && c["top"] == Num(height as real / 2.0)
      && c["radius"] == Num(60.0) && c["fill"] == Str("#FCD34D")
  {
    assert CircleDefaults(width, height) + map[] == CircleDefaults(width, height);
  }

  // ---------------------------------------------------------------------
  // The canvas component
  // ---------------------------------------------------------------------

  class Canvas {
    const width: nat
    const height: nat
    /** JSON.stringify(canvas.toJSON()): the fabric serialisation, foreign. */
    const encode: Scene -> Snapshot
    /** JSON.parse followed by canvas.loadFromJSON: None when either fails. Foreign. */
    const parse: Snapshot -> Option<Scene>

    /** fabricRef.current is set. */
    var mounted: bool
    var objects: seq<FabricObject>
    var background: string
    /** The active (selected) object, by position in `objects`. */
    var active: Option<nat>
    /** historyRef */
    var history: seq<Snapshot>
    /** historyIndexRef */
    var index: int
    /** isUndoRedoRef */
    var replaying: bool

    function Model(): History
      reads this
    {
      History(history, index)
    }

    function CurrentScene(): Scene
      reads this
    {
      Scene(objects, background)
    }

    predicate Valid()
      reads this
    {
      WellFormed(Model()) && (active.Some? ==> active.value < |objects|)
    }

    /** The component before its mount effect has run: no fabric canvas yet, an empty history. */
    constructor (width: nat, height: nat, backgroundColor: string,
                 encode: Scene -> Snapshot, parse: Snapshot -> Option<Scene>)
      ensures Valid() && !mounted && !replaying && active == None
      ensures this.width == width && this.height == height
      ensures this.encode == encode && this.parse == parse
      ensures CurrentScene() == Scene([], backgroundColor) && Model() == Empty
    {
      this.width, this.height := width, height;
      this.encode, this.parse := encode, parse;
      mounted := false;
      objects, background, active := [], backgroundColor, None;
      history, index, replaying := [], -1, false;
    }

    /**
     * The mount effect: create the fabric canvas, then capture the baseline
     * entry. A non-empty initial document is loaded first and the baseline
     * captured once it has loaded; if it does not load, nothing is captured.
     */
    method Mount(initialJson: string)
      requires Valid() && !mounted && !replaying && active == None
      modifies this
      ensures Valid() && mounted && !replaying
      ensures initialJson == [] ==>
        && CurrentScene() == old(CurrentScene()) && active == None
        && Model() == Capture(old(Model()), encode(CurrentScene()))
      ensures initialJson != [] && parse(initialJson).Some? ==>
        && CurrentScene() == parse(initialJson).value && active == None
        && Model() == Capture(old(Model()), encode(CurrentScene()))
      ensures initialJson != [] && parse(initialJson).None? ==>
        && CurrentScene() == old(CurrentScene()) && Model() == old(Model())
    {
      mounted := true;
      if initialJson == [] {
        SaveHistory();
      } else {
        LoadJson(initialJson);
      }
    }

    /**
     * saveHistory: does nothing while replaying or without a canvas;
     * otherwise captures the current scene.
     */
    method SaveHistory()
      requires WellFormed(Model())
      modifies this`history, this`index
      ensures WellFormed(Model())
      ensures replaying || !mounted ==> Model() == old(Model())
      ensures !replaying && mounted ==> Model() == Capture(old(Model()), encode(CurrentScene()))
    {
      if replaying || !mounted {
        return;
      }
      var json := encode(Scene(objects, background));
      if index < |history| - 1 {
        history := history[..index + 1];
      } else {
        assert history[..index + 1] == history;
      }
      history := history + [json];
      assert history == old(history)[..old(index) + 1] + [json];
      index := |history| - 1;
      if |history| > Capacity {
        history := history[1..];
        index := index - 1;
      }
    }

    /**
     * Replaces the scene by the loaded snapshot. The change events the load
     * raises reach saveHistory while the replaying flag is set.
     */
    method Replay(json: Snapshot) returns (loaded: bool)
      requires Valid() && replaying
      modifies this`objects, this`background, this`active, this`history, this`index
      ensures Valid() && Model() == old(Model())
      ensures loaded == parse(json).Some?
      ensures loaded ==> CurrentScene() == parse(json).value && active == None
      ensures !loaded ==> unchanged(this)
    {
      match parse(json)
      case Some(scene) =>
        objects, background, active := scene.objects, scene.background, None;
        SaveHistory();
        loaded := true;
      case None =>
        loaded := false;
    }

    /**
     * undo: with a canvas and the cursor past the first entry, move the
     * cursor back and load that entry; the list never changes. The flag is
     * cleared once the load completes, so a failed load leaves it set.
     */
    method Undo()
      requires Valid()
      modifies this
      ensures Valid() && history == old(history)
      ensures mounted == old(mounted)
      ensures Model() == if mounted then UndoHistory(old(Model())) else old(Model())
      ensures mounted && old(index) > 0 && parse(history[index]).Some? ==>
        CurrentScene() == parse(history[index]).value && active == None && !replaying
      ensures mounted && old(index) > 0 && parse(history[index]).None? ==>
        objects == old(objects) && background == old(background) && replaying
      ensures !(mounted && old(index) > 0) ==> unchanged(this)
    {
      if !mounted || index <= 0 {
        return;
      }
      replaying := true;
      index := index - 1;
      var json := history[index];
      var loaded := Replay(json);
      if loaded {
        replaying := false;
      }
    }

    /** redo: the mirror image of undo, moving the cursor forward. */
    method Redo()
      requires Valid()
      modifies this
      ensures Valid() && history == old(history)
      ensures mounted == old(mounted)
      ensures Model() == if mounted then RedoHistory(old(Model())) else old(Model())
      ensures mounted && old(index) < |history| - 1 && parse(history[index]).Some? ==>
        CurrentScene() == parse(history[index]).value && active == None && !replaying
      ensures mounted && old(index) < |history| - 1 && parse(history[index]).None? ==>
        objects == old(objects) && background == old(background) && replaying
      ensures !(mounted && old(index) < |history| - 1) ==> unchanged(this)
    {
      if !mounted || index >= |history| - 1 {
        return;
      }
      replaying := true;
      index := index + 1;
      var json := history[index];
      var loaded := Replay(json);
      if loaded {
        replaying := false;
      }
    }

    /** canvas.add fires object:added, which captures; then the object becomes active. */
    method Add(o: FabricObject)
      requires Valid() && mounted
      modifies this`objects, this`active, this`history, this`index
      ensures Valid()
      ensures objects == old(objects) + [o] && active == Some(|old(objects)|)
      ensures Model() == if replaying then old(Model()) else Capture(old(Model()), encode(CurrentScene()))
    {
      objects := objects + [o];
      SaveHistory();
      active := Some(|objects| - 1);
    }

    /** addText: a text object at the centre, 32px black Inter unless `options` says otherwise. */
    method AddText(text: string, options: Props)
      requires Valid()
      modifies this
      ensures Valid()
      ensures !old(mounted) ==> unchanged(this)
      ensures old(mounted) ==>
        && objects == old(objects) + [NewText(text, width, height, options)]
        && active == Some(|old(objects)|) && background == old(background) && mounted
        && Model() == if replaying then old(Model()) else Capture(old(Model()), encode(CurrentScene()))
    {
      if !mounted {
        return;
      }
      Add(NewText(text, width, height, options));
    }

    /** addRect: a 150x100 blue rectangle at the centre unless `options` says otherwise. */
    method AddRect(options: Props)
      requires Valid()
      modifies this
      ensures Valid()
      ensures !old(mounted) ==> unchanged(this)
      ensures old(mounted) ==>
        && objects == old(objects) + [NewRect(width, height, options)]
        && active == Some(|old(objects)|) && background == old(background) && mounted
        && Model() == if replaying then old(Model()) else Capture(old(Model()), encode(CurrentScene()))
    {
      if !mounted {
        return;
      }
      Add(NewRect(width, height, options));
    }

    /** addCircle: a yellow circle of radius 60 at the centre unless `options` says otherwise. */
    method AddCircle(options: Props)
      requires Valid()
      modifies this
      ensures Valid()
      ensures !old(mounted) ==> unchanged(this)
      ensures old(mounted) ==>
        && objects == old(objects) + [NewCircle(width, height, options)]
        && active == Some(|old(objects)|) && background == old(background) && mounted
        && Model() == if replaying then old(Model()) else Capture(old(Model()), encode(CurrentScene()))
    {
      if !mounted {
        return;
      }
      Add(NewCircle(width, height, options));
    }

    /**
     * deleteSelected: removing the active object fires object:removed, which
     * captures; the selection is then discarded.
     */
    method DeleteSelected()
      requires Valid()
      modifies this
      ensures Valid()
      ensures !(old(mounted) && old(active).Some?) ==> unchanged(this)
      ensures old(mounted) && old(active).Some? ==>
        && var i := old(active).value;
        && objects == old(objects)[..i] + old(objects)[i + 1..]
        && active == None && background == old(background) && mounted
        && Model() == if replaying then old(Model()) else Capture(old(Model()), encode(CurrentScene()))
    {
      if !mounted || active.None? {
        return;
      }
      var i := active.value;
      objects := objects[..i] + objects[i + 1..];
      SaveHistory();
      active := None;
    }

    /** The object:modified handler: a finished move, resize or rotation is captured. */
    method ObjectModified()
      requires Valid()
      modifies this`history, this`index
      ensures Valid()
      ensures Model() == if replaying || !mounted then old(Model()) else Capture(old(Model()), encode(CurrentScene()))
    {
      SaveHistory();
    }

    /** setBackgroundColor: replaces the background and captures. */
    method SetBackgroundColor(color: string)
      requires Valid()
      modifies this
      ensures Valid()
      ensures !old(mounted) ==> unchanged(this)
      ensures old(mounted) ==>
        && objects == old(objects) && background == color && active == old(active) && mounted
        && Model() == if replaying then old(Model()) else Capture(old(Model()), encode(CurrentScene()))
    {
      if !mounted {
        return;
      }
      background := color;
      SaveHistory();
    }

    /** loadJSON: load a document in place of the scene and capture it; a document that does not load changes nothing. */
    method LoadJson(json: string)
      requires Valid()
      modifies this
      ensures Valid() && mounted == old(mounted) && replaying == old(replaying)
      ensures !(old(mounted) && parse(json).Some?) ==> unchanged(this)
      ensures old(mounted) && parse(json).Some? ==>
        && CurrentScene() == parse(json).value && active == None && mounted
        && Model() == if replaying then old(Model()) else Capture(old(Model()), encode(CurrentScene()))
    {
      if !mounted {
        return;
      }
      match parse(json)
      case Some(scene) =>
        objects, background, active := scene.objects, scene.background, None;
        SaveHistory();
      case None =>
    }
  }
}
