/**
 * The canvas-size dialog of the design studio: the platform tabs built
 * from the preset list, the presets each tab lists, and the two ways of
 * choosing a size (a preset, or a custom width and height typed in).
 */
module SizePresetPicker {
  import opened Wrappers
  import opened Js

  /** A canvas size preset as the presets query returns it. */
  datatype SizePreset = SizePreset(id: string, platform: string, format: string, width: int, height: int)

  // ---------------------------------------------------------------------
  // The platform tabs: `[...new Set(presets.map(p => p.platform))]`
  // ---------------------------------------------------------------------

  predicate NoDuplicates<T(==)>(s: seq<T>) {
    forall i, j | 0 <= i < j < |s| :: s[i] != s[j]
  }

  /** The position of the first occurrence of `x`. */
  function FirstIndex<T(==)>(s: seq<T>, x: T): (i: nat)
    requires x in s
    ensures i < |s| && s[i] == x
    ensures forall j | 0 <= j < i :: s[j] != x
  {
    if s[0] == x then 0 else 1 + FirstIndex(s[1..], x)
  }

  /**
   * A Set built from a list and spread back into one: every value once,
   * in the order a Set keeps, that of insertion.
   */
  function Unique(s: seq<string>): (r: seq<string>)
    ensures NoDuplicates(r)
    ensures forall x :: x in r <==> x in s
    decreases |s|
  {
    if s == [] then []
    else
      var init := Unique(s[..|s| - 1]);
      var x := s[|s| - 1];
      assert s == s[..|s| - 1] + [x];
      if x in init then init else init + [x]
  }

  /** The platform of every preset, in list order. */
  function PlatformOfEach(presets: seq<SizePreset>): (r: seq<string>)
    ensures |r| == |presets| && forall i | 0 <= i < |presets| :: r[i] == presets[i].platform
  {
    seq(|presets|, i requires 0 <= i < |presets| => presets[i].platform)
  }

  /** The tabs: each platform some preset has, once, in order of first appearance. */
  function Platforms(presets: seq<SizePreset>): (r: seq<string>)
    ensures NoDuplicates(r)
    ensures forall pl :: pl in r <==> exists p | p in presets :: p.platform == pl
  {
    var names := PlatformOfEach(presets);
    var r := Unique(names);
    assert forall pl :: pl in names <==> exists p | p in presets :: p.platform == pl by {
      forall pl
        ensures pl in names <==> exists p | p in presets :: p.platform == pl
      {
        if pl in names {
          var i :| 0 <= i < |names| && names[i] == pl;
          assert presets[i] in presets;
        }
        if p :| p in presets && p.platform == pl {
          var i :| 0 <= i < |presets| && presets[i] == p;
          assert names[i] == pl;
        }
      }
    }
    r
  }

  /** Appending leaves the first occurrence of anything already present where it was. */
  lemma FirstIndexAppend<T>(s: seq<T>, x: T, y: T)
    requires y in s
    ensures FirstIndex(s + [x], y) == FirstIndex(s, y)
  {
    var i := FirstIndex(s, y);
    var t := s + [x];
    assert t[i] == y;
    assert forall j | 0 <= j < i :: t[j] == s[j];
    FirstIndexUnique(t, y, i);
  }

  /** The first occurrence is the one index holding `x` with no `x` before it. */
  lemma {:induction false} FirstIndexUnique<T>(s: seq<T>, x: T, i: nat)
    requires i < |s| && s[i] == x && forall j | 0 <= j < i :: s[j] != x
    ensures FirstIndex(s, x) == i
  {
    if i > 0 {
      assert s[1..][i - 1] == x;
      forall j | 0 <= j < i - 1
        ensures s[1..][j] != x
      {
        assert s[1..][j] == s[j + 1];
      }
      FirstIndexUnique(s[1..], x, i - 1);
    }
  }

  /** The de-duplicated list keeps the order in which values first appear. */
  lemma {:induction false} UniqueKeepsFirstAppearanceOrder(s: seq<string>)
    ensures forall i, j | 0 <= i < j < |Unique(s)| ::
      FirstIndex(s, Unique(s)[i]) < FirstIndex(s, Unique(s)[j])
    decreases |s|
  {
    if s != [] {
      var init, x := s[..|s| - 1], s[|s| - 1];
      assert s == init + [x];
      UniqueKeepsFirstAppearanceOrder(init);
      var u, r := Unique(init), Unique(s);
      forall y | y in u
        ensures FirstIndex(s, y) == FirstIndex(init, y) < |init|
      {
        FirstIndexAppend(init, x, y);
      }
      if x !in u {
        assert r == u + [x];
        FirstIndexUnique(s, x, |init|);
        forall i, j | 0 <= i < j < |r|
          ensures FirstIndex(s, r[i]) < FirstIndex(s, r[j])
        {
          assert r[i] == u[i] && r[i] in u;
          if j < |u| {
            assert r[j] == u[j] && r[j] in u;
          }
        }
      } else {
        assert r == u;
        forall i, j | 0 <= i < j < |r|
          ensures FirstIndex(s, r[i]) < FirstIndex(s, r[j])
        {
          assert r[i] in u && r[j] in u;
        }
      }
    }
  }

  /** The tabs follow the order in which platforms first appear in the preset list. */
  lemma PlatformsInFirstAppearanceOrder(presets: seq<SizePreset>)
    ensures var names, r := PlatformOfEach(presets), Platforms(presets);
      forall i, j | 0 <= i < j < |r| :: FirstIndex(names, r[i]) < FirstIndex(names, r[j])
  {
    UniqueKeepsFirstAppearanceOrder(PlatformOfEach(presets));
  }

  // ---------------------------------------------------------------------
  // One tab: `presets.filter(p => p.platform === platform)`
  // ---------------------------------------------------------------------

  function Tab(presets: seq<SizePreset>, platform: string): seq<SizePreset> {
    Filter(presets, (p: SizePreset) => p.platform == platform)
  }

  /** A tab lists every preset of its platform as often as the list has it, and no other preset. */
  lemma TabHoldsItsPlatform(presets: seq<SizePreset>, platform: string, p: SizePreset)
    ensures multiset(Tab(presets, platform))[p] == if p.platform == platform then multiset(presets)[p] else 0
  {
    FilterMultiplicity(presets, (q: SizePreset) => q.platform == platform, p);
  }

  /** A tab keeps list order: a preset added at the end of the list lands at the end of its own tab only. */
  lemma TabKeepsOrder(presets: seq<SizePreset>, p: SizePreset, platform: string)
    ensures Tab(presets + [p], platform) == Tab(presets, platform) + (if p.platform == platform then [p] else [])
  {
    FilterAppend(presets, [p], (q: SizePreset) => q.platform == platform);
    assert [p][1..] == [];
  }

  /** Every preset is offered: its platform has a tab, and that tab lists it. */
  lemma EveryPresetHasATab(presets: seq<SizePreset>, p: SizePreset)
    requires p in presets
    ensures p.platform in Platforms(presets)
    ensures p in Tab(presets, p.platform)
  {
  }

  // ---------------------------------------------------------------------
  // Choosing a size
  // ---------------------------------------------------------------------

  /** The arguments of an `onSelect` call. */
  datatype Selection = Selection(width: int, height: int, presetId: Option<string>)

  /** What a click does: the `onSelect` call it makes, if any, and whether the dialog stays open. */
  datatype Click = Click(selected: Option<Selection>, open: bool)

  /** handlePresetSelect: selects the preset's size and id, then closes. */
  function PresetSelect(preset: SizePreset): (c: Click)
    ensures c.selected.Some? && !c.open
    ensures c.selected.value.width == preset.width && c.selected.value.height == preset.height
    ensures c.selected.value.presetId == Some(preset.id)
  {
    Click(Some(Selection(preset.width, preset.height, Some(preset.id))), false)
  }

  /** The create button is disabled unless both sizes are positive. */
  predicate CreateDisabled(width: int, height: int) {
    width <= 0 || height <= 0
  }

  /**
   * handleCustomSelect: with both sizes positive, selects them without a
   * preset id and closes; otherwise does nothing.
   */
  function CustomSelect(width: int, height: int, open: bool): (c: Click)
    ensures c.selected.Some? <==> width > 0 && height > 0
    ensures c.selected.Some? ==> c.selected.value == Selection(width, height, None) && !c.open
    ensures c.selected.None? ==> c.open == open
  {
    if width > 0 && height > 0 then Click(Some(Selection(width, height, None)), false) else Click(None, open)
  }

  /** The button is disabled exactly when its click would do nothing. */
  lemma DisabledExactlyWhenInert(width: int, height: int, open: bool)
    ensures CreateDisabled(width, height) <==> CustomSelect(width, height, open) == Click(None, open)
  {
  }

  /** `parseInt(e.target.value) || 0`: the size a typed text sets. */
  function TypedSize(text: string): (n: int)
    ensures ParseInt(text).None? ==> n == 0
    ensures ParseInt(text).Some? ==> n == ParseInt(text).value
  {
    ParseIntOrZero(text)
  }

  /** Text that does not start with a number sets the size to 0, which disables the button. */
  lemma NonNumericInputDisables(text: string, other: int)
    requires DigitPrefix(AfterSign(TrimStart(text))) == []
    ensures TypedSize(text) == 0
    ensures CreateDisabled(TypedSize(text), other) && CreateDisabled(other, TypedSize(text))
  {
  }

  /** Positive sizes typed in decimal are selected as typed. */
  lemma TypedSizesSelect(w: nat, h: nat, open: bool)
    requires w > 0 && h > 0
    ensures var width, height := TypedSize(NatToString(w)), TypedSize(NatToString(h));
      && !CreateDisabled(width, height)
      && CustomSelect(width, height, open) == Click(Some(Selection(w, h, None)), false)
  {
    ParseIntOfNatToString(w);
    ParseIntOfNatToString(h);
  }
}
