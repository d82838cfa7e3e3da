/**
 * The design studio's landing page: the template search and ownership
 * filter, the split into pre-built and custom templates, the quick-start
 * sizes and the address a new design opens at.
 */
module DesignPage {
  import opened Wrappers
  import opened Js
  import SizePresetPicker

  /** A template as the list query returns it; `userId` is null for a pre-built one. */
  datatype Template = Template(id: int, name: string, userId: Option<int>)

  /** The three filter buttons: "all", "system" and "custom". */
  datatype OwnerFilter = AllTemplates | SystemOnly | CustomOnly

  // ---------------------------------------------------------------------
  // filteredTemplates
  // ---------------------------------------------------------------------

  /** An empty query matches everything; otherwise the lower-cased name must contain the lower-cased query. */
  function MatchesSearch(query: string, t: Template): (m: bool)
    ensures m <==> query == [] || exists i :: OccursAt(ToLower(query), ToLower(t.name), i)
  {
    query == [] || Includes(ToLower(t.name), ToLower(query))
  }

  /** "all" restricts nothing; "system" keeps templates without an owner, "custom" those with one. */
  function MatchesFilter(filter: OwnerFilter, t: Template): (m: bool)
    ensures filter == AllTemplates ==> m
    ensures filter == SystemOnly ==> (m <==> t.userId.None?)
    ensures filter == CustomOnly ==> (m <==> t.userId.Some?)
  {
    match filter
    case AllTemplates => true
    case SystemOnly => t.userId.None?
    case CustomOnly => t.userId.Some?
  }

  /**
   * `templates?.filter(...)`: nothing while the list has not loaded,
   * otherwise the templates matching both the search and the filter.
   */
  function FilteredTemplates(templates: Option<seq<Template>>, query: string, filter: OwnerFilter): (r: Option<seq<Template>>)
    ensures r.None? <==> templates.None?
    ensures r.Some? ==> forall t :: t in r.value <==> t in templates.value && MatchesSearch(query, t) && MatchesFilter(filter, t)
  {
    match templates
    case None => None
    case Some(ts) => Some(Filter(ts, (t: Template) => MatchesSearch(query, t) && MatchesFilter(filter, t)))
  }

  /** The search ignores case: a query finds the same templates however it is capitalised. */
  lemma SearchIgnoresCase(query: string, t: Template)
    ensures MatchesSearch(ToLower(query), t) == MatchesSearch(query, t)
  {
    LowerTwice(query);
  }

  lemma LowerTwice(s: string)
    ensures ToLower(ToLower(s)) == ToLower(s)
  {
    var once := ToLower(s);
    assert forall i | 0 <= i < |s| :: LowerChar(once[i]) == once[i];
  }

  /** With an empty search and the "all" filter every loaded template is shown, in order. */
  lemma EmptySearchShowsAll(templates: seq<Template>)
    ensures FilteredTemplates(Some(templates), "", AllTemplates) == Some(templates)
  {
    FilterAll(templates, (t: Template) => MatchesSearch("", t) && MatchesFilter(AllTemplates, t));
  }

  // ---------------------------------------------------------------------
  // systemTemplates / customTemplates
  // ---------------------------------------------------------------------

  function SystemTemplates(filtered: Option<seq<Template>>): seq<Template> {
    if filtered.None? then [] else Filter(filtered.value, (t: Template) => t.userId.None?)
  }

  function CustomTemplates(filtered: Option<seq<Template>>): seq<Template> {
    if filtered.None? then [] else Filter(filtered.value, (t: Template) => t.userId.Some?)
  }

  /**
   * The two sections split the filtered list: each template lands in
   * exactly one of them, pre-built ones in the first and owned ones in the
   * second; before the list loads both are empty.
   */
  lemma SectionsPartition(filtered: Option<seq<Template>>)
    ensures multiset(SystemTemplates(filtered)) + multiset(CustomTemplates(filtered)) == multiset(filtered.GetOr([]))
    ensures |SystemTemplates(filtered)| + |CustomTemplates(filtered)| == |filtered.GetOr([])|
    ensures forall t | t in SystemTemplates(filtered) :: t.userId.None?
    ensures forall t | t in CustomTemplates(filtered) :: t.userId.Some?
  {
    if filtered.Some? {
      FilterPartition(filtered.value, (t: Template) => t.userId.None?, (t: Template) => t.userId.Some?);
    }
  }

  /** Under "system" the custom section is empty, and under "custom" the pre-built one is. */
  lemma OwnerFilterEmptiesOtherSection(templates: Option<seq<Template>>, query: string)
    ensures CustomTemplates(FilteredTemplates(templates, query, SystemOnly)) == []
    ensures SystemTemplates(FilteredTemplates(templates, query, CustomOnly)) == []
  {
    if templates.Some? {
      var sys := FilteredTemplates(templates, query, SystemOnly).value;
      var cus := FilteredTemplates(templates, query, CustomOnly).value;
      FilterNone(sys, (t: Template) => t.userId.Some?);
      FilterNone(cus, (t: Template) => t.userId.None?);
    }
  }

  // ---------------------------------------------------------------------
  // handleCreateNew and the quick-start row
  // ---------------------------------------------------------------------

  /** A number in a template literal; the sizes here are whole numbers. */
  function NumberText(n: int): (r: string)
    ensures n >= 0 ==> r == NatToString(n)
    ensures n < 0 ==> r == "-" + NatToString(-n)
  {
    if n >= 0 then NatToString(n) else "-" + NatToString(-n)
  }

  const PresetParam: string := "&preset="

  /** The preset part of the address: present only for a given, non-empty id. */
  function PresetPart(presetId: Option<string>): (r: string)
    ensures r == [] <==> presetId.None? || presetId.value == []
    ensures r != [] ==> r == PresetParam + presetId.value
  {
    if presetId.Some? && presetId.value != [] then PresetParam + presetId.value else ""
  }

  /** handleCreateNew: the editor address for a new design of the given size. */
  function CreateNewUrl(width: int, height: int, presetId: Option<string>): string {
    "/design/new?width=" + NumberText(width) + "&height=" + NumberText(height) + PresetPart(presetId)
  }

  /** The digit run of decimal digits followed by anything but a digit is those digits. */
  lemma {:induction false} DigitPrefixOfDigits(ds: string, rest: string)
    requires AllDigits(ds) && (rest == [] || !IsDigit(rest[0]))
    ensures DigitPrefix(ds + rest) == ds
  {
    if ds == [] {
      assert ds + rest == rest;
    } else {
      DigitPrefixOfDigits(ds[1..], rest);
      assert (ds + rest)[1..] == ds[1..] + rest;
    }
  }

  /** A number written before a non-digit can be read back off the text, and so can what follows it. */
  lemma NumberThenRest(m: nat, x: string, n: nat, y: string)
    requires NatToString(m) + x == NatToString(n) + y
    requires x == [] || !IsDigit(x[0])
    requires y == [] || !IsDigit(y[0])
    ensures m == n && x == y
  {
    DigitPrefixOfDigits(NatToString(m), x);
    DigitPrefixOfDigits(NatToString(n), y);
    NatToStringInjective(m, n);
    var k := |NatToString(m)|;
    assert x == (NatToString(m) + x)[k..];
    assert y == (NatToString(n) + y)[k..];
  }

  lemma DropCommonPrefix(p: string, x: string, y: string)
    requires p + x == p + y
    ensures x == y
  {
    assert x == (p + x)[|p|..];
    assert y == (p + y)[|p|..];
  }

  lemma CreateNewUrlShape(w: nat, h: nat, p: Option<string>)
    ensures CreateNewUrl(w, h, p) == "/design/new?width=" + (NatToString(w) + ("&height=" + (NatToString(h) + PresetPart(p))))
  {
  }

  /** A preset id given as an empty string counts as none, as in the address it leaves. */
  function GivenPreset(presetId: Option<string>): Option<string> {
    if presetId.Some? && presetId.value != [] then presetId else None
  }

  /**
   * The address determines the design: two new-design addresses for
   * non-negative sizes are equal only when width, height and given preset
   * id are.
   */
  lemma CreateNewUrlDetermines(w1: nat, h1: nat, p1: Option<string>, w2: nat, h2: nat, p2: Option<string>)
    requires CreateNewUrl(w1, h1, p1) == CreateNewUrl(w2, h2, p2)
    ensures w1 == w2 && h1 == h2 && GivenPreset(p1) == GivenPreset(p2)
  {
    var mid := "&height=";
    var t1, t2 := PresetPart(p1), PresetPart(p2);
    var b1, b2 := NatToString(h1) + t1, NatToString(h2) + t2;
    var a1, a2 := NatToString(w1) + (mid + b1), NatToString(w2) + (mid + b2);
    CreateNewUrlShape(w1, h1, p1);
    CreateNewUrlShape(w2, h2, p2);
    DropCommonPrefix("/design/new?width=", a1, a2);
    NumberThenRest(w1, mid + b1, w2, mid + b2);
    DropCommonPrefix(mid, b1, b2);
    NumberThenRest(h1, t1, h2, t2);
    if t1 != [] && t2 != [] {
      DropCommonPrefix(PresetParam, p1.value, p2.value);
    }
  }

  /** Quick start: the first five presets, in list order, or all of them when there are fewer. */
  function QuickStart(presets: seq<SizePresetPicker.SizePreset>): (r: seq<SizePresetPicker.SizePreset>)
    ensures |r| == Min(5, |presets|)
    ensures forall i | 0 <= i < |r| :: r[i] == presets[i]
  {
    presets[..Min(5, |presets|)]
  }

  function Min(a: int, b: int): int {
    if a <= b then a else b
  }

  /** Where a size choice in the picker leads: its `onSelect` is handleCreateNew. */
  function PickerNavigation(c: SizePresetPicker.Click): Option<string> {
    if c.selected.None? then None
    else Some(CreateNewUrl(c.selected.value.width, c.selected.value.height, c.selected.value.presetId))
  }

  /**
   * A quick-start button opens the same address as choosing that preset in
   * the picker, and a custom size opens an address without a preset.
   */
  lemma QuickStartMatchesPicker(presets: seq<SizePresetPicker.SizePreset>, i: int, width: int, height: int, open: bool)
    requires 0 <= i < |QuickStart(presets)|
    ensures var p := QuickStart(presets)[i];
      PickerNavigation(SizePresetPicker.PresetSelect(p)) == Some(CreateNewUrl(p.width, p.height, Some(p.id)))
    ensures width > 0 && height > 0 ==>
      PickerNavigation(SizePresetPicker.CustomSelect(width, height, open)) == Some(CreateNewUrl(width, height, None))
    ensures CreateNewUrl(width, height, None) == "/design/new?width=" + NumberText(width) + "&height=" + NumberText(height)
  {
  }

  /** handleSelectTemplate: the editor address of an existing template. */
  function TemplateUrl(id: int): string {
    "/design/" + NumberText(id)
  }
}
