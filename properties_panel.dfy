/**
 * The properties panel of the design editor: it reads the selected
 * object's properties into its own state, with JavaScript `||` fallbacks,
 * and writes single properties back to the object.
 */
module PropertiesPanel {
  import opened Wrappers
  import opened Js
  import opened DesignCanvas

  /** The nine properties the panel shows. */
  const Keys: set<string> :=
    {"fill", "fontSize", "fontFamily", "fontWeight", "fontStyle", "textAlign", "underline", "opacity", "angle"}

  /** The properties that only text objects carry; shapes always show their defaults. */
  const TextKeys: set<string> := {"fontSize", "fontFamily", "fontWeight", "fontStyle", "textAlign", "underline"}

  /** The panel's initial state, and the fallback of every property. */
  const Defaults: Props := map[
    "fill" := Str("#000000"), "fontSize" := Num(32.0), "fontFamily" := Str("Inter"),
    "fontWeight" := Str("normal"), "fontStyle" := Str("normal"), "textAlign" := Str("left"),
    "underline" := Flag(false), "opacity" := Num(1.0), "angle" := Num(0.0)]

  /** The families the font picker offers. */
  const FontFamilies: seq<string> :=
    ["Inter", "Arial", "Helvetica", "Georgia", "Times New Roman", "Courier New", "Verdana", "Impact"]

  /** The suffix the font picker appends and the read-back strips. */
  const SansSerif: string := ", sans-serif"

  /** The three alignment buttons. */
  const Alignments: seq<string> := ["left", "center", "right"]

  /** JavaScript truthiness of a property value (an absent property is undefined, hence falsy). */
  predicate Truthy(v: Value) {
    match v
    case Num(n) => n != 0.0
    case Str(s) => s != []
    case Flag(b) => b
  }

  /** `o[key] || d` */
  function Or(o: FabricObject, key: string, d: Value): (r: Value)
    ensures key in o.props && Truthy(o.props[key]) ==> r == o.props[key]
    ensures !(key in o.props && Truthy(o.props[key])) ==> r == d
  {
    if key in o.props && Truthy(o.props[key]) then o.props[key] else d
  }

  /** Fabric's `type` of the two text classes. */
  predicate IsText(o: FabricObject) {
    o.kind == "i-text" || o.kind == "text"
  }

  /** Fabric types fontFamily as a string, so `.replace` applies to it. */
  predicate FontFamilyIsText(o: FabricObject) {
    "fontFamily" in o.props ==> o.props["fontFamily"].Str?
  }

  /** `s.replace(/, sans-serif$/, "")` */
  function StripSansSerif(s: string): (r: string)
    ensures EndsWith(s, SansSerif) ==> r + SansSerif == s
    ensures !EndsWith(s, SansSerif) ==> r == s
  {
    if EndsWith(s, SansSerif) then s[..|s| - |SansSerif|] else s
  }

  /** What the font picker writes for family `f`. */
  function FontValue(f: string): (r: string)
    ensures |r| == |f| + |SansSerif| && r[..|f|] == f && EndsWith(r, SansSerif)
  {
    f + SansSerif
  }

  /** The read-back effect: the panel state for a newly selected object. */
  function ReadBack(o: FabricObject): (p: Props)
    requires FontFamilyIsText(o)
    ensures p.Keys == Keys
    ensures p["fontFamily"] == if IsText(o) then Str(StripSansSerif(Or(o, "fontFamily", Str("Inter")).s)) else Str("Inter")
  {
    var text := IsText(o);
    map[
      "fill" := Or(o, "fill", Str("#000000")),
      "fontSize" := if text then Or(o, "fontSize", Num(32.0)) else Num(32.0),
      "fontFamily" := if text then Str(StripSansSerif(Or(o, "fontFamily", Str("Inter")).s)) else Str("Inter"),
      "fontWeight" := if text then Or(o, "fontWeight", Str("normal")) else Str("normal"),
      "fontStyle" := if text then Or(o, "fontStyle", Str("normal")) else Str("normal"),
      "textAlign" := if text then Or(o, "textAlign", Str("left")) else Str("left"),
      "underline" := if text then Or(o, "underline", Flag(false)) else Flag(false),
      "opacity" := Or(o, "opacity", Num(1.0)),
      "angle" := Or(o, "angle", Num(0.0))]
  }

  /**
   * Every property but the font family reads back with the panel's initial
   * value as its `||` fallback, and a shape shows that value for every
   * text-only property.
   */
  lemma ReadBackFallsBackToDefaults(o: FabricObject)
    requires FontFamilyIsText(o)
    ensures forall k | k in Keys - {"fontFamily"} ::
      ReadBack(o)[k] == if k in TextKeys && !IsText(o) then Defaults[k] else Or(o, k, Defaults[k])
  {
    var p := ReadBack(o);
    forall k | k in Keys - {"fontFamily"}
      ensures p[k] == if k in TextKeys && !IsText(o) then Defaults[k] else Or(o, k, Defaults[k])
    {
      if k in TextKeys {
        assert k == "fontSize" || k == "fontWeight" || k == "fontStyle" || k == "textAlign" || k == "underline";
      } else {
        assert k == "fill" || k == "opacity" || k == "angle";
      }
    }
  }

  /** `selectedObject.set(key, v)`: only that property changes. */
  function SetProp(o: FabricObject, key: string, v: Value): (r: FabricObject)
    ensures r.kind == o.kind && r.text == o.text
    ensures r.props.Keys == o.props.Keys + {key} && r.props[key] == v
    ensures forall k | k in o.props && k != key :: r.props[k] == o.props[k]
  {
    FabricObject(o.kind, o.text, o.props[key := v])
  }

  /** The bold button: "normal" exactly when the weight is "bold", "bold" otherwise. */
  function ToggleBold(w: Value): (r: Value)
    ensures r == Str("normal") <==> w == Str("bold")
    ensures r == Str("bold") <==> w != Str("bold")
  {
    if w == Str("bold") then Str("normal") else Str("bold")
  }

  /** The italic button. */
  function ToggleItalic(s: Value): (r: Value)
    ensures r == Str("normal") <==> s == Str("italic")
    ensures r == Str("italic") <==> s != Str("italic")
  {
    if s == Str("italic") then Str("normal") else Str("italic")
  }

  /** The underline button writes the negation of the shown flag. */
  function ToggleUnderline(u: Value): (r: Value)
    requires u.Flag?
    ensures r.Flag? && r.b != u.b
  {
    Flag(!u.b)
  }

  /**
   * Two presses of the bold button restore the weight only when it was
   * "bold" or "normal": any other weight, such as "600", ends up "normal".
   */
  lemma BoldTwiceRestoresOnlyTwoStates(w: Value)
    ensures ToggleBold(ToggleBold(w)) == w <==> w == Str("bold") || w == Str("normal")
    ensures w != Str("bold") ==> ToggleBold(ToggleBold(w)) == Str("normal")
  {
  }

  /** Choosing a family from the picker and reselecting the object shows that family again. */
  lemma FontRoundTrip(o: FabricObject, f: string)
    requires IsText(o) && FontFamilyIsText(o)
    ensures var o' := SetProp(o, "fontFamily", Str(FontValue(f)));
      FontFamilyIsText(o') && ReadBack(o')["fontFamily"] == Str(f)
  {
    var o' := SetProp(o, "fontFamily", Str(FontValue(f)));
    assert Or(o', "fontFamily", Str("Inter")) == Str(f + SansSerif);
    assert (f + SansSerif)[..|f|] == f;
  }

  /** Every listed family reads back as itself once written by the picker. */
  lemma ListedFontsRoundTrip(o: FabricObject)
    requires IsText(o) && FontFamilyIsText(o)
    ensures forall f | f in FontFamilies ::
      ReadBack(SetProp(o, "fontFamily", Str(FontValue(f))))["fontFamily"] == Str(f)
  {
    forall f | f in FontFamilies
      ensures ReadBack(SetProp(o, "fontFamily", Str(FontValue(f))))["fontFamily"] == Str(f)
    {
      FontRoundTrip(o, f);
    }
  }

  /**
   * Every other property of a text object reads back as written when the
   * written value is truthy, and as its default when it is falsy: an
   * opacity of 0 shows as 1, an angle of 0 as 0, an empty fill as black.
   */
  lemma WriteThenReadBack(o: FabricObject, k: string, v: Value)
    requires IsText(o) && FontFamilyIsText(o) && k in Keys && k != "fontFamily"
    ensures var o' := SetProp(o, k, v);
      && FontFamilyIsText(o')
      && ReadBack(o')[k] == if Truthy(v) then v else Defaults[k]
  {
    var o' := SetProp(o, k, v);
    assert FontFamilyIsText(o');
    ReadBackFallsBackToDefaults(o');
    assert k in Keys - {"fontFamily"};
  }

  /** A stored opacity of 0 is reported as 1, on any object. */
  lemma ZeroOpacityReadsAsOne(o: FabricObject)
    requires FontFamilyIsText(o) && "opacity" in o.props && o.props["opacity"] == Num(0.0)
    ensures ReadBack(o)["opacity"] == Num(1.0)
  {
    assert "opacity" in Keys - {"fontFamily"};
  }

  /** A shape shows the default font properties whatever it stores. */
  lemma ShapesShowFontDefaults(o: FabricObject)
    requires !IsText(o) && FontFamilyIsText(o)
    ensures forall k | k in TextKeys :: ReadBack(o)[k] == Defaults[k]
  {
    forall k | k in TextKeys
      ensures ReadBack(o)[k] == Defaults[k]
    {
      if k != "fontFamily" {
        assert k in Keys - {"fontFamily"};
      }
    }
  }

  /** Each alignment button writes its own alignment, which then reads back unchanged. */
  lemma AlignmentsReadBack(o: FabricObject)
    requires IsText(o) && FontFamilyIsText(o)
    ensures forall a | a in Alignments :: ReadBack(SetProp(o, "textAlign", Str(a)))["textAlign"] == Str(a)
  {
    forall a | a in Alignments
      ensures ReadBack(SetProp(o, "textAlign", Str(a)))["textAlign"] == Str(a)
    {
      WriteThenReadBack(o, "textAlign", Str(a));
    }
  }

  /** A text object fresh from addText, without options, reads back as the panel's initial state. */
  lemma NewTextReadsDefaults(text: string, width: nat, height: nat)
    ensures FontFamilyIsText(NewText(text, width, height, map[]))
    ensures ReadBack(NewText(text, width, height, map[])) == Defaults
  {
    var o := NewText(text, width, height, map[]);
    NewTextStores(text, width, height);
    NewTextLacks(text, width, height, "fontWeight");
    NewTextLacks(text, width, height, "fontStyle");
    NewTextLacks(text, width, height, "textAlign");
    NewTextLacks(text, width, height, "underline");
    NewTextLacks(text, width, height, "opacity");
    NewTextLacks(text, width, height, "angle");
    assert StripSansSerif("Inter, sans-serif") == "Inter" by {
      assert EndsWith("Inter, sans-serif", SansSerif);
    }
  }

  /** The font properties a text object from addText without options stores. */
  lemma NewTextStores(text: string, width: nat, height: nat)
    ensures var p := NewText(text, width, height, map[]).props;
      && p["fill"] == Str("#000000") && p["fontSize"] == Num(32.0) && p["fontFamily"] == Str("Inter, sans-serif")
  {
    var d := TextDefaults(width, height);
    assert d + map[] == d;
  }

  /** The other panel properties such an object does not store. */
  lemma NewTextLacks(text: string, width: nat, height: nat, k: string)
    requires k == "fontWeight" || k == "fontStyle" || k == "textAlign" || k == "underline" || k == "opacity" || k == "angle"
    ensures k !in NewText(text, width, height, map[]).props
  {
    var d := TextDefaults(width, height);
    assert d + map[] == d;
  }

  /** The panel: its displayed state beside the canvas it edits. */
  class Panel {
    const canvas: Canvas
    /** The `properties` state. */
    var properties: Props

    constructor (canvas: Canvas)
      ensures this.canvas == canvas && properties == Defaults
    {
      this.canvas := canvas;
      properties := Defaults;
    }

    /** The selection effect: nothing without a selection, otherwise the object's read-back. */
    method SelectionChanged(selected: Option<nat>)
      requires selected.Some? ==> selected.value < |canvas.objects| && FontFamilyIsText(canvas.objects[selected.value])
      modifies this`properties
      ensures selected.None? ==> properties == old(properties)
      ensures selected.Some? ==> properties == ReadBack(canvas.objects[selected.value])
    {
      if selected.Some? {
        properties := ReadBack(canvas.objects[selected.value]);
      }
    }

    /**
     * updateProperty: without a selection or a mounted canvas, nothing.
     * Otherwise the selected object gets exactly the one property, the
     * panel state merges exactly that key, and the history is untouched.
     */
    method UpdateProperty(selected: Option<nat>, prop: string, value: Value)
      requires canvas.Valid()
      requires selected.Some? ==> selected.value < |canvas.objects|
      modifies canvas`objects, this`properties
      ensures canvas.Valid() && canvas.Model() == old(canvas.Model())
      ensures selected.None? || !canvas.mounted ==>
        canvas.objects == old(canvas.objects) && properties == old(properties)
      ensures selected.Some? && canvas.mounted ==>
        && canvas.objects == old(canvas.objects)[selected.value := SetProp(old(canvas.objects[selected.value]), prop, value)]
        && properties == old(properties)[prop := value]
    {
      if selected.None? || !canvas.mounted {
        return;
      }
      var i := selected.value;
      canvas.objects := canvas.objects[i := SetProp(canvas.objects[i], prop, value)];
      properties := properties[prop := value];
    }
  }
}
