/**
 * The text-layer converter (`layers/text.py`): it fills one Lottie layer
 * record from a Synfig text layer. The record gets the fixed header keys,
 * the transform built from the layer's origin, orientation and size, one
 * text animator carrying the colour and the opacity, the constant anchor
 * alignment, and one style run whose text is the layer's text with its
 * newlines turned into carriage returns.
 */
module TextLayer {
  import opened Errors
  import opened Xml
  import opened Strings
  import opened Numbers

  // ---------------------------------------------------------------------
  // Inputs.

  /** How the animation classifier sees a value node. */
  datatype Animation = NotAnimated | Animated | SingleWaypoint

  /** A Synfig layer as this converter reads it: its description and its
      parameters by name, each the `<param>` element of the document. */
  datatype SynfigLayer = SynfigLayer(desc: string, params: map<string, Element>)

  /** The constants the converter reads from the exporter's settings. */
  datatype Settings = Settings(
    default3D: int,
    layerTextType: int,
    defaultStretch: int,
    defaultAutoOrient: int,
    opacityConstant: real,
    ip: real,
    op: real)

  /** `layer.get_param(name)`. */
  function GetParam(layer: SynfigLayer, name: string): (r: Result<Element>)
    ensures r.Ok? <==> name in layer.params
    ensures r.Ok? ==> r.value == layer.params[name]
    ensures r.Err? ==> r.error == MissingParameter(name)
  {
    if name in layer.params then Ok(layer.params[name]) else Err(MissingParameter(name))
  }

  /** `float(e.attrib["value"])`: a missing attribute raises `KeyError`,
      a malformed literal `ValueError`. */
  function FloatAttr(e: Element): (r: Result<real>)
    ensures r.Ok? <==> "value" in e.attrib && ParseFloat(e.attrib["value"]).Some?
    ensures r.Ok? ==> r.value == ParseFloat(e.attrib["value"]).value
    ensures "value" !in e.attrib ==> r == Err(KeyError("value"))
    ensures "value" in e.attrib && ParseFloat(e.attrib["value"]).None? ==>
      r == Err(ValueError(e.attrib["value"]))
  {
    var literal :- Attr(e, "value");
    match ParseFloat(literal)
    case None => Err(ValueError(literal))
    case Some(x) => Ok(x)
  }

  // ---------------------------------------------------------------------
  // The Lottie values the converter writes.

  /** `{"a": 0, "k": k, "ix": ix}`: a constant scalar property. */
  datatype StaticValue = StaticValue(a: int, k: int, ix: int)

  /** The range selector of a text animator. */
  datatype Selector = Selector(
    t: int, xe: StaticValue, ne: StaticValue, a: StaticValue,
    b: int, rn: int, sh: int, r: int)

  /** A property slot of the animator. The helpers that fill `fc` and `o`
      are not part of this model; the slot records what they were given. */
  datatype Property =
    | Empty                 // `{}`, not yet filled
    | ColorFill(color: Element)   // `color.fill_path(..., "fc")`
    | Keyframed(node: Element)    // `gen_value_Keyframed(..., node, ...)`
    | ValueOf(v: real)            // `gen_properties_value(..., v, ...)`

  datatype AnimatorProps = AnimatorProps(fc: Property, o: Property)

  /** One entry of `t.a`; `a` is absent until the converter adds it. */
  datatype Animator = Animator(nm: string, s: Selector, a: Option<AnimatorProps>)

  /** `{"a": 0, "k": [..], "ix": ix}`: a constant vector property. */
  datatype VectorValue = VectorValue(a: int, k: seq<int>, ix: int)

  /** `t.m`: grouping and anchor alignment. */
  datatype Alignment = Alignment(g: int, a: VectorValue)

  /** `s` of a style run: size, font, text, justification, tracking, line
      height, baseline shift and fill colour. */
  datatype TextStyle = TextStyle(
    s: int, f: string, t: string, j: int, tr: int, lh: int, ls: int, fc: seq<int>)

  /** One entry of `t.d.k`: the style and the time it starts at. */
  datatype StyleRun = StyleRun(s: TextStyle, t: int)

  /** `ks`, filled by the transform helper, which is not part of this
      model: it records the position, anchor and scale parameters. */
  datatype Transform = NoTransform | TransformOf(pos: Element, anchor: Element, scale: Element)

  /** `bm`, filled by the blend helper, which is not part of this model. */
  datatype Blend = NoBlend | BlendOf(layer: SynfigLayer)

  /** The whole record, `t` flattened into `m`, `a` and `d` (`t.d.k`). */
  datatype LayerRecord = LayerRecord(
    ddd: int, ind: int, ty: int, nm: string, sr: int, ks: Transform, ao: int,
    ip: real, op: real, st: int,
    m: Option<Alignment>, a: seq<Animator>, d: seq<StyleRun>,
    bm: Blend)

  // ---------------------------------------------------------------------
  // The pure parts.

  const DefaultSelector := Selector(
    0, StaticValue(0, 0, 7), StaticValue(0, 0, 8), StaticValue(0, 100, 4), 1, 0, 1, 1)

  /** `calc_default_text_properties(layer)`: the animator skeleton, named
      after the layer. */
  function DefaultTextProperties(layer: SynfigLayer): (r: Animator)
    ensures r.nm == layer.desc && r.a.None?
    ensures r.s.t == 0 && r.s.a.k == 100 && r.s.b == 1 && r.s.rn == 0 && r.s.sh == 1 && r.s.r == 1
    ensures r.s.xe.k == 0 && r.s.ne.k == 0
  {
    Animator(layer.desc, DefaultSelector, None)
  }

  /** The skeleton depends on the layer through its name only. */
  lemma DefaultTextPropertiesOnlyName(l1: SynfigLayer, l2: SynfigLayer)
    ensures DefaultTextProperties(l1).nm == l1.desc
    ensures DefaultTextProperties(l1).(nm := "") == DefaultTextProperties(l2).(nm := "")
    ensures DefaultTextProperties(l1).a.None?
  {
  }

  /** The value `calc_anchor_alignment` stores: grouping 1, constant anchor
      `[0, 0]`. */
  function AnchorAlignment(): (r: Alignment)
    ensures r.g == 1 && r.a.a == 0 && r.a.k == [0, 0]
  {
    Alignment(1, VectorValue(0, [0, 0], 2))
  }

  /** The style run template. */
  const DefaultStyle := TextStyle(60, "", "", 2, 0, 50, 1, [1, 1, 1, 1])

  /** The line-break rejoin: the lines of `text` joined by a run of
      `round(vcompress)` carriage returns. */
  function LineBreakText(text: string, vcompress: real): (r: string)
    ensures '\n' !in r
  {
    var sep := Repeat('\r', RoundHalfEven(vcompress));
    SplitOnCharPieces(text, '\n');
    JoinAvoids(sep, SplitOn(text, "\n"), '\n');
    Join(sep, SplitOn(text, "\n"))
  }

  /** A compression that rounds to zero or below drops the newlines. */
  lemma LineBreakNoSeparator(text: string, vcompress: real)
    requires RoundHalfEven(vcompress) <= 0
    ensures LineBreakText(text, vcompress) == RemoveChar(text, '\n')
  {
    assert Repeat('\r', RoundHalfEven(vcompress)) == "";
    JoinEmptySplitOn(text, '\n');
  }

  /** A single line is kept as it is, whatever the compression. */
  lemma LineBreakSingleLine(text: string, vcompress: real)
    requires '\n' !in text
    ensures LineBreakText(text, vcompress) == text
  {
    SplitOnAbsent(text, '\n');
  }

  /** With at least one carriage return per break and none in the text,
      splitting the result on the break gives the original lines back. */
  lemma LineBreakRoundTrip(text: string, vcompress: real)
    requires RoundHalfEven(vcompress) >= 1 && '\r' !in text
    ensures SplitOn(LineBreakText(text, vcompress), Repeat('\r', RoundHalfEven(vcompress)))
            == SplitOn(text, "\n")
  {
    var sep := Repeat('\r', RoundHalfEven(vcompress));
    var lines := SplitOn(text, "\n");
    SplitOnAvoids(text, "\n", '\r');
    assert sep[0] == '\r';
    SplitOnJoin(lines, sep);
  }

  /** The text of the single style run: the first child of the `text`
      parameter must have text (else `.split` raises `AttributeError`); the
      first child of `vcompress` must carry a numeric `value`. */
  function StyleText(layer: SynfigLayer): (r: Result<string>)
    ensures r.Ok? ==> "text" in layer.params && "vcompress" in layer.params
    ensures r.Ok? ==> '\n' !in r.value
  {
    var textParam :- GetParam(layer, "text");
    var textNode :- Child(textParam, 0);
    if textNode.text.None? then Err(AttributeError)
    else
      var vParam :- GetParam(layer, "vcompress");
      var vNode :- Child(vParam, 0);
      var v :- FloatAttr(vNode);
      Ok(LineBreakText(textNode.text.value, v))
  }

  /** A static opacity value times the opacity constant. */
  function Scaled(x: real, c: real): real
  {
    x * c
  }

  /** The node the animation-type branch hands to the keyframe encoder:
      the value node with its `type` set to `opacity`. */
  function AsOpacity(v: Element): Element
  {
    v.(attrib := v.attrib["type" := "opacity"])
  }

  /** The opacity slot: the first child of the `amount` parameter is
      classified; an animated node goes to the keyframe encoder typed as
      opacity; otherwise the `value` of that node, or of its first
      grandchild when it wraps a single waypoint, is scaled by the opacity
      constant. */
  function OpacityProperty(amount: Element, isAnimated: Element -> Animation, c: real): (r: Result<Property>)
    ensures r.Ok? ==> |amount.children| > 0
    ensures r.Ok? ==> (r.value.Keyframed? <==> isAnimated(amount.children[0]) == Animated)
    ensures r.Ok? ==> r.value.Keyframed? || r.value.ValueOf?
    ensures |amount.children| > 0 && isAnimated(amount.children[0]) == Animated ==>
              r == Ok(Keyframed(AsOpacity(amount.children[0])))
  {
    var v :- Child(amount, 0);
    match isAnimated(v)
    case Animated => Ok(Keyframed(AsOpacity(v)))
    case NotAnimated =>
      var x :- FloatAttr(v);
      Ok(ValueOf(Scaled(x, c)))
    case SingleWaypoint =>
      var w :- Child(v, 0);
      var g :- Child(w, 0);
      var x :- FloatAttr(g);
      Ok(ValueOf(Scaled(x, c)))
  }

  /** `ks`: the transform helper is given the origin as position, the
      orientation as anchor and the size as scale. */
  function TransformParams(layer: SynfigLayer): (r: Result<Transform>)
    ensures r.Ok? <==> "origin" in layer.params && "orient" in layer.params && "size" in layer.params
    ensures r.Ok? ==>
      r.value == TransformOf(layer.params["origin"], layer.params["orient"], layer.params["size"])
    ensures "origin" !in layer.params ==> r == Err(MissingParameter("origin"))
    ensures "origin" in layer.params && "orient" !in layer.params ==> r == Err(MissingParameter("orient"))
    ensures "origin" in layer.params && "orient" in layer.params && "size" !in layer.params ==>
      r == Err(MissingParameter("size"))
  {
    var origin :- GetParam(layer, "origin");
    var orient :- GetParam(layer, "orient");
    var size :- GetParam(layer, "size");
    Ok(TransformOf(origin, orient, size))
  }

  /** The one animator: the skeleton with its colour and opacity slots. */
  function AnimatorOf(layer: SynfigLayer, isAnimated: Element -> Animation, c: real): (r: Result<Animator>)
    ensures r.Ok? <==> "color" in layer.params && "amount" in layer.params &&
                       OpacityProperty(layer.params["amount"], isAnimated, c).Ok?
    ensures r.Ok? ==> r.value.nm == layer.desc && r.value.s == DefaultSelector
    ensures r.Ok? ==> r.value.a == Some(AnimatorProps(
      ColorFill(layer.params["color"]), OpacityProperty(layer.params["amount"], isAnimated, c).value))
  {
    var color :- GetParam(layer, "color");
    var amount :- GetParam(layer, "amount");
    var o :- OpacityProperty(amount, isAnimated, c);
    Ok(DefaultTextProperties(layer).(a := Some(AnimatorProps(ColorFill(color), o))))
  }

  /** The whole record `gen_layer_text(lottie, layer, idx)` produces, or
      the exception it raises, in the order the source reads the layer. */
  function TextLayerOf(layer: SynfigLayer, idx: int, cfg: Settings, isAnimated: Element -> Animation): Result<LayerRecord>
  {
    var ks :- TransformParams(layer);
    var animator :- AnimatorOf(layer, isAnimated, cfg.opacityConstant);
    var text :- StyleText(layer);
    Ok(LayerRecord(
      cfg.default3D, idx + 1, cfg.layerTextType, layer.desc, cfg.defaultStretch,
      ks, cfg.defaultAutoOrient, cfg.ip, cfg.op, 0,
      Some(AnchorAlignment()), [animator], [StyleRun(DefaultStyle.(t := text), 0)],
      BlendOf(layer)))
  }

  /** The record assembled from its three parts. */
  lemma TextLayerOfParts(layer: SynfigLayer, idx: int, cfg: Settings, isAnimated: Element -> Animation)
    ensures TransformParams(layer).Ok? && AnimatorOf(layer, isAnimated, cfg.opacityConstant).Ok? &&
            StyleText(layer).Ok? ==>
      TextLayerOf(layer, idx, cfg, isAnimated) == Ok(LayerRecord(
        cfg.default3D, idx + 1, cfg.layerTextType, layer.desc, cfg.defaultStretch,
        TransformParams(layer).value, cfg.defaultAutoOrient, cfg.ip, cfg.op, 0,
        Some(AnchorAlignment()), [AnimatorOf(layer, isAnimated, cfg.opacityConstant).value],
        [StyleRun(DefaultStyle.(t := StyleText(layer).value), 0)],
        BlendOf(layer)))
  {
  }

  // ---------------------------------------------------------------------
  // What the record holds.

  /** The parameters the converter reads, each looked up by name. */
  const RequiredParams: set<string> :=
    {"origin", "orient", "size", "color", "amount", "text", "vcompress"}

  /** The opacity value node can be read: a not-animated node, or the
      grandchild of a single-waypoint node, carries a numeric `value`. */
  predicate OpacityReadable(amount: Element, isAnimated: Element -> Animation)
  {
    |amount.children| > 0 &&
    var v := amount.children[0];
    match isAnimated(v)
    case Animated => true
    case NotAnimated => NumericValue(v)
    case SingleWaypoint =>
      |v.children| > 0 && |v.children[0].children| > 0 && NumericValue(v.children[0].children[0])
  }

  predicate NumericValue(e: Element)
  {
    "value" in e.attrib && ParseFloat(e.attrib["value"]).Some?
  }

  /** Everything the converter reads is there and well formed. */
  predicate Readable(layer: SynfigLayer, isAnimated: Element -> Animation)
  {
    (forall name :: name in RequiredParams ==> name in layer.params) &&
    OpacityReadable(layer.params["amount"], isAnimated) &&
    |layer.params["text"].children| > 0 && layer.params["text"].children[0].text.Some? &&
    |layer.params["vcompress"].children| > 0 && NumericValue(layer.params["vcompress"].children[0])
  }

  /** The opacity slot can be filled exactly when its value node can be read. */
  lemma OpacityPropertyOk(amount: Element, isAnimated: Element -> Animation, c: real)
    ensures OpacityProperty(amount, isAnimated, c).Ok? <==> OpacityReadable(amount, isAnimated)
  {
  }

  /** The style text can be computed exactly when the text node has text
      and the compression node a numeric value. */
  lemma StyleTextOk(layer: SynfigLayer)
    requires "text" in layer.params && "vcompress" in layer.params
    ensures StyleText(layer).Ok? <==>
      |layer.params["text"].children| > 0 && layer.params["text"].children[0].text.Some? &&
      |layer.params["vcompress"].children| > 0 && NumericValue(layer.params["vcompress"].children[0])
  {
  }

  /** The conversion succeeds exactly on readable layers. */
  lemma TextLayerOfOk(layer: SynfigLayer, idx: int, cfg: Settings, isAnimated: Element -> Animation)
    ensures TextLayerOf(layer, idx, cfg, isAnimated).Ok? <==> Readable(layer, isAnimated)
  {
    if forall name :: name in RequiredParams ==> name in layer.params {
      OpacityPropertyOk(layer.params["amount"], isAnimated, cfg.opacityConstant);
      StyleTextOk(layer);
    } else {
      var name :| name in RequiredParams && name !in layer.params;
      assert TextLayerOf(layer, idx, cfg, isAnimated).Err?;
    }
  }

  /** Which exception the opacity slot raises: `IndexError` for a missing
      value node or waypoint, and otherwise whatever reading its `value`
      raises (`KeyError('value')` or `ValueError`). */
  lemma OpacityPropertyErr(amount: Element, isAnimated: Element -> Animation, c: real)
    ensures |amount.children| == 0 ==> OpacityProperty(amount, isAnimated, c) == Err(IndexError)
    ensures |amount.children| > 0 && isAnimated(amount.children[0]) == NotAnimated &&
            FloatAttr(amount.children[0]).Err? ==>
      OpacityProperty(amount, isAnimated, c) == Err(FloatAttr(amount.children[0]).error)
    ensures |amount.children| > 0 && isAnimated(amount.children[0]) == SingleWaypoint &&
            (|amount.children[0].children| == 0 || |amount.children[0].children[0].children| == 0) ==>
      OpacityProperty(amount, isAnimated, c) == Err(IndexError)
    ensures |amount.children| > 0 && isAnimated(amount.children[0]) == SingleWaypoint &&
            |amount.children[0].children| > 0 && |amount.children[0].children[0].children| > 0 &&
            FloatAttr(amount.children[0].children[0].children[0]).Err? ==>
      OpacityProperty(amount, isAnimated, c) ==
        Err(FloatAttr(amount.children[0].children[0].children[0]).error)
  {
  }

  /** Which exception the style text raises, in the order the source reads:
      a missing parameter, `IndexError` for a missing first child,
      `AttributeError` for text that is None, and whatever reading the
      compression's `value` raises. */
  lemma StyleTextErr(layer: SynfigLayer)
    ensures "text" !in layer.params ==> StyleText(layer) == Err(MissingParameter("text"))
    ensures "text" in layer.params && |layer.params["text"].children| == 0 ==>
      StyleText(layer) == Err(IndexError)
    ensures "text" in layer.params && |layer.params["text"].children| > 0 &&
            layer.params["text"].children[0].text.None? ==>
      StyleText(layer) == Err(AttributeError)
    ensures "text" in layer.params && |layer.params["text"].children| > 0 &&
            layer.params["text"].children[0].text.Some? ==>
      ("vcompress" !in layer.params ==> StyleText(layer) == Err(MissingParameter("vcompress"))) &&
      ("vcompress" in layer.params && |layer.params["vcompress"].children| == 0 ==>
         StyleText(layer) == Err(IndexError)) &&
      ("vcompress" in layer.params && |layer.params["vcompress"].children| > 0 &&
       FloatAttr(layer.params["vcompress"].children[0]).Err? ==>
         StyleText(layer) == Err(FloatAttr(layer.params["vcompress"].children[0]).error))
  {
  }

  /** Which exception the animator raises: a missing colour, then a missing
      amount, then whatever the opacity slot raises. */
  lemma AnimatorOfErr(layer: SynfigLayer, isAnimated: Element -> Animation, c: real)
    ensures "color" !in layer.params ==> AnimatorOf(layer, isAnimated, c) == Err(MissingParameter("color"))
    ensures "color" in layer.params && "amount" !in layer.params ==>
      AnimatorOf(layer, isAnimated, c) == Err(MissingParameter("amount"))
    ensures "color" in layer.params && "amount" in layer.params &&
            OpacityProperty(layer.params["amount"], isAnimated, c).Err? ==>
      AnimatorOf(layer, isAnimated, c) == Err(OpacityProperty(layer.params["amount"], isAnimated, c).error)
  {
  }

  /** The conversion raises the exception of the first part that fails,
      in source order: the transform, then the animator, then the style
      text. */
  lemma TextLayerOfErr(layer: SynfigLayer, idx: int, cfg: Settings, isAnimated: Element -> Animation)
    ensures TransformParams(layer).Err? ==>
      TextLayerOf(layer, idx, cfg, isAnimated) == Err(TransformParams(layer).error)
    ensures TransformParams(layer).Ok? && AnimatorOf(layer, isAnimated, cfg.opacityConstant).Err? ==>
      TextLayerOf(layer, idx, cfg, isAnimated) == Err(AnimatorOf(layer, isAnimated, cfg.opacityConstant).error)
    ensures TransformParams(layer).Ok? && AnimatorOf(layer, isAnimated, cfg.opacityConstant).Ok? &&
            StyleText(layer).Err? ==>
      TextLayerOf(layer, idx, cfg, isAnimated) == Err(StyleText(layer).error)
  {
  }

  /** The header keys: index `idx + 1`, the document's frame range, start
      time 0, the layer's description, and the transform and blend built
      from the layer. */
  lemma TextLayerHeader(layer: SynfigLayer, idx: int, cfg: Settings, isAnimated: Element -> Animation)
    ensures TextLayerOf(layer, idx, cfg, isAnimated).Ok? ==>
      var r := TextLayerOf(layer, idx, cfg, isAnimated).value;
      r.ind == idx + 1 && r.ip == cfg.ip && r.op == cfg.op && r.st == 0 &&
      r.ddd == cfg.default3D && r.ty == cfg.layerTextType && r.sr == cfg.defaultStretch &&
      r.ao == cfg.defaultAutoOrient && r.nm == layer.desc &&
      r.ks == TransformOf(layer.params["origin"], layer.params["orient"], layer.params["size"]) &&
      r.bm == BlendOf(layer)
  {
  }

  /** Exactly one animator: named like the layer, with the fixed selector
      and exactly the colour and opacity slots. */
  lemma TextLayerAnimator(layer: SynfigLayer, idx: int, cfg: Settings, isAnimated: Element -> Animation)
    ensures TextLayerOf(layer, idx, cfg, isAnimated).Ok? ==>
      var r := TextLayerOf(layer, idx, cfg, isAnimated).value;
      |r.a| == 1 && r.a[0].nm == r.nm &&
      r.a[0].s.a.k == 100 && r.a[0].s.b == 1 && r.a[0].s.sh == 1 && r.a[0].s.r == 1 &&
      r.a[0].a == Some(AnimatorProps(
        ColorFill(layer.params["color"]),
        OpacityProperty(layer.params["amount"], isAnimated, cfg.opacityConstant).value))
  {
  }

  /** Exactly one style run, fixed but for its text, which is the text
      parameter's lines rejoined by the rounded compression. */
  lemma TextLayerStyle(layer: SynfigLayer, idx: int, cfg: Settings, isAnimated: Element -> Animation)
    ensures TextLayerOf(layer, idx, cfg, isAnimated).Ok? ==>
      var r := TextLayerOf(layer, idx, cfg, isAnimated).value;
      |r.d| == 1 && r.d[0].t == 0 && r.d[0].s.(t := "") == DefaultStyle &&
      |layer.params["text"].children| > 0 && layer.params["text"].children[0].text.Some? &&
      |layer.params["vcompress"].children| > 0 &&
      r.d[0].s.t == LineBreakText(
        layer.params["text"].children[0].text.value,
        FloatAttr(layer.params["vcompress"].children[0]).value)
  {
  }

  /** The anchor alignment is the same constant for every layer. */
  lemma TextLayerAnchor(l1: SynfigLayer, l2: SynfigLayer, idx: int, cfg: Settings, isAnimated: Element -> Animation)
    ensures TextLayerOf(l1, idx, cfg, isAnimated).Ok? && TextLayerOf(l2, idx, cfg, isAnimated).Ok? ==>
      TextLayerOf(l1, idx, cfg, isAnimated).value.m == TextLayerOf(l2, idx, cfg, isAnimated).value.m
    ensures TextLayerOf(l1, idx, cfg, isAnimated).Ok? ==>
      TextLayerOf(l1, idx, cfg, isAnimated).value.m == Some(Alignment(1, VectorValue(0, [0, 0], 2)))
  {
  }

  /** A not-animated value node's opacity is its value scaled. */
  lemma OpacityNotAnimated(amount: Element, isAnimated: Element -> Animation, c: real, x: real)
    ensures |amount.children| > 0 && isAnimated(amount.children[0]) == NotAnimated &&
            "value" in amount.children[0].attrib && ParseFloat(amount.children[0].attrib["value"]) == Some(x) ==>
      OpacityProperty(amount, isAnimated, c) == Ok(ValueOf(Scaled(x, c)))
  {
  }

  /** A single-waypoint node's opacity is its first grandchild's value
      scaled, exactly as if that grandchild were a not-animated node. */
  lemma OpacitySingleWaypoint(amount: Element, isAnimated: Element -> Animation, c: real, x: real)
    ensures |amount.children| > 0 && isAnimated(amount.children[0]) == SingleWaypoint &&
            |amount.children[0].children| > 0 && |amount.children[0].children[0].children| > 0 &&
            "value" in amount.children[0].children[0].children[0].attrib &&
            ParseFloat(amount.children[0].children[0].children[0].attrib["value"]) == Some(x) ==>
      OpacityProperty(amount, isAnimated, c) == Ok(ValueOf(Scaled(x, c)))
  {
  }

  /** A not-animated opacity of "1" with a constant of 100 is stored as 100. */
  lemma OpacityFull(isAnimated: Element -> Animation)
    requires isAnimated(Element("real", map["value" := "1"], [], None, None)) == NotAnimated
    ensures OpacityProperty(
              Element("param", map["name" := "amount"], [Element("real", map["value" := "1"], [], None, None)], None, None),
              isAnimated, 100.0) == Ok(ValueOf(100.0))
  {
    var node := Element("real", map["value" := "1"], [], None, None);
    ParseFloatDigits("1");
    assert DigitsValue("1") == 1;
    OpacityNotAnimated(
      Element("param", map["name" := "amount"], [node], None, None), isAnimated, 100.0, 1.0);
  }

  // ---------------------------------------------------------------------
  // The record, filled key by key.

  /** `lottie["t"]`. Its `p` key, always the empty dictionary, is not kept. */
  class TextBlock {
    var m: Option<Alignment>
    var a: seq<Animator>
    var d: seq<StyleRun>

    constructor ()
      ensures m == None && a == [] && d == []
    {
      m, a, d := None, [], [];
    }
  }

  /** The Lottie layer dictionary `gen_layer_text` fills in place. */
  class TextLayerRecord {
    var ddd: int
    var ind: int
    var ty: int
    var nm: string
    var sr: int
    var ks: Transform
    var ao: int
    var ip: real
    var op: real
    var st: int
    var t: TextBlock
    var bm: Blend

    function Value(): LayerRecord
      reads this, t
    {
      LayerRecord(ddd, ind, ty, nm, sr, ks, ao, ip, op, st, t.m, t.a, t.d, bm)
    }

    /** An empty record. */
    constructor ()
      ensures ks == NoTransform && bm == NoBlend && t.m == None && t.a == [] && t.d == []
    {
      ddd, ind, ty, nm, sr, ks, ao := 0, 0, 0, "", 0, NoTransform, 0;
      ip, op, st, bm := 0.0, 0.0, 0, NoBlend;
      t := new TextBlock();
    }

    /** `calc_anchor_alignment(lottie)`: sets `t.m` and nothing else. */
    method CalcAnchorAlignment()
      modifies t`m
      ensures t.m == Some(AnchorAlignment())
    {
      t.m := Some(Alignment(1, VectorValue(0, [0, 0], 2)));
    }

    /** `gen_layer_text(lottie, layer, idx)`: on success the record is
        exactly the one `TextLayerOf` describes, with a fresh `t`; otherwise
        the exception `TextLayerOf` names is raised. */
    method GenLayerText(layer: SynfigLayer, idx: int, cfg: Settings, isAnimated: Element -> Animation)
      returns (outcome: Outcome)
      modifies this
      ensures outcome.Pass? <==> TextLayerOf(layer, idx, cfg, isAnimated).Ok?
      ensures outcome.Fail? ==> outcome.error == TextLayerOf(layer, idx, cfg, isAnimated).error
      ensures outcome.Pass? ==> fresh(t) && Value() == TextLayerOf(layer, idx, cfg, isAnimated).value
    {
      SetHeader(layer, idx, cfg);
      outcome := FillTransform(layer);
      if outcome.Fail? { return; }
      outcome := FillAnimator(layer, isAnimated, cfg.opacityConstant);
      if outcome.Fail? { return; }
      outcome := FillStyle(layer);
      if outcome.Fail? { return; }
      bm := BlendOf(layer);
      TextLayerOfParts(layer, idx, cfg, isAnimated);
    }

    /** The header keys, the empty transform and a fresh `t` holding the
        anchor alignment and an empty animator list. */
    method SetHeader(layer: SynfigLayer, idx: int, cfg: Settings)
      modifies this
      ensures ddd == cfg.default3D && ind == idx + 1 && ty == cfg.layerTextType
      ensures nm == layer.desc && sr == cfg.defaultStretch && ks == NoTransform
      ensures ao == cfg.defaultAutoOrient && ip == cfg.ip && op == cfg.op && st == 0
      ensures fresh(t) && t.m == Some(AnchorAlignment()) && t.a == [] && t.d == []
      ensures bm == old(bm)
    {
      ddd := cfg.default3D;
      ind := idx + 1;
      ty := cfg.layerTextType;
      nm := layer.desc;
      sr := cfg.defaultStretch;
      ks := NoTransform;
      ao := cfg.defaultAutoOrient;
      ip := cfg.ip;
      op := cfg.op;
      st := 0;
      t := new TextBlock();
      CalcAnchorAlignment();
      t.a := [];
    }

    /** Looks up origin, orientation and size and hands them to the
        transform helper. */
    method FillTransform(layer: SynfigLayer) returns (outcome: Outcome)
      modifies this`ks
      ensures outcome.Pass? <==> TransformParams(layer).Ok?
      ensures outcome.Fail? ==> outcome.error == TransformParams(layer).error
      ensures outcome.Pass? ==> ks == TransformParams(layer).value
    {
      if "origin" !in layer.params { return Fail(MissingParameter("origin")); }
      var origin := layer.params["origin"];
      if "orient" !in layer.params { return Fail(MissingParameter("orient")); }
      var anchor := layer.params["orient"];
      if "size" !in layer.params { return Fail(MissingParameter("size")); }
      var scale := layer.params["size"];
      var pos := origin;
      ks := TransformOf(pos, anchor, scale);
      return Pass;
    }

    /** Appends the animator skeleton to the empty `t.a`, then fills its
        colour and opacity slots. */
    method FillAnimator(layer: SynfigLayer, isAnimated: Element -> Animation, c: real) returns (outcome: Outcome)
      requires t.a == []
      modifies t`a
      ensures outcome.Pass? <==> AnimatorOf(layer, isAnimated, c).Ok?
      ensures outcome.Fail? ==> outcome.error == AnimatorOf(layer, isAnimated, c).error
      ensures outcome.Pass? ==> t.a == [AnimatorOf(layer, isAnimated, c).value]
    {
      t.a := t.a + [DefaultTextProperties(layer)];
      t.a := [t.a[0].(a := Some(AnimatorProps(Empty, Empty)))];
      if "color" !in layer.params { return Fail(MissingParameter("color")); }
      var color := layer.params["color"];
      t.a := [t.a[0].(a := Some(t.a[0].a.value.(fc := ColorFill(color))))];
      var o: Property;
      outcome, o := Opacity(layer, isAnimated, c);
      if outcome.Fail? { return; }
      t.a := [t.a[0].(a := Some(t.a[0].a.value.(o := o)))];
    }

    /** Creates `t.d.k` holding the one style run. */
    method FillStyle(layer: SynfigLayer) returns (outcome: Outcome)
      modifies t`d
      ensures outcome.Pass? <==> StyleText(layer).Ok?
      ensures outcome.Fail? ==> outcome.error == StyleText(layer).error
      ensures outcome.Pass? ==> t.d == [StyleRun(DefaultStyle.(t := StyleText(layer).value), 0)]
    {
      var text: string;
      outcome, text := LineBreaks(layer);
      if outcome.Fail? { return; }
      var default := StyleRun(DefaultStyle, 0);
      default := default.(s := default.s.(t := text));
      t.d := [];
      t.d := t.d + [default];
    }

    /** The opacity branch: looks up `amount`, classifies its first child
        and reads the value node it names. */
    static method Opacity(layer: SynfigLayer, isAnimated: Element -> Animation, c: real)
      returns (outcome: Outcome, o: Property)
      ensures "amount" !in layer.params ==> outcome == Fail(MissingParameter("amount"))
      ensures "amount" in layer.params ==>
        (outcome.Pass? <==> OpacityProperty(layer.params["amount"], isAnimated, c).Ok?) &&
        (outcome.Fail? ==> outcome.error == OpacityProperty(layer.params["amount"], isAnimated, c).error) &&
        (outcome.Pass? ==> o == OpacityProperty(layer.params["amount"], isAnimated, c).value)
    {
      o := Empty;
      if "amount" !in layer.params { return Fail(MissingParameter("amount")), o; }
      var opacity := layer.params["amount"];
      if |opacity.children| == 0 { return Fail(IndexError), o; }
      var isAnimate := isAnimated(opacity.children[0]);
      if isAnimate == Animated {
        var node := opacity.children[0];
        node := node.(attrib := node.attrib["type" := "opacity"]);
        return Pass, Keyframed(node);
      }
      var valueNode: Element;
      if isAnimate == NotAnimated {
        valueNode := opacity.children[0];
      } else {
        var w := opacity.children[0];
        if |w.children| == 0 { return Fail(IndexError), o; }
        if |w.children[0].children| == 0 { return Fail(IndexError), o; }
        valueNode := w.children[0].children[0];
      }
      if "value" !in valueNode.attrib { return Fail(KeyError("value")), o; }
      var literal := valueNode.attrib["value"];
      var val := ParseFloat(literal);
      if val.None? { return Fail(ValueError(literal)), o; }
      return Pass, ValueOf(Scaled(val.value, c));
    }

    /** The style text: the text parameter's lines, rejoined by
        `round(vcompress)` carriage returns. */
    static method LineBreaks(layer: SynfigLayer) returns (outcome: Outcome, text: string)
      ensures outcome.Pass? <==> StyleText(layer).Ok?
      ensures outcome.Fail? ==> outcome.error == StyleText(layer).error
      ensures outcome.Pass? ==> text == StyleText(layer).value
    {
      text := "";
      if "text" !in layer.params { return Fail(MissingParameter("text")), text; }
      var textParam := layer.params["text"];
      if |textParam.children| == 0 { return Fail(IndexError), text; }
      var first := textParam.children[0];
      if first.text.None? { return Fail(AttributeError), text; }
      var ax := SplitOn(first.text.value, "\n");
      if "vcompress" !in layer.params { return Fail(MissingParameter("vcompress")), text; }
      var vParam := layer.params["vcompress"];
      if |vParam.children| == 0 { return Fail(IndexError), text; }
      var vNode := vParam.children[0];
      if "value" !in vNode.attrib { return Fail(KeyError("value")), text; }
      var lineSeparation := vNode.attrib["value"];
      var v := ParseFloat(lineSeparation);
      if v.None? { return Fail(ValueError(lineSeparation)), text; }
      var breaks := Repeat('\r', RoundHalfEven(v.value));
      text := Join(breaks, ax);
      return Pass, text;
    }
  }
}
