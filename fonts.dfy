/**
 * Font-descriptor extraction of the exporter's entry script
 * (`calc_font_data`): the direct children of the root canvas that are text
 * layers each append the one shared descriptor to the document's font list,
 * and every `family` parameter they carry may overwrite that descriptor's
 * family, internal name and style.
 */
module FontData {
  import opened Errors
  import opened Xml
  import opened Strings

  /** The families the exporter recognises, in the order it checks them. */
  datatype Family = SansSerif | TimesNewRoman | Calibria | Arial

  /** The substring searched for, which is also the stored `fFamily`. */
  function FamilyName(f: Family): string
  {
    match f
    case SansSerif => "Sans Serif"
    case TimesNewRoman => "Times New Roman"
    case Calibria => "Calibria"
    case Arial => "Arial"
  }

  /** The stored `fName`. */
  function InternalName(f: Family): string
  {
    match f
    case SansSerif => "SansSerif"
    case TimesNewRoman => "TimesNewRoman"
    case Calibria => "Calibria"
    case Arial => "Arial"
  }

  /** One entry of the document's font list. */
  datatype Font = Font(
    origin: int,
    fPath: string,
    fClass: string,
    fFamily: string,
    fWeight: string,
    fStyle: string,
    fName: string,
    ascent: real)

  /** The descriptor as created before any layer is looked at. */
  const DefaultFont := Font(0, "", "", "", "", "", "", 75.9994506835938)

  /** The keys no family check writes. */
  predicate SameFixedKeys(a: Font, b: Font)
  {
    a.origin == b.origin && a.fPath == b.fPath && a.fClass == b.fClass &&
    a.fWeight == b.fWeight && a.ascent == b.ascent
  }

  /** The descriptor after a check for family `f` has succeeded. */
  function WithFamily(d: Font, f: Family): Font
  {
    d.(fFamily := FamilyName(f), fName := InternalName(f), fStyle := "Regular")
  }

  /** One of the four checks: when `name` mentions `f`, the descriptor takes
      family `f`. */
  function CheckFamily(d: Font, name: string, f: Family): (r: Font)
    ensures Contains(name, FamilyName(f)) ==>
              r.fFamily == FamilyName(f) && r.fName == InternalName(f) && r.fStyle == "Regular"
    ensures !Contains(name, FamilyName(f)) ==> r == d
    ensures SameFixedKeys(d, r)
  {
    if Contains(name, FamilyName(f)) then WithFamily(d, f) else d
  }

  /** The four checks on one family string, in source order. */
  function MatchFamily(d: Font, name: string): (r: Font)
    ensures SameFixedKeys(d, r)
  {
    var d1 := CheckFamily(d, name, SansSerif);
    var d2 := CheckFamily(d1, name, TimesNewRoman);
    var d3 := CheckFamily(d2, name, Calibria);
    CheckFamily(d3, name, Arial)
  }

  /** The position of a family in check order. */
  function CheckOrder(f: Family): nat
  {
    match f
    case SansSerif => 0
    case TimesNewRoman => 1
    case Calibria => 2
    case Arial => 3
  }

  /** The last family, in check order, whose name occurs in `name`. */
  function LastFamily(name: string): (r: Option<Family>)
    ensures r.Some? ==> Contains(name, FamilyName(r.value))
    ensures r.Some? ==>
      forall f :: CheckOrder(r.value) < CheckOrder(f) ==> !Contains(name, FamilyName(f))
    ensures r.None? ==> forall f :: !Contains(name, FamilyName(f))
  {
    if Contains(name, FamilyName(Arial)) then Some(Arial)
    else if Contains(name, FamilyName(Calibria)) then Some(Calibria)
    else if Contains(name, FamilyName(TimesNewRoman)) then Some(TimesNewRoman)
    else if Contains(name, FamilyName(SansSerif)) then Some(SansSerif)
    else None
  }

  /** A family string mentioning none of the four families changes nothing;
      otherwise the last family in check order decides the descriptor. */
  lemma MatchFamilyLastWins(d: Font, name: string)
    ensures MatchFamily(d, name) == match LastFamily(name)
                                    case None => d
                                    case Some(f) => WithFamily(d, f)
  {
  }

  /** After a match the style is "Regular" and the internal name is the
      family name with its spaces removed. */
  lemma MatchedFamilyIsRegular(d: Font, name: string)
    requires LastFamily(name).Some?
    ensures MatchFamily(d, name).fStyle == "Regular"
    ensures MatchFamily(d, name).fName == RemoveChar(MatchFamily(d, name).fFamily, ' ')
  {
    MatchFamilyLastWins(d, name);
    InternalNameDropsSpaces(LastFamily(name).value);
  }

  /** The words of each family name. */
  function FamilyWords(f: Family): seq<string>
  {
    match f
    case SansSerif => ["Sans", "Serif"]
    case TimesNewRoman => ["Times", "New", "Roman"]
    case Calibria => ["Calibria"]
    case Arial => ["Arial"]
  }

  lemma SansSerifWords()
    ensures FamilyName(SansSerif) == Join(" ", FamilyWords(SansSerif))
    ensures InternalName(SansSerif) == Join("", FamilyWords(SansSerif))
  {
    assert FamilyWords(SansSerif)[1..] == ["Serif"];
    assert "Sans" + " " + "Serif" == "Sans Serif";
    assert "Sans" + "" + "Serif" == "SansSerif";
  }

  lemma TimesNewRomanWords()
    ensures FamilyName(TimesNewRoman) == Join(" ", FamilyWords(TimesNewRoman))
    ensures InternalName(TimesNewRoman) == Join("", FamilyWords(TimesNewRoman))
  {
    var w := FamilyWords(TimesNewRoman);
    assert w[1..] == ["New", "Roman"];
    assert w[1..][1..] == ["Roman"];
    assert Join(" ", w[1..]) == "New" + " " + "Roman";
    assert Join("", w[1..]) == "New" + "" + "Roman";
    assert "Times" + " " + ("New" + " " + "Roman") == "Times New Roman";
    assert "Times" + "" + ("New" + "" + "Roman") == "TimesNewRoman";
  }

  /** Each family name is its words joined by a space; each internal name
      is the same words joined by nothing. */
  lemma FamilyWordsJoin(f: Family)
    ensures FamilyName(f) == Join(" ", FamilyWords(f))
    ensures InternalName(f) == Join("", FamilyWords(f))
    ensures forall i :: 0 <= i < |FamilyWords(f)| ==> ' ' !in FamilyWords(f)[i]
  {
    match f
    case SansSerif => SansSerifWords();
    case TimesNewRoman => TimesNewRomanWords();
    case Calibria =>
    case Arial =>
  }

  /** The internal name is the family name with its spaces deleted. */
  lemma InternalNameDropsSpaces(f: Family)
    ensures InternalName(f) == RemoveChar(FamilyName(f), ' ')
  {
    var w := FamilyWords(f);
    FamilyWordsJoin(f);
    SplitOnJoin(w, " ");
    JoinEmptySplitOn(Join(" ", w), ' ');
  }

  /** "Arial Sans Serif" matches two families; Arial, checked last, wins. */
  lemma ArialSansSerifIsArial()
    ensures MatchFamily(DefaultFont, "Arial Sans Serif").fFamily == "Arial"
    ensures MatchFamily(DefaultFont, "Arial Sans Serif").fName == "Arial"
  {
    assert OccursAt("Arial Sans Serif", "Arial", 0);
  }

  /** The checks applied to a sequence of family strings, in order. */
  function ApplyFamilies(d: Font, names: seq<string>): (r: Font)
    ensures SameFixedKeys(d, r)
    decreases |names|
  {
    if names == [] then d
    else MatchFamily(ApplyFamilies(d, names[..|names| - 1]), names[|names| - 1])
  }

  /** The family decided by the last string that mentions any family. */
  function LastMatch(names: seq<string>): Option<Family>
    decreases |names|
  {
    if names == [] then None
    else match LastFamily(names[|names| - 1])
      case Some(f) => Some(f)
      case None => LastMatch(names[..|names| - 1])
  }

  /** Across several family strings the last match wins, and with no match
      at all the descriptor is left as it was. */
  lemma {:induction false} ApplyFamiliesLastMatch(d: Font, names: seq<string>)
    ensures ApplyFamilies(d, names) == match LastMatch(names)
                                       case None => d
                                       case Some(f) => WithFamily(d, f)
    decreases |names|
  {
    if names != [] {
      var init := names[..|names| - 1];
      ApplyFamiliesLastMatch(d, init);
      MatchFamilyLastWins(ApplyFamilies(d, init), names[|names| - 1]);
    }
  }

  lemma {:induction false} ApplyFamiliesAppend(d: Font, a: seq<string>, b: seq<string>)
    ensures ApplyFamilies(d, a + b) == ApplyFamilies(ApplyFamilies(d, a), b)
    decreases |b|
  {
    if b == [] {
      assert a + b == a;
    } else {
      assert (a + b)[..|a + b| - 1] == a + b[..|b| - 1];
      ApplyFamiliesAppend(d, a, b[..|b| - 1]);
    }
  }

  // ---------------------------------------------------------------------
  // The scan over the root's children, step by step as the source runs it.

  /** The descriptor so far and the number of entries appended so far. */
  datatype Scan = Scan(font: Font, appended: nat)

  /** One parameter of a text layer: its `name` attribute is required; a
      `family` parameter must have a child, whose text is matched. */
  function ScanParam(d: Font, p: Element): (r: Result<Font>)
    ensures r.Err? ==> r.error in {KeyError("name"), IndexError}
    ensures r.Ok? ==> SameFixedKeys(d, r.value)
  {
    match Attr(p, "name")
    case Err(e) => Err(e)
    case Ok(n) =>
      if n != "family" then Ok(d)
      else match Child(p, 0)
        case Err(e) => Err(e)
        case Ok(v) => Ok(MatchFamily(d, IterText(v)))
  }

  /** The parameters of one text layer, in order; the first error stops. */
  function ScanParams(d: Font, ps: seq<Element>): (r: Result<Font>)
    ensures r.Err? ==> r.error in {KeyError("name"), IndexError}
    ensures r.Ok? ==> SameFixedKeys(d, r.value)
    decreases |ps|
  {
    if ps == [] then Ok(d)
    else match ScanParams(d, ps[..|ps| - 1])
      case Err(e) => Err(e)
      case Ok(d') => ScanParam(d', ps[|ps| - 1])
  }

  /** One child of the root: only `layer` elements of type `text` count;
      a `layer` without a `type` attribute raises. */
  function ScanLayer(s: Scan, e: Element): (r: Result<Scan>)
    ensures r.Err? ==> r.error in {KeyError("type"), KeyError("name"), IndexError}
    ensures r.Ok? ==> s.appended <= r.value.appended <= s.appended + 1
    ensures r.Ok? ==> SameFixedKeys(s.font, r.value.font)
  {
    if e.tag != "layer" then Ok(s)
    else match Attr(e, "type")
      case Err(err) => Err(err)
      case Ok(ty) =>
        if ty != "text" then Ok(s)
        else match ScanParams(s.font, e.children)
          case Err(err) => Err(err)
          case Ok(d) => Ok(Scan(d, s.appended + 1))
  }

  /** The children of the root, in order, starting from the fresh descriptor. */
  function ScanLayers(cs: seq<Element>): (r: Result<Scan>)
    ensures r.Err? ==> r.error in {KeyError("type"), KeyError("name"), IndexError}
    ensures r.Ok? ==> r.value.appended <= |cs|
    ensures r.Ok? ==> SameFixedKeys(DefaultFont, r.value.font)
    decreases |cs|
  {
    if cs == [] then Ok(Scan(DefaultFont, 0))
    else match ScanLayers(cs[..|cs| - 1])
      case Err(e) => Err(e)
      case Ok(s) => ScanLayer(s, cs[|cs| - 1])
  }

  lemma {:induction false} ScanParamsErrPersists(d: Font, ps: seq<Element>, j: nat)
    requires j <= |ps| && ScanParams(d, ps[..j]).Err?
    ensures ScanParams(d, ps) == ScanParams(d, ps[..j])
    decreases |ps| - j
  {
    if j < |ps| {
      assert ps[..j + 1][..j] == ps[..j];
      ScanParamsErrPersists(d, ps, j + 1);
    } else {
      assert ps[..j] == ps;
    }
  }

  lemma {:induction false} ScanLayersErrPersists(cs: seq<Element>, i: nat)
    requires i <= |cs| && ScanLayers(cs[..i]).Err?
    ensures ScanLayers(cs) == ScanLayers(cs[..i])
    decreases |cs| - i
  {
    if i < |cs| {
      assert cs[..i + 1][..i] == cs[..i];
      ScanLayersErrPersists(cs, i + 1);
    } else {
      assert cs[..i] == cs;
    }
  }

  // ---------------------------------------------------------------------
  // The same scan stated declaratively.

  predicate IsTextLayer(e: Element)
  {
    e.tag == "layer" && "type" in e.attrib && e.attrib["type"] == "text"
  }

  /** A parameter the scan cannot read. */
  predicate MalformedParam(p: Element)
  {
    "name" !in p.attrib || (p.attrib["name"] == "family" && p.children == [])
  }

  /** A root child on which the scan raises. */
  predicate MalformedLayer(e: Element)
  {
    e.tag == "layer" &&
    ("type" !in e.attrib ||
     (e.attrib["type"] == "text" &&
      exists j :: 0 <= j < |e.children| && MalformedParam(e.children[j])))
  }

  function CountTextLayers(cs: seq<Element>): nat
    decreases |cs|
  {
    if cs == [] then 0
    else CountTextLayers(cs[..|cs| - 1]) + (if IsTextLayer(cs[|cs| - 1]) then 1 else 0)
  }

  /** The texts of the `family` parameters among `ps`, in order. */
  function FamilyNames(ps: seq<Element>): seq<string>
    decreases |ps|
  {
    if ps == [] then []
    else FamilyNames(ps[..|ps| - 1]) + ParamNames(ps[|ps| - 1])
  }

  /** The family texts of all text layers among `cs`, in document order. */
  function LayerFamilyNames(cs: seq<Element>): seq<string>
    decreases |cs|
  {
    if cs == [] then []
    else
      var e := cs[|cs| - 1];
      LayerFamilyNames(cs[..|cs| - 1]) + LayerNames(e)
  }

  /** The family text one parameter contributes, if any. */
  function ParamNames(p: Element): seq<string>
  {
    if "name" in p.attrib && p.attrib["name"] == "family" && p.children != []
    then [IterText(p.children[0])] else []
  }

  /** One parameter: the step fails exactly on a malformed parameter, and
      otherwise applies the family text it carries, if any. */
  lemma ScanParamSpec(d: Font, p: Element)
    ensures ScanParam(d, p).Ok? <==> !MalformedParam(p)
    ensures ScanParam(d, p).Ok? ==> ScanParam(d, p).value == ApplyFamilies(d, ParamNames(p))
  {
    if ParamNames(p) != [] {
      assert ParamNames(p)[..0] == [];
    }
  }

  /** The parameter scan succeeds exactly when no parameter is malformed. */
  lemma {:induction false} ScanParamsOk(d: Font, ps: seq<Element>)
    ensures ScanParams(d, ps).Ok? <==> forall j :: 0 <= j < |ps| ==> !MalformedParam(ps[j])
    decreases |ps|
  {
    if ps != [] {
      var init, p := ps[..|ps| - 1], ps[|ps| - 1];
      ScanParamsOk(d, init);
      assert forall j :: 0 <= j < |init| ==> init[j] == ps[j];
      match ScanParams(d, init)
      case Err(_) =>
        assert ScanParams(d, ps).Err?;
      case Ok(d') =>
        ScanParamSpec(d', p);
        assert ScanParams(d, ps) == ScanParam(d', p);
    }
  }

  /** A successful parameter scan applies the checks to the family texts
      in order. */
  lemma {:induction false} ScanParamsValue(d: Font, ps: seq<Element>)
    ensures ScanParams(d, ps).Ok? ==> ScanParams(d, ps).value == ApplyFamilies(d, FamilyNames(ps))
    decreases |ps|
  {
    if ps != [] {
      var init, p := ps[..|ps| - 1], ps[|ps| - 1];
      ScanParamsValue(d, init);
      assert FamilyNames(ps) == FamilyNames(init) + ParamNames(p);
      if ScanParams(d, init).Ok? {
        ScanParamSpec(ScanParams(d, init).value, p);
        ApplyFamiliesAppend(d, FamilyNames(init), ParamNames(p));
      }
    }
  }

  /** The family texts one root child contributes. */
  function LayerNames(e: Element): seq<string>
  {
    if IsTextLayer(e) then FamilyNames(e.children) else []
  }

  /** One root child: the step fails exactly on a malformed child, and
      otherwise applies that child's family texts and counts it when it is
      a text layer. */
  lemma ScanLayerSpec(s: Scan, e: Element)
    ensures ScanLayer(s, e).Ok? <==> !MalformedLayer(e)
    ensures ScanLayer(s, e).Ok? ==>
      ScanLayer(s, e).value ==
        Scan(ApplyFamilies(s.font, LayerNames(e)), s.appended + (if IsTextLayer(e) then 1 else 0))
  {
    if IsTextLayer(e) {
      ScanParamsOk(s.font, e.children);
      ScanParamsValue(s.font, e.children);
    }
  }

  /** The exception a malformed parameter raises: `KeyError('name')` when
      it has no `name`, otherwise `IndexError` from the childless `family`. */
  function ParamError(p: Element): Error
  {
    if "name" !in p.attrib then KeyError("name") else IndexError
  }

  /** `ps[j]` is the first malformed parameter of `ps`. */
  predicate FirstMalformedParam(ps: seq<Element>, j: int)
  {
    0 <= j < |ps| && MalformedParam(ps[j]) && forall k :: 0 <= k < j ==> !MalformedParam(ps[k])
  }

  /** A malformed parameter raises the exception ParamError names. */
  lemma ScanParamErr(d: Font, p: Element)
    ensures MalformedParam(p) ==> ScanParam(d, p) == Err(ParamError(p))
  {
  }

  /** The parameter loop raises the exception of the first malformed
      parameter. */
  lemma {:induction false} ScanParamsErr(d: Font, ps: seq<Element>, j: int)
    requires FirstMalformedParam(ps, j)
    ensures ScanParams(d, ps) == Err(ParamError(ps[j]))
    decreases |ps|
  {
    var init, p := ps[..|ps| - 1], ps[|ps| - 1];
    assert forall k :: 0 <= k < |init| ==> init[k] == ps[k];
    if j == |ps| - 1 {
      ScanParamsOk(d, init);
      ScanParamErr(ScanParams(d, init).value, p);
    } else {
      assert FirstMalformedParam(init, j);
      ScanParamsErr(d, init, j);
    }
  }

  /** A `layer` without `type` raises `KeyError('type')`; a text layer
      raises the exception of its first malformed parameter. */
  lemma ScanLayerErr(s: Scan, e: Element)
    ensures e.tag == "layer" && "type" !in e.attrib ==> ScanLayer(s, e) == Err(KeyError("type"))
    ensures forall j :: IsTextLayer(e) && FirstMalformedParam(e.children, j) ==>
      ScanLayer(s, e) == Err(ParamError(e.children[j]))
  {
    forall j | IsTextLayer(e) && FirstMalformedParam(e.children, j)
      ensures ScanLayer(s, e) == Err(ParamError(e.children[j]))
    {
      ScanParamsErr(s.font, e.children, j);
    }
  }

  /** The scan raises what its first malformed child raises:
      `KeyError('type')` for a `layer` without `type`, otherwise the
      exception of that text layer's first malformed parameter. */
  lemma {:induction false} ScanLayersErr(cs: seq<Element>, i: int)
    requires 0 <= i < |cs| && MalformedLayer(cs[i])
    requires forall k :: 0 <= k < i ==> !MalformedLayer(cs[k])
    ensures ScanLayers(cs).Err?
    ensures "type" !in cs[i].attrib ==> ScanLayers(cs).error == KeyError("type")
    ensures forall j :: "type" in cs[i].attrib && FirstMalformedParam(cs[i].children, j) ==>
      ScanLayers(cs).error == ParamError(cs[i].children[j])
    decreases |cs|
  {
    var init := cs[..|cs| - 1];
    assert forall k :: 0 <= k < |init| ==> init[k] == cs[k];
    if i == |cs| - 1 {
      ScanLayersOk(init);
      var sc := ScanLayers(init).value;
      ScanLayerSpec(sc, cs[i]);
      ScanLayerErr(sc, cs[i]);
      assert ScanLayers(cs) == ScanLayer(sc, cs[i]);
    } else {
      ScanLayersErr(init, i);
    }
  }

  /** The scan of the root's children succeeds exactly when no child is
      malformed. */
  lemma {:induction false} ScanLayersOk(cs: seq<Element>)
    ensures ScanLayers(cs).Ok? <==> forall i :: 0 <= i < |cs| ==> !MalformedLayer(cs[i])
    decreases |cs|
  {
    if cs != [] {
      var init := cs[..|cs| - 1];
      ScanLayersOk(init);
      assert forall i :: 0 <= i < |init| ==> init[i] == cs[i];
      if ScanLayers(init).Ok? {
        ScanLayerSpec(ScanLayers(init).value, cs[|cs| - 1]);
      }
    }
  }

  /** A successful scan appends one entry per text layer, and the shared
      descriptor is the result of the checks on every family text of every
      text layer, in document order. */
  lemma {:induction false} ScanLayersValue(cs: seq<Element>)
    requires ScanLayers(cs).Ok?
    ensures ScanLayers(cs).value ==
      Scan(ApplyFamilies(DefaultFont, LayerFamilyNames(cs)), CountTextLayers(cs))
    decreases |cs|
  {
    if cs != [] {
      var init, e := cs[..|cs| - 1], cs[|cs| - 1];
      ScanLayersValue(init);
      ScanLayerSpec(ScanLayers(init).value, e);
      ApplyFamiliesAppend(DefaultFont, LayerFamilyNames(init), LayerNames(e));
    }
  }

  /** A successful scan leaves the descriptor at its defaults when no
      family text mentions a known family, and otherwise gives it the
      family of the last family text, in document order, that does. */
  lemma ScanLayersFont(cs: seq<Element>)
    requires ScanLayers(cs).Ok?
    ensures ScanLayers(cs).value.font == match LastMatch(LayerFamilyNames(cs))
                                         case None => DefaultFont
                                         case Some(f) => WithFamily(DefaultFont, f)
  {
    ScanLayersValue(cs);
    ApplyFamiliesLastMatch(DefaultFont, LayerFamilyNames(cs));
  }

  // ---------------------------------------------------------------------
  // The imperative model: one descriptor object, appended by reference.

  /** The descriptor dictionary, updated in place. */
  class FontDict {
    var origin: int
    var fPath: string
    var fClass: string
    var fFamily: string
    var fWeight: string
    var fStyle: string
    var fName: string
    var ascent: real

    function Value(): Font
      reads this
    {
      Font(origin, fPath, fClass, fFamily, fWeight, fStyle, fName, ascent)
    }

    constructor ()
      ensures Value() == DefaultFont
    {
      origin, fPath, fClass, fFamily := 0, "", "", "";
      fWeight, fStyle, fName, ascent := "", "", "", 75.9994506835938;
    }

    /** One of the four checks: when `name` mentions `f`, the family,
        internal name and style keys are overwritten. */
    method Check(name: string, f: Family)
      modifies this
      ensures Value() == CheckFamily(old(Value()), name, f)
    {
      if Contains(name, FamilyName(f)) {
        fFamily, fName, fStyle := FamilyName(f), InternalName(f), "Regular";
      }
    }

    /** The parameters of one text layer, in order: a `family` parameter's
        text is matched; a parameter without a `name`, or a `family`
        parameter without a child, raises and stops the scan. */
    method MatchParams(ps: seq<Element>) returns (outcome: Outcome)
      modifies this
      ensures outcome.Pass? <==> ScanParams(old(Value()), ps).Ok?
      ensures outcome.Pass? ==> Value() == ScanParams(old(Value()), ps).value
      ensures outcome.Fail? ==> outcome.error == ScanParams(old(Value()), ps).error
    {
      ghost var d0 := Value();
      for j := 0 to |ps|
        invariant ScanParams(d0, ps[..j]) == Ok(Value())
      {
        var p := ps[j];
        assert ps[..j + 1][..j] == ps[..j];
        if "name" !in p.attrib {
          ScanParamsErrPersists(d0, ps, j + 1);
          return Fail(KeyError("name"));
        }
        if p.attrib["name"] == "family" {
          if |p.children| == 0 {
            ScanParamsErrPersists(d0, ps, j + 1);
            return Fail(IndexError);
          }
          Match(IterText(p.children[0]));
        }
      }
      assert ps[..|ps|] == ps;
      return Pass;
    }

    /** The four checks on one family string, in source order. */
    method Match(name: string)
      modifies this
      ensures Value() == MatchFamily(old(Value()), name)
    {
      Check(name, SansSerif);
      Check(name, TimesNewRoman);
      Check(name, Calibria);
      Check(name, Arial);
    }
  }

  /** The part of the output document this step writes: its font list. */
  class LottieDocument {
    var fonts: seq<FontDict>

    constructor (fonts: seq<FontDict>)
      ensures this.fonts == fonts
    {
      this.fonts := fonts;
    }
  }

  /** `calc_font_data(lottie, root)`: entries already in the font list stay;
      one reference to a single fresh descriptor is appended per text layer
      among the root's children; the descriptor ends as the step-by-step
      scan says. A malformed child raises, as the scan says. */
  method CalcFontData(lottie: LottieDocument, root: Element) returns (outcome: Outcome)
    modifies lottie
    ensures |lottie.fonts| >= |old(lottie.fonts)|
    ensures lottie.fonts[..|old(lottie.fonts)|] == old(lottie.fonts)
    ensures forall k :: |old(lottie.fonts)| <= k < |lottie.fonts| ==>
              fresh(lottie.fonts[k]) && lottie.fonts[k] == lottie.fonts[|old(lottie.fonts)|]
    ensures outcome.Pass? <==> ScanLayers(root.children).Ok?
    ensures outcome.Fail? ==> outcome.error == ScanLayers(root.children).error
    ensures outcome.Pass? ==>
              |lottie.fonts| == |old(lottie.fonts)| + ScanLayers(root.children).value.appended &&
              forall k :: |old(lottie.fonts)| <= k < |lottie.fonts| ==>
                lottie.fonts[k].Value() == ScanLayers(root.children).value.font
  {
    var defaultList := new FontDict();
    ghost var n0 := |lottie.fonts|;
    var cs := root.children;
    for i := 0 to |cs|
      invariant |lottie.fonts| >= n0 && lottie.fonts[..n0] == old(lottie.fonts)
      invariant forall k :: n0 <= k < |lottie.fonts| ==> lottie.fonts[k] == defaultList
      invariant ScanLayers(cs[..i]) == Ok(Scan(defaultList.Value(), |lottie.fonts| - n0))
    {
      var child := cs[i];
      assert cs[..i + 1][..i] == cs[..i];
      if child.tag == "layer" {
        if "type" !in child.attrib {
          ScanLayersErrPersists(cs, i + 1);
          return Fail(KeyError("type"));
        }
        if child.attrib["type"] == "text" {
          var r := defaultList.MatchParams(child.children);
          if r.Fail? {
            ScanLayersErrPersists(cs, i + 1);
            return r;
          }
          lottie.fonts := lottie.fonts + [defaultList];
        }
      }
    }
    assert cs[..|cs|] == cs;
    return Pass;
  }
}
