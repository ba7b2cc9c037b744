# Lottie exporter: font table and text layers

This project models two pieces of Synfig's Lottie exporter plugin, which
turns a Synfig `.sif` document into a Lottie JSON animation.

- **The font table** (`calc_font_data`). A text layer among the root
  canvas's direct children appends the one shared font descriptor to
  `lottie["fonts"]["list"]`, by reference. Each `family` parameter of such
  a layer is checked for "Sans Serif", "Times New Roman", "Calibria" and
  "Arial", in that order. Every successful check overwrites the
  descriptor's `fFamily`, `fName` and `fStyle`. The model keeps the
  aliasing: one fresh `FontDict` object, appended once per text layer.
- **The text-layer converter** (`gen_layer_text` and its two helpers). It
  fills a Lottie layer record from a Synfig text layer:
  - the header keys;
  - the transform;
  - one animator holding the colour and the opacity;
  - the constant anchor alignment;
  - one style run.

  The style run's text is the layer text with each `"\n"` replaced by
  `round(vcompress)` carriage returns. The opacity takes one of three
  branches, chosen by how the value node is animated.

Layout, one module per file:

| file | module | contents |
|---|---|---|
| `errors.dfy` | `Errors` | `Option`, `Result`, `Outcome`, and the Python exceptions a malformed document raises |
| `xml.dfy` | `Xml` | the element tree, plus `itertext`, `e[i]` and `e.attrib[k]` |
| `strings.dfy` | `Strings` | substring search (Python `in`), `str.split`, `str.join`, repetition, and the split/join laws |
| `numbers.dfy` | `Numbers` | Python `float()` on decimal literals, as an exact rational, and `round()` with ties to even |
| `fonts.dfy` | `FontData` | the font-table scan: first as a function over the children, then declaratively, then as the imperative `CalcFontData` over a `FontDict` object |
| `text_layer.dfy` | `TextLayer` | the text-layer record: the function `TextLayerOf` that specifies it, its lemmas, and the `TextLayerRecord` class that fills it key by key |

Python exceptions are modelled as `Err`/`Fail` results. The exporter
aborts on any of them. For every way a lookup can fail, a contract or an
error lemma (`ScanLayersErr`, `StyleTextErr`, `OpacityPropertyErr`,
`AnimatorOfErr`, `TextLayerOfErr`, ...) names the exception raised. The
imperative methods are proved to raise the same one. The contracts do not
describe the half-filled dictionaries left behind.

## Model

| member | source | states |
|---|---|---|
| `Xml.IterText` | synfig-studio/plugins/lottie-exporter/lottie-exporter.py:49 | a family value element without children contributes exactly its own text |
| `Xml.Child` | synfig-studio/plugins/lottie-exporter/layers/text.py:121-132 | `e[i]` yields the i-th child exactly when it exists; otherwise it raises `IndexError` |
| `Xml.Attr` | synfig-studio/plugins/lottie-exporter/lottie-exporter.py:46-48 | `e.attrib[k]` yields the attribute exactly when it is present; otherwise it raises `KeyError(k)` |
| `Strings.Find` | synfig-studio/plugins/lottie-exporter/lottie-exporter.py:50-62 | a reported position is an occurrence of the substring |
| `Strings.FindLeftmost` | synfig-studio/plugins/lottie-exporter/lottie-exporter.py:50-62 | there is no occurrence before the reported one, and none at all when nothing is reported |
| `Strings.FindFirst` | synfig-studio/plugins/lottie-exporter/lottie-exporter.py:50-62 | the first occurrence is the position reported |
| `Strings.Contains` | synfig-studio/plugins/lottie-exporter/lottie-exporter.py:50-62 | `sub in s` holds exactly when `sub` occurs at some index of `s` |
| `Strings.SplitOn` | synfig-studio/plugins/lottie-exporter/layers/text.py:156 | `str.split(sep)` always yields at least one piece |
| `Strings.Repeat` | synfig-studio/plugins/lottie-exporter/layers/text.py:159 | `"\r" * n` has length max(n, 0) and holds only that character |
| `Strings.Join` | synfig-studio/plugins/lottie-exporter/layers/text.py:160 | `sep.join(parts)`; its meaning is fixed by `JoinSplitOn`, `SplitOnJoin` and `JoinEmptySplitOn` below |
| `Strings.JoinSplitOn` | synfig-studio/plugins/lottie-exporter/layers/text.py:156-160 | joining the pieces of a split with the same separator gives back the string |
| `Strings.SplitOnJoin` | synfig-studio/plugins/lottie-exporter/layers/text.py:156-160 | splitting lines joined by a separator gives the lines back, when no line holds the separator's first character |
| `Strings.JoinEmptySplitOn` | synfig-studio/plugins/lottie-exporter/layers/text.py:156-160 | splitting on one character and joining with `""` deletes that character |
| `Strings.SplitOnAbsent` | synfig-studio/plugins/lottie-exporter/layers/text.py:156 | a string without the separator splits into itself alone |
| `Strings.SplitOnAvoids` | synfig-studio/plugins/lottie-exporter/layers/text.py:156 | a character absent from the string is absent from every piece |
| `Numbers.ParseFloat` | synfig-studio/plugins/lottie-exporter/layers/text.py:130-132 | `float(literal)`, `None` where Python raises `ValueError`; its value on digit strings and on `w.f` literals is stated by `ParseFloatDigits` and `ParseFloatDecimal` |
| `Numbers.ParseFloatDigits` | synfig-studio/plugins/lottie-exporter/layers/text.py:130 | `float()` of a run of digits is its decimal value |
| `Numbers.ParseFloatDecimal` | synfig-studio/plugins/lottie-exporter/layers/text.py:158-159 | `float("w.f")` is w + f / 10^len(f) |
| `Numbers.RoundHalfEven` | synfig-studio/plugins/lottie-exporter/layers/text.py:159 | `round(x)` is within 1/2 of x, and is even on a tie |
| `Numbers.RoundHalfEvenUnique` | synfig-studio/plugins/lottie-exporter/layers/text.py:159 | those two properties determine the rounding |
| `Numbers.RoundHalfEvenTies` | synfig-studio/plugins/lottie-exporter/layers/text.py:159 | 0.5 and -0.5 round to 0; 1.5 and 2.5 both round to 2 |
| `FontData.CheckFamily` | synfig-studio/plugins/lottie-exporter/lottie-exporter.py:50-65 | one check sets `fFamily`, `fName` and `fStyle` to the family's values when the string mentions it, leaves the descriptor alone otherwise, and never touches the other keys |
| `FontData.MatchFamily` | synfig-studio/plugins/lottie-exporter/lottie-exporter.py:50-65 | the four checks never change `origin`, `fPath`, `fClass`, `fWeight` or `ascent` |
| `FontData.LastFamily` | synfig-studio/plugins/lottie-exporter/lottie-exporter.py:50-65 | the family it picks is mentioned and no family checked after it is; `None` exactly when no family is mentioned |
| `FontData.MatchFamilyLastWins` | synfig-studio/plugins/lottie-exporter/lottie-exporter.py:50-65 | a string mentioning no family leaves the descriptor alone; otherwise the last family in check order decides it |
| `FontData.MatchedFamilyIsRegular` | synfig-studio/plugins/lottie-exporter/lottie-exporter.py:51-65 | after any match the style is "Regular" and `fName` is `fFamily` with its spaces removed |
| `FontData.InternalNameDropsSpaces` | synfig-studio/plugins/lottie-exporter/lottie-exporter.py:51-65 | each stored `fName` is its `fFamily` without spaces |
| `FontData.FamilyWordsJoin` | synfig-studio/plugins/lottie-exporter/lottie-exporter.py:51-65 | each family name is its words joined by a space; each internal name is the same words joined by nothing |
| `FontData.ArialSansSerifIsArial` | synfig-studio/plugins/lottie-exporter/lottie-exporter.py:50-65 | "Arial Sans Serif" matches two families, and Arial, checked last, wins |
| `FontData.ApplyFamilies` | synfig-studio/plugins/lottie-exporter/lottie-exporter.py:47-65 | the checks over several family strings never touch `origin`, `fPath`, `fClass`, `fWeight` or `ascent` |
| `FontData.ApplyFamiliesLastMatch` | synfig-studio/plugins/lottie-exporter/lottie-exporter.py:47-65 | across several family strings the last one that mentions a family decides; with none the descriptor is unchanged |
| `FontData.ApplyFamiliesAppend` | synfig-studio/plugins/lottie-exporter/lottie-exporter.py:47-65 | applying the checks to two runs of strings is applying them to the first, then the second |
| `FontData.ScanParam` | synfig-studio/plugins/lottie-exporter/lottie-exporter.py:48-65 | one parameter raises only `KeyError('name')` or `IndexError`, and never changes the keys the checks do not write |
| `FontData.ScanParams` | synfig-studio/plugins/lottie-exporter/lottie-exporter.py:47-65 | the parameters of one layer raise only `KeyError('name')` or `IndexError`, and never change the keys the checks do not write |
| `FontData.ScanLayer` | synfig-studio/plugins/lottie-exporter/lottie-exporter.py:45-67 | one child raises only `KeyError('type')`, `KeyError('name')` or `IndexError`, and appends at most one entry |
| `FontData.ScanLayers` | synfig-studio/plugins/lottie-exporter/lottie-exporter.py:45-67 | the scan raises only those exceptions, appends at most one entry per child, and every appended descriptor keeps the default `origin`, `fPath`, `fClass`, `fWeight` and `ascent` |
| `FontData.ScanParamsErrPersists` | synfig-studio/plugins/lottie-exporter/lottie-exporter.py:47-48 | once a parameter raises, the later parameters are not looked at |
| `FontData.ScanLayersErrPersists` | synfig-studio/plugins/lottie-exporter/lottie-exporter.py:45-46 | once a child raises, the later children are not looked at |
| `FontData.ScanParamSpec` | synfig-studio/plugins/lottie-exporter/lottie-exporter.py:48-65 | one parameter raises exactly when it has no `name`, or is a `family` without a child; otherwise it applies its family text |
| `FontData.ScanParamsOk` | synfig-studio/plugins/lottie-exporter/lottie-exporter.py:47-48 | a layer's parameters are read without error exactly when none is malformed |
| `FontData.ScanParamsValue` | synfig-studio/plugins/lottie-exporter/lottie-exporter.py:47-65 | after a successful read the family texts have been applied in order |
| `FontData.ScanLayerSpec` | synfig-studio/plugins/lottie-exporter/lottie-exporter.py:45-67 | one child raises exactly when it is a malformed layer; otherwise it contributes its family texts, and it is counted when it is a text layer |
| `FontData.ScanLayersOk` | synfig-studio/plugins/lottie-exporter/lottie-exporter.py:45-48 | the scan raises exactly when some direct child is a `layer` without `type`, or a text layer with a malformed parameter |
| `FontData.ScanParamErr` | synfig-studio/plugins/lottie-exporter/lottie-exporter.py:48-49 | a parameter without `name` raises `KeyError('name')`; a `family` parameter without a child raises `IndexError` |
| `FontData.ScanParamsErr` | synfig-studio/plugins/lottie-exporter/lottie-exporter.py:47-49 | a layer's parameter loop raises the exception of its first malformed parameter |
| `FontData.ScanLayerErr` | synfig-studio/plugins/lottie-exporter/lottie-exporter.py:46-49 | a `layer` without `type` raises `KeyError('type')`; a text layer raises the exception of its first malformed parameter |
| `FontData.ScanLayersErr` | synfig-studio/plugins/lottie-exporter/lottie-exporter.py:45-49 | the scan raises what its first malformed child raises: `KeyError('type')`, or the exception of that layer's first malformed parameter |
| `FontData.ScanLayersValue` | synfig-studio/plugins/lottie-exporter/lottie-exporter.py:45-67 | a successful scan appends one entry per direct text-layer child, and the descriptor is the result of all family texts in document order |
| `FontData.ScanLayersFont` | synfig-studio/plugins/lottie-exporter/lottie-exporter.py:34-67 | the final descriptor is the default one when no family text matches; otherwise it takes the family of the last matching text |
| `FontData.FontDict.constructor` | synfig-studio/plugins/lottie-exporter/lottie-exporter.py:34-43 | the fresh descriptor holds the default values |
| `FontData.FontDict.Check` | synfig-studio/plugins/lottie-exporter/lottie-exporter.py:50-53 | one check overwrites family, name and style exactly when the string mentions that family |
| `FontData.FontDict.Match` | synfig-studio/plugins/lottie-exporter/lottie-exporter.py:49-65 | the four in-place checks leave the descriptor as `MatchFamily` says |
| `FontData.FontDict.MatchParams` | synfig-studio/plugins/lottie-exporter/lottie-exporter.py:47-65 | the loop over one layer's parameters raises as the scan says, and otherwise leaves the descriptor as the scan says |
| `FontData.CalcFontData` | synfig-studio/plugins/lottie-exporter/lottie-exporter.py:23-67 | existing entries stay in place; every appended entry is the same fresh object; it raises exactly when the scan does; on success it appends one entry per text layer, each equal to the scanned descriptor |
| `TextLayer.GetParam` | synfig-studio/plugins/lottie-exporter/layers/text.py:101-121 | a parameter is found exactly when the layer has it |
| `TextLayer.FloatAttr` | synfig-studio/plugins/lottie-exporter/layers/text.py:130 | `float(e.attrib["value"])` succeeds exactly on a present, well-formed literal, and gives its value; a missing attribute raises `KeyError('value')`, a malformed literal `ValueError` |
| `TextLayer.DefaultTextProperties` | synfig-studio/plugins/lottie-exporter/layers/text.py:16-53 | the skeleton is named after the layer, has no `a` key yet, and holds the selector defaults (`a.k` 100, `b` 1, `rn` 0, `sh` 1, `r` 1, `xe.k` and `ne.k` 0) |
| `TextLayer.DefaultTextPropertiesOnlyName` | synfig-studio/plugins/lottie-exporter/layers/text.py:16-53 | the animator skeleton carries the layer's description and depends on nothing else of the layer |
| `TextLayer.AnchorAlignment` | synfig-studio/plugins/lottie-exporter/layers/text.py:61-71 | grouping 1 and the static anchor [0, 0] |
| `TextLayer.LineBreakText` | synfig-studio/plugins/lottie-exporter/layers/text.py:156-160 | no newline survives the rejoin |
| `TextLayer.LineBreakNoSeparator` | synfig-studio/plugins/lottie-exporter/layers/text.py:156-160 | when the compression rounds to 0 or below, the lines are concatenated |
| `TextLayer.LineBreakSingleLine` | synfig-studio/plugins/lottie-exporter/layers/text.py:156-160 | text without a newline is kept unchanged |
| `TextLayer.LineBreakRoundTrip` | synfig-studio/plugins/lottie-exporter/layers/text.py:156-160 | with n >= 1 and no `"\r"` in the text, splitting the result on n carriage returns gives back the original lines |
| `TextLayer.TransformParams` | synfig-studio/plugins/lottie-exporter/layers/text.py:101-112 | `ks` is built exactly when origin, orientation and size are all present, from those three parameters; a missing origin, orientation or size raises `MissingParameter` for the first one missing, in that order |
| `TextLayer.OpacityProperty` | synfig-studio/plugins/lottie-exporter/layers/text.py:121-137 | exactly one branch runs: an animated node goes to the keyframe encoder retyped as opacity; other nodes give a static value |
| `TextLayer.OpacityNotAnimated` | synfig-studio/plugins/lottie-exporter/layers/text.py:129-130 | a not-animated node stores its value times the opacity constant |
| `TextLayer.OpacitySingleWaypoint` | synfig-studio/plugins/lottie-exporter/layers/text.py:131-132 | a single-waypoint node stores its first grandchild's value times the constant |
| `TextLayer.OpacityFull` | synfig-studio/plugins/lottie-exporter/layers/text.py:121-137 | a not-animated opacity of "1" with constant 100 is stored as 100 |
| `TextLayer.OpacityPropertyOk` | synfig-studio/plugins/lottie-exporter/layers/text.py:121-132 | the opacity slot fails exactly when its value node is missing or has no numeric `value` |
| `TextLayer.OpacityPropertyErr` | synfig-studio/plugins/lottie-exporter/layers/text.py:121-132 | a missing value node or waypoint raises `IndexError`; otherwise the exception is the one reading `value` raises |
| `TextLayer.AnimatorOf` | synfig-studio/plugins/lottie-exporter/layers/text.py:114-137 | the animator is built exactly when colour and amount are present and the opacity can be read; it is named after the layer, has the default selector, and its slots hold the colour and the opacity |
| `TextLayer.AnimatorOfErr` | synfig-studio/plugins/lottie-exporter/layers/text.py:117-132 | a missing colour raises first, then a missing amount, then the opacity slot's exception |
| `TextLayer.StyleText` | synfig-studio/plugins/lottie-exporter/layers/text.py:156-160 | a successful style text needs both the text and the compression parameter, and holds no newline |
| `TextLayer.StyleTextOk` | synfig-studio/plugins/lottie-exporter/layers/text.py:156-159 | the style text fails exactly when the text node is missing or has no text (None), or the compression is not numeric |
| `TextLayer.StyleTextErr` | synfig-studio/plugins/lottie-exporter/layers/text.py:156-159 | in source order: a missing `text`, `IndexError` for no child, `AttributeError` for None text, a missing `vcompress`, `IndexError` for no child, then the exception reading `value` raises |
| `TextLayer.TextLayerOf` | synfig-studio/plugins/lottie-exporter/layers/text.py:73-163 | the record `gen_layer_text` builds, or the exception it raises; when it succeeds is stated by `TextLayerOfOk`, and what it holds by `TextLayerHeader`, `TextLayerAnimator`, `TextLayerStyle` and `TextLayerAnchor` |
| `TextLayer.TextLayerOfOk` | synfig-studio/plugins/lottie-exporter/layers/text.py:73-163 | the conversion succeeds exactly on layers whose seven parameters are present and readable |
| `TextLayer.TextLayerOfErr` | synfig-studio/plugins/lottie-exporter/layers/text.py:101-159 | the conversion raises the exception of the first part that fails, in source order: transform, animator, style text |
| `TextLayer.TextLayerHeader` | synfig-studio/plugins/lottie-exporter/layers/text.py:86-112 | `ind` is idx + 1; `ip`/`op` are the document's frame range; `st` is 0; `nm` is the description; `ks` gets the origin, orientation and size; `bm` gets the layer |
| `TextLayer.TextLayerAnimator` | synfig-studio/plugins/lottie-exporter/layers/text.py:99-137 | there is exactly one animator, named like the layer, with the fixed selector defaults and exactly the `fc` and `o` slots |
| `TextLayer.TextLayerStyle` | synfig-studio/plugins/lottie-exporter/layers/text.py:139-162 | there is exactly one style run, fixed apart from its text, which is the line-break rejoin of the text parameter |
| `TextLayer.TextLayerAnchor` | synfig-studio/plugins/lottie-exporter/layers/text.py:54-71 | `t.m` is grouping 1 with the constant anchor [0, 0], whatever the layer |
| `TextLayer.TextLayerRecord.CalcAnchorAlignment` | synfig-studio/plugins/lottie-exporter/layers/text.py:54-71 | sets `t.m` to the constant alignment and touches nothing else |
| `TextLayer.TextLayerRecord.GenLayerText` | synfig-studio/plugins/lottie-exporter/layers/text.py:73-163 | raises exactly when `TextLayerOf` does, with the same exception; otherwise the record, with a fresh `t`, is exactly `TextLayerOf`'s |
| `TextLayer.TextLayerRecord.SetHeader` | synfig-studio/plugins/lottie-exporter/layers/text.py:85-99 | sets the header keys, an empty `ks`, and a fresh `t` with the alignment and an empty animator list |
| `TextLayer.TextLayerRecord.FillTransform` | synfig-studio/plugins/lottie-exporter/layers/text.py:101-112 | `ks` is built from origin, orientation and size, or the first missing one raises |
| `TextLayer.TextLayerRecord.FillAnimator` | synfig-studio/plugins/lottie-exporter/layers/text.py:114-137 | `t.a` becomes the single animator `AnimatorOf` describes, or its exception is raised |
| `TextLayer.TextLayerRecord.FillStyle` | synfig-studio/plugins/lottie-exporter/layers/text.py:139-162 | `t.d.k` becomes the single style run carrying the style text |
| `TextLayer.TextLayerRecord.Opacity` | synfig-studio/plugins/lottie-exporter/layers/text.py:121-137 | the three-way opacity branch agrees with `OpacityProperty`, errors included |
| `TextLayer.TextLayerRecord.LineBreaks` | synfig-studio/plugins/lottie-exporter/layers/text.py:156-160 | the split, repeat and join statements agree with `StyleText`, errors included |

## Left out

- The rest of the plugin is not modelled: `parse`, `gen_html`, `init_logs`, argument parsing, file output and JSON serialisation.
- The XML parser is not modelled; the document is given as an element tree. lxml comment nodes among the children are not represented.
- The helpers called from these files, whose code is not shown, are represented only by what they are given:
  - `gen_helpers_transform` becomes `TransformOf`;
  - `color.fill_path` becomes `ColorFill`;
  - `gen_value_Keyframed` becomes `Keyframed`;
  - `gen_properties_value` becomes `ValueOf`;
  - `get_blend` becomes `BlendOf`.
- `is_animated` is taken as a parameter.
- `get_param` and `get_description` are modelled as a lookup in the layer's parameter map and its description. A missing parameter raises `MissingParameter`, which stands in for whatever the unseen `Layer` class does.
- `Count` and the `ix` indices it hands to the opacity encoder are left out, and so are the `animate` calls and the `pos = origin` aliasing. Their effect lives in the unseen parameter code.
- The settings module is a `Settings` value passed in, not global state.
- `TextLayer.OpacityProperty`: the animated branch sets `type` on the document's own element in place. The model passes an updated copy, so the change to the source tree is not captured.
- The empty `t.p` dictionary, which the converter always writes, is not a field of `TextBlock`.
- Floating point is not modelled. `float()` is taken as an exact rational, so `Numbers.RoundHalfEven` can disagree with Python on literals that do not round-trip through a double.
- `Numbers.ParseFloat` accepts signs, digits, one decimal point and an exponent. It does not accept surrounding whitespace, `_` separators, `inf`, `infinity`, `nan` or non-ASCII decimal digits, which Python's `float()` also accepts.
- `TextLayer.StyleText` and `TextLayer.TextLayerRecord.LineBreaks` keep integers unbounded. Python raises `OverflowError` in two cases that the model accepts:
  - a compression beyond double range ("1e400"): `float()` gives infinity, and `round` of infinity raises; the model returns 10^400 carriage returns;
  - a rounded count above `sys.maxsize` ("1e19"): `"\r" * n` raises; `Strings.Repeat` has no bound.
- `FontData.CalcFontData` and `TextLayer.TextLayerRecord.GenLayerText` do not describe the partly filled state left when they raise. The exporter stops at the first exception.
