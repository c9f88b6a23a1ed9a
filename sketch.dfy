/** backtest/template/sketch.py: reading a Sketch design into a template.
    The zip archive and its JSON documents are given as values: a layer
    tree per artboard, and a function from an entry's path to its bytes
    (None when the archive has no such entry). */
module Sketch {
  import opened Wrappers
  import opened Calendar
  import opened TemplateModels
  import opened Templates

  // ---------------------------------------------------------------------
  // Sanitizing text

  /** REPLACE_TABLE: the ligatures ﬁ and ﬂ, the right single quote and the
      tab, with what they are replaced by. */
  function Replacement(c: char): (r: Option<string>)
    ensures r.Some? ==> |r.value| >= 1
  {
    if c == '\U{FB01}' then Some("fi")
    else if c == '\U{FB02}' then Some("fl")
    else if c == '\U{2019}' then Some("'")
    else if c == '\t' then Some(" ")
    else None
  }

  /** What one character becomes. */
  function Piece(c: char): (r: string)
    ensures |r| >= 1
  {
    if Replacement(c).Some? then Replacement(c).value else [c]
  }

  /** The extra characters one character adds. */
  function Extra(c: char): (r: nat)
    ensures r == |Piece(c)| - 1
  {
    var t := Replacement(c);
    if t.Some? && |t.value| > 1 then |t.value| - 1 else 0
  }

  function Sanitized(s: string): string {
    if s == [] then [] else Sanitized(s[..|s| - 1]) + Piece(s[|s| - 1])
  }

  function Added(s: string): nat {
    if s == [] then 0 else Added(s[..|s| - 1]) + Extra(s[|s| - 1])
  }

  /** _sanitize: None for None; otherwise each character through the table
      and the number of characters the replacements added. */
  method Sanitize(input: Option<string>) returns (r: Option<(string, nat)>)
    ensures input.None? <==> r.None?
    ensures input.Some? ==> r.value.0 == Sanitized(input.value) && r.value.1 == Added(input.value)
  {
    if input.None? {
      return None;
    }
    var s := input.value;
    var added := 0;
    var output := "";
    for i := 0 to |s|
      invariant output == Sanitized(s[..i]) && added == Added(s[..i])
    {
      assert s[..i + 1][..i] == s[..i];
      var replacement := Replacement(s[i]);
      if replacement.None? {
        output := output + [s[i]];
        continue;
      }
      var length := |replacement.value|;
      if length > 1 {
        added := added + (length - 1);
      }
      output := output + replacement.value;
    }
    assert s[..|s|] == s;
    return Some((output, added));
  }

  /** The output is as long as the input and the characters added. */
  lemma {:induction false} SanitizedLength(s: string)
    ensures |Sanitized(s)| == |s| + Added(s)
    decreases |s|
  {
    if s != [] {
      SanitizedLength(s[..|s| - 1]);
    }
  }

  /** Sanitizing works character by character. */
  lemma {:induction false} SanitizedAppend(a: string, b: string)
    ensures Sanitized(a + b) == Sanitized(a) + Sanitized(b)
    decreases |b|
  {
    if b == [] {
      assert a + b == a;
    } else {
      var b' := b[..|b| - 1];
      var x := b[|b| - 1];
      assert (a + b)[..|a + b| - 1] == a + b' && (a + b)[|a + b| - 1] == x;
      SanitizedAppend(a, b');
      assert Sanitized(a + b) == (Sanitized(a) + Sanitized(b')) + Piece(x);
      assert Sanitized(b) == Sanitized(b') + Piece(x);
      assert (Sanitized(a) + Sanitized(b')) + Piece(x) == Sanitized(a) + (Sanitized(b') + Piece(x));
    }
  }

  /** The characters added, likewise. */
  lemma {:induction false} AddedAppend(a: string, b: string)
    ensures Added(a + b) == Added(a) + Added(b)
    decreases |b|
  {
    if b == [] {
      assert a + b == a;
    } else {
      var b' := b[..|b| - 1];
      assert (a + b)[..|a + b| - 1] == a + b' && (a + b)[|a + b| - 1] == b[|b| - 1];
      AddedAppend(a, b');
    }
  }

  /** Characters outside the table are kept, in order, and add nothing. */
  lemma {:induction false} SanitizedKeeps(s: string)
    requires forall i :: 0 <= i < |s| ==> Replacement(s[i]).None?
    ensures Sanitized(s) == s && Added(s) == 0
    decreases |s|
  {
    if s != [] {
      SanitizedKeeps(s[..|s| - 1]);
      assert s[..|s| - 1] + [s[|s| - 1]] == s;
    }
  }

  /** No replacement holds a character of the table, so sanitizing twice
      is sanitizing once. */
  lemma {:induction false} SanitizedClean(s: string)
    ensures forall i :: 0 <= i < |Sanitized(s)| ==> Replacement(Sanitized(s)[i]).None?
    decreases |s|
  {
    if s != [] {
      SanitizedClean(s[..|s| - 1]);
    }
  }

  lemma SanitizeIdempotent(s: string)
    ensures Sanitized(Sanitized(s)) == Sanitized(s)
  {
    SanitizedClean(s);
    SanitizedKeeps(Sanitized(s));
  }

  // ---------------------------------------------------------------------
  // Layers

  /** The parts of a layer the loader reads: `do_objectID`, `name`,
      `frame`, `hasClippingMask`, the sub-layers, and what its `_class`
      says it is. */
  datatype Layer = Layer(objectId: string, name: string, frame: Rectangle2, kind: LayerKind,
                         hasClippingMask: bool, layers: seq<Layer>)

  /** A shape path with its curve points (as fractions of the frame) and
      the colour of its first fill, if any; a text with its string (JSON
      null is None), its font and colour attributes, the paragraph
      alignment if given and its attribute runs; a bitmap with the
      archive path of its image; anything else. */
  datatype LayerKind =
    | ShapePath(curve: seq<Vector2>, fill: Option<Color>)
    | TextLayer(raw: Option<string>, family: string, size: real, color: Color, alignment: Option<int>,
                attributes: seq<Attribute>)
    | Bitmap(ref: string)
    | OtherLayer

  /** An attribute run of a text: location and length in the raw string,
      font and colour. */
  datatype Attribute = Attribute(location: int, length: int, family: string, size: real, color: Color)

  /** _get_frame_xy */
  function Local(layer: Layer): Vector2 {
    Vector2(layer.frame.x, layer.frame.y)
  }

  /** _get_frame_wh */
  function Size(layer: Layer): Vector2 {
    Vector2(layer.frame.width, layer.frame.height)
  }

  /** The layer's local position plus the offset of its parent. */
  function Absolute(layer: Layer, offset: Vector2): (r: Vector2)
    ensures Add(Local(layer), VectorOperand(offset)) == Ok(r)
  {
    Vector2(layer.frame.x + offset.x, layer.frame.y + offset.y)
  }

  /** _convert_color: components given as fractions, scaled to 0..255. */
  function ConvertColor(c: Color): (r: Color)
    ensures r.red == c.red * 255.0 && r.green == c.green * 255.0 && r.blue == c.blue * 255.0 && r.alpha == c.alpha * 255.0
  {
    Color(c.red * 255.0, c.green * 255.0, c.blue * 255.0, c.alpha * 255.0)
  }

  /** Opaque black in fractions converts to Color.black(). */
  lemma ConvertBlack()
    ensures ConvertColor(Color(0.0, 0.0, 0.0, 1.0)) == Black()
  {
  }

  /** A curve point, as fractions of the frame, scaled to the frame's
      size and moved to its absolute position. */
  function ScalePoint(p: Vector2, absolute: Vector2, size: Vector2): Vector2 {
    Vector2(absolute.x + p.x * size.x, absolute.y + p.y * size.y)
  }

  /** The curve points scaled to the frame and moved to its position. */
  function ScaledPoints(curve: seq<Vector2>, absolute: Vector2, size: Vector2): (r: seq<Vector2>)
    ensures |r| == |curve|
    ensures forall i :: 0 <= i < |r| ==> r[i] == ScalePoint(curve[i], absolute, size)
  {
    seq(|curve|, i requires 0 <= i < |curve| => ScalePoint(curve[i], absolute, size))
  }

  /** The point loop of _extract_shape_points. */
  method ExtractShapePoints(curve: seq<Vector2>, absolute: Vector2, size: Vector2) returns (points: seq<Vector2>)
    ensures points == ScaledPoints(curve, absolute, size)
  {
    points := [];
    for i := 0 to |curve|
      invariant |points| == i
      invariant forall k :: 0 <= k < i ==> points[k] == ScalePoint(curve[k], absolute, size)
    {
      points := points + [ScalePoint(curve[i], absolute, size)];
    }
    var expected := ScaledPoints(curve, absolute, size);
    assert forall k :: 0 <= k < |points| ==> points[k] == expected[k];
  }

  /** Curve points inside the unit square land inside the element's box. */
  lemma PointsInside(curve: seq<Vector2>, absolute: Vector2, size: Vector2, i: int)
    requires 0 <= i < |curve| && size.x >= 0.0 && size.y >= 0.0
    requires 0.0 <= curve[i].x <= 1.0 && 0.0 <= curve[i].y <= 1.0
    ensures absolute.x <= ScaledPoints(curve, absolute, size)[i].x <= absolute.x + size.x
    ensures absolute.y <= ScaledPoints(curve, absolute, size)[i].y <= absolute.y + size.y
  {
    assert ScaledPoints(curve, absolute, size)[i] == ScalePoint(curve[i], absolute, size);
    ScaleInside(curve[i], absolute, size);
  }

  lemma ScaleInside(p: Vector2, absolute: Vector2, size: Vector2)
    requires size.x >= 0.0 && size.y >= 0.0
    requires 0.0 <= p.x <= 1.0 && 0.0 <= p.y <= 1.0
    ensures absolute.x <= ScalePoint(p, absolute, size).x <= absolute.x + size.x
    ensures absolute.y <= ScalePoint(p, absolute, size).y <= absolute.y + size.y
  {
    Between(p.x, size.x);
    Between(p.y, size.y);
  }

  /** A fraction of a non-negative length lies between 0 and the length. */
  lemma Between(t: real, w: real)
    requires 0.0 <= t <= 1.0 && w >= 0.0
    ensures 0.0 <= t * w <= w
  {
    assert (1.0 - t) * w == w - t * w;
    MulNonNegative(t, w);
    MulNonNegative(1.0 - t, w);
  }

  lemma MulNonNegative(a: real, b: real)
    requires a >= 0.0 && b >= 0.0
    ensures a * b >= 0.0
  {
  }

  // ---------------------------------------------------------------------
  // Text

  /** str(n) */
  function IntString(n: int): (r: string)
    ensures |r| >= 1
  {
    if n < 0 then "-" + Digits(-n) else Digits(n)
  }

  /** text[a:b] with Python's rules: negative bounds count from the end,
      and bounds are clamped to the string. */
  function Slice(s: string, a: int, b: int): (r: string)
    ensures 0 <= a <= b <= |s| ==> r == s[a..b]
  {
    var i := Bound(a, |s|);
    var j := Bound(b, |s|);
    if i < j then s[i..j] else []
  }

  function Bound(i: int, n: nat): (r: nat)
    ensures r <= n
    ensures 0 <= i <= n ==> r == i
  {
    if i < 0 then (if i + n < 0 then 0 else i + n) else if i > n then n else i
  }

  /** _extract_span: the span starts at the location, and its length is
      the run's length plus what sanitizing its text added. */
  function ExtractSpan(attribute: Attribute, text: string): (r: Span)
    ensures r.start == attribute.location
    ensures r.content == Sanitized(Slice(text, attribute.location, attribute.location + attribute.length))
    ensures r.length == attribute.length + Added(Slice(text, attribute.location, attribute.location + attribute.length))
    ensures r.font == Some(Font(attribute.family, attribute.size, None)) && r.color == Some(ConvertColor(attribute.color))
  {
    var raw := Slice(text, attribute.location, attribute.location + attribute.length);
    Span(attribute.location, attribute.length + Added(raw), Sanitized(raw),
         Some(Font(attribute.family, attribute.size, None)), Some(ConvertColor(attribute.color)))
  }

  /** _extract_spans */
  function ExtractSpans(attributes: seq<Attribute>, text: string): (r: seq<Span>)
    ensures |r| == |attributes| && forall i :: 0 <= i < |r| ==> r[i] == ExtractSpan(attributes[i], text)
  {
    seq(|attributes|, i requires 0 <= i < |attributes| => ExtractSpan(attributes[i], text))
  }

  datatype TextParts = TextParts(content: string, font: Font, color: Color, alignment: Alignment, spans: seq<Span>)

  /** What _extract_text raises for a null string, and the start of what
      it raises for spans that do not cover the content. */
  const NotUnpacked: string := "cannot unpack non-iterable NoneType object"
  const SpansMismatch: string := "spans are not same length as content: "

  /** _extract_text: a null string fails to unpack; otherwise the content
      is the sanitized string, the alignment is right exactly when the
      paragraph alignment is 1, and the spans must be as long together as
      the content. */
  function ExtractText(kind: LayerKind): (r: Result<TextParts>)
    requires kind.TextLayer?
    ensures kind.raw.None? ==> r == Err(TypeError(NotUnpacked))
    ensures kind.raw.Some? ==>
      var spans := ExtractSpans(kind.attributes, kind.raw.value);
      (r.Ok? <==> |Sanitized(kind.raw.value)| == SumLengths(spans)) &&
      (r.Err? ==> r.error == ValueError(SpansMismatch +
                   IntString(|Sanitized(kind.raw.value)|) + " != " + IntString(SumLengths(spans)))) &&
      (r.Ok? ==> r.value == TextParts(Sanitized(kind.raw.value), Font(kind.family, kind.size, None),
                   ConvertColor(kind.color), if kind.alignment == Some(1) then Right else Left, spans))
  {
    if kind.raw.None? then Err(TypeError(NotUnpacked))
    else
      var raw := kind.raw.value;
      var content := Sanitized(raw);
      var alignment := if kind.alignment == Some(1) then Right else Left;
      var spans := ExtractSpans(kind.attributes, raw);
      if |content| != SumLengths(spans) then
        Err(ValueError(SpansMismatch + IntString(|content|) + " != " + IntString(SumLengths(spans))))
      else
        Ok(TextParts(content, Font(kind.family, kind.size, None), ConvertColor(kind.color), alignment, spans))
  }

  /** The attribute runs cover the raw string from `from` on, one after
      the other, with no gap and no overlap. */
  predicate Tiles(attributes: seq<Attribute>, raw: string, from: int)
    decreases |attributes|
  {
    0 <= from <= |raw| &&
    (attributes == [] ==> from == |raw|) &&
    (attributes != [] ==>
       attributes[0].location == from && attributes[0].length >= 0 &&
       Tiles(attributes[1..], raw, from + attributes[0].length))
  }

  lemma {:induction false} TilesSum(attributes: seq<Attribute>, raw: string, from: int)
    requires Tiles(attributes, raw, from)
    ensures SumLengths(ExtractSpans(attributes, raw)) == |raw| - from + Added(raw[from..])
    decreases |attributes|
  {
    if attributes == [] {
      assert raw[from..] == [];
    } else {
      var next := from + attributes[0].length;
      SpansSplit(attributes, raw, from, next);
      TilesSum(attributes[1..], raw, next);
      TextSplit(raw, from, next);
    }
  }

  /** The first run's span adds its length and what sanitizing its text
      added, ahead of the spans of the runs after it. */
  lemma SpansSplit(attributes: seq<Attribute>, raw: string, from: int, next: int)
    requires attributes != [] && Tiles(attributes, raw, from) && next == from + attributes[0].length
    ensures next <= |raw|
    ensures SumLengths(ExtractSpans(attributes, raw)) ==
      attributes[0].length + Added(raw[from..next]) + SumLengths(ExtractSpans(attributes[1..], raw))
  {
    var a := attributes[0];
    var spans := ExtractSpans(attributes, raw);
    assert Tiles(attributes[1..], raw, next);
    assert spans[1..] == ExtractSpans(attributes[1..], raw);
    assert SumLengths(spans) == spans[0].length + SumLengths(spans[1..]);
    assert Slice(raw, a.location, a.location + a.length) == raw[from..next];
    assert spans[0] == ExtractSpan(a, raw);
  }

  lemma TextSplit(raw: string, from: int, next: int)
    requires 0 <= from <= next <= |raw|
    ensures Added(raw[from..]) == Added(raw[from..next]) + Added(raw[next..])
  {
    assert raw[from..] == raw[from..next] + raw[next..];
    AddedAppend(raw[from..next], raw[next..]);
  }

  /** Attribute runs that tile the raw string always pass the length
      check. */
  lemma TiledTextPasses(kind: LayerKind)
    requires kind.TextLayer? && kind.raw.Some? && Tiles(kind.attributes, kind.raw.value, 0)
    ensures ExtractText(kind).Ok?
  {
    TilesSum(kind.attributes, kind.raw.value, 0);
    assert kind.raw.value[0..] == kind.raw.value;
    SanitizedLength(kind.raw.value);
  }

  // ---------------------------------------------------------------------
  // Finding the elements of a layer tree

  function Listed(e: Option<Element>): seq<Element> {
    if e.Some? then [e.value] else []
  }

  /** The elements `a` followed by those of `r`, unless `r` failed. */
  function Prepend(a: seq<Element>, r: Result<seq<Element>>): (p: Result<seq<Element>>)
    ensures p.Ok? <==> r.Ok?
    ensures p.Err? ==> p == r
    ensures p.Ok? ==> p.value == a + r.value
  {
    if r.Ok? then Ok(a + r.value) else r
  }

  lemma PrependTwice(a: seq<Element>, b: seq<Element>, r: Result<seq<Element>>)
    ensures Prepend(a, Prepend(b, r)) == Prepend(a + b, r)
  {
    if r.Ok? {
      assert a + (b + r.value) == (a + b) + r.value;
    }
  }

  /** The elements of `a` then those of `b`; the first failure wins. */
  function Combine(a: Result<seq<Element>>, b: Result<seq<Element>>): Result<seq<Element>> {
    if a.Err? then a else Prepend(a.value, b)
  }

  const NotInArchive: string := "' in the archive"

  /** The element a layer contributes by itself: a Shape, a Text or an
      Image at its absolute position, or none for other classes; the
      clip is a Shape's only. */
  function OwnElement(layer: Layer, absolute: Vector2, clip: Option<Rectangle2>, entry: string -> Option<Bytes>)
    : (r: Result<Option<Element>>)
    ensures layer.kind.OtherLayer? ==> r == Ok(None)
    ensures layer.kind.ShapePath? ==> r.Ok? && r.value.Some? && r.value.value.Shape? && r.value.value.clip == clip
    ensures layer.kind.Bitmap? ==> (r.Ok? <==> entry(layer.kind.ref).Some?)
    ensures layer.kind.TextLayer? ==> (r.Ok? <==> ExtractText(layer.kind).Ok?)
    ensures r.Ok? && r.value.Some? ==>
      r.value.value.id == layer.objectId && r.value.value.naturalId == layer.name &&
      r.value.value.position == Rectangle2(absolute.x, absolute.y, layer.frame.width, layer.frame.height)
  {
    var position := Rectangle2(absolute.x, absolute.y, layer.frame.width, layer.frame.height);
    match layer.kind
    case ShapePath(curve, fill) =>
      var color := if fill.Some? then ConvertColor(fill.value) else Black();
      Ok(Some(Shape(layer.objectId, layer.name, position, ScaledPoints(curve, absolute, Size(layer)), color, clip)))
    case TextLayer(_, _, _, _, _, _) =>
      var parts := ExtractText(layer.kind);
      if parts.Err? then Err(parts.error)
      else
        var t := parts.value;
        Ok(Some(Text(layer.objectId, layer.name, position, t.content, t.color, t.font, t.alignment, t.spans)))
    case Bitmap(ref) =>
      var bytes := entry(ref);
      if bytes.None? then Err(KeyError("There is no item named '" + ref + NotInArchive))
      else Ok(Some(Image(layer.objectId, layer.name, position, bytes, layer.name)))
    case OtherLayer => Ok(None)
  }

  /** The clip a clipping-mask sub-layer sets, at its absolute position. */
  function ClipOf(sub: Layer, absolute: Vector2): Rectangle2 {
    var at := Absolute(sub, absolute);
    Rectangle2(at.x, at.y, sub.frame.width, sub.frame.height)
  }

  /** find: the layer's own element, then those of its sub-layers. */
  function FindLayer(layer: Layer, offset: Vector2, clip: Option<Rectangle2>, entry: string -> Option<Bytes>)
    : Result<seq<Element>>
    decreases layer, 1, 0
  {
    var absolute := Absolute(layer, offset);
    var own := OwnElement(layer, absolute, clip, entry);
    if own.Err? then Err(own.error)
    else Prepend(Listed(own.value), FindChildren(layer, 0, absolute, None, entry))
  }

  /** The loop over the sub-layers from the i-th on, with the clip the
      loop holds when it reaches it: a clipping mask replaces the clip;
      any other sub-layer is searched with it, and clears it. */
  function FindChildren(parent: Layer, i: nat, absolute: Vector2, clip: Option<Rectangle2>, entry: string -> Option<Bytes>)
    : Result<seq<Element>>
    decreases parent, 0, |parent.layers| - i
  {
    if i >= |parent.layers| then Ok([])
    else
      var sub := parent.layers[i];
      if sub.hasClippingMask then FindChildren(parent, i + 1, absolute, Some(ClipOf(sub, absolute)), entry)
      else Combine(FindLayer(sub, absolute, clip, entry), FindChildren(parent, i + 1, absolute, None, entry))
  }

  /** The clip a sub-layer is searched with, read off its siblings: the
      clip of the sub-layer just before it when that one is a mask. */
  function ChildClip(layers: seq<Layer>, i: int, absolute: Vector2): (r: Option<Rectangle2>)
    requires 0 <= i <= |layers|
    ensures r.Some? <==> i > 0 && layers[i - 1].hasClippingMask
  {
    if i > 0 && layers[i - 1].hasClippingMask then Some(ClipOf(layers[i - 1], absolute)) else None
  }

  /** The sub-layers' elements, each non-mask sub-layer searched with the
      clip its siblings give it. */
  function FindEach(parent: Layer, i: nat, absolute: Vector2, entry: string -> Option<Bytes>): Result<seq<Element>>
    requires i <= |parent.layers|
    decreases |parent.layers| - i
  {
    if i == |parent.layers| then Ok([])
    else if parent.layers[i].hasClippingMask then FindEach(parent, i + 1, absolute, entry)
    else Combine(FindLayer(parent.layers[i], absolute, ChildClip(parent.layers, i, absolute), entry),
                 FindEach(parent, i + 1, absolute, entry))
  }

  /** The clip the loop carries is exactly the one a mask just before a
      sub-layer sets: a mask clips the next sibling and no other. */
  lemma {:induction false} ClipOnlyNext(parent: Layer, i: nat, absolute: Vector2, entry: string -> Option<Bytes>)
    requires i <= |parent.layers|
    ensures FindChildren(parent, i, absolute, ChildClip(parent.layers, i, absolute), entry) == FindEach(parent, i, absolute, entry)
    decreases |parent.layers| - i
  {
    if i < |parent.layers| {
      ClipOnlyNext(parent, i + 1, absolute, entry);
    }
  }

  /** The element of a layer by itself, computed as the source does. */
  method OwnElementOf(layer: Layer, absolute: Vector2, clip: Option<Rectangle2>, entry: string -> Option<Bytes>)
    returns (r: Result<Option<Element>>)
    ensures r == OwnElement(layer, absolute, clip, entry)
  {
    if layer.kind.ShapePath? {
      var points := ExtractShapePoints(layer.kind.curve, absolute, Size(layer));
      var color := if layer.kind.fill.Some? then ConvertColor(layer.kind.fill.value) else Black();
      var position := Rectangle2(absolute.x, absolute.y, layer.frame.width, layer.frame.height);
      return Ok(Some(Shape(layer.objectId, layer.name, position, points, color, clip)));
    }
    r := OwnElement(layer, absolute, clip, entry);
  }

  /** find, appending to `elements`: the layer's element first, then the
      loop over the sub-layers, each searched recursively. */
  method Find(layer: Layer, offset: Vector2, clip: Option<Rectangle2>, entry: string -> Option<Bytes>, elements: seq<Element>)
    returns (r: Result<seq<Element>>)
    ensures r == Prepend(elements, FindLayer(layer, offset, clip, entry))
    decreases layer
  {
    var absolute := Absolute(layer, offset);
    var own := OwnElementOf(layer, absolute, clip, entry);
    if own.Err? {
      return Err(own.error);
    }
    var found := elements + Listed(own.value);
    PrependTwice(elements, Listed(own.value), FindChildren(layer, 0, absolute, None, entry));
    var current: Option<Rectangle2> := None;
    var i := 0;
    while i < |layer.layers|
      invariant 0 <= i <= |layer.layers|
      invariant Prepend(found, FindChildren(layer, i, absolute, current, entry)) == Prepend(elements, FindLayer(layer, offset, clip, entry))
    {
      var sub := layer.layers[i];
      if sub.hasClippingMask {
        current := Some(ClipOf(sub, absolute));
      } else {
        var next := Find(sub, absolute, current, entry, found);
        if next.Err? {
          return next;
        }
        PrependTwice(found, FindLayer(sub, absolute, current, entry).value, FindChildren(layer, i + 1, absolute, None, entry));
        found := next.value;
        current := None;
      }
      i := i + 1;
    }
    assert found + [] == found;
    return Ok(found);
  }

  // ---------------------------------------------------------------------
  // Pages and the document

  /** The artboard with its frame moved to the origin. */
  function AtOrigin(top: Layer): Layer {
    top.(frame := top.frame.(x := 0.0, y := 0.0))
  }

  /** The page an artboard gives: its elements, kept only when there are
      more than one. */
  function PageOf(top: Layer, entry: string -> Option<Bytes>): (r: Result<Option<Page>>)
    ensures r.Ok? && r.value.Some? ==> |r.value.value.elements| > 1 && r.value.value.size == Size(top)
  {
    var found := FindLayer(AtOrigin(top), Zero(), None, entry);
    if found.Err? then Err(found.error)
    else if |found.value| > 1 then Ok(Some(Page(Size(top), found.value)))
    else Ok(None)
  }

  function PageList(p: Option<Page>): seq<Page> {
    if p.Some? then [p.value] else []
  }

  /** _load: the artboards from the last to the first. */
  function Pages(layers: seq<Layer>, entry: string -> Option<Bytes>): (r: Result<seq<Page>>)
    ensures r.Ok? ==> |r.value| <= |layers| && forall p :: p in r.value ==> |p.elements| > 1
  {
    if layers == [] then Ok([])
    else Joined(PageOf(layers[|layers| - 1], entry), Pages(layers[..|layers| - 1], entry))
  }

  /** The pages of the first `n` artboards: those of the first `n - 1`
      after the page of the n-th. */
  lemma PagesPrefix(layers: seq<Layer>, n: int, entry: string -> Option<Bytes>)
    requires 0 < n <= |layers|
    ensures Pages(layers[..n], entry) == Joined(PageOf(layers[n - 1], entry), Pages(layers[..n - 1], entry))
  {
    assert layers[..n][..n - 1] == layers[..n - 1];
  }

  /** A page, if any, ahead of the pages of the artboards before it; the
      first failure wins. */
  function Joined(page: Result<Option<Page>>, rest: Result<seq<Page>>): (r: Result<seq<Page>>)
    ensures r.Ok? ==> page.Ok? && rest.Ok? && r.value == PageList(page.value) + rest.value
  {
    if page.Err? then Err(page.error)
    else if rest.Err? then rest else Ok(PageList(page.value) + rest.value)
  }

  /** The artboard's own element, if any, sits at the origin. */
  lemma TopAtOrigin(top: Layer, clip: Option<Rectangle2>, entry: string -> Option<Bytes>)
    ensures var own := OwnElement(AtOrigin(top), Absolute(AtOrigin(top), Zero()), clip, entry);
      own.Ok? && own.value.Some? ==> own.value.value.position == Rectangle2(0.0, 0.0, top.frame.width, top.frame.height)
  {
  }

  /** The loop of _load over reversed(sketch["layers"]). */
  method LoadSketch(layers: seq<Layer>, entry: string -> Option<Bytes>) returns (r: Result<seq<Page>>)
    ensures r == Pages(layers, entry)
  {
    var pages: seq<Page> := [];
    var n := |layers|;
    assert layers[..n] == layers;
    if Pages(layers, entry).Ok? {
      assert [] + Pages(layers, entry).value == Pages(layers, entry).value;
    }
    while n > 0
      invariant 0 <= n <= |layers|
      invariant Pages(layers, entry) == PagesAfter(pages, Pages(layers[..n], entry))
    {
      var page := LoadPage(layers[n - 1], entry);
      PagesPrefix(layers, n, entry);
      if page.Err? {
        return Err(page.error);
      }
      JoinedAfter(pages, page.value, Pages(layers[..n - 1], entry));
      pages := pages + PageList(page.value);
      n := n - 1;
    }
    assert pages + [] == pages;
    return Ok(pages);
  }

  /** One artboard: its frame moved to the origin, its elements found, and
      the page kept when it has more than one. */
  method LoadPage(layer: Layer, entry: string -> Option<Bytes>) returns (r: Result<Option<Page>>)
    ensures r == PageOf(layer, entry)
  {
    var found := Find(AtOrigin(layer), Zero(), None, entry, []);
    if found.Err? {
      return Err(found.error);
    }
    assert found.value == FindLayer(AtOrigin(layer), Zero(), None, entry).value;
    if |found.value| > 1 {
      return Ok(Some(Page(Size(layer), found.value)));
    }
    return Ok(None);
  }

  /** One more artboard taken by the loop, from the back. */
  lemma JoinedAfter(pages: seq<Page>, page: Option<Page>, rest: Result<seq<Page>>)
    ensures PagesAfter(pages, Joined(Ok(page), rest)) == PagesAfter(pages + PageList(page), rest)
  {
    if rest.Ok? {
      assert pages + (PageList(page) + rest.value) == (pages + PageList(page)) + rest.value;
    }
  }

  function PagesAfter(pages: seq<Page>, r: Result<seq<Page>>): Result<seq<Page>> {
    if r.Ok? then Ok(pages + r.value) else r
  }

  /** The pages of the artboards of every page of the design, in order. */
  function AllPages(sketches: seq<seq<Layer>>, entry: string -> Option<Bytes>): (r: Result<seq<Page>>)
    ensures r.Ok? ==> forall p :: p in r.value ==> |p.elements| > 1
  {
    if sketches == [] then Ok([])
    else
      var before := AllPages(sketches[..|sketches| - 1], entry);
      var last := Pages(sketches[|sketches| - 1], entry);
      if before.Err? then before else if last.Err? then last else Ok(before.value + last.value)
  }

  // ---------------------------------------------------------------------
  // Fonts

  /** open_or_none(file_name) or open_or_none("fonts/" + file_name). */
  function Resolve(name: string, entry: string -> Option<Bytes>): Option<Bytes> {
    if entry(name).Some? then entry(name) else entry("fonts/" + name)
  }

  predicate UsesFile(fonts: seq<Font>, name: string) {
    exists f :: f in fonts && FileName(f) == name
  }

  /** Each font file the fonts use, resolved once. */
  method LoadFonts(fonts: seq<Font>, entry: string -> Option<Bytes>)
    returns (loaded: map<string, Option<Bytes>>, ghost lookups: seq<string>)
    ensures forall name :: name in loaded <==> UsesFile(fonts, name)
    ensures forall name :: name in loaded ==> loaded[name] == Resolve(name, entry)
    ensures forall i, j :: 0 <= i < j < |lookups| ==> lookups[i] != lookups[j]
    ensures forall name :: name in lookups <==> name in loaded
  {
    loaded := map[];
    lookups := [];
    for i := 0 to |fonts|
      invariant forall name :: name in loaded <==> UsesFile(fonts[..i], name)
      invariant forall name :: name in loaded ==> loaded[name] == Resolve(name, entry)
      invariant forall k, j :: 0 <= k < j < |lookups| ==> lookups[k] != lookups[j]
      invariant forall name :: name in lookups <==> name in loaded
    {
      assert fonts[..i + 1] == fonts[..i] + [fonts[i]];
      var name := FileName(fonts[i]);
      if name in loaded {
        continue;
      }
      var found := entry(name);
      if found.None? {
        found := entry("fonts/" + name);
      }
      loaded := loaded[name := found];
      lookups := lookups + [name];
    }
    assert fonts[..|fonts|] == fonts;
  }

  /** A font with the bytes of its file, when the file was found. */
  function SetFont(f: Font, loaded: map<string, Option<Bytes>>): (r: Font)
    ensures r.family == f.family && r.size == f.size
    ensures FileName(f) in loaded && loaded[FileName(f)].Some? ==> r.bytes == loaded[FileName(f)]
    ensures !(FileName(f) in loaded && loaded[FileName(f)].Some?) ==> r == f
  {
    if FileName(f) in loaded && loaded[FileName(f)].Some? then f.(bytes := loaded[FileName(f)]) else f
  }

  function SetFonts(fonts: seq<Font>, loaded: map<string, Option<Bytes>>): (r: seq<Font>)
    ensures |r| == |fonts| && forall i :: 0 <= i < |r| ==> r[i] == SetFont(fonts[i], loaded)
  {
    seq(|fonts|, i requires 0 <= i < |fonts| => SetFont(fonts[i], loaded))
  }

  function SpanWithBytes(s: Span, loaded: map<string, Option<Bytes>>): Span {
    if s.font.Some? then s.(font := Some(SetFont(s.font.value, loaded))) else s
  }

  /** A Text's font and span fonts given their bytes; other elements as
      they are. */
  function ElementWithBytes(e: Element, loaded: map<string, Option<Bytes>>): Element {
    if e.Text? then
      e.(font := SetFont(e.font, loaded), spans := seq(|e.spans|, i requires 0 <= i < |e.spans| => SpanWithBytes(e.spans[i], loaded)))
    else e
  }

  /** The document after the font loop: every font it lists updated. */
  function WithFontBytes(pages: seq<Page>, loaded: map<string, Option<Bytes>>): seq<Page> {
    seq(|pages|, p requires 0 <= p < |pages| =>
      Page(pages[p].size, seq(|pages[p].elements|, e requires 0 <= e < |pages[p].elements| =>
        ElementWithBytes(pages[p].elements[e], loaded))))
  }

  lemma {:induction false} SpanFontsWithBytes(spans: seq<Span>, loaded: map<string, Option<Bytes>>)
    ensures SpanFonts(seq(|spans|, i requires 0 <= i < |spans| => SpanWithBytes(spans[i], loaded))) ==
      SetFonts(SpanFonts(spans), loaded)
    decreases |spans|
  {
    var after := seq(|spans|, i requires 0 <= i < |spans| => SpanWithBytes(spans[i], loaded));
    if spans != [] {
      var rest := spans[1..];
      assert after[1..] == seq(|rest|, i requires 0 <= i < |rest| => SpanWithBytes(rest[i], loaded));
      SpanFontsWithBytes(rest, loaded);
      var head := if spans[0].font.Some? then [spans[0].font.value] else [];
      assert SpanFonts(spans) == head + SpanFonts(rest);
      SetFontsAppend(head, SpanFonts(rest), loaded);
    }
  }

  lemma SetFontsAppend(a: seq<Font>, b: seq<Font>, loaded: map<string, Option<Bytes>>)
    ensures SetFonts(a + b, loaded) == SetFonts(a, loaded) + SetFonts(b, loaded)
  {
    assert |SetFonts(a + b, loaded)| == |SetFonts(a, loaded) + SetFonts(b, loaded)|;
    forall i | 0 <= i < |a + b|
      ensures SetFonts(a + b, loaded)[i] == (SetFonts(a, loaded) + SetFonts(b, loaded))[i]
    {
      if i >= |a| {
        assert (a + b)[i] == b[i - |a|];
      }
    }
  }

  lemma ElementFontsWithBytes(e: Element, loaded: map<string, Option<Bytes>>)
    ensures ElementFonts(ElementWithBytes(e, loaded)) == SetFonts(ElementFonts(e), loaded)
  {
    if e.Text? {
      SpanFontsWithBytes(e.spans, loaded);
      SetFontsAppend([e.font], SpanFonts(e.spans), loaded);
    }
  }

  lemma {:induction false} PageFontsWithBytes(elements: seq<Element>, loaded: map<string, Option<Bytes>>)
    ensures PageFonts(seq(|elements|, e requires 0 <= e < |elements| => ElementWithBytes(elements[e], loaded))) ==
      SetFonts(PageFonts(elements), loaded)
    decreases |elements|
  {
    if elements != [] {
      var rest := elements[1..];
      var after := seq(|elements|, e requires 0 <= e < |elements| => ElementWithBytes(elements[e], loaded));
      assert after[1..] == seq(|rest|, e requires 0 <= e < |rest| => ElementWithBytes(rest[e], loaded));
      PageFontsWithBytes(rest, loaded);
      ElementFontsWithBytes(elements[0], loaded);
      SetFontsAppend(ElementFonts(elements[0]), PageFonts(rest), loaded);
    }
  }

  /** The fonts of the document after the font loop are its fonts before,
      each given the bytes of its file when the file was found. */
  lemma {:induction false} FontsWithBytes(pages: seq<Page>, loaded: map<string, Option<Bytes>>)
    ensures Fonts(WithFontBytes(pages, loaded)) == SetFonts(Fonts(pages), loaded)
    decreases |pages|
  {
    if pages != [] {
      var rest := pages[1..];
      assert WithFontBytes(pages, loaded)[1..] == WithFontBytes(rest, loaded);
      var elements := pages[0].elements;
      assert WithFontBytes(pages, loaded)[0].elements ==
        seq(|elements|, e requires 0 <= e < |elements| => ElementWithBytes(elements[e], loaded));
      FontsWithBytes(rest, loaded);
      PageFontsWithBytes(pages[0].elements, loaded);
      SetFontsAppend(PageFonts(pages[0].elements), Fonts(rest), loaded);
    }
  }

  /** The file of every font, resolved once. */
  ghost function Resolved(fonts: seq<Font>, entry: string -> Option<Bytes>): map<string, Option<Bytes>> {
    map name | name in (set f | f in fonts :: FileName(f)) :: Resolve(name, entry)
  }

  /** load: the pages of every design page, in order; then the fonts given
      their bytes, each file looked up once; then the template. */
  method Load(path: string, sketches: seq<seq<Layer>>, entry: string -> Option<Bytes>)
    returns (r: Result<Template>, ghost lookups: seq<string>)
    ensures r.Ok? <==> AllPages(sketches, entry).Ok?
    ensures r.Err? ==> r.error == AllPages(sketches, entry).error
    ensures r.Ok? ==>
      var pages := AllPages(sketches, entry).value;
      fresh(r.value) && r.value.name == path &&
      r.value.document == Document(WithFontBytes(pages, Resolved(Fonts(pages), entry))) &&
      r.value.slots == Slots(Entries(r.value.document.pages))
    ensures forall i, j :: 0 <= i < j < |lookups| ==> lookups[i] != lookups[j]
  {
    var pages: seq<Page> := [];
    lookups := [];
    for i := 0 to |sketches|
      invariant AllPages(sketches[..i], entry) == Ok(pages)
    {
      assert sketches[..i + 1][..i] == sketches[..i];
      var more := LoadSketch(sketches[i], entry);
      if more.Err? {
        AllPagesFails(sketches, i + 1, entry);
        return Err(more.error), lookups;
      }
      pages := pages + more.value;
    }
    assert sketches[..|sketches|] == sketches;
    var loaded;
    loaded, lookups := LoadFonts(Fonts(pages), entry);
    assert loaded == Resolved(Fonts(pages), entry);
    var document := Document(WithFontBytes(pages, loaded));
    var template := new Template(path, document);
    return Ok(template), lookups;
  }

  /** A failing prefix makes the whole load fail the same way. */
  lemma {:induction false} AllPagesFails(sketches: seq<seq<Layer>>, n: int, entry: string -> Option<Bytes>)
    requires 0 <= n <= |sketches| && AllPages(sketches[..n], entry).Err?
    ensures AllPages(sketches, entry) == AllPages(sketches[..n], entry)
    decreases |sketches| - n
  {
    if n < |sketches| {
      assert sketches[..n + 1][..n] == sketches[..n];
      AllPagesFails(sketches, n + 1, entry);
    } else {
      assert sketches[..n] == sketches;
    }
  }

  // ---------------------------------------------------------------------
  // As written against backtest/template/models.py

  /** What the older imports raise for a text layer and for a bitmap. */
  const NoAlignment: string := "name 'Alignment' is not defined"
  const NoAlternative: string := "Image.__init__() got an unexpected keyword argument 'alternative'"

  /** The element of a layer as the source runs against the models it
      imports: they define no Alignment, so a text layer fails once its
      string is unpacked, and their Image takes no `alternative`, so a
      bitmap layer fails once its image is read. */
  function OwnElementAsWritten(layer: Layer, absolute: Vector2, clip: Option<Rectangle2>, entry: string -> Option<Bytes>)
    : (r: Result<Option<Element>>)
    ensures layer.kind.ShapePath? || layer.kind.OtherLayer? ==> r == OwnElement(layer, absolute, clip, entry)
    ensures layer.kind.TextLayer? || layer.kind.Bitmap? ==> r.Err?
  {
    match layer.kind
    case TextLayer(raw, _, _, _, _, _) =>
      if raw.None? then Err(TypeError(NotUnpacked))
      else Err(NameError(NoAlignment))
    case Bitmap(ref) =>
      if entry(ref).None? then Err(KeyError("There is no item named '" + ref + NotInArchive))
      else Err(TypeError(NoAlternative))
    case _ => OwnElement(layer, absolute, clip, entry)
  }

  /** A text layer whose attribute runs tile its string loads with the
      newer models and fails with the ones imported. */
  lemma TextLayerAsWritten(layer: Layer, absolute: Vector2, clip: Option<Rectangle2>, entry: string -> Option<Bytes>)
    requires layer.kind.TextLayer? && layer.kind.raw.Some? && Tiles(layer.kind.attributes, layer.kind.raw.value, 0)
    ensures OwnElement(layer, absolute, clip, entry).Ok?
    ensures OwnElementAsWritten(layer, absolute, clip, entry) == Err(NameError(NoAlignment))
  {
    TiledTextPasses(layer.kind);
  }
}
