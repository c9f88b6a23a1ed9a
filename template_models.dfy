/** bktest/template/models.py: the values a report template is made of:
    vectors, rectangles, colours, fonts, spans of text, the elements placed
    on a page, and the document. */
module TemplateModels {
  import opened Wrappers
  import opened Utils

  type Bytes = seq<bv8>

  datatype Vector2 = Vector2(x: real, y: real)

  /** The right operand of `Vector2 + other`: another vector, a number, or
      a value of some other type, known by its type's name. */
  datatype Operand = VectorOperand(v: Vector2) | NumberOperand(n: real) | OtherOperand(typeName: string)

  /** Vector2.__add__: componentwise with a vector, to both components with
      a number, ValueError with anything else. */
  function Add(v: Vector2, other: Operand): (r: Result<Vector2>)
    ensures other.VectorOperand? ==> r == Ok(Vector2(v.x + other.v.x, v.y + other.v.y))
    ensures other.NumberOperand? ==> r == Ok(Vector2(v.x + other.n, v.y + other.n))
    ensures other.OtherOperand? ==> r == Err(ValueError("unsupported operator with: " + other.typeName))
  {
    match other
    case VectorOperand(w) => Ok(Vector2(v.x + w.x, v.y + w.y))
    case NumberOperand(n) => Ok(Vector2(v.x + n, v.y + n))
    case OtherOperand(t) => Err(ValueError("unsupported operator with: " + t))
  }

  /** Vector2.zero() */
  function Zero(): (r: Vector2)
    ensures r.x == 0.0 && r.y == 0.0
  {
    Vector2(0.0, 0.0)
  }

  /** The zero vector and the number 0 leave a vector as it is; adding
      vectors commutes; adding two numbers in turn adds their sum. */
  lemma AddLaws(v: Vector2, w: Vector2, a: real, b: real)
    ensures Add(v, VectorOperand(Zero())) == Ok(v) && Add(v, NumberOperand(0.0)) == Ok(v)
    ensures Add(v, VectorOperand(w)).value == Add(w, VectorOperand(v)).value
    ensures Add(Add(v, NumberOperand(a)).value, NumberOperand(b)) == Add(v, NumberOperand(a + b))
    ensures Add(v, NumberOperand(a)) == Add(v, VectorOperand(Vector2(a, a)))
  {
  }

  datatype Rectangle2 = Rectangle2(x: real, y: real, width: real, height: real)

  /** Rectangle2.tuple: (x, y, width, height). */
  function Tuple(r: Rectangle2): (t: (real, real, real, real))
    ensures Rectangle2(t.0, t.1, t.2, t.3) == r
  {
    (r.x, r.y, r.width, r.height)
  }

  datatype Color = Color(red: real, green: real, blue: real, alpha: real)

  function HexChar(d: int): (c: char)
    requires 0 <= d < 16
    ensures HexValue(c) == d
  {
    "0123456789abcdef"[d]
  }

  /** The value of a lowercase hexadecimal digit. */
  function HexValue(c: char): int {
    if '0' <= c <= '9' then c as int - '0' as int
    else if 'a' <= c <= 'f' then c as int - 'a' as int + 10
    else -1
  }

  /** Lowercase hexadecimal digits of a natural number. */
  function HexDigits(n: nat): (r: string)
    ensures |r| >= 1
    decreases n
  {
    if n < 16 then [HexChar(n)] else HexDigits(n / 16) + [HexChar(n % 16)]
  }

  /** `'%02x' % n`: at least two digits, zero-padded; a negative number is
      its sign followed by the digits of its magnitude. */
  function Hex2(n: int): (r: string)
    ensures |r| >= 2
    ensures 0 <= n < 256 ==> |r| == 2 && HexValue(r[0]) * 16 + HexValue(r[1]) == n
    ensures n < 0 ==> r[0] == '-'
  {
    if n < 0 then "-" + HexDigits(-n)
    else if n < 16 then ['0', HexChar(n)]
    else if n < 256 then
      assert HexDigits(n) == [HexChar(n / 16)] + [HexChar(n % 16)];
      HexDigits(n)
    else HexDigits(n)
  }

  /** Color.hex_string: "#" and the four truncated components in hex. */
  function HexString(c: Color): (r: string)
    ensures |r| >= 9 && r[0] == '#'
  {
    "#" + Hex2(Trunc(c.red)) + Hex2(Trunc(c.green)) + Hex2(Trunc(c.blue)) + Hex2(Trunc(c.alpha))
  }

  /** A component in 0..255 fits two digits. */
  predicate InByte(x: real) {
    0 <= Trunc(x) < 256
  }

  /** The two digits of a hex string starting at index i. */
  function HexPair(s: string, i: int): int
    requires 0 <= i && i + 1 < |s|
  {
    HexValue(s[i]) * 16 + HexValue(s[i + 1])
  }

  /** For components in 0..255 the string is nine characters long and its
      digit pairs read back as the truncated components. */
  lemma HexStringRoundTrip(c: Color)
    requires InByte(c.red) && InByte(c.green) && InByte(c.blue) && InByte(c.alpha)
    ensures |HexString(c)| == 9
    ensures HexPair(HexString(c), 1) == Trunc(c.red) && HexPair(HexString(c), 3) == Trunc(c.green)
    ensures HexPair(HexString(c), 5) == Trunc(c.blue) && HexPair(HexString(c), 7) == Trunc(c.alpha)
  {
    var r, g, b, a := Hex2(Trunc(c.red)), Hex2(Trunc(c.green)), Hex2(Trunc(c.blue)), Hex2(Trunc(c.alpha));
    var s := HexString(c);
    assert s == "#" + r + g + b + a;
    assert s[1] == r[0] && s[2] == r[1] && s[3] == g[0] && s[4] == g[1];
    assert s[5] == b[0] && s[6] == b[1] && s[7] == a[0] && s[8] == a[1];
  }

  /** Color.black(): opaque black. */
  function Black(): (r: Color)
    ensures Trunc(r.red) == 0 && Trunc(r.green) == 0 && Trunc(r.blue) == 0 && Trunc(r.alpha) == 255
  {
    Color(0.0, 0.0, 0.0, 255.0)
  }

  lemma BlackHexString()
    ensures HexString(Black()) == "#000000ff"
  {
    assert HexDigits(255) == HexDigits(15) + [HexChar(15)];
  }

  /** A font; `bytes` is set once its file has been found. */
  datatype Font = Font(family: string, size: real, bytes: Option<Bytes>)

  const FontSuffix: string := ".ttf"

  /** Font.file_name: the family with ".ttf" appended. */
  function FileName(f: Font): (r: string)
    ensures |r| == |f.family| + |FontSuffix| && r[|f.family|..] == FontSuffix && r[..|f.family|] == f.family
  {
    f.family + FontSuffix
  }

  /** Two fonts share a file exactly when they share a family. */
  lemma FileNameInjective(f: Font, g: Font)
    ensures FileName(f) == FileName(g) <==> f.family == g.family
  {
    if FileName(f) == FileName(g) {
      assert |f.family| == |g.family|;
      assert f.family == FileName(f)[..|f.family|];
    }
  }

  datatype Alignment = Left | Right

  datatype Span = Span(start: int, length: int, content: string, font: Option<Font>, color: Option<Color>)

  /** Span.end: one past the span's last position. */
  function End(s: Span): (r: int)
    ensures r - s.length == s.start
  {
    s.start + s.length
  }

  /** Each span starts where the one before it ends. */
  predicate Contiguous(spans: seq<Span>) {
    forall i :: 0 <= i < |spans| - 1 ==> spans[i + 1].start == End(spans[i])
  }

  function SumLengths(spans: seq<Span>): int {
    if spans == [] then 0 else spans[0].length + SumLengths(spans[1..])
  }

  /** Contiguous spans cover from the first start to the last end, which
      is as long as their lengths together. */
  lemma {:induction false} ContiguousCover(spans: seq<Span>)
    requires spans != [] && Contiguous(spans)
    ensures End(spans[|spans| - 1]) - spans[0].start == SumLengths(spans)
    decreases |spans|
  {
    if |spans| > 1 {
      ContiguousCover(spans[1..]);
    }
  }

  /** An element of a page: its identifier, its name in the design (the
      natural identifier) and its position, and what kind of element it
      is. */
  datatype Element =
    | Shape(id: string, naturalId: string, position: Rectangle2, points: seq<Vector2>, color: Color, clip: Option<Rectangle2>)
    | Text(id: string, naturalId: string, position: Rectangle2, content: string, color: Color, font: Font,
           alignment: Alignment, spans: seq<Span>)
    | Image(id: string, naturalId: string, position: Rectangle2, bytes: Option<Bytes>, alternative: string)

  datatype Page = Page(size: Vector2, elements: seq<Element>)

  datatype Document = Document(pages: seq<Page>)

  /** The fonts of one element: a Text's own font, then the fonts its
      spans set. */
  function ElementFonts(e: Element): (r: seq<Font>)
    ensures e.Text? ==> |r| >= 1 && r[0] == e.font
    ensures !e.Text? ==> r == []
  {
    if e.Text? then [e.font] + SpanFonts(e.spans) else []
  }

  function SpanFonts(spans: seq<Span>): seq<Font> {
    if spans == [] then []
    else (if spans[0].font.Some? then [spans[0].font.value] else []) + SpanFonts(spans[1..])
  }

  /** The fonts the spans set are exactly those of the spans that set one. */
  lemma {:induction false} SpanFontsFromSpans(spans: seq<Span>)
    ensures forall f :: f in SpanFonts(spans) <==> exists s :: s in spans && s.font == Some(f)
  {
    if spans != [] {
      SpanFontsFromSpans(spans[1..]);
      assert forall s :: s in spans <==> s == spans[0] || s in spans[1..];
    }
  }

  function PageFonts(elements: seq<Element>): seq<Font> {
    if elements == [] then [] else ElementFonts(elements[0]) + PageFonts(elements[1..])
  }

  /** Document.fonts: page by page, element by element. */
  function Fonts(pages: seq<Page>): seq<Font> {
    if pages == [] then [] else PageFonts(pages[0].elements) + Fonts(pages[1..])
  }

  /** The fonts of a page come before those of the pages after it. */
  lemma {:induction false} FontsAppend(a: seq<Page>, b: seq<Page>)
    ensures Fonts(a + b) == Fonts(a) + Fonts(b)
    decreases |a|
  {
    if a == [] {
      assert a + b == b;
    } else {
      assert (a + b)[1..] == a[1..] + b;
      FontsAppend(a[1..], b);
    }
  }

  /** Every font listed belongs to a Text of the document: its own or
      one set by a span. */
  lemma {:induction false} FontsComeFromTexts(pages: seq<Page>, f: Font)
    requires f in Fonts(pages)
    ensures exists p, e :: 0 <= p < |pages| && 0 <= e < |pages[p].elements| && f in ElementFonts(pages[p].elements[e])
    decreases |pages|
  {
    if f in PageFonts(pages[0].elements) {
      var e := PageFontsFrom(pages[0].elements, f);
      assert f in ElementFonts(pages[0].elements[e]);
    } else {
      FontsComeFromTexts(pages[1..], f);
      var p, e :| 0 <= p < |pages[1..]| && 0 <= e < |pages[1..][p].elements| && f in ElementFonts(pages[1..][p].elements[e]);
      assert pages[1..][p] == pages[p + 1];
    }
  }

  lemma {:induction false} PageFontsFrom(elements: seq<Element>, f: Font) returns (e: int)
    requires f in PageFonts(elements)
    ensures 0 <= e < |elements| && f in ElementFonts(elements[e])
  {
    e := 0;
    while f !in ElementFonts(elements[e])
      invariant 0 <= e < |elements| && f in PageFonts(elements[e..])
      decreases |elements| - e
    {
      assert elements[e..][1..] == elements[e + 1..];
      e := e + 1;
    }
  }
}
