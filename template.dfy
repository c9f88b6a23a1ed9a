/** backtest/template/template.py: a template holds a document and, for
    every identifier and every natural identifier, the elements that carry
    it (its slots); setting a slot rewrites those elements in place.  An
    element is known by its place: the index of its page and its index on
    the page, so that an element listed in two slots is one element. */
module Templates {
  import opened Wrappers
  import opened TemplateModels

  /** (page index, element index) */
  type Place = (int, int)

  predicate ValidPlace(doc: Document, pl: Place) {
    0 <= pl.0 < |doc.pages| && 0 <= pl.1 < |doc.pages[pl.0].elements|
  }

  function At(doc: Document, pl: Place): Element
    requires ValidPlace(doc, pl)
  {
    doc.pages[pl.0].elements[pl.1]
  }

  /** The document with the element at `pl` replaced. */
  function ReplaceAt(doc: Document, pl: Place, e: Element): (r: Document)
    requires ValidPlace(doc, pl)
    ensures SameShape(doc, r) && At(r, pl) == e
    ensures forall q :: ValidPlace(doc, q) && q != pl ==> At(r, q) == At(doc, q)
  {
    var page := doc.pages[pl.0];
    Document(doc.pages[pl.0 := Page(page.size, page.elements[pl.1 := e])])
  }

  /** Same number of pages and of elements on each. */
  predicate SameShape(a: Document, b: Document) {
    |a.pages| == |b.pages| && forall p :: 0 <= p < |a.pages| ==> |a.pages[p].elements| == |b.pages[p].elements|
  }

  /** The elements of some pages with their places, page by page. */
  function Entries(pages: seq<Page>): (r: seq<(Place, Element)>)
    ensures forall i :: 0 <= i < |r| ==> (0 <= r[i].0.0 < |pages| && 0 <= r[i].0.1 < |pages[r[i].0.0].elements| &&
      r[i].1 == pages[r[i].0.0].elements[r[i].0.1])
  {
    if pages == [] then []
    else
      var n := |pages| - 1;
      Entries(pages[..n]) + PageEntries(n, pages[n].elements)
  }

  function PageEntries(p: int, elements: seq<Element>): (r: seq<(Place, Element)>)
    ensures forall i :: 0 <= i < |r| ==> r[i].0.0 == p && 0 <= r[i].0.1 < |elements| && r[i].1 == elements[r[i].0.1]
  {
    if elements == [] then []
    else
      var n := |elements| - 1;
      PageEntries(p, elements[..n]) + [((p, n), elements[n])]
  }

  /** The places a slot lists: every element in order, once for its id and
      once for its natural id when they are the key. */
  function SlotOf(entries: seq<(Place, Element)>, key: string): seq<Place> {
    if entries == [] then []
    else
      var last := entries[|entries| - 1];
      SlotOf(entries[..|entries| - 1], key) + (if last.1.id == key then [last.0] else []) +
        (if last.1.naturalId == key then [last.0] else [])
  }

  /** A place appended to the slot of a key, which is created if need be. */
  function Append(slots: map<string, seq<Place>>, key: string, pl: Place): (r: map<string, seq<Place>>)
    ensures r.Keys == slots.Keys + {key}
  {
    if key in slots then slots[key := slots[key] + [pl]] else slots[key := [pl]]
  }

  /** The slots after the constructor's loops have seen the entries. */
  function Slots(entries: seq<(Place, Element)>): map<string, seq<Place>> {
    if entries == [] then map[]
    else
      var last := entries[|entries| - 1];
      Append(Append(Slots(entries[..|entries| - 1]), last.1.id, last.0), last.1.naturalId, last.0)
  }

  /** A key has a slot exactly when some element carries it, and the slot
      lists the places SlotOf says. */
  lemma {:induction false} SlotsMeaning(entries: seq<(Place, Element)>, key: string)
    ensures key in Slots(entries) <==> SlotOf(entries, key) != []
    ensures key in Slots(entries) ==> Slots(entries)[key] == SlotOf(entries, key)
    decreases |entries|
  {
    if entries != [] {
      SlotsMeaning(entries[..|entries| - 1], key);
    }
  }

  /** An element whose id is its natural id is listed twice in a row. */
  lemma SameIdTwice(entries: seq<(Place, Element)>, pl: Place, e: Element)
    requires e.id == e.naturalId
    ensures SlotOf(entries + [(pl, e)], e.id) == SlotOf(entries, e.id) + [pl, pl]
  {
    assert (entries + [(pl, e)])[..|entries|] == entries;
  }

  /** The value given to `set`: its `str()` and what kind of value it is. */
  datatype Value = Value(text: string, kind: Kind)
  datatype Kind = BytesIO(bytes: Bytes) | Str | Other

  /** What `set` does to one element as the source is written: a Text gets
      the value's text; an Image given a BytesIO reads the local `bytes`
      before it is assigned; an Image given a path copies the file, opened
      as text, into a binary buffer, which fails unless the file is empty;
      an Image given anything else raises ValueError; a Shape is left as
      it is.  `readText` reads a file as text. */
  function UpdatedAsWritten(e: Element, value: Value, readText: string -> Result<string>): (r: Result<Element>)
    ensures e.Text? ==> r == Ok(e.(content := value.text))
    ensures e.Shape? ==> r == Ok(e)
    ensures e.Image? && value.kind.BytesIO? ==> r.Err? && r.error.NameError?
    ensures e.Image? && value.kind.Str? && readText(value.text).Err? ==> r == Err(readText(value.text).error)
    ensures e.Image? && value.kind.Str? && readText(value.text).Ok? && readText(value.text).value != [] ==>
      r == Err(TypeError("a bytes-like object is required, not 'str'"))
    ensures e.Image? && value.kind.Str? && readText(value.text) == Ok([]) ==> r == Ok(e.(bytes := Some([])))
    ensures e.Image? && value.kind.Other? ==> r == Err(ValueError("unsupported for image: " + value.text))
  {
    match e
    case Text(_, _, _, _, _, _, _, _) => Ok(e.(content := value.text))
    case Shape(_, _, _, _, _, _) => Ok(e)
    case Image(_, _, _, _, _) =>
      match value.kind
      case BytesIO(_) => Err(NameError("cannot access local variable 'bytes' where it is not associated with a value"))
      case Str =>
        var content := readText(value.text);
        if content.Err? then Err(content.error)
        else if content.value != [] then Err(TypeError("a bytes-like object is required, not 'str'"))
        else Ok(e.(bytes := Some([])))
      case Other => Err(ValueError("unsupported for image: " + value.text))
  }

  /** What `set` evidently means to do to one element: an Image takes the
      buffer it is given, or the bytes of the file at the path.
      `readBytes` reads a file as bytes. */
  function Updated(e: Element, value: Value, readBytes: string -> Result<Bytes>): (r: Result<Element>)
    ensures e.Text? ==> r == Ok(e.(content := value.text))
    ensures e.Shape? ==> r == Ok(e)
    ensures e.Image? && value.kind.BytesIO? ==> r == Ok(e.(bytes := Some(value.kind.bytes)))
    ensures e.Image? && value.kind.Str? ==> ((r.Ok? <==> readBytes(value.text).Ok?) &&
      (r.Ok? ==> r.value == e.(bytes := Some(readBytes(value.text).value))))
    ensures e.Image? && value.kind.Other? ==> r == Err(ValueError("unsupported for image: " + value.text))
  {
    match e
    case Text(_, _, _, _, _, _, _, _) => Ok(e.(content := value.text))
    case Shape(_, _, _, _, _, _) => Ok(e)
    case Image(_, _, _, _, _) =>
      match value.kind
      case BytesIO(b) => Ok(e.(bytes := Some(b)))
      case Str =>
        var content := readBytes(value.text);
        if content.Err? then Err(content.error) else Ok(e.(bytes := Some(content.value)))
      case Other => Err(ValueError("unsupported for image: " + value.text))
  }

  /** An update keeps an element's kind, identifiers and position. */
  predicate Keeps(e: Element, e': Element) {
    e'.id == e.id && e'.naturalId == e.naturalId && e'.position == e.position &&
    e.Text? == e'.Text? && e.Image? == e'.Image? && e.Shape? == e'.Shape?
  }

  /** The buffer handed over as a value reaches the image only in the
      intended update: as written the same call raises. */
  lemma BytesIOImage(e: Element, b: Bytes, text: string, readText: string -> Result<string>, readBytes: string -> Result<Bytes>)
    requires e.Image?
    ensures UpdatedAsWritten(e, Value(text, BytesIO(b)), readText).Err?
    ensures Updated(e, Value(text, BytesIO(b)), readBytes) == Ok(e.(bytes := Some(b)))
  {
  }

  /** The elements at the places rewritten one after another by `update`;
      the first failure stops the rewriting, and what was rewritten before
      it stays rewritten. */
  function ApplyAll(doc: Document, places: seq<Place>, update: Element -> Result<Element>): (r: (Document, Option<Error>))
    requires forall i :: 0 <= i < |places| ==> ValidPlace(doc, places[i])
    ensures SameShape(doc, r.0)
    decreases |places|
  {
    if places == [] then (doc, None)
    else
      var u := update(At(doc, places[0]));
      if u.Err? then (doc, Some(u.error))
      else
        var doc' := ReplaceAt(doc, places[0], u.value);
        assert forall i :: 0 <= i < |places[1..]| ==> ValidPlace(doc', places[1..][i]);
        var r := ApplyAll(doc', places[1..], update);
        SameShapeTrans(doc, doc', r.0);
        r
  }

  lemma SameShapeTrans(a: Document, b: Document, c: Document)
    requires SameShape(a, b) && SameShape(b, c)
    ensures SameShape(a, c)
  {
  }

  /** Elements at places outside the slot are untouched. */
  lemma {:induction false} ApplyAllOutside(doc: Document, places: seq<Place>, update: Element -> Result<Element>, q: Place)
    requires forall i :: 0 <= i < |places| ==> ValidPlace(doc, places[i])
    requires ValidPlace(doc, q) && q !in places
    ensures ValidPlace(ApplyAll(doc, places, update).0, q) && At(ApplyAll(doc, places, update).0, q) == At(doc, q)
    decreases |places|
  {
    if places != [] {
      var u := update(At(doc, places[0]));
      if u.Ok? {
        var doc' := ReplaceAt(doc, places[0], u.value);
        assert forall i :: 0 <= i < |places[1..]| ==> ValidPlace(doc', places[1..][i]);
        ApplyAllOutside(doc', places[1..], update, q);
      }
    }
  }

  /** Without a failure, each Text listed in the slot ends up holding the
      value's text. */
  lemma {:induction false} ApplyAllTexts(doc: Document, places: seq<Place>, value: Value, readText: string -> Result<string>, k: int)
    requires forall i :: 0 <= i < |places| ==> ValidPlace(doc, places[i])
    requires 0 <= k < |places| && At(doc, places[k]).Text?
    requires ApplyAll(doc, places, e => UpdatedAsWritten(e, value, readText)).1.None?
    ensures ValidPlace(ApplyAll(doc, places, e => UpdatedAsWritten(e, value, readText)).0, places[k])
    ensures At(ApplyAll(doc, places, e => UpdatedAsWritten(e, value, readText)).0, places[k]).Text?
    ensures At(ApplyAll(doc, places, e => UpdatedAsWritten(e, value, readText)).0, places[k]).content == value.text
    decreases |places|
  {
    var update := e => UpdatedAsWritten(e, value, readText);
    var u := update(At(doc, places[0]));
    var doc' := ReplaceAt(doc, places[0], u.value);
    assert forall i :: 0 <= i < |places[1..]| ==> ValidPlace(doc', places[1..][i]);
    if k == 0 {
      if places[0] in places[1..] {
        var j :| 0 <= j < |places[1..]| && places[1..][j] == places[0];
        assert At(doc', places[0]).Text?;
        ApplyAllTexts(doc', places[1..], value, readText, j);
      } else {
        ApplyAllOutside(doc', places[1..], update, places[0]);
      }
    } else {
      if places[k] == places[0] {
        assert At(doc', places[k]).Text?;
      } else {
        assert At(doc', places[k]) == At(doc, places[k]);
      }
      ApplyAllTexts(doc', places[1..], value, readText, k - 1);
    }
  }

  /** The template: its name, its document and its slots. */
  class Template {
    var name: string
    var document: Document
    var slots: map<string, seq<Place>>

    /** Every place a slot lists is a place of the document. */
    ghost predicate Valid()
      reads this
    {
      forall key, i :: key in slots && 0 <= i < |slots[key]| ==> ValidPlace(document, slots[key][i])
    }

    /** Template(name, document): the slots built page by page, element by
        element, appending each element under its id, then under its
        natural id. */
    constructor(name: string, document: Document)
      ensures this.name == name && this.document == document
      ensures slots == Slots(Entries(document.pages))
      ensures Valid()
    {
      var pages := document.pages;
      var slots: map<string, seq<Place>> := map[];
      var p := 0;
      while p < |pages|
        invariant 0 <= p <= |pages|
        invariant slots == Slots(Entries(pages[..p]))
      {
        slots := AddPage(slots, Entries(pages[..p]), p, pages[p].elements);
        EntriesStepPage(pages, p);
        p := p + 1;
      }
      assert pages[..|pages|] == pages;
      this.name := name;
      this.document := document;
      this.slots := slots;
      new;
      SlotsValid(document.pages);
    }

    /** set(key, value) as written: nothing for an unknown key; otherwise
        the elements of the slot rewritten in turn, stopping at the first
        failure. */
    method Set(key: string, value: Value, readText: string -> Result<string>) returns (r: Result<()>)
      requires Valid()
      modifies this
      ensures Valid() && name == old(name) && slots == old(slots)
      ensures key !in slots ==> document == old(document) && r == Ok(())
      ensures key in slots ==>
        var (d, e) := ApplyAll(old(document), slots[key], x => UpdatedAsWritten(x, value, readText));
        document == d && r == (if e.Some? then Err(e.value) else Ok(()))
    {
      r := SetWith(key, x => UpdatedAsWritten(x, value, readText));
    }

    /** set(key, value) with the image branches doing what they evidently
        mean to. */
    method SetIntended(key: string, value: Value, readBytes: string -> Result<Bytes>) returns (r: Result<()>)
      requires Valid()
      modifies this
      ensures Valid() && name == old(name) && slots == old(slots)
      ensures key !in slots ==> document == old(document) && r == Ok(())
      ensures key in slots ==>
        var (d, e) := ApplyAll(old(document), slots[key], x => Updated(x, value, readBytes));
        document == d && r == (if e.Some? then Err(e.value) else Ok(()))
    {
      r := SetWith(key, x => Updated(x, value, readBytes));
    }

    /** The loop of `set` over the slot's elements. */
    method SetWith(key: string, update: Element -> Result<Element>) returns (r: Result<()>)
      requires Valid()
      modifies this
      ensures Valid() && name == old(name) && slots == old(slots)
      ensures key !in slots ==> document == old(document) && r == Ok(())
      ensures key in slots ==>
        var (d, e) := ApplyAll(old(document), slots[key], update);
        document == d && r == (if e.Some? then Err(e.value) else Ok(()))
    {
      if key !in slots {
        return Ok(());
      }
      var places := slots[key];
      var i := 0;
      while i < |places|
        invariant 0 <= i <= |places| && Valid() && slots == old(slots) && name == old(name)
        invariant SameShape(old(document), document)
        invariant ApplyAll(old(document), places, update) == ApplyAll(document, places[i..], update)
      {
        var u := update(At(document, places[i]));
        if u.Err? {
          return Err(u.error);
        }
        var doc' := ReplaceAt(document, places[i], u.value);
        assert places[i..][1..] == places[i + 1..];
        SameShapeValid(document, doc');
        SameShapeTrans(old(document), document, doc');
        document := doc';
        i := i + 1;
      }
      return Ok(());
    }

    /** apply(variables): set for each (key, value) in the dictionary's
        order, stopping at the first failure. */
    method Apply(variables: seq<(string, Value)>, readText: string -> Result<string>) returns (r: Result<()>)
      requires Valid()
      modifies this
      ensures Valid() && name == old(name) && slots == old(slots)
      ensures (document, r) == ApplyVariables(old(document), slots, variables, readText)
    {
      var i := 0;
      while i < |variables|
        invariant 0 <= i <= |variables| && Valid() && slots == old(slots) && name == old(name)
        invariant ApplyVariables(old(document), slots, variables, readText) == ApplyVariables(document, slots, variables[i..], readText)
      {
        var (key, value) := variables[i];
        assert variables[i..][1..] == variables[i + 1..];
        var outcome := Set(key, value, readText);
        if outcome.Err? {
          return outcome;
        }
        i := i + 1;
      }
      return Ok(());
    }
  }

  /** The effect of apply on a document: each variable set in turn. */
  function ApplyVariables(doc: Document, slots: map<string, seq<Place>>, variables: seq<(string, Value)>,
                          readText: string -> Result<string>): (r: (Document, Result<()>))
    requires forall key, i :: key in slots && 0 <= i < |slots[key]| ==> ValidPlace(doc, slots[key][i])
    decreases |variables|
  {
    if variables == [] then (doc, Ok(()))
    else
      var (key, value) := variables[0];
      if key !in slots then ApplyVariables(doc, slots, variables[1..], readText)
      else
        var (d, e) := ApplyAll(doc, slots[key], x => UpdatedAsWritten(x, value, readText));
        if e.Some? then (d, Err(e.value))
        else
          forall k, i | k in slots && 0 <= i < |slots[k]| ensures ValidPlace(d, slots[k][i]) {
            SameShapeValid(doc, d);
          }
          ApplyVariables(d, slots, variables[1..], readText)
  }

  lemma SameShapeValid(a: Document, b: Document)
    requires SameShape(a, b)
    ensures forall pl :: ValidPlace(a, pl) ==> ValidPlace(b, pl)
  {
  }

  /** The inner loop of the constructor: the elements of page `p` appended
      to the slots built from the pages before it. */
  method AddPage(slots: map<string, seq<Place>>, before: seq<(Place, Element)>, p: int, elements: seq<Element>)
    returns (r: map<string, seq<Place>>)
    requires slots == Slots(before)
    ensures r == Slots(before + PageEntries(p, elements))
  {
    r := slots;
    var e := 0;
    assert before + PageEntries(p, elements[..0]) == before;
    while e < |elements|
      invariant 0 <= e <= |elements|
      invariant r == Slots(before + PageEntries(p, elements[..e]))
    {
      var element := elements[e];
      r := Append(r, element.id, (p, e));
      r := Append(r, element.naturalId, (p, e));
      EntriesStep(before, p, elements, e);
      e := e + 1;
    }
    assert elements[..|elements|] == elements;
  }

  /** One more page seen by the outer loop. */
  lemma EntriesStepPage(pages: seq<Page>, p: int)
    requires 0 <= p < |pages|
    ensures Entries(pages[..p + 1]) == Entries(pages[..p]) + PageEntries(p, pages[p].elements)
  {
    assert pages[..p + 1][..p] == pages[..p];
  }

  /** One more element seen by the inner loop. */
  lemma EntriesStep(before: seq<(Place, Element)>, p: int, elements: seq<Element>, e: int)
    requires 0 <= e < |elements|
    ensures Slots(before + PageEntries(p, elements[..e + 1])) ==
      Append(Append(Slots(before + PageEntries(p, elements[..e])), elements[e].id, (p, e)), elements[e].naturalId, (p, e))
  {
    var prefix := elements[..e + 1];
    assert prefix[..e] == elements[..e];
    var last := ((p, e), elements[e]);
    assert PageEntries(p, prefix) == PageEntries(p, elements[..e]) + [last];
    var entries := before + PageEntries(p, prefix);
    var init := before + PageEntries(p, elements[..e]);
    assert entries == init + [last];
    assert entries[..|entries| - 1] == init;
  }

  /** Every place the slots list is a place of the document. */
  lemma SlotsValid(pages: seq<Page>)
    ensures forall key, i :: key in Slots(Entries(pages)) && 0 <= i < |Slots(Entries(pages))[key]| ==>
      ValidPlace(Document(pages), Slots(Entries(pages))[key][i])
  {
    var entries := Entries(pages);
    forall key, i | key in Slots(entries) && 0 <= i < |Slots(entries)[key]|
      ensures ValidPlace(Document(pages), Slots(entries)[key][i])
    {
      SlotsMeaning(entries, key);
      SlotOfPlaces(entries, key, i);
    }
  }

  /** A slot lists places of its entries. */
  lemma {:induction false} SlotOfPlaces(entries: seq<(Place, Element)>, key: string, i: int)
    requires 0 <= i < |SlotOf(entries, key)|
    ensures exists j :: 0 <= j < |entries| && entries[j].0 == SlotOf(entries, key)[i]
    decreases |entries|
  {
    var init := entries[..|entries| - 1];
    if i < |SlotOf(init, key)| {
      SlotOfPlaces(init, key, i);
      var j :| 0 <= j < |init| && init[j].0 == SlotOf(init, key)[i];
      assert entries[j] == init[j];
    } else {
      assert SlotOf(entries, key)[i] == entries[|entries| - 1].0;
    }
  }
}
