/** The DOT exporter of ER models (er/visualize.py). The exported file is the
    sequence of strings written to it, in order. Object identity (`id`) and the
    DOT escaping of labels are parameters: `idOf` and `escape`. */
module Visualize {
  import opened Wrappers
  import opened Lang

  /** The opening of the document: the graph and its default node and edge styling. */
  const Header: string :=
    "\n    digraph xtext {\n    fontname = \"Bitstream Vera Sans\"\n    fontsize = 8\n" +
    "    node[\n        shape=record,\n        style=filled,\n        fillcolor=aliceblue\n    ]\n" +
    "    nodesep = 0.3\n    edge[dir=black,arrowtail=empty]\n\n\n"

  /** The closing of the document. */
  const Footer: string := "\n}\n"

  // ---------------------------------------------------------------------
  // Numbers and multiplicities as text
  // ---------------------------------------------------------------------

  function DigitText(d: nat): string
    requires d < 10
  {
    ["0123456789"[d]]
  }

  /** Decimal digits of a natural number, most significant first. */
  function NatText(n: nat): (r: string)
    ensures |r| > 0
    decreases n
  {
    if n < 10 then DigitText(n) else NatText(n / 10) + DigitText(n % 10)
  }

  /** Python's decimal rendering of an integer. */
  function IntText(n: int): (r: string)
    ensures |r| > 0
  {
    if n < 0 then "-" + NatText(-n) else NatText(n)
  }

  function BoundText(b: Bound): string {
    match b
    case Num(n) => IntText(n)
    case Many => "*"
  }

  /** Python truthiness of an upper bound: absent and 0 are false. */
  predicate UpperTruthy(u: Option<Bound>) {
    u.Some? && u.value != Num(0)
  }

  /** The multiplicity suffix of an attribute line or edge head label: empty
      exactly for [1,1]; otherwise ` [lower,upper] `, with `,upper` left out
      when the upper bound is falsy. */
  function MultiplicitySuffix(m: Multiplicity): (r: string)
    ensures r == "" <==> m.lower == Num(1) && m.upper == Some(Num(1))
  {
    if m.upper == Some(Num(1)) && m.lower == Num(1) then ""
    else " [" + BoundText(m.lower) + (if UpperTruthy(m.upper) then "," + BoundText(m.upper.value) else "") + "] "
  }

  /** A non-empty suffix is bracketed: it opens with ` [` and closes with `] `. */
  lemma SuffixBrackets(m: Multiplicity)
    requires MultiplicitySuffix(m) != ""
    ensures var r := MultiplicitySuffix(m);
      |r| >= 4 && r[..2] == " [" && r[|r| - 2..] == "] "
  {
    var middle := BoundText(m.lower) + (if UpperTruthy(m.upper) then "," + BoundText(m.upper.value) else "");
    var r := MultiplicitySuffix(m);
    assert r == " [" + middle + "] ";
  }

  /** The suffix of each well-formed multiplicity. */
  lemma WellFormedSuffix(m: Multiplicity)
    requires WellFormed(m)
    ensures var s := MultiplicitySuffix(m);
      (m == Multiplicity(Num(1), Some(Num(1))) && s == "") ||
      (m == Multiplicity(Num(0), Some(Num(1))) && s == " [0,1] ") ||
      (m == Multiplicity(Num(0), Some(Many)) && s == " [0,*] ") ||
      (m == Multiplicity(Num(1), Some(Many)) && s == " [1,*] ")
  {
    assert IntText(0) == "0" && IntText(1) == "1";
    if m.upper == Some(Many) {
      assert BoundText(m.upper.value) == "*";
      if m.lower == Num(0) {
        assert MultiplicitySuffix(m) == " [" + "0" + "," + "*" + "] ";
      } else {
        assert MultiplicitySuffix(m) == " [" + "1" + "," + "*" + "] ";
      }
    }
  }

  /** After an attribute passes the processor, its upper bound is never dropped
      from the suffix, and the suffix is one of four strings (one of two for a key). */
  lemma AcceptedSuffixes(raw: Option<Multiplicity>, name: string, isKey: bool)
    requires CheckMultiplicity(name, isKey, Normalize(raw)).None?
    ensures UpperTruthy(Normalize(raw).upper)
    ensures MultiplicitySuffix(Normalize(raw)) in {"", " [0,1] ", " [0,*] ", " [1,*] "}
    ensures isKey ==> MultiplicitySuffix(Normalize(raw)) in {"", " [0,1] "}
  {
    AcceptedMultiplicities(raw, name, isKey);
    WellFormedSuffix(Normalize(raw));
  }

  /** On well-formed multiplicities the suffix loses nothing: equal suffixes
      mean equal multiplicities. */
  lemma SuffixDeterminesMultiplicity(m1: Multiplicity, m2: Multiplicity)
    requires WellFormed(m1) && WellFormed(m2)
    requires MultiplicitySuffix(m1) == MultiplicitySuffix(m2)
    ensures m1 == m2
  {
    WellFormedSuffix(m1);
    WellFormedSuffix(m2);
  }

  // ---------------------------------------------------------------------
  // Attribute lines, compartment blocks, enum blocks
  // ---------------------------------------------------------------------

  function KeyMark(isKey: bool): string {
    if isKey then "#" else ""
  }

  /** The quoted, escaped label of an attribute, when it has one. */
  function LabelPart(labelText: string, escape: string -> string): string {
    if labelText != "" then " '" + escape(labelText) + "'" else ""
  }

  /** The precision suffix `(px)` or `(px,py)`; empty when px is not given. */
  function PrecisionText(t: AttrType): (r: string)
    ensures r == "" <==> t.precisionX == 0
  {
    if t.precisionX != 0 then
      "(" + IntText(t.precisionX) + (if t.precisionY != 0 then "," + IntText(t.precisionY) else "") + ")"
    else ""
  }

  function TypeName(t: TypeRef): string {
    match t
    case EntityRef(e) => e.name
    case EnumRef(en) => en.name
    case ScalarRef(dt) => dt.name
  }

  /** An attribute whose type is an entity: drawn as an edge, not as a line. */
  predicate IsReference(a: Attribute) {
    a.typ.target.EntityRef?
  }

  /** The record line of one attribute: empty exactly for an entity-typed attribute. */
  function AttrLine(a: Attribute, escape: string -> string): (r: string)
    reads a
    requires a.multiplicity.Some?
    ensures r == "" <==> IsReference(a)
  {
    if IsReference(a) then ""
    else
      KeyMark(a.isKey) + a.name + LabelPart(a.labelText, escape) + ": " + TypeName(a.typ.target) +
      PrecisionText(a.typ) + MultiplicitySuffix(a.multiplicity.value) + "\\l"
  }

  /** A record line opens with `#` exactly for a key (attribute names are
      identifiers, so they never start with `#`) and always closes with `\\l`. */
  lemma AttrLineMarks(a: Attribute, escape: string -> string)
    requires a.multiplicity.Some? && !IsReference(a)
    requires a.name != "" && a.name[0] != '#'
    ensures |AttrLine(a, escape)| >= 3
    ensures AttrLine(a, escape)[0] == '#' <==> a.isKey
    ensures AttrLine(a, escape)[|AttrLine(a, escape)| - 2..] == "\\l"
  {
    var head := KeyMark(a.isKey) + a.name;
    var front := head + LabelPart(a.labelText, escape) + ": " + TypeName(a.typ.target) +
      PrecisionText(a.typ) + MultiplicitySuffix(a.multiplicity.value);
    assert AttrLine(a, escape) == front + "\\l";
    assert front[0] == head[0];
    SuffixOfConcat(front, "\\l");
  }

  /** The last |b| elements of `a + b` are `b`. */
  lemma SuffixOfConcat<T>(a: seq<T>, b: seq<T>)
    ensures (a + b)[|a|..] == b
  {
  }

  /** The lines of a sequence of attributes, in order. */
  function AttrLines(attrs: seq<Attribute>, escape: string -> string): string
    reads AttrSet(attrs)
    requires Processed(AttrSet(attrs))
    decreases |attrs|
  {
    if attrs == [] then ""
    else AttrLines(attrs[..|attrs| - 1], escape) + AttrLine(attrs[|attrs| - 1], escape)
  }

  /** One more attribute adds its line to the lines of a prefix. */
  lemma AttrLinesStep(s: seq<Attribute>, i: nat, escape: string -> string)
    requires i <= |s| && Processed(AttrSet(s))
    ensures Processed(AttrSet(s[..i]))
    ensures i == 0 ==> AttrLines(s[..i], escape) == ""
    ensures i < |s| ==> (Processed(AttrSet(s[..i + 1])) &&
      AttrLines(s[..i + 1], escape) == AttrLines(s[..i], escape) + AttrLine(s[i], escape))
  {
    assert forall x :: x in s[..i] ==> x in s;
    if i < |s| {
      assert forall x :: x in s[..i + 1] ==> x in s;
      PrefixStep(s, i);
    }
  }

  /** The attributes of `s` that are not entity-typed, in order. */
  function NonReferences(s: seq<Attribute>): (r: seq<Attribute>)
    ensures forall i :: 0 <= i < |r| ==> r[i] in s && !IsReference(r[i])
    decreases |s|
  {
    if s == [] then []
    else NonReferences(s[..|s| - 1]) + (if IsReference(s[|s| - 1]) then [] else [s[|s| - 1]])
  }

  /** The attributes of `s` that are entity-typed, in order. */
  function References(s: seq<Attribute>): (r: seq<Attribute>)
    ensures forall i :: 0 <= i < |r| ==> r[i] in s && IsReference(r[i])
    decreases |s|
  {
    if s == [] then []
    else References(s[..|s| - 1]) + (if IsReference(s[|s| - 1]) then [s[|s| - 1]] else [])
  }

  /** Entity-typed attributes contribute no text to a record: the lines of a
      sequence of attributes are the lines of its non-reference attributes. */
  lemma {:induction false} AttrLinesSkipReferences(s: seq<Attribute>, escape: string -> string)
    requires Processed(AttrSet(s))
    ensures Processed(AttrSet(NonReferences(s)))
    ensures AttrLines(s, escape) == AttrLines(NonReferences(s), escape)
    decreases |s|
  {
    if s != [] {
      var p := s[..|s| - 1];
      var x := s[|s| - 1];
      AttrLinesSkipReferences(p, escape);
      if IsReference(x) {
        assert NonReferences(s) == NonReferences(p);
      } else {
        var n := NonReferences(p) + [x];
        assert NonReferences(s) == n;
        assert n[..|n| - 1] == NonReferences(p);
      }
    }
  }

  function CompartmentHeader(c: Compartment): string {
    "|-[ " + c.labelText + " ]-\\l"
  }

  /** A compartment: its header, then the lines of its attributes. */
  function CompartmentBlock(c: Compartment, escape: string -> string): string
    reads AttrSet(c.attributes)
    requires Processed(AttrSet(c.attributes))
  {
    CompartmentHeader(c) + AttrLines(c.attributes, escape)
  }

  function CompartmentBlocks(cs: seq<Compartment>, escape: string -> string): string
    reads AttrSet(CompartmentAttributes(cs))
    requires Processed(AttrSet(CompartmentAttributes(cs)))
    decreases |cs|
  {
    if cs == [] then ""
    else CompartmentBlocks(cs[..|cs| - 1], escape) + CompartmentBlock(cs[|cs| - 1], escape)
  }

  function LiteralLine(l: EnumLiteral): string {
    l.name + ": '" + l.code + "' '" + l.labelText + "'\\l"
  }

  function LiteralLines(ls: seq<EnumLiteral>): string
    decreases |ls|
  {
    if ls == [] then "" else LiteralLines(ls[..|ls| - 1]) + LiteralLine(ls[|ls| - 1])
  }

  function EnumHead(en: Enum): string {
    "Enum " + en.name + (if en.labelText != "" then "\\n'" + en.labelText + "'" else "") + "|"
  }

  /** The record label of an enum: its head, then one line per literal. */
  function EnumLabel(en: Enum): string {
    EnumHead(en) + LiteralLines(en.literals)
  }

  // ---------------------------------------------------------------------
  // Nodes and edges
  // ---------------------------------------------------------------------

  function EntityHead(e: Entity): string {
    e.name + ": Entity" + (if e.labelText != "" then "\\n'" + e.labelText + "'" else "") + "|"
  }

  /** The record label of an entity: its head, the free attribute lines, then the compartment blocks. */
  function EntityLabel(e: Entity, escape: string -> string): string
    reads AttrSet(e.AllAttributes())
    requires Processed(AttrSet(e.AllAttributes()))
  {
    EntityHead(e) + AttrLines(e.attributes, escape) + CompartmentBlocks(e.compartments, escape)
  }

  /** A key attribute whose type is an entity. */
  predicate IsKeyReference(a: Attribute) {
    a.isKey && IsReference(a)
  }

  /** How many attributes of `s` are key references. */
  function KeyReferenceCount(s: seq<Attribute>): nat
    decreases |s|
  {
    if s == [] then 0
    else KeyReferenceCount(s[..|s| - 1]) + (if IsKeyReference(s[|s| - 1]) then 1 else 0)
  }

  lemma {:induction false} KeyReferenceCountPositive(s: seq<Attribute>)
    ensures KeyReferenceCount(s) >= 1 <==> exists i :: 0 <= i < |s| && IsKeyReference(s[i])
    decreases |s|
  {
    if s != [] {
      var p := s[..|s| - 1];
      KeyReferenceCountPositive(p);
      assert forall i :: 0 <= i < |p| ==> p[i] == s[i];
      if exists i :: 0 <= i < |s| && IsKeyReference(s[i]) {
        var i :| 0 <= i < |s| && IsKeyReference(s[i]);
        if i < |p| {
          assert IsKeyReference(p[i]);
        }
      }
    }
  }

  /** At least two key references counted is the same as two distinct positions
      holding key references. */
  lemma {:induction false} KeyReferenceCountAtLeastTwo(s: seq<Attribute>)
    ensures KeyReferenceCount(s) >= 2 <==>
      exists i, j :: 0 <= i < j < |s| && IsKeyReference(s[i]) && IsKeyReference(s[j])
    decreases |s|
  {
    if s != [] {
      var p := s[..|s| - 1];
      var last := |s| - 1;
      KeyReferenceCountAtLeastTwo(p);
      KeyReferenceCountPositive(p);
      assert forall i :: 0 <= i < |p| ==> p[i] == s[i];
      if KeyReferenceCount(s) >= 2 {
        if IsKeyReference(s[last]) {
          var i :| 0 <= i < |p| && IsKeyReference(p[i]);
          assert IsKeyReference(s[i]) && IsKeyReference(s[last]);
        } else {
          var i, j :| 0 <= i < j < |p| && IsKeyReference(p[i]) && IsKeyReference(p[j]);
          assert IsKeyReference(s[i]) && IsKeyReference(s[j]);
        }
      }
      if exists i, j :: 0 <= i < j < |s| && IsKeyReference(s[i]) && IsKeyReference(s[j]) {
        var i, j :| 0 <= i < j < |s| && IsKeyReference(s[i]) && IsKeyReference(s[j]);
        assert IsKeyReference(p[i]);
        if j < last {
          assert IsKeyReference(p[j]);
        }
      }
    }
  }

  /** The fill colour of an entity node: coral for an association entity, one
      with at least two key references among all its attributes. */
  function EntityColor(e: Entity): (r: string)
    ensures r == " fillcolor=coral" <==>
      exists i, j :: 0 <= i < j < |e.AllAttributes()| &&
        IsKeyReference(e.AllAttributes()[i]) && IsKeyReference(e.AllAttributes()[j])
    ensures r == " fillcolor=coral" || r == ""
  {
    KeyReferenceCountAtLeastTwo(e.AllAttributes());
    if KeyReferenceCount(e.AllAttributes()) >= 2 then " fillcolor=coral" else ""
  }

  /** The object whose identity names an element's node. */
  function ElementObject(elem: Element): object {
    match elem
    case EntityElement(e) => e
    case EnumElement(en) => en
    case OtherElement(o) => o
  }

  /** The attributes an element's rendering reads. */
  function ElementFootprint(elem: Element): set<Attribute> {
    if elem.EntityElement? then AttrSet(elem.entity.AllAttributes()) else {}
  }

  function NodeLabel(elem: Element, escape: string -> string): string
    reads ElementFootprint(elem)
    requires Processed(ElementFootprint(elem))
  {
    match elem
    case EntityElement(e) => EntityLabel(e, escape)
    case EnumElement(en) => EnumLabel(en)
    case OtherElement(_) => ""
  }

  /** The fill colour of a node: wheat exactly for an enum, coral exactly for
      an association entity, none otherwise. */
  function NodeColor(elem: Element): (r: string)
    ensures r == " fillcolor=wheat" <==> elem.EnumElement?
    ensures r == " fillcolor=coral" <==>
      elem.EntityElement? &&
      (exists i, j :: 0 <= i < j < |elem.entity.AllAttributes()| &&
        IsKeyReference(elem.entity.AllAttributes()[i]) && IsKeyReference(elem.entity.AllAttributes()[j]))
  {
    match elem
    case EntityElement(e) => EntityColor(e)
    case EnumElement(_) => " fillcolor=wheat"
    case OtherElement(_) => ""
  }

  /** The node statement of an element: `id[label="{...}"colour]`. */
  function NodeLine(elem: Element, idOf: object -> string, escape: string -> string): string
    reads ElementFootprint(elem)
    requires Processed(ElementFootprint(elem))
  {
    idOf(ElementObject(elem)) + "[label=\"{" + NodeLabel(elem, escape) + "}\"" + NodeColor(elem) + "]\n"
  }

  /** A head label carrying the multiplicity suffix, present exactly when the suffix is. */
  function HeadLabel(suffix: string): (r: string)
    ensures r == "" <==> suffix == ""
  {
    if suffix != "" then " headlabel=\"" + suffix + "\"" else ""
  }

  /** The diamond-tailed style, present exactly for a containment reference. */
  function EdgeStyle(reference: Option<Reference>): (r: string)
    ensures r != "" <==> reference.Some? && reference.value.containment
  {
    if reference.Some? && reference.value.containment then " arrowtail=diamond dir=both" else ""
  }

  /** The edge statement of an entity-typed attribute, from its owner to its target. */
  function EdgeLine(owner: Entity, a: Attribute, idOf: object -> string): string
    reads a
    requires a.multiplicity.Some? && IsReference(a)
  {
    idOf(owner) + " -> " + idOf(a.typ.target.entity) + " [label=\"" + KeyMark(a.isKey) + a.name + "\"" +
    HeadLabel(MultiplicitySuffix(a.multiplicity.value)) + EdgeStyle(a.reference) + "]\n"
  }

  /** The edges of a sequence of attributes: one per entity-typed attribute, in order. */
  function RefEdges(owner: Entity, s: seq<Attribute>, idOf: object -> string): seq<string>
    reads AttrSet(s)
    requires Processed(AttrSet(s))
    decreases |s|
  {
    if s == [] then []
    else
      var x := s[|s| - 1];
      RefEdges(owner, s[..|s| - 1], idOf) + (if IsReference(x) then [EdgeLine(owner, x, idOf)] else [])
  }

  function CompartmentEdges(owner: Entity, cs: seq<Compartment>, idOf: object -> string): seq<string>
    reads AttrSet(CompartmentAttributes(cs))
    requires Processed(AttrSet(CompartmentAttributes(cs)))
    decreases |cs|
  {
    if cs == [] then []
    else CompartmentEdges(owner, cs[..|cs| - 1], idOf) + RefEdges(owner, cs[|cs| - 1].attributes, idOf)
  }

  /** The edges written after an element's node: those of the free attributes,
      then those of each compartment; none for a node that is not an entity. */
  function EdgeWrites(elem: Element, idOf: object -> string): seq<string>
    reads ElementFootprint(elem)
    requires Processed(ElementFootprint(elem))
  {
    match elem
    case EntityElement(e) =>
      RefEdges(e, e.attributes, idOf) + CompartmentEdges(e, e.compartments, idOf)
    case _ => []
  }

  /** What exporting one element writes: its node line, then its edge lines. */
  function ElementWrites(elem: Element, idOf: object -> string, escape: string -> string): seq<string>
    reads ElementFootprint(elem)
    requires Processed(ElementFootprint(elem))
  {
    [NodeLine(elem, idOf, escape)] + EdgeWrites(elem, idOf)
  }

  /** The attributes of all entity elements of a model. */
  function ModelFootprint(els: seq<Element>): (r: set<Attribute>)
    ensures forall k :: 0 <= k < |els| ==> ElementFootprint(els[k]) <= r
    ensures forall a :: a in r ==> exists k :: 0 <= k < |els| && a in ElementFootprint(els[k])
    decreases |els|
  {
    if els == [] then {}
    else
      var p := els[..|els| - 1];
      assert forall k :: 0 <= k < |p| ==> p[k] == els[k];
      ModelFootprint(p) + ElementFootprint(els[|els| - 1])
  }

  function ElementsWrites(els: seq<Element>, idOf: object -> string, escape: string -> string): seq<string>
    reads ModelFootprint(els)
    requires Processed(ModelFootprint(els))
    decreases |els|
  {
    if els == [] then []
    else ElementsWrites(els[..|els| - 1], idOf, escape) + ElementWrites(els[|els| - 1], idOf, escape)
  }

  /** The whole document: the header, every element's writes in model order, the footer. */
  function Document(model: Model, idOf: object -> string, escape: string -> string): seq<string>
    reads ModelFootprint(model.elements)
    requires Processed(ModelFootprint(model.elements))
  {
    [Header] + ElementsWrites(model.elements, idOf, escape) + [Footer]
  }

  // ---------------------------------------------------------------------
  // What the edges and the document consist of
  // ---------------------------------------------------------------------

  lemma {:induction false} RefEdgesAppend(owner: Entity, s: seq<Attribute>, t: seq<Attribute>, idOf: object -> string)
    requires Processed(AttrSet(s + t))
    ensures Processed(AttrSet(s)) && Processed(AttrSet(t))
    ensures RefEdges(owner, s + t, idOf) == RefEdges(owner, s, idOf) + RefEdges(owner, t, idOf)
    decreases |t|
  {
    assert forall x :: x in s ==> x in s + t;
    assert forall x :: x in t ==> x in s + t;
    if t == [] {
      assert s + t == s;
    } else {
      var t' := t[..|t| - 1];
      assert (s + t)[..|s + t| - 1] == s + t';
      assert (s + t)[|s + t| - 1] == t[|t| - 1];
      assert forall x :: x in s + t' ==> x in s + t;
      RefEdgesAppend(owner, s, t', idOf);
    }
  }

  lemma {:induction false} CompartmentEdgesFlat(owner: Entity, cs: seq<Compartment>, idOf: object -> string)
    requires Processed(AttrSet(CompartmentAttributes(cs)))
    ensures CompartmentEdges(owner, cs, idOf) == RefEdges(owner, CompartmentAttributes(cs), idOf)
    decreases |cs|
  {
    if cs != [] {
      var p := cs[..|cs| - 1];
      assert CompartmentAttributes(cs) == CompartmentAttributes(p) + cs[|cs| - 1].attributes;
      RefEdgesAppend(owner, CompartmentAttributes(p), cs[|cs| - 1].attributes, idOf);
      CompartmentEdgesFlat(owner, p, idOf);
    }
  }

  lemma {:induction false} RefEdgesAreReferences(owner: Entity, s: seq<Attribute>, idOf: object -> string)
    requires Processed(AttrSet(s))
    ensures |RefEdges(owner, s, idOf)| == |References(s)|
    ensures forall k :: 0 <= k < |References(s)| ==>
      References(s)[k].multiplicity.Some? &&
      RefEdges(owner, s, idOf)[k] == EdgeLine(owner, References(s)[k], idOf)
    decreases |s|
  {
    if s != [] {
      var p := s[..|s| - 1];
      assert forall x :: x in p ==> x in s;
      RefEdgesAreReferences(owner, p, idOf);
    }
  }

  /** An entity's edges are exactly its entity-typed attributes, taken in the
      order of its "all attributes" view: edge k is drawn for the k-th of them. */
  lemma EntityEdges(e: Entity, idOf: object -> string)
    requires Processed(AttrSet(e.AllAttributes()))
    ensures var refs := References(e.AllAttributes());
      var w := EdgeWrites(EntityElement(e), idOf);
      |w| == |refs| &&
      forall k :: 0 <= k < |refs| ==> refs[k].multiplicity.Some? && w[k] == EdgeLine(e, refs[k], idOf)
  {
    var all := e.AllAttributes();
    assert all == e.attributes + CompartmentAttributes(e.compartments);
    RefEdgesAppend(e, e.attributes, CompartmentAttributes(e.compartments), idOf);
    CompartmentEdgesFlat(e, e.compartments, idOf);
    RefEdgesAreReferences(e, all, idOf);
  }

  /** How many entity-typed attributes the entities among `els` have in all. */
  function ReferenceCount(els: seq<Element>): nat
    decreases |els|
  {
    if els == [] then 0
    else
      var x := els[|els| - 1];
      ReferenceCount(els[..|els| - 1]) + (if x.EntityElement? then |References(x.entity.AllAttributes())| else 0)
  }

  lemma {:induction false} ElementsWritesLength(els: seq<Element>, idOf: object -> string, escape: string -> string)
    requires Processed(ModelFootprint(els))
    ensures |ElementsWrites(els, idOf, escape)| == |els| + ReferenceCount(els)
    decreases |els|
  {
    if els != [] {
      var x := els[|els| - 1];
      ElementsWritesLength(els[..|els| - 1], idOf, escape);
      if x.EntityElement? {
        EntityEdges(x.entity, idOf);
      }
    }
  }

  lemma {:induction false} ElementsWritesPrefix(els: seq<Element>, k: nat, idOf: object -> string, escape: string -> string)
    requires k <= |els|
    requires Processed(ModelFootprint(els))
    ensures ModelFootprint(els[..k]) <= ModelFootprint(els)
    ensures |ElementsWrites(els[..k], idOf, escape)| <= |ElementsWrites(els, idOf, escape)|
    ensures ElementsWrites(els, idOf, escape)[..|ElementsWrites(els[..k], idOf, escape)|] ==
            ElementsWrites(els[..k], idOf, escape)
    decreases |els|
  {
    if k < |els| {
      var p := els[..|els| - 1];
      assert p[..k] == els[..k];
      ElementsWritesPrefix(p, k, idOf, escape);
    } else {
      assert els[..k] == els;
    }
  }

  /** The document is the header, then one node line and the edge lines of
      every element, then the footer: one line per element plus one per
      entity-typed attribute, besides the header and footer. */
  lemma DocumentLength(model: Model, idOf: object -> string, escape: string -> string)
    requires Processed(ModelFootprint(model.elements))
    ensures var d := Document(model, idOf, escape);
      |d| == 2 + |model.elements| + ReferenceCount(model.elements) &&
      d[0] == Header && d[|d| - 1] == Footer
  {
    ElementsWritesLength(model.elements, idOf, escape);
  }

  lemma PrefixStep<T>(s: seq<T>, k: nat)
    requires k < |s|
    ensures s[..k + 1][..k] == s[..k] && s[..k + 1][k] == s[k]
  {
  }

  lemma ElementsWritesStep(els: seq<Element>, k: nat, idOf: object -> string, escape: string -> string)
    requires k < |els|
    requires Processed(ModelFootprint(els))
    ensures ModelFootprint(els[..k]) <= ModelFootprint(els)
    ensures ModelFootprint(els[..k + 1]) <= ModelFootprint(els)
    ensures ElementsWrites(els[..k + 1], idOf, escape) ==
            ElementsWrites(els[..k], idOf, escape) + ElementWrites(els[k], idOf, escape)
  {
    ModelFootprintPrefix(els, k);
    ModelFootprintPrefix(els, k + 1);
    PrefixStep(els, k);
  }

  /** The attributes of a prefix of the elements are among those of all elements. */
  lemma ModelFootprintPrefix(els: seq<Element>, k: nat)
    requires k <= |els|
    ensures ModelFootprint(els[..k]) <= ModelFootprint(els)
  {
    var p := els[..k];
    assert forall i :: 0 <= i < |p| ==> p[i] == els[i];
  }

  /** A top-level element that is neither an entity nor an enum still gets a
      node, with an empty record and no colour, and no edges. */
  lemma OtherElementNode(o: object, idOf: object -> string, escape: string -> string)
    ensures ElementWrites(OtherElement(o), idOf, escape) == [idOf(o) + "[label=\"{}\"]\n"]
  {
    var id := idOf(o);
    assert NodeLine(OtherElement(o), idOf, escape) == id + "[label=\"{" + "" + "}\"" + "" + "]\n";
    assert id + "[label=\"{" + "" + "}\"" + "" + "]\n" == id + ("[label=\"{" + "" + "}\"" + "" + "]\n");
    assert "[label=\"{" + "" + "}\"" + "" + "]\n" == "[label=\"{}\"]\n";
    assert ElementWrites(OtherElement(o), idOf, escape) == [NodeLine(OtherElement(o), idOf, escape)] + [];
  }

  // ---------------------------------------------------------------------
  // The exporter
  // ---------------------------------------------------------------------

  /** Sequence concatenation is associative. */
  lemma AppendAssoc<T>(a: seq<T>, b: seq<T>, c: seq<T>)
    ensures (a + b) + c == a + (b + c)
  {
  }

  /** Renders a compartment header and its attribute lines. */
  method ExportCompartment(comp: Compartment, escape: string -> string) returns (res: string)
    requires Processed(AttrSet(comp.attributes))
    ensures res == CompartmentBlock(comp, escape)
  {
    res := "|-[ " + comp.labelText + " ]-\\l";
    assert res == CompartmentHeader(comp) + AttrLines(comp.attributes[..0], escape) by {
      AttrLinesStep(comp.attributes, 0, escape);
    }
    for i := 0 to |comp.attributes|
      invariant Processed(AttrSet(comp.attributes[..i]))
      invariant res == CompartmentHeader(comp) + AttrLines(comp.attributes[..i], escape)
    {
      AttrLinesStep(comp.attributes, i, escape);
      var line := AttrLine(comp.attributes[i], escape);
      AppendAssoc(CompartmentHeader(comp), AttrLines(comp.attributes[..i], escape), line);
      res := res + line;
    }
    assert comp.attributes[..|comp.attributes|] == comp.attributes;
  }

  /** Renders the record label of an enum. */
  method ExportEnum(en: Enum) returns (res: string)
    ensures res == EnumLabel(en)
  {
    res := "Enum " + en.name + (if en.labelText != "" then "\\n'" + en.labelText + "'" else "") + "|";
    for i := 0 to |en.literals|
      invariant res == EnumHead(en) + LiteralLines(en.literals[..i])
    {
      var lit := en.literals[i];
      assert en.literals[..i + 1][..i] == en.literals[..i];
      res := res + lit.name + ": '" + lit.code + "' '" + lit.labelText + "'\\l";
    }
    assert en.literals[..|en.literals|] == en.literals;
  }

  /** What `_render_ref` writes for one attribute of `owner`: its edge if it
      is entity-typed, nothing otherwise. */
  method RenderRef(owner: Entity, attr: Attribute, idOf: object -> string) returns (w: seq<string>)
    requires attr.multiplicity.Some?
    ensures w == (if IsReference(attr) then [EdgeLine(owner, attr, idOf)] else [])
  {
    w := [];
    var target := attr.typ.target;
    if target.EntityRef? {
      var mult := MultiplicitySuffix(attr.multiplicity.value);
      w := w + [idOf(owner) + " -> " + idOf(target.entity) + " [label=\"" + KeyMark(attr.isKey) + attr.name + "\"" +
                (if mult != "" then " headlabel=\"" + mult + "\"" else "") +
                (if attr.reference.Some? && attr.reference.value.containment then " arrowtail=diamond dir=both" else "") +
                "]\n"];
    }
  }

  // ---------------------------------------------------------------------
  // Exporting one element
  // ---------------------------------------------------------------------

  /** The attribute sets an entity's label and edges read are processed when
      all of its attributes are. */
  lemma EntityPartsProcessed(e: Entity)
    requires Processed(AttrSet(e.AllAttributes()))
    ensures Processed(AttrSet(e.attributes))
    ensures Processed(AttrSet(CompartmentAttributes(e.compartments)))
  {
    var all := e.AllAttributes();
    assert all == e.attributes + CompartmentAttributes(e.compartments);
    assert forall x :: x in e.attributes ==> x in all;
    assert forall x :: x in CompartmentAttributes(e.compartments) ==> x in all;
  }

  /** The attributes a caller holds stay allocated, so their multiplicities
      survive the calls of the exporter's helper methods, which change nothing. */
  lemma AttrsAllocated(s: set<Attribute>)
    ensures forall a :: a in s ==> allocated(a)
  {
  }

  /** The first `j + 1` compartments hold processed attributes when all of them do. */
  lemma CompartmentsPrefixProcessed(cs: seq<Compartment>, j: nat)
    requires j < |cs| && Processed(AttrSet(CompartmentAttributes(cs)))
    ensures Processed(AttrSet(CompartmentAttributes(cs[..j])))
    ensures Processed(AttrSet(CompartmentAttributes(cs[..j + 1])))
    ensures Processed(AttrSet(cs[j].attributes))
    ensures CompartmentAttributes(cs[..j + 1]) == CompartmentAttributes(cs[..j]) + cs[j].attributes
  {
    CompartmentAttributesPrefix(cs, j);
    CompartmentAttributesPrefix(cs, j + 1);
    PrefixStep(cs, j);
    var upto := CompartmentAttributes(cs[..j + 1]);
    assert upto == CompartmentAttributes(cs[..j]) + cs[j].attributes;
    assert forall x :: x in upto ==> x in CompartmentAttributes(cs);
    assert forall x :: x in CompartmentAttributes(cs[..j]) ==> x in upto;
    assert forall x :: x in cs[j].attributes ==> x in upto;
  }

  /** One more compartment adds its block to the blocks of a prefix. */
  lemma CompartmentBlocksStep(cs: seq<Compartment>, j: nat, escape: string -> string)
    requires j < |cs| && Processed(AttrSet(CompartmentAttributes(cs)))
    ensures Processed(AttrSet(CompartmentAttributes(cs[..j])))
    ensures Processed(AttrSet(CompartmentAttributes(cs[..j + 1])))
    ensures Processed(AttrSet(cs[j].attributes))
    ensures CompartmentBlocks(cs[..j + 1], escape) == CompartmentBlocks(cs[..j], escape) + CompartmentBlock(cs[j], escape)
  {
    CompartmentsPrefixProcessed(cs, j);
    PrefixStep(cs, j);
  }

  /** One more compartment adds the edges of its attributes to the edges of a prefix. */
  lemma CompartmentEdgesStep(owner: Entity, cs: seq<Compartment>, j: nat, idOf: object -> string)
    requires j < |cs| && Processed(AttrSet(CompartmentAttributes(cs)))
    ensures Processed(AttrSet(CompartmentAttributes(cs[..j])))
    ensures Processed(AttrSet(CompartmentAttributes(cs[..j + 1])))
    ensures Processed(AttrSet(cs[j].attributes))
    ensures CompartmentEdges(owner, cs[..j + 1], idOf) == CompartmentEdges(owner, cs[..j], idOf) + RefEdges(owner, cs[j].attributes, idOf)
  {
    CompartmentsPrefixProcessed(cs, j);
    PrefixStep(cs, j);
  }

  /** One more attribute adds its edge, if any, to the edges of a prefix. */
  lemma RefEdgesStep(owner: Entity, s: seq<Attribute>, i: nat, idOf: object -> string)
    requires i < |s| && Processed(AttrSet(s))
    ensures Processed(AttrSet(s[..i])) && Processed(AttrSet(s[..i + 1]))
    ensures RefEdges(owner, s[..i + 1], idOf) ==
      RefEdges(owner, s[..i], idOf) + (if IsReference(s[i]) then [EdgeLine(owner, s[i], idOf)] else [])
  {
    assert forall x :: x in s[..i] ==> x in s;
    assert forall x :: x in s[..i + 1] ==> x in s;
    PrefixStep(s, i);
  }

  /** Builds the record label of an entity: its head, the lines of its free
      attributes, then its compartments. */
  method ExportEntityLabel(e: Entity, escape: string -> string) returns (res: string)
    requires Processed(AttrSet(e.AllAttributes()))
    ensures res == EntityLabel(e, escape)
  {
    EntityPartsProcessed(e);
    res := e.name + ": Entity";
    if e.labelText != "" {
      res := res + "\\n'" + e.labelText + "'";
    }
    res := res + "|";
    assert res == EntityHead(e) + AttrLines(e.attributes[..0], escape) by {
      AttrLinesStep(e.attributes, 0, escape);
    }
    // free attributes
    for i := 0 to |e.attributes|
      invariant Processed(AttrSet(e.attributes[..i]))
      invariant res == EntityHead(e) + AttrLines(e.attributes[..i], escape)
    {
      AttrLinesStep(e.attributes, i, escape);
      var line := AttrLine(e.attributes[i], escape);
      AppendAssoc(EntityHead(e), AttrLines(e.attributes[..i], escape), line);
      res := res + line;
    }
    assert e.attributes[..|e.attributes|] == e.attributes;
    var blocks := ExportCompartments(e.compartments, escape);
    res := res + blocks;
  }

  /** The blocks of a sequence of compartments, one `_export_compartment` call each. */
  method ExportCompartments(cs: seq<Compartment>, escape: string -> string) returns (res: string)
    requires Processed(AttrSet(CompartmentAttributes(cs)))
    ensures res == CompartmentBlocks(cs, escape)
  {
    res := "";
    AttrsAllocated(AttrSet(CompartmentAttributes(cs)));
    assert AttrSet(CompartmentAttributes(cs[..0])) == {};
    for j := 0 to |cs|
      invariant Processed(AttrSet(CompartmentAttributes(cs)))
      invariant Processed(AttrSet(CompartmentAttributes(cs[..j])))
      invariant res == CompartmentBlocks(cs[..j], escape)
    {
      CompartmentBlocksStep(cs, j, escape);
      AttrsAllocated(AttrSet(CompartmentAttributes(cs[..j])));
      var block := ExportCompartment(cs[j], escape);
      CompartmentBlocksStep(cs, j, escape);
      res := res + block;
    }
    assert cs[..|cs|] == cs;
  }

  /** Counts the key references among all attributes of an entity; two or more
      make it an association entity, drawn in coral. */
  method ExportEntityColor(e: Entity) returns (color: string)
    ensures color == EntityColor(e)
  {
    color := "";
    var all := e.AllAttributes();
    var c := 0;
    for k := 0 to |all|
      invariant c == KeyReferenceCount(all[..k])
    {
      PrefixStep(all, k);
      if all[k].isKey {
        if all[k].typ.target.EntityRef? {
          c := c + 1;
        }
      }
    }
    assert all[..|all|] == all;
    if c >= 2 {
      color := " fillcolor=coral";
    }
  }

  /** The edges of a sequence of attributes, one `_render_ref` call each. */
  method RenderRefList(owner: Entity, s: seq<Attribute>, idOf: object -> string) returns (w: seq<string>)
    requires Processed(AttrSet(s))
    ensures w == RefEdges(owner, s, idOf)
  {
    w := [];
    AttrsAllocated(AttrSet(s));
    assert s[..0] == [];
    for i := 0 to |s|
      invariant Processed(AttrSet(s))
      invariant Processed(AttrSet(s[..i]))
      invariant w == RefEdges(owner, s[..i], idOf)
    {
      RefEdgesStep(owner, s, i, idOf);
      var edge := RenderRef(owner, s[i], idOf);
      RefEdgesStep(owner, s, i, idOf);
      w := w + edge;
    }
    assert s[..|s|] == s;
  }

  /** What the edge loops of `_export_element` write for an entity: the
      edges of its free attributes, then those of each compartment's attributes. */
  method RenderRefs(e: Entity, idOf: object -> string) returns (w: seq<string>)
    requires Processed(AttrSet(e.AllAttributes()))
    ensures w == EdgeWrites(EntityElement(e), idOf)
  {
    EntityPartsProcessed(e);
    var cs := e.compartments;
    AttrsAllocated(AttrSet(CompartmentAttributes(cs)));
    w := RenderRefList(e, e.attributes, idOf);
    ghost var free := w;
    assert AttrSet(CompartmentAttributes(cs[..0])) == {};
    assert cs[..0] == [];
    for j := 0 to |cs|
      invariant Processed(AttrSet(CompartmentAttributes(cs)))
      invariant Processed(AttrSet(CompartmentAttributes(cs[..j])))
      invariant w == free + CompartmentEdges(e, cs[..j], idOf)
    {
      CompartmentEdgesStep(e, cs, j, idOf);
      AttrsAllocated(AttrSet(CompartmentAttributes(cs[..j])));
      ghost var before := CompartmentEdges(e, cs[..j], idOf);
      var edges := RenderRefList(e, cs[j].attributes, idOf);
      CompartmentEdgesStep(e, cs, j, idOf);
      AppendAssoc(free, before, edges);
      w := w + edges;
    }
    assert cs[..|cs|] == cs;
  }

  /** What `_export_element` writes for one element: nothing if it was already
      processed; otherwise its node line, then (for an entity) its edges. */
  method ExportElement(elem: Element, processed: set<Element>, idOf: object -> string, escape: string -> string)
    returns (w: seq<string>)
    requires Processed(ElementFootprint(elem))
    ensures w == (if elem in processed then [] else ElementWrites(elem, idOf, escape))
  {
    if elem in processed {
      return [];
    }
    if elem.EntityElement? {
      AttrsAllocated(AttrSet(elem.entity.AllAttributes()));
    }
    var color := "";
    var res := "";
    match elem {
      case EntityElement(e) =>
        res := ExportEntityLabel(e, escape);
        color := ExportEntityColor(e);
      case EnumElement(en) =>
        res := ExportEnum(en);
        color := " fillcolor=wheat";
      case OtherElement(_) =>
    }
    res := idOf(ElementObject(elem)) + "[label=\"{" + res + "}\"" + color + "]\n";
    w := [res];
    if elem.EntityElement? {
      var edges := RenderRefs(elem.entity, idOf);
      w := w + edges;
    } else {
      assert EdgeWrites(elem, idOf) == [];
    }
  }

  /** Exports a model: the header, every element in model order, the footer.
      The result is the sequence of strings written to the output file. */
  method ModelExport(model: Model, idOf: object -> string, escape: string -> string) returns (contents: seq<string>)
    requires Processed(ModelFootprint(model.elements))
    ensures contents == Document(model, idOf, escape)
  {
    var processedSet: set<Element> := {};
    var written := [Header];
    var els := model.elements;
    AttrsAllocated(ModelFootprint(els));
    assert els[..0] == [];
    for i := 0 to |els|
      invariant Processed(ModelFootprint(els))
      invariant ModelFootprint(els[..i]) <= ModelFootprint(els)
      invariant written == [Header] + ElementsWrites(els[..i], idOf, escape)
    {
      ElementsWritesStep(els, i, idOf, escape);
      ghost var before := ElementsWrites(els[..i], idOf, escape);
      var w := ExportElement(els[i], processedSet, idOf, escape);
      ElementsWritesStep(els, i, idOf, escape);
      AppendAssoc([Header], before, w);
      written := written + w;
    }
    assert els[..|els|] == els;
    written := written + [Footer];
    contents := written;
  }
}
