/** The ER language's semantic core: the in-memory model the parser builds,
    the built-in registries of data types and constraint kinds, the
    first-match constraint lookup, and the attribute processor that completes
    and checks each attribute's multiplicity (er/lang.py). */
module Lang {
  import opened Wrappers

  // ---------------------------------------------------------------------
  // Data model
  // ---------------------------------------------------------------------

  /** One bound of a multiplicity as written in the source text: a number or `*`. */
  datatype Bound = Num(n: int) | Many

  /** `upper` is `None` when the text gives a single bound (`[1]`, `[*]`). */
  datatype Multiplicity = Multiplicity(lower: Bound, upper: Option<Bound>)

  /** A built-in scalar type. */
  datatype DataType = DataType(name: string)

  /** A constraint kind and where it may be attached. */
  datatype ConstraintType = ConstraintType(
    name: string,
    parameterTypes: seq<DataType>,
    appliesToAttribute: bool,
    appliesToEntity: bool)

  /** A constraint attached to an entity or an attribute. */
  datatype Constraint = Constraint(ctype: ConstraintType)

  /** The reference descriptor of an entity-typed attribute. */
  datatype Reference = Reference(otherSide: string, containment: bool)

  /** What an attribute's type resolves to, as a tag rather than a class-name test. */
  datatype TypeRef =
    | EntityRef(entity: Entity)
    | EnumRef(enumeration: Enum)
    | ScalarRef(dataType: DataType)

  /** The type wrapper of an attribute: the resolved type and its precision pair
      (0 stands for a precision that is not given). */
  datatype AttrType = AttrType(target: TypeRef, precisionX: int, precisionY: int)

  datatype EnumLiteral = EnumLiteral(name: string, code: string, labelText: string)

  /** A named grouping of attributes inside an entity. */
  datatype Compartment = Compartment(labelText: string, attributes: seq<Attribute>)

  /** A top-level model element; anything that is neither an entity nor an enum is `OtherElement`. */
  datatype Element =
    | EntityElement(entity: Entity)
    | EnumElement(enumeration: Enum)
    | OtherElement(node: object)

  datatype Model = Model(elements: seq<Element>)

  /** An attribute. Its multiplicity is the one field the core changes. */
  class Attribute {
    const name: string
    const labelText: string
    /** The identifying-key flag (`attr.id` in the language). */
    const isKey: bool
    const typ: AttrType
    const reference: Option<Reference>
    const constraints: seq<Constraint>
    var multiplicity: Option<Multiplicity>

    constructor (name: string, labelText: string, isKey: bool, typ: AttrType,
                 multiplicity: Option<Multiplicity>, reference: Option<Reference>,
                 constraints: seq<Constraint>)
      ensures this.name == name && this.labelText == labelText && this.isKey == isKey
      ensures this.typ == typ && this.multiplicity == multiplicity
      ensures this.reference == reference && this.constraints == constraints
    {
      this.name := name;
      this.labelText := labelText;
      this.isKey := isKey;
      this.typ := typ;
      this.multiplicity := multiplicity;
      this.reference := reference;
      this.constraints := constraints;
    }
  }

  /** An enumeration with its literals in declaration order. */
  class Enum {
    const name: string
    const labelText: string
    const literals: seq<EnumLiteral>

    constructor (name: string, labelText: string, literals: seq<EnumLiteral>)
      ensures this.name == name && this.labelText == labelText && this.literals == literals
    {
      this.name := name;
      this.labelText := labelText;
      this.literals := literals;
    }
  }

  /** An entity: free attributes and compartments of further attributes. */
  class Entity {
    const name: string
    const labelText: string
    const superEntity: Entity?
    const constraints: seq<Constraint>
    const desc: string
    const attributes: seq<Attribute>
    const compartments: seq<Compartment>

    /** Missing constraint, attribute and compartment lists become empty lists. */
    constructor (name: string, labelText: string, superEntity: Entity?,
                 constraints: Option<seq<Constraint>>, desc: string,
                 attributes: Option<seq<Attribute>>,
                 compartments: Option<seq<Compartment>>)
      ensures this.name == name && this.labelText == labelText && this.desc == desc
      ensures this.superEntity == superEntity
      ensures this.constraints == (if constraints.Some? then constraints.value else [])
      ensures this.attributes == (if attributes.Some? then attributes.value else [])
      ensures this.compartments == (if compartments.Some? then compartments.value else [])
    {
      this.name := name;
      this.labelText := labelText;
      this.superEntity := superEntity;
      this.constraints := if constraints.None? then [] else constraints.value;
      this.desc := desc;
      this.attributes := if attributes.None? then [] else attributes.value;
      this.compartments := if compartments.None? then [] else compartments.value;
    }

    /** The "all attributes" view: the free attributes, then every compartment's. */
    function AllAttributes(): (r: seq<Attribute>)
      ensures |r| == |attributes| + |CompartmentAttributes(compartments)|
      ensures r[..|attributes|] == attributes
      ensures forall i :: 0 <= i < |r| ==>
        r[i] in attributes || exists k :: 0 <= k < |compartments| && r[i] in compartments[k].attributes
      ensures forall k, j :: 0 <= k < |compartments| && 0 <= j < |compartments[k].attributes| ==>
        compartments[k].attributes[j] in r
    {
      CompartmentAttributesMembers(compartments);
      attributes + CompartmentAttributes(compartments)
    }
  }

  /** The set of attribute objects in a sequence. */
  function AttrSet(s: seq<Attribute>): set<Attribute> {
    set a | a in s
  }

  /** Every attribute in `attrs` has a multiplicity (the attribute processor has run on it). */
  predicate Processed(attrs: set<Attribute>)
    reads attrs
  {
    forall a :: a in attrs ==> a.multiplicity.Some?
  }

  /** The attributes of a sequence of compartments, compartment by compartment. */
  function CompartmentAttributes(cs: seq<Compartment>): seq<Attribute>
    decreases |cs|
  {
    if cs == [] then [] else CompartmentAttributes(cs[..|cs| - 1]) + cs[|cs| - 1].attributes
  }

  /** An attribute is among the compartments' attributes exactly when some compartment holds it. */
  lemma {:induction false} CompartmentAttributesMembers(cs: seq<Compartment>)
    ensures forall i :: 0 <= i < |CompartmentAttributes(cs)| ==>
      exists k :: 0 <= k < |cs| && CompartmentAttributes(cs)[i] in cs[k].attributes
    ensures forall k, j :: 0 <= k < |cs| && 0 <= j < |cs[k].attributes| ==>
      cs[k].attributes[j] in CompartmentAttributes(cs)
    decreases |cs|
  {
    if cs != [] {
      var cs' := cs[..|cs| - 1];
      CompartmentAttributesMembers(cs');
      assert forall k :: 0 <= k < |cs'| ==> cs'[k] == cs[k];
      var r', r := CompartmentAttributes(cs'), CompartmentAttributes(cs);
      forall i | 0 <= i < |r|
        ensures exists k :: 0 <= k < |cs| && r[i] in cs[k].attributes
      {
        if i < |r'| {
          var k :| 0 <= k < |cs'| && r'[i] in cs'[k].attributes;
          assert r[i] == r'[i] && cs'[k] == cs[k];
        } else {
          assert r[i] == cs[|cs| - 1].attributes[i - |r'|];
          assert r[i] in cs[|cs| - 1].attributes;
        }
      }
    } else {
      assert CompartmentAttributes(cs) == [];
    }
  }

  /** The start of compartment k's attributes within the compartment part. */
  function CompartmentOffset(cs: seq<Compartment>, k: nat): nat
    requires k <= |cs|
  {
    |CompartmentAttributes(cs[..k])|
  }

  lemma {:induction false} CompartmentAttributesPrefix(cs: seq<Compartment>, k: nat)
    requires k <= |cs|
    ensures |CompartmentAttributes(cs[..k])| <= |CompartmentAttributes(cs)|
    ensures CompartmentAttributes(cs)[..|CompartmentAttributes(cs[..k])|] == CompartmentAttributes(cs[..k])
    decreases |cs|
  {
    if k < |cs| {
      var cs' := cs[..|cs| - 1];
      assert cs'[..k] == cs[..k];
      CompartmentAttributesPrefix(cs', k);
      assert CompartmentAttributes(cs) == CompartmentAttributes(cs') + cs[|cs| - 1].attributes;
    } else {
      assert cs[..k] == cs;
    }
  }

  /** A slice of the second part of a concatenation, shifted by the first part's length. */
  lemma SliceOfSuffix<T>(a: seq<T>, b: seq<T>, i: nat, j: nat)
    requires i <= j <= |b|
    ensures (a + b)[|a| + i..|a| + j] == b[i..j]
  {
  }

  /** Each compartment contributes its attributes, in order, as one contiguous
      block of the entity's "all attributes" view, after the free attributes and
      the blocks of the compartments before it. */
  lemma AllAttributesCompartmentBlock(e: Entity, k: nat)
    requires k < |e.compartments|
    ensures var start := |e.attributes| + CompartmentOffset(e.compartments, k);
            var end := start + |e.compartments[k].attributes|;
            end <= |e.AllAttributes()| && e.AllAttributes()[start..end] == e.compartments[k].attributes
  {
    var cs := e.compartments;
    var pre := CompartmentAttributes(cs[..k]);
    var upto := CompartmentAttributes(cs[..k + 1]);
    var flat := CompartmentAttributes(cs);
    CompartmentAttributesPrefix(cs, k + 1);
    assert cs[..k + 1][..k] == cs[..k];
    assert upto == pre + cs[k].attributes;
    assert flat[..|upto|] == upto;
    assert flat[|pre|..|upto|] == cs[k].attributes by {
      assert flat[|pre|..|upto|] == upto[|pre|..];
    }
    assert e.AllAttributes() == e.attributes + flat;
    SliceOfSuffix(e.attributes, flat, |pre|, |upto|);
  }

  // ---------------------------------------------------------------------
  // Constraint lookup
  // ---------------------------------------------------------------------

  /** The first constraint of `constraints` (an entity's or an attribute's)
      whose kind is called `name`, or None when there is none. */
  method GetConstraint(constraints: seq<Constraint>, name: string) returns (r: Option<Constraint>)
    ensures r.None? <==> forall i :: 0 <= i < |constraints| ==> constraints[i].ctype.name != name
    ensures r.Some? ==> r.value.ctype.name == name
    ensures r.Some? ==>
      exists i :: (0 <= i < |constraints| && constraints[i] == r.value &&
                   forall j :: 0 <= j < i ==> constraints[j].ctype.name != name)
  {
    var i := 0;
    while i < |constraints|
      invariant 0 <= i <= |constraints|
      invariant forall j :: 0 <= j < i ==> constraints[j].ctype.name != name
    {
      if constraints[i].ctype.name == name {
        return Some(constraints[i]);
      }
      i := i + 1;
    }
    return None;
  }

  // ---------------------------------------------------------------------
  // Built-in registries
  // ---------------------------------------------------------------------

  /** A constraint kind as constructed: with neither attachment flag set it
      applies to both attributes and entities; otherwise the flags are kept. */
  function NewConstraintType(name: string, parameterTypes: Option<seq<DataType>> := None,
                             appliesToAttribute: bool := false,
                             appliesToEntity: bool := false): (r: ConstraintType)
    ensures r.name == name
    ensures r.parameterTypes == (if parameterTypes.Some? then parameterTypes.value else [])
    ensures !appliesToAttribute && !appliesToEntity ==> r.appliesToAttribute && r.appliesToEntity
    ensures appliesToAttribute || appliesToEntity ==>
      r.appliesToAttribute == appliesToAttribute && r.appliesToEntity == appliesToEntity
    ensures r.appliesToAttribute || r.appliesToEntity
  {
    var params := if parameterTypes.None? then [] else parameterTypes.value;
    if !appliesToAttribute && !appliesToEntity then
      ConstraintType(name, params, true, true)
    else
      ConstraintType(name, params, appliesToAttribute, appliesToEntity)
  }

  /** Rebuilding a constraint kind from its stored flags changes nothing. */
  lemma NewConstraintTypeStable(t: ConstraintType)
    requires t.appliesToAttribute || t.appliesToEntity
    ensures NewConstraintType(t.name, Some(t.parameterTypes), t.appliesToAttribute, t.appliesToEntity) == t
  {
  }

  /** The built-in scalar types, keyed by name. */
  function DataTypes(): (r: map<string, DataType>)
    ensures r.Keys == {"int", "string", "time", "date", "float", "decimal", "bool"}
    ensures forall k :: k in r ==> r[k].name == k
  {
    map[
      "int" := DataType("int"),
      "string" := DataType("string"),
      "time" := DataType("time"),
      "date" := DataType("date"),
      "float" := DataType("float"),
      "decimal" := DataType("decimal"),
      "bool" := DataType("bool")
    ]
  }

  /** The built-in constraint kinds. Every one applies to attributes; only
      `dbname` also applies to entities. The entry under `fk_cols` is named
      `fk_names`; every other entry is named as its key. */
  function Constraints(): (r: map<string, ConstraintType>)
    ensures r.Keys == {"unique", "ordered", "dbname", "fk_cols", "positive",
                       "upper_case", "lower_case", "email"}
    ensures forall k :: k in r ==> r[k].appliesToAttribute && (r[k].appliesToEntity <==> k == "dbname")
    ensures forall k :: k in r && k != "fk_cols" ==> r[k].name == k
    ensures r["fk_cols"].name == "fk_names"
    ensures forall k :: k in r ==> r[k].parameterTypes == []
  {
    map[
      "unique" := NewConstraintType("unique", appliesToAttribute := true),
      "ordered" := NewConstraintType("ordered", appliesToAttribute := true),
      "dbname" := NewConstraintType("dbname", appliesToAttribute := true, appliesToEntity := true),
      "fk_cols" := NewConstraintType("fk_names", appliesToAttribute := true),
      "positive" := NewConstraintType("positive", appliesToAttribute := true),
      "upper_case" := NewConstraintType("upper_case", appliesToAttribute := true),
      "lower_case" := NewConstraintType("lower_case", appliesToAttribute := true),
      "email" := NewConstraintType("email", appliesToAttribute := true)
    ]
  }

  // ---------------------------------------------------------------------
  // Multiplicity normalisation and checks
  // ---------------------------------------------------------------------

  /** The semantic errors of the attribute processor, each naming the attribute. */
  datatype SemanticError =
    | LowerBoundError(attribute: string)
    | UpperBoundError(attribute: string)
    | KeyManyError(attribute: string)

  /** The message reported for an error; it always starts by naming the attribute. */
  function ErrorMessage(e: SemanticError): (r: string)
    ensures var head := "Attribute \"" + e.attribute + "\". ";
            |head| < |r| && r[..|head|] == head
  {
    var head := "Attribute \"" + e.attribute + "\". ";
    match e
    case LowerBoundError(_) => head + "Lower bound must be 0 or 1."
    case UpperBoundError(_) => head + "Upper bound must be 1 or *."
    case KeyManyError(_) => head + "Key attributes can't have * multiplicity."
  }

  /** The multiplicity an attribute has once defaults are filled in. */
  function Normalize(m: Option<Multiplicity>): (r: Multiplicity)
    // no multiplicity given: exactly one
    ensures m.None? ==> r == Multiplicity(Num(1), Some(Num(1)))
    // a lone `*`: zero or many
    ensures m.Some? && m.value.upper.None? && m.value.lower == Many ==>
      r == Multiplicity(Num(0), Some(Many))
    // any other single bound is the lower bound, and the upper bound is 1
    ensures m.Some? && m.value.upper.None? && m.value.lower != Many ==>
      r == Multiplicity(m.value.lower, Some(Num(1)))
    // both bounds given: unchanged
    ensures m.Some? && m.value.upper.Some? ==> r == m.value
    ensures r.upper.Some?
  {
    match m
    case None => Multiplicity(Num(1), Some(Num(1)))
    case Some(given) =>
      if given.upper.Some? then given
      else if given.lower == Many then Multiplicity(Num(0), Some(Many))
      else given.(upper := Some(Num(1)))
  }

  /** Completing an already complete multiplicity changes nothing. */
  lemma NormalizeIdempotent(m: Option<Multiplicity>)
    ensures Normalize(Some(Normalize(m))) == Normalize(m)
  {
  }

  /** A multiplicity that is complete and passes the two bound checks. */
  predicate WellFormed(m: Multiplicity) {
    m.upper.Some? && LowerBoundOk(m) && UpperBoundOk(m)
  }

  predicate LowerBoundOk(m: Multiplicity) {
    m.lower == Num(0) || m.lower == Num(1)
  }

  predicate UpperBoundOk(m: Multiplicity) {
    m.upper.Some? && m.upper.value.Num? ==> m.upper.value.n == 1
  }

  predicate KeyBoundOk(m: Multiplicity, isKey: bool) {
    !(m.upper == Some(Many) && isKey)
  }

  /** The three checks in order; the first that fails is reported. */
  function CheckMultiplicity(name: string, isKey: bool, m: Multiplicity): (r: Option<SemanticError>)
    ensures r.None? <==> LowerBoundOk(m) && UpperBoundOk(m) && KeyBoundOk(m, isKey)
    ensures !LowerBoundOk(m) ==> r == Some(LowerBoundError(name))
    ensures LowerBoundOk(m) && !UpperBoundOk(m) ==> r == Some(UpperBoundError(name))
    ensures LowerBoundOk(m) && UpperBoundOk(m) && !KeyBoundOk(m, isKey) ==> r == Some(KeyManyError(name))
  {
    if !(m.lower == Num(0) || m.lower == Num(1)) then Some(LowerBoundError(name))
    else if m.upper.Some? && m.upper.value.Num? && m.upper.value.n != 1 then Some(UpperBoundError(name))
    else if m.upper == Some(Many) && isKey then Some(KeyManyError(name))
    else None
  }

  /** An attribute passes the processor exactly when its completed multiplicity
      is one of [0,1], [1,1], [0,*], [1,*], and not one of the last two for a key. */
  lemma AcceptedMultiplicities(raw: Option<Multiplicity>, name: string, isKey: bool)
    ensures var m := Normalize(raw);
      CheckMultiplicity(name, isKey, m).None? <==>
        m in (if isKey then {Multiplicity(Num(0), Some(Num(1))), Multiplicity(Num(1), Some(Num(1)))}
              else {Multiplicity(Num(0), Some(Num(1))), Multiplicity(Num(1), Some(Num(1))),
                    Multiplicity(Num(0), Some(Many)), Multiplicity(Num(1), Some(Many))})
  {
    var m := Normalize(raw);
    if CheckMultiplicity(name, isKey, m).None? {
      assert LowerBoundOk(m) && UpperBoundOk(m) && KeyBoundOk(m, isKey);
      match m.upper.value
      case Num(n) => assert m.upper == Some(Num(1));
      case Many =>
    }
  }

  /** Completes the attribute's multiplicity in place, then checks it. The
      completed multiplicity stays on the attribute even when a check fails. */
  method AttributeProcessor(attr: Attribute) returns (error: Option<SemanticError>)
    modifies attr
    ensures attr.multiplicity == Some(Normalize(old(attr.multiplicity)))
    ensures error == CheckMultiplicity(attr.name, attr.isKey, Normalize(old(attr.multiplicity)))
  {
    if attr.multiplicity.None? {
      attr.multiplicity := Some(Multiplicity(Num(1), Some(Num(1))));
    } else if attr.multiplicity.value.upper.None? {
      if attr.multiplicity.value.lower == Many {
        attr.multiplicity := Some(attr.multiplicity.value.(lower := Num(0)));
        attr.multiplicity := Some(attr.multiplicity.value.(upper := Some(Many)));
      } else {
        attr.multiplicity := Some(attr.multiplicity.value.(upper := Some(Num(1))));
      }
    }

    var m := attr.multiplicity.value;
    if !(m.lower == Num(0) || m.lower == Num(1)) {
      return Some(LowerBoundError(attr.name));
    }
    if m.upper.Some? && m.upper.value.Num? && m.upper.value.n != 1 {
      return Some(UpperBoundError(attr.name));
    }
    if m.upper == Some(Many) && attr.isKey {
      return Some(KeyManyError(attr.name));
    }
    return None;
  }
}
