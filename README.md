# ER language core in Dafny

A verified model of the semantic core of the textX ER (entity–relationship)
language and of its DOT exporter.

- `wrappers.dfy` (module `Wrappers`): `Option`, standing for Python's `None` versus a present value.
- `lang.dfy` (module `Lang`) covers er/lang.py:
  - the in-memory model the parser builds: entities with free attributes
    and compartments, attributes with a type wrapper, multiplicities, enums,
    constraints;
  - the "all attributes" view of an entity;
  - the first-match constraint lookup;
  - the constraint-kind flag defaulting and the two built-in registries;
  - the attribute processor, which completes a multiplicity in place (absent → [1,1],
    lone `*` → [0,*], otherwise a missing upper bound becomes 1). It then runs the
    three fail-fast checks: lower bound, integer upper bound, key with `*`.
    A raised `TextXSemanticError` is modelled as a returned `SemanticError`.
- `visualize.dfy` (module `Visualize`) covers er/visualize.py. Each nested helper of `model_export` that loops is
  one method, proved equal to a specification function:
  - `_export_compartment` and `_export_enum` are `ExportCompartment` and `ExportEnum`;
  - the label, colour and edge parts of `_export_element` are `ExportEntityLabel`,
    `ExportEntityColor` and `RenderRefs`, and `_render_ref` is `RenderRef`;
  - `_export_element` itself is `ExportElement`, and `model_export` is `ModelExport`.

  `_export_attr` and `_export_multiplicity` have no loop and are the functions `AttrLine` and
  `MultiplicitySuffix`. The output file is modelled as the sequence of strings
  written to it, in write order. `id()` and `dot_escape` are the parameters `idOf` and `escape`.

Attribute is a class: its `multiplicity` is the field the attribute processor changes.
Entity and Enum are classes with constant fields, because the exporter needs their identity
for node names and edge targets. Every other entity is a datatype. The textX
`Attribute` class is generated from the grammar and is not in the source.
Its fields are the ones the two source files read, renamed as follows:
`name` and `multiplicity` and `constraints` keep their names, `label` is `labelText`,
`id` is `isKey`, `type` is `typ` and `ref` is `reference`. Optional textX strings and integers default
to `''` and `0`, so an empty label and a precision of 0 stand for "not given".

The model follows er/lang.py and er/visualize.py as written:
- only an attribute's label is passed through `dot_escape`; entity, enum,
  compartment and literal texts are written unescaped;
- the validation rules that no source file implements are not modelled: `*` only on
  entity-typed attributes, constraint applicability, duplicate names and
  ambiguous references;
- the multiplicity suffix drops `,upper` when the upper bound is falsy, as written.
  `Visualize.AcceptedSuffixes` proves that for any attribute the processor accepts, the upper
  bound is always rendered.

## Model

| member | source | states |
|---|---|---|
| Lang.GetConstraint | er/lang.py:11-18 | returns nothing exactly when no constraint's kind has the name; otherwise a constraint with that name, and no earlier constraint has it (the first match) |
| Lang.Entity.constructor | er/lang.py:22-32 | missing constraint, attribute and compartment lists become empty; every other field is stored as given |
| Lang.Entity.AllAttributes | er/lang.py:34-40 | the free attributes come first, in order; the length is the free count plus the compartment count; every compartment attribute is included, and nothing else is |
| Lang.CompartmentAttributesMembers | er/lang.py:38-40 | an attribute appears in the flattened compartment part exactly when some compartment holds it |
| Lang.AllAttributesCompartmentBlock | er/lang.py:34-40 | compartment k's attributes sit, in order, as one contiguous slice of the view: after the free attributes and after those of compartments 0..k-1 |
| Lang.NewConstraintType | er/lang.py:49-62 | missing parameter types become empty; with neither flag set the kind applies to both places; otherwise both flags are kept; the result always applies somewhere |
| Lang.NewConstraintTypeStable | er/lang.py:57-62 | rebuilding a constraint kind from its own stored fields gives the same kind |
| Lang.DataTypes | er/lang.py:72-80 | exactly the seven built-in type names, each mapped to a type of that name |
| Lang.Constraints | er/lang.py:82-92 | exactly the eight built-in constraint keys; all apply to attributes; only `dbname` also applies to entities; `fk_cols` holds a kind named `fk_names`; every other kind is named as its key; none has parameters |
| Lang.ErrorMessage | er/lang.py:116-123 | every error message begins `Attribute "<name>". ` |
| Lang.Normalize | er/lang.py:100-111 | absent → [1,1]; lone `*` → [0,*]; another lone lower bound keeps it and gets upper 1; a multiplicity with an upper bound is unchanged; the result always has an upper bound |
| Lang.NormalizeIdempotent | er/lang.py:100-111 | completing an already completed multiplicity changes nothing |
| Lang.CheckMultiplicity | er/lang.py:113-123 | no error exactly when all three checks pass; otherwise it reports the first failing check, in the order lower, integer upper, key with `*` |
| Lang.AcceptedMultiplicities | er/lang.py:95-123 | the processor accepts exactly [0,1], [1,1], [0,*], [1,*], and of these only [0,1] and [1,1] for a key attribute |
| Lang.AttributeProcessor | er/lang.py:95-123 | the attribute's multiplicity becomes its completed form, even when a check then fails; the error returned is the one the checks give for that form |
| Visualize.MultiplicitySuffix | er/visualize.py:65-71 | the suffix is empty exactly for [1,1] |
| Visualize.SuffixBrackets | er/visualize.py:69-71 | a non-empty suffix opens with ` [` and closes with `] ` |
| Visualize.WellFormedSuffix | er/visualize.py:65-71 | gives the suffix of each of the four well-formed multiplicities: ``, ` [0,1] `, ` [0,*] `, ` [1,*] ` |
| Visualize.AcceptedSuffixes | er/visualize.py:65-71 | for an attribute the processor accepts, the upper bound is truthy and so is never dropped; the suffix is one of four strings, and one of two for a key |
| Visualize.SuffixDeterminesMultiplicity | er/visualize.py:65-71 | on well-formed multiplicities, equal suffixes mean equal multiplicities: the rendering loses nothing |
| Visualize.PrecisionText | er/visualize.py:54-57 | the precision suffix is empty exactly when `precision_x` is not given |
| Visualize.AttrLine | er/visualize.py:37-63 | an attribute's record line is empty exactly when its type is an entity |
| Visualize.AttrLineMarks | er/visualize.py:48-61 | a non-reference line starts with `#` exactly for a key attribute and always ends with `\l` |
| Visualize.AttrLinesSkipReferences | er/visualize.py:42-46 | the lines of an attribute sequence are those of its non-entity-typed attributes alone |
| Visualize.ExportCompartment | er/visualize.py:73-77 | the block is the compartment header, then each attribute's line in order |
| Visualize.ExportEnum | er/visualize.py:79-85 | the enum label is `Enum name`, an optional quoted label, a bar, then one literal line per literal, in order |
| Visualize.ExportEntityLabel | er/visualize.py:93-103 | the entity label is the head, then the free attribute lines, then the block of each compartment, in order |
| Visualize.ExportCompartments | er/visualize.py:102-103 | the compartment part of an entity label is the concatenation of the compartment blocks, in order |
| Visualize.KeyReferenceCountAtLeastTwo | er/visualize.py:107-111 | the counter reaches 2 exactly when two distinct positions hold key attributes of entity type |
| Visualize.EntityColor | er/visualize.py:105-114 | an entity is coral exactly when two distinct attributes of its "all attributes" view are key references; otherwise it has no colour |
| Visualize.ExportEntityColor | er/visualize.py:107-114 | the counting loop and its always-taken `else` give exactly that colour |
| Visualize.NodeColor | er/visualize.py:105-118 | the node is wheat exactly for an enum, and coral exactly for an association entity |
| Visualize.HeadLabel | er/visualize.py:129-135 | an edge has a head label exactly when the multiplicity suffix is non-empty |
| Visualize.EdgeStyle | er/visualize.py:136-138 | the diamond style appears exactly when there is a reference descriptor and it is a containment |
| Visualize.RenderRef | er/visualize.py:125-138 | one edge line for an entity-typed attribute; nothing for any other attribute; the edge line is `EdgeLine`, the statement `id(owner) -> id(target) [label="#name"headlabel style]` of er/visualize.py:130-138 |
| Visualize.RenderRefList | er/visualize.py:141-145 | the edges of an attribute sequence, one per entity-typed attribute, in order |
| Visualize.RenderRefs | er/visualize.py:140-145 | the edges of an entity: those of its free attributes, then those of each compartment |
| Visualize.RefEdgesAreReferences | er/visualize.py:125-138 | edge k of an attribute sequence is drawn for the k-th entity-typed attribute, and there are no other edges |
| Visualize.EntityEdges | er/visualize.py:140-145 | an entity's edges correspond one-to-one, in order, to the entity-typed attributes of its "all attributes" view |
| Visualize.ExportElement | er/visualize.py:87-145 | nothing for an already processed element; otherwise its node line, then (for an entity) its edges; the node line is `NodeLine`, the statement `id[label="{label}"colour]` of er/visualize.py:120 |
| Visualize.OtherElementNode | er/visualize.py:116-122 | an element that is neither an entity nor an enum gets the single node line `id[label="{}"]` and no edges |
| Visualize.ModelExport | er/visualize.py:27-150 | the output is the header, then every element's writes in model order, then the footer; the processed set stays empty, so no element is skipped |
| Visualize.ElementsWritesPrefix | er/visualize.py:147-148 | what the first k elements write is a prefix of what all elements write |
| Visualize.ElementsWritesLength | er/visualize.py:120-148 | the elements write one node line each, plus one edge line per entity-typed attribute of each entity |
| Visualize.DocumentLength | er/visualize.py:35-150 | the document has that many lines plus two: it starts with the header and ends with the footer |

## Left out

- File output: `codecs.open`, the file name and the UTF-8 encoding are not modelled. The file is the returned sequence of the strings written to it.
- `id()` and `dot_escape` are parameters with no properties. The model does not assume `id` is injective, because no property here needs it.
- `main` is not modelled: metamodel construction, the grammar file, object-processor registration and the global `_meta` cache (er/lang.py:126-145). These are foreign-library setup.
- The command-line tool and the packaging metadata are not part of this model.
- The Python 2 `text` shim is not modelled (er/visualize.py:5-8).
- The `parent` back-references of the textX objects are not modelled, because no core operation reads them.
- The `Multiplicity` constructor's default `upper=1` is not modelled. Multiplicities are values with an explicit optional upper bound, as the parser supplies them.
- Lang.AttributeProcessor: a lone `*` is changed in two in-place field assignments (lower, then upper). These become two value replacements of the attribute's multiplicity, so the model cannot show a `Multiplicity` object shared by two attributes.
- Lang.AttributeProcessor: raising `TextXSemanticError` is modelled as returning an error value. The raise's effect on the parser's control flow is not modelled.
- Constraint parameters are not modelled, because `get_constraint` reads only the kind's name.
- Visualize.AttrLine: its contract states only when the line is empty. The order of the fields is fixed by its definition, and `AttrLineMarks` states its first and last characters.
- Visualize.ExportElement: `processed_set` is a parameter that the caller passes. `ModelExport` passes the empty set, because the source never adds to it.
