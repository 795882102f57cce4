# OGC filter translation (ckanext-spatial)

A Dafny model of `ckanext/spatial/lib/ogcfilter.py`. This file turns a filter
written in JSON as nested lists into OWSLib filter constraint objects. A leaf
expression looks like `["PropertyIsLike", "MyProperty1", "MyValue1"]` and may
start with a negation marker: `["Not", "PropertyIsEqualTo", "p", 3]`. The model
has three parts:

- **Operator registry** (`registry.dfy`, module `OgcOperators`). It holds the ten
  operators of OGC Filter Encoding 2.0: the comparison operators of clause 7.7
  and BBOX of clause 7.8. For each one it lists the kinds (`str`, `int`,
  `float`) accepted at each parameter position. The dictionary is modelled as a
  closed `Operator` datatype with three functions: `Name` gives the dictionary
  key, `Lookup` is the key test and `Params` gives the value.
- **Leaf translator** (`constraint.dfy`, module `OgcConstraint`). `AsConstraint`
  models `as_owslib_constraint`. It strips one negation marker, written in any
  letter case. Then it checks the operator name, the argument count and each
  argument's kind, in that order. Only then does it build the constraint, and
  it wraps the result in `Not([...])` when the marker was present. `Unparse`
  writes a constraint back as a leaf expression, and the two are proved to be
  inverses.
- **Tree walker** (`parse.dfy`, module `OgcParse`). `ParseConstraints` is the
  loop of `parse_constraints`, with an accumulator and recursion into nested
  lists. It is proved equal to the recursive specification `Translated`. The
  lemmas about `Translated` cover three things: shape preservation, the choice
  of the first failing element's error, and failure on a non-list element at
  any depth.

The values a filter is written with are modelled in `values.dfy` (module
`PyValues`): JSON values as Python sees them, plus the `isinstance` test. The
Python exceptions are values of `Error` inside a `Result` (`wrappers.dfy`).
Python runtime failures are modelled as the `Crash` error: an `IndexError` on an
empty list, an `AttributeError` on `.upper()` of a non-string, and an
unhashable-key `TypeError`. They are not excluded by preconditions.

## Model

| member | source | states |
|---|---|---|
| `PyValues.KindIsUnique` | ckanext/spatial/lib/ogcfilter.py:59-63 | a value is an instance of at most one of `str`, `int` and `float`; booleans count as `int` only |
| `OgcOperators.Lookup` | ckanext/spatial/lib/ogcfilter.py:48-49 | a name found in the registry is exactly that operator's key; a name not found is no operator's key, so the lookup is case-sensitive |
| `OgcOperators.LookupName` | ckanext/spatial/lib/ogcfilter.py:13-24 | every one of the ten operators is found under its own key |
| `OgcOperators.Params` | ckanext/spatial/lib/ogcfilter.py:13-24 | every operator except BBox takes a text property name first; PropertyIsLike accepts text only; the other comparisons and PropertyIsBetween accept text, int or float in their value positions; BBox takes four int/float values; PropertyIsNull takes one parameter, PropertyIsLike two, only PropertyIsBetween three |
| `OgcConstraint.NotMarkerSpelling` | ckanext/spatial/lib/ogcfilter.py:43 | a first element is the negation marker exactly when it is `n`, `o`, `t` with each letter in either case |
| `OgcConstraint.NoOperatorIsNotMarker` | ckanext/spatial/lib/ogcfilter.py:13-24 | no registry key reads as the negation marker |
| `OgcConstraint.AllMatch` | ckanext/spatial/lib/ogcfilter.py:57-68 | the type check holds exactly when every argument matches the allowed kinds at its position, over the positions both lists have |
| `OgcConstraint.AsConstraint` | ckanext/spatial/lib/ogcfilter.py:27-77 | a successful translation is a well-formed constraint (a simple constraint with accepted arguments, or one such under a single `Not`) that writes back as exactly the input leaf, with the marker respelled `Not` |
| `OgcConstraint.NegationWraps` | ckanext/spatial/lib/ogcfilter.py:43-46 | a marker in any case, followed by an operator leaf, translates to `Not([c])` where `c` is that leaf's translation; errors pass through unchanged |
| `OgcConstraint.OnlyOneNegation` | ckanext/spatial/lib/ogcfilter.py:43-49 | only one marker is stripped: a second marker is reported as an unknown operator, naming the second marker |
| `OgcConstraint.UnknownOperatorIff` | ckanext/spatial/lib/ogcfilter.py:48-49 | a leaf headed by a non-marker string fails as an unknown operator naming that string exactly when the string is no registry key |
| `OgcConstraint.ArityChecked` | ckanext/spatial/lib/ogcfilter.py:51-55 | fewer arguments than the registry entry gives "missing parameters" and more gives "too many parameters", whatever the arguments' kinds |
| `OgcConstraint.KindsChecked` | ckanext/spatial/lib/ogcfilter.py:57-69 | with the right count, the leaf is accepted exactly when every argument has a kind its position allows; otherwise the error is the type mismatch for that operator |
| `OgcConstraint.BuiltFromArguments` | ckanext/spatial/lib/ogcfilter.py:71-77 | accepted arguments are passed on exactly and in order: to BBox as one list, to every other operator one by one |
| `OgcConstraint.UnparseRoundTrip` | ckanext/spatial/lib/ogcfilter.py:33-40 | every well-formed constraint is what its own leaf expression translates to |
| `OgcConstraint.StringRejectedByBBox` | ckanext/spatial/lib/ogcfilter.py:23 | a string in any of the four BBox positions gives the type mismatch for BBox |
| `OgcConstraint.NumberRejectedByLike` | ckanext/spatial/lib/ogcfilter.py:14 | a number or boolean as the pattern of PropertyIsLike gives the type mismatch for PropertyIsLike |
| `OgcConstraint.NegatedNonStringIsUnknown` | ckanext/spatial/lib/ogcfilter.py:46-49 | a hashable non-string after the marker (a number, boolean or null) is reported as an unknown operator naming that value |
| `OgcConstraint.RuntimeFaults` | ckanext/spatial/lib/ogcfilter.py:43-48 | an empty leaf or a bare marker fails with an index error; a non-string head fails on `.upper()`; a list or dict after the marker fails as an unhashable key |
| `OgcConstraint.BBoxExamples` | ckanext/spatial/lib/ogcfilter.py:71-72 | `["BBox", 1, 2, 3, 4.5]` builds BBox from the one list `[1, 2, 3, 4.5]`; `["BBox", 1, 2, 3]` misses a parameter |
| `OgcConstraint.LowerCaseNegation` | ckanext/spatial/lib/ogcfilter.py:43-46 | `["not", "PropertyIsNull", p]` builds `Not([PropertyIsNull(p)])` |
| `OgcParse.Translated` | ckanext/spatial/lib/ogcfilter.py:109-123 | a successful walk has one entry per element of the input; its per-element half `TranslateElement` (lines 114-121) refuses a non-list, fails on an empty list, translates a list headed by a string as a leaf, and walks any other list as a nested filter |
| `OgcParse.PrefixErrorPropagates` | ckanext/spatial/lib/ogcfilter.py:112-123 | once some prefix of the filter fails, the whole filter fails with the same error: no later element is looked at and no partial result is returned |
| `OgcParse.ParseConstraints` | ckanext/spatial/lib/ogcfilter.py:81-123 | the loop that appends one entry per element to the accumulator, and recurses into nested lists with a fresh one, returns exactly the walk `Translated` |
| `OgcParse.ShapePreserved` | ckanext/spatial/lib/ogcfilter.py:112-121 | a walk gives `outs` exactly when `outs` has the input's length and entry `i` mirrors element `i`, as a leaf constraint or as a nested list of the same shape |
| `OgcParse.FailsIffSomeElementFails` | ckanext/spatial/lib/ogcfilter.py:112-123 | a walk fails exactly when some element fails |
| `OgcParse.FailsHasWitness` | ckanext/spatial/lib/ogcfilter.py:112-123 | a failed walk has an element that fails |
| `OgcParse.FirstErrorWins` | ckanext/spatial/lib/ogcfilter.py:112-123 | the error reported is that of the first failing element, left to right; nested failures come from the same rule one level down, so the order is depth-first |
| `OgcParse.StrayElementFails` | ckanext/spatial/lib/ogcfilter.py:114-121 | a non-list element, at the top or anywhere the walk descends into, makes the whole walk fail |
| `OgcParse.WriteRoundTrip` | ckanext/spatial/lib/ogcfilter.py:112-121 | every result the walk can produce (well-formed constraints and non-empty nested lists) comes back from the filter written from it |
| `OgcParse.WalkResultsWritable` | ckanext/spatial/lib/ogcfilter.py:112-121 | every entry of a successful walk is writable: each leaf is a well-formed constraint and each nested list is non-empty, so the write-then-walk round trip covers every result |
| `OgcParse.DocumentedLeaves` | ckanext/spatial/lib/ogcfilter.py:93-101 | the two leaves of the documented example translate to `PropertyIsLike(p1, v1)` and `Not([PropertyIsEqualTo(p2, v2)])` |
| `OgcParse.DocumentedExample` | ckanext/spatial/lib/ogcfilter.py:90-102 | the documented two-element filter gives the documented two-element list |
| `OgcParse.NumbersAreMalformed` | ckanext/spatial/lib/ogcfilter.py:114-121 | `[[1, 2]]` fails as a malformed filter: `[1, 2]` is walked as a nested filter, and `1` is not a list |

## Left out

- The OWSLib classes (`owslib.fes`) are a foreign library. Each constructor call becomes a constructor of `Constraint` that records the class called and its arguments.
- `eval` of a string built with `repr` is modelled as a direct constructor call on the validated arguments. One consequence is not captured: the float values NaN and infinity, which Python's JSON decoder accepts, have `repr`s (`nan`, `inf`) that do not evaluate, so the source fails on them where the model builds a constraint.
- Floats carry a `real` payload and only their kind matters; there is no floating-point arithmetic anywhere in the code.
- `str.upper()` is modelled for ASCII letters only; other characters are left unchanged.
- Dict entries are not modelled (`VDict` has no payload). A dict never reaches a constraint: it is refused as an argument, as an element and as an operator name.
- The `rec` accumulator is modelled by value. In the source, `rec.append([])` adds an empty list and the recursive call fills `rec[i]` in place through aliasing. In the model, the recursive call returns the filled list and the loop appends it. The results are the same because an error discards the whole accumulator.
- Calling `parse_constraints` with a caller-supplied non-empty `rec` is not modelled, since `rec[i]` then names the wrong entry. Only the `rec=None` entry point is modelled, with the fresh `[]` passed on recursion.
- The top-level filter is taken to be a list (`seq<Val>`). Other Python values passed at the top level (a string, a dict) are not modelled.
- Error messages are modelled as error kinds carrying the operator, or for an unknown operator the offending value, and not as text.
