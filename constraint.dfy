/**
 * The leaf translator: one leaf expression, such as
 * `["Not", "PropertyIsEqualTo", "prop", 3]`, validated against the registry
 * and turned into the OWSLib constraint object it names.
 */
module OgcConstraint {

  import opened Wrappers
  import opened PyValues
  import opened OgcOperators

  /**
   * An OWSLib filter object. The classes are a foreign library; only the
   * constructor called and the arguments passed to it are recorded.
   */
  datatype Constraint =
    | Property(op: Operator, args: seq<Val>)  // ows.<op>(args[0], ..., args[n-1])
    | BBox(coords: seq<Val>)                  // ows.BBox([coords[0], ..., coords[n-1]])
    | Not(operands: seq<Constraint>)          // ows.Not([operands[0], ...])

  /** The Python exceptions raised by the code as written but not by its own checks. */
  datatype Fault = IndexError | AttributeError | UnhashableType

  /** The exceptions of the filter code; each aborts the whole translation. */
  datatype Error =
    | UnknownOperator(name: Val)          // ValueError "Unknow operator"
    | MissingParameters(op: Operator)     // ValueError "Missing some parameters"
    | TooManyParameters(op: Operator)     // ValueError "Too much parameters"
    | ParameterTypeMismatch(op: Operator) // TypeError "parameter of incorrect type"
    | MalformedFilter                     // TypeError "Malformed ogcfilter"
    | Crash(fault: Fault)

  /** `c.upper()` for one character (ASCII letters only). */
  function UpperChar(c: char): char
  {
    if 'a' <= c <= 'z' then (c as int - 'a' as int + 'A' as int) as char else c
  }

  /** `s.upper()`. */
  function Upper(s: string): string
  {
    seq(|s|, i requires 0 <= i < |s| => UpperChar(s[i]))
  }

  /** `s.upper() == 'NOT'`: the negation marker, in any letter case. */
  predicate IsNotMarker(s: string)
  {
    Upper(s) == "NOT"
  }

  /** The marker is exactly the three letters n, o, t, each in either case. */
  lemma NotMarkerSpelling(s: string)
    ensures IsNotMarker(s) <==> |s| == 3 && s[0] in "nN" && s[1] in "oO" && s[2] in "tT"
  {
    if IsNotMarker(s) {
      assert |s| == |Upper(s)| == 3;
      assert Upper(s)[0] == 'N' && Upper(s)[1] == 'O' && Upper(s)[2] == 'T';
      assert UpperChar(s[0]) == 'N' && UpperChar(s[1]) == 'O' && UpperChar(s[2]) == 'T';
    }
    if |s| == 3 && s[0] in "nN" && s[1] in "oO" && s[2] in "tT" {
      assert Upper(s) == [UpperChar(s[0]), UpperChar(s[1]), UpperChar(s[2])];
    }
  }

  /** No operator name reads as the negation marker. */
  lemma NoOperatorIsNotMarker(op: Operator)
    ensures !IsNotMarker(Name(op))
  {
  }

  /** `all(map(lambda x, s: any(isinstance(x, t) for t in s), args, sig))`; `map` stops at the shorter list. */
  function AllMatch(args: seq<Val>, sig: seq<set<Kind>>): (ok: bool)
    ensures ok <==> forall i :: 0 <= i < |args| && i < |sig| ==> Matches(args[i], sig[i])
  {
    if args == [] || sig == [] then true
    else Matches(args[0], sig[0]) && AllMatch(args[1..], sig[1..])
  }

  /** Arguments the registry accepts for `op`: the right number, each of an accepted kind. */
  predicate Accepts(op: Operator, args: seq<Val>)
  {
    |args| == |Params(op)| && forall i :: 0 <= i < |args| ==> Matches(args[i], Params(op)[i])
  }

  /** The constructor call for validated arguments: BBox takes them as one list. */
  function Build(op: Operator, args: seq<Val>): Constraint
  {
    if op == Operator.BBox then Constraint.BBox(args) else Property(op, args)
  }

  /** A constraint the translator can build without negation. */
  predicate Simple(c: Constraint)
  {
    match c
    case Property(op, args) => op != Operator.BBox && Accepts(op, args)
    case BBox(coords) => Accepts(Operator.BBox, coords)
    case Not(_) => false
  }

  /** A constraint the translator can build: a simple one, or a simple one under a single `Not`. */
  predicate WellFormed(c: Constraint)
  {
    Simple(c) || (c.Not? && |c.operands| == 1 && Simple(c.operands[0]))
  }

  /** The leaf expression that writes `c`, with the marker spelled `Not`. */
  function Unparse(c: Constraint): seq<Val>
  {
    match c
    case Property(op, args) => [VStr(Name(op))] + args
    case BBox(coords) => [VStr(Name(Operator.BBox))] + coords
    case Not(cs) => [VStr("Not")] + (if |cs| == 1 then Unparse(cs[0]) else [])
  }

  /** `leaf` with a leading negation marker, in whatever case, respelled `Not`. */
  function CanonicalLeaf(leaf: seq<Val>): seq<Val>
  {
    if leaf != [] && leaf[0].VStr? && IsNotMarker(leaf[0].s) then [VStr("Not")] + leaf[1..] else leaf
  }

  /**
   * `as_owslib_constraint`: strip one negation marker, look the operator up,
   * check the argument count, then each argument's kind, and only then build.
   * What succeeds is a well-formed constraint that writes back as the leaf.
   */
  function AsConstraint(leaf: seq<Val>): (r: Result<Constraint, Error>)
    ensures r.Ok? ==> WellFormed(r.value) && Unparse(r.value) == CanonicalLeaf(leaf)
  {
    if leaf == [] then Err(Crash(IndexError))
    else if !leaf[0].VStr? then Err(Crash(AttributeError))
    else
      var neg := IsNotMarker(leaf[0].s);
      var rest := if neg then leaf[1..] else leaf;
      if rest == [] then Err(Crash(IndexError))
      else if !Hashable(rest[0]) then Err(Crash(UnhashableType))
      else if !rest[0].VStr? || Lookup(rest[0].s).None? then Err(UnknownOperator(rest[0]))
      else
        var op := Lookup(rest[0].s).value;
        var args := rest[1..];
        if |args| < |Params(op)| then Err(MissingParameters(op))
        else if |args| > |Params(op)| then Err(TooManyParameters(op))
        else if !AllMatch(args, Params(op)) then Err(ParameterTypeMismatch(op))
        else
          assert rest == [VStr(Name(op))] + args;
          var c := Build(op, args);
          Ok(if neg then Not([c]) else c)
  }

  /** A negation marker in any case wraps the translation of the rest in `Not([...])`, errors unchanged. */
  lemma NegationWraps(marker: string, rest: seq<Val>)
    requires IsNotMarker(marker)
    requires rest != [] && rest[0].VStr? && !IsNotMarker(rest[0].s)
    ensures AsConstraint([VStr(marker)] + rest) ==
      match AsConstraint(rest)
      case Ok(c) => Ok(Not([c]))
      case Err(e) => Err(e)
  {
  }

  /** Only one marker is stripped: a second one is looked up, and is not an operator. */
  lemma OnlyOneNegation(marker1: string, marker2: string, rest: seq<Val>)
    requires IsNotMarker(marker1) && IsNotMarker(marker2)
    ensures AsConstraint([VStr(marker1), VStr(marker2)] + rest) == Err(UnknownOperator(VStr(marker2)))
  {
  }

  /** After the marker, a head that is not exactly a registry key (case-sensitively) is an unknown operator. */
  lemma UnknownOperatorIff(name: string, args: seq<Val>)
    requires !IsNotMarker(name)
    ensures AsConstraint([VStr(name)] + args) == Err(UnknownOperator(VStr(name))) <==>
      forall op :: Name(op) != name
  {
  }

  /** The argument count is checked before any argument's kind: too few or too many fail whatever they are. */
  lemma ArityChecked(op: Operator, args: seq<Val>)
    ensures |args| < |Params(op)| ==>
      AsConstraint([VStr(Name(op))] + args) == Err(MissingParameters(op))
    ensures |args| > |Params(op)| ==>
      AsConstraint([VStr(Name(op))] + args) == Err(TooManyParameters(op))
  {
  }

  /** With the right count, the leaf is accepted exactly when every argument has a kind its position allows. */
  lemma KindsChecked(op: Operator, args: seq<Val>)
    requires |args| == |Params(op)|
    ensures AsConstraint([VStr(Name(op))] + args).Ok? <==>
      forall i :: 0 <= i < |args| ==> Matches(args[i], Params(op)[i])
    ensures AsConstraint([VStr(Name(op))] + args).Err? ==>
      AsConstraint([VStr(Name(op))] + args) == Err(ParameterTypeMismatch(op))
  {
  }

  /** Accepted arguments are passed on exactly, in order: to BBox as one list, to the others one by one. */
  lemma BuiltFromArguments(op: Operator, args: seq<Val>)
    requires Accepts(op, args)
    ensures op == Operator.BBox ==> AsConstraint([VStr(Name(op))] + args) == Ok(Constraint.BBox(args))
    ensures op != Operator.BBox ==> AsConstraint([VStr(Name(op))] + args) == Ok(Property(op, args))
  {
  }

  /** Every well-formed constraint is what its own leaf expression translates to. */
  lemma {:induction false} UnparseRoundTrip(c: Constraint)
    requires WellFormed(c)
    ensures AsConstraint(Unparse(c)) == Ok(c)
  {
    match c
    case Property(op, args) =>
      BuiltFromArguments(op, args);
    case BBox(coords) =>
      BuiltFromArguments(Operator.BBox, coords);
    case Not(cs) =>
      var inner := cs[0];
      var op := if inner.BBox? then Operator.BBox else inner.op;
      UnparseRoundTrip(inner);
      assert Unparse(inner)[0] == VStr(Name(op));
      NoOperatorIsNotMarker(op);
      NotMarkerSpelling("Not");
      NegationWraps("Not", Unparse(inner));
      assert cs == [inner];
  }

  /** A string in any BBox position is refused. */
  lemma StringRejectedByBBox(coords: seq<Val>, i: nat)
    requires |coords| == 4 && i < 4 && coords[i].VStr?
    ensures AsConstraint([VStr("BBox")] + coords) == Err(ParameterTypeMismatch(Operator.BBox))
  {
  }

  /** A number, or a boolean, is refused as the pattern of PropertyIsLike. */
  lemma NumberRejectedByLike(prop: string, pattern: Val)
    requires pattern.VInt? || pattern.VBool? || pattern.VFloat?
    ensures AsConstraint([VStr("PropertyIsLike"), VStr(prop), pattern]) ==
      Err(ParameterTypeMismatch(PropertyIsLike))
  {
    KindsChecked(PropertyIsLike, [VStr(prop), pattern]);
    assert [VStr("PropertyIsLike"), VStr(prop), pattern] == [VStr(Name(PropertyIsLike))] + [VStr(prop), pattern];
    assert !Matches(pattern, Params(PropertyIsLike)[1]);
  }

  /** A hashable non-string after the marker is looked up as a key and reported as an unknown operator. */
  lemma NegatedNonStringIsUnknown(marker: string, head: Val, rest: seq<Val>)
    requires IsNotMarker(marker) && Hashable(head) && !head.VStr?
    ensures AsConstraint([VStr(marker), head] + rest) == Err(UnknownOperator(head))
  {
  }

  /** Python-level failures: an empty leaf, a bare marker, a non-string head, an unhashable operator. */
  lemma RuntimeFaults(leaf: seq<Val>)
    ensures leaf == [] ==> AsConstraint(leaf) == Err(Crash(IndexError))
    ensures leaf != [] && !leaf[0].VStr? ==> AsConstraint(leaf) == Err(Crash(AttributeError))
    ensures |leaf| == 1 && leaf[0].VStr? && IsNotMarker(leaf[0].s) ==>
      AsConstraint(leaf) == Err(Crash(IndexError))
    ensures |leaf| >= 2 && leaf[0].VStr? && IsNotMarker(leaf[0].s) && !Hashable(leaf[1]) ==>
      AsConstraint(leaf) == Err(Crash(UnhashableType))
  {
  }

  /** Four numbers make a BBox of one four-element list, and three miss a parameter. */
  lemma BBoxExamples()
    ensures AsConstraint([VStr("BBox"), VInt(1), VInt(2), VInt(3), VFloat(4.5)]) ==
      Ok(Constraint.BBox([VInt(1), VInt(2), VInt(3), VFloat(4.5)]))
    ensures AsConstraint([VStr("BBox"), VInt(1), VInt(2), VInt(3)]) == Err(MissingParameters(Operator.BBox))
  {
  }

  /** A lower-case marker negates like `Not` does. */
  lemma LowerCaseNegation(prop: string)
    ensures AsConstraint([VStr("not"), VStr("PropertyIsNull"), VStr(prop)]) ==
      Ok(Not([Property(PropertyIsNull, [VStr(prop)])]))
  {
  }
}
