/**
 * The tree walker: a filter is a list whose elements are leaf expressions
 * (a list starting with a string) or nested filters; the result has the same
 * nesting, each leaf replaced by its constraint.
 */
module OgcParse {

  import opened Wrappers
  import opened PyValues
  import opened OgcOperators
  import opened OgcConstraint

  /** An entry of the result list: a constraint, or a nested list of entries. */
  datatype Out = Leaf(c: Constraint) | Node(children: seq<Out>)

  /** One element of a filter list: a leaf when its first item is a string, a nested filter otherwise. */
  function TranslateElement(v: Val): Result<Out, Error>
    decreases v
  {
    match v
    case VList(sub) =>
      if sub == [] then Err(Crash(IndexError))
      else if sub[0].VStr? then
        (match AsConstraint(sub)
         case Ok(c) => Ok(Leaf(c))
         case Err(e) => Err(e))
      else
        (match Translated(sub)
         case Ok(outs) => Ok(Node(outs))
         case Err(e) => Err(e))
    case _ => Err(MalformedFilter)
  }

  /**
   * What `parse_constraints(filter)` returns: the elements translated left
   * to right, the first error aborting the whole walk.
   */
  function Translated(filter: seq<Val>): (r: Result<seq<Out>, Error>)
    ensures r.Ok? ==> |r.value| == |filter|
    decreases filter
  {
    if filter == [] then Ok([])
    else
      match Translated(filter[..|filter| - 1])
      case Err(e) => Err(e)
      case Ok(outs) =>
        match TranslateElement(filter[|filter| - 1])
        case Err(e) => Err(e)
        case Ok(o) => Ok(outs + [o])
  }

  /** Once a prefix of the filter fails, the whole filter fails with the same error. */
  lemma {:induction false} PrefixErrorPropagates(filter: seq<Val>, k: nat)
    requires k <= |filter| && Translated(filter[..k]).Err?
    ensures Translated(filter) == Translated(filter[..k])
    decreases |filter| - k
  {
    if k == |filter| {
      assert filter[..k] == filter;
    } else {
      assert filter[..k + 1][..k] == filter[..k];
      PrefixErrorPropagates(filter, k + 1);
    }
  }

  /**
   * `parse_constraints(filter)` with no accumulator: a loop appends one entry
   * per element to `rec`, recursing with a fresh list into nested filters.
   */
  method ParseConstraints(filter: seq<Val>) returns (r: Result<seq<Out>, Error>)
    ensures r == Translated(filter)
    decreases filter
  {
    var rec: seq<Out> := [];
    for i := 0 to |filter|
      invariant Translated(filter[..i]) == Ok(rec)
    {
      assert filter[..i + 1][..i] == filter[..i];
      var element := filter[i];
      if !element.VList? {
        PrefixErrorPropagates(filter, i + 1);
        return Err(MalformedFilter);
      }
      var sub := element.items;
      if sub == [] {
        PrefixErrorPropagates(filter, i + 1);
        return Err(Crash(IndexError));
      }
      if sub[0].VStr? {
        var c := AsConstraint(sub);
        if c.Err? {
          PrefixErrorPropagates(filter, i + 1);
          return Err(c.error);
        }
        rec := rec + [Leaf(c.value)];
      } else {
        var nested := ParseConstraints(sub);
        if nested.Err? {
          PrefixErrorPropagates(filter, i + 1);
          return Err(nested.error);
        }
        rec := rec + [Node(nested.value)];
      }
    }
    assert filter[..|filter|] == filter;
    r := Ok(rec);
  }

  /** Entry `o` is what element `v` becomes: its leaf translation, or its nested translation. */
  predicate Mirrors(v: Val, o: Out)
  {
    v.VList? && v.items != [] &&
    match o
    case Leaf(c) => v.items[0].VStr? && AsConstraint(v.items) == Ok(c)
    case Node(children) => !v.items[0].VStr? && Translated(v.items) == Ok(children)
  }

  lemma MirrorsElement(v: Val, o: Out)
    ensures Mirrors(v, o) <==> TranslateElement(v) == Ok(o)
  {
  }

  /** The walk over a non-empty filter is the walk over all but the last element, then the last. */
  lemma TranslatedStep(filter: seq<Val>, outs: seq<Out>)
    requires filter != [] && |outs| == |filter|
    ensures Translated(filter) == Ok(outs) <==>
      Translated(filter[..|filter| - 1]) == Ok(outs[..|filter| - 1]) &&
      TranslateElement(filter[|filter| - 1]) == Ok(outs[|filter| - 1])
  {
    var n := |filter| - 1;
    assert outs == outs[..n] + [outs[n]];
    if Translated(filter) == Ok(outs) {
      var init := Translated(filter[..n]).value;
      assert init + [TranslateElement(filter[n]).value] == outs;
      assert init == (init + [TranslateElement(filter[n]).value])[..n];
    }
  }

  /**
   * A walk succeeds with `outs` exactly when `outs` has one entry per
   * element, in order, each mirroring its element: the shape is preserved.
   */
  lemma {:induction false} ShapePreserved(filter: seq<Val>, outs: seq<Out>)
    ensures Translated(filter) == Ok(outs) <==>
      |outs| == |filter| && forall i :: 0 <= i < |filter| ==> Mirrors(filter[i], outs[i])
  {
    if filter != [] && |outs| == |filter| {
      var n := |filter| - 1;
      var init, first := filter[..n], outs[..n];
      ShapePreserved(init, first);
      MirrorsElement(filter[n], outs[n]);
      TranslatedStep(filter, outs);
      assert (forall i :: 0 <= i < |filter| ==> Mirrors(filter[i], outs[i])) <==>
        (forall i :: 0 <= i < n ==> Mirrors(init[i], first[i])) && Mirrors(filter[n], outs[n])
      by {
        assert forall i :: 0 <= i < n ==> init[i] == filter[i] && first[i] == outs[i];
      }
    }
  }

  /** A walk fails exactly when some element fails. */
  lemma {:induction false} FailsIffSomeElementFails(filter: seq<Val>)
    ensures Translated(filter).Err? <==> exists i :: 0 <= i < |filter| && TranslateElement(filter[i]).Err?
  {
    if Translated(filter).Ok? {
      ShapePreserved(filter, Translated(filter).value);
      forall i | 0 <= i < |filter|
        ensures TranslateElement(filter[i]).Ok?
      {
        MirrorsElement(filter[i], Translated(filter).value[i]);
      }
    } else {
      var k :| 0 <= k < |filter| && TranslateElement(filter[k]).Err? by {
        FailsHasWitness(filter);
      }
    }
  }

  lemma {:induction false} FailsHasWitness(filter: seq<Val>)
    requires Translated(filter).Err?
    ensures exists i :: 0 <= i < |filter| && TranslateElement(filter[i]).Err?
  {
    var n := |filter| - 1;
    if Translated(filter[..n]).Err? {
      FailsHasWitness(filter[..n]);
      var k :| 0 <= k < n && TranslateElement(filter[..n][k]).Err?;
      assert filter[..n][k] == filter[k];
    }
  }

  /** The error reported is that of the first failing element, left to right. */
  lemma {:induction false} FirstErrorWins(filter: seq<Val>, k: nat)
    requires k < |filter| && TranslateElement(filter[k]).Err?
    requires forall j :: 0 <= j < k ==> TranslateElement(filter[j]).Ok?
    ensures Translated(filter) == Err(TranslateElement(filter[k]).error)
  {
    var prefix := filter[..k];
    assert forall j :: 0 <= j < k ==> prefix[j] == filter[j];
    FailsIffSomeElementFails(prefix);
    assert filter[..k + 1][..k] == prefix;
    PrefixErrorPropagates(filter, k + 1);
  }

  /** An element that is not a list, at the head or reached through nested filters. */
  predicate HasStray(filter: seq<Val>)
    decreases filter
  {
    exists i :: 0 <= i < |filter| &&
      (!filter[i].VList? ||
       (filter[i].items != [] && !filter[i].items[0].VStr? && HasStray(filter[i].items)))
  }

  /** A non-list element anywhere the walk descends makes the whole walk fail. */
  lemma {:induction false} StrayElementFails(filter: seq<Val>)
    requires HasStray(filter)
    ensures Translated(filter).Err?
    decreases filter
  {
    var i :| 0 <= i < |filter| &&
      (!filter[i].VList? ||
       (filter[i].items != [] && !filter[i].items[0].VStr? && HasStray(filter[i].items)));
    if filter[i].VList? {
      StrayElementFails(filter[i].items);
    }
    FailsIffSomeElementFails(filter);
  }

  /** The list an entry is written as; a leaf is written with the marker spelled `Not`. */
  function Write(o: Out): Val
  {
    match o
    case Leaf(c) => VList(Unparse(c))
    case Node(children) => VList(WriteAll(children))
  }

  function WriteAll(outs: seq<Out>): (r: seq<Val>)
    ensures |r| == |outs|
  {
    seq(|outs|, i requires 0 <= i < |outs| => Write(outs[i]))
  }

  /** A result the walk can produce: well-formed constraints, nested lists that are not empty. */
  predicate Writable(o: Out)
  {
    match o
    case Leaf(c) => WellFormed(c)
    case Node(children) => children != [] && forall i :: 0 <= i < |children| ==> Writable(children[i])
  }

  /** Every result the walk can produce is what the filter written from it translates to. */
  lemma {:induction false} WriteRoundTrip(outs: seq<Out>)
    requires forall i :: 0 <= i < |outs| ==> Writable(outs[i])
    ensures Translated(WriteAll(outs)) == Ok(outs)
    decreases outs
  {
    var filter := WriteAll(outs);
    forall i | 0 <= i < |outs|
      ensures Mirrors(filter[i], outs[i])
    {
      match outs[i]
      case Leaf(c) =>
        UnparseRoundTrip(c);
      case Node(children) =>
        WriteRoundTrip(children);
    }
    ShapePreserved(filter, outs);
  }

  /** Every result of a walk is writable: its constraints are well-formed and its nested lists are not empty. */
  lemma {:induction false} WalkResultsWritable(filter: seq<Val>)
    ensures Translated(filter).Ok? ==>
      forall i :: 0 <= i < |filter| ==> Writable(Translated(filter).value[i])
    decreases filter
  {
    if Translated(filter).Ok? {
      var outs := Translated(filter).value;
      ShapePreserved(filter, outs);
      forall i | 0 <= i < |filter|
        ensures Writable(outs[i])
      {
        assert Mirrors(filter[i], outs[i]);
        if outs[i].Node? {
          WalkResultsWritable(filter[i].items);
        }
      }
    }
  }

  /** The two leaves of the `parse_constraints` documentation, one plain and one negated. */
  lemma DocumentedLeaves(p1: string, v1: string, p2: string, v2: string)
    ensures AsConstraint([VStr("PropertyIsLike"), VStr(p1), VStr(v1)]) ==
      Ok(Property(PropertyIsLike, [VStr(p1), VStr(v1)]))
    ensures AsConstraint([VStr("Not"), VStr("PropertyIsEqualTo"), VStr(p2), VStr(v2)]) ==
      Ok(Not([Property(PropertyIsEqualTo, [VStr(p2), VStr(v2)])]))
  {
    assert IsInstance(VStr(p1), Text) && IsInstance(VStr(v1), Text);
    assert IsInstance(VStr(p2), Text) && IsInstance(VStr(v2), Text) && Text in Any;
    BuiltFromArguments(PropertyIsLike, [VStr(p1), VStr(v1)]);
    BuiltFromArguments(PropertyIsEqualTo, [VStr(p2), VStr(v2)]);
    NotMarkerSpelling("Not");
    NoOperatorIsNotMarker(PropertyIsEqualTo);
    NegationWraps("Not", [VStr("PropertyIsEqualTo"), VStr(p2), VStr(v2)]);
    assert [VStr("PropertyIsLike"), VStr(p1), VStr(v1)] == [VStr(Name(PropertyIsLike))] + [VStr(p1), VStr(v1)];
    assert [VStr("PropertyIsEqualTo"), VStr(p2), VStr(v2)] == [VStr(Name(PropertyIsEqualTo))] + [VStr(p2), VStr(v2)];
    assert [VStr("Not"), VStr("PropertyIsEqualTo"), VStr(p2), VStr(v2)] ==
      [VStr("Not")] + [VStr("PropertyIsEqualTo"), VStr(p2), VStr(v2)];
  }

  /** The example of the `parse_constraints` documentation: two leaves, the second negated. */
  lemma DocumentedExample(p1: string, v1: string, p2: string, v2: string)
    ensures Translated([
      VList([VStr("PropertyIsLike"), VStr(p1), VStr(v1)]),
      VList([VStr("Not"), VStr("PropertyIsEqualTo"), VStr(p2), VStr(v2)])
    ]) == Ok([
      Leaf(Property(PropertyIsLike, [VStr(p1), VStr(v1)])),
      Leaf(Not([Property(PropertyIsEqualTo, [VStr(p2), VStr(v2)])]))
    ])
  {
    DocumentedLeaves(p1, v1, p2, v2);
    var filter := [
      VList([VStr("PropertyIsLike"), VStr(p1), VStr(v1)]),
      VList([VStr("Not"), VStr("PropertyIsEqualTo"), VStr(p2), VStr(v2)])
    ];
    var outs := [
      Leaf(Property(PropertyIsLike, [VStr(p1), VStr(v1)])),
      Leaf(Not([Property(PropertyIsEqualTo, [VStr(p2), VStr(v2)])]))
    ];
    assert Mirrors(filter[0], outs[0]);
    assert Mirrors(filter[1], outs[1]);
    ShapePreserved(filter, outs);
  }

  /** `[[1, 2]]` is recursed into, and then `1` is not a list. */
  lemma NumbersAreMalformed()
    ensures Translated([VList([VInt(1), VInt(2)])]) == Err(MalformedFilter)
  {
  }
}
