/** The fail-fast query-filter caster (lib/filters.js). */
module FilterCasting {
  import opened Values
  import opened Common

  /** `COMPARISON_SELECTORS`: an operator object led by one of these casts its
      operand with the field's own type. */
  const ComparisonSelectors: seq<string> := ["$eq", "$gt", "$gte", "$lt", "$lte", "$ne"]

  /** `ARRAY_SELECTORS`: an operator object led by one of these casts every
      element of its operand. */
  const ArraySelectors: seq<string> := ["$in", "$nin"]

  /** The first own key of `v` is one `handleCastForQuery` looks through. */
  predicate LedBySelector(v: Value) {
    v.Obj? && |v.fields| > 0
    && (v.fields[0].0 in ComparisonSelectors || v.fields[0].0 == "$not" || v.fields[0].0 in ArraySelectors)
  }

  // ---- handleCastForQuery ----

  /** What `handleCastForQuery(obj, key, type)` leaves in `obj[key]` when it
      held `v`, or the error it throws. Only the first own key of an object is
      looked at; any other slot of that object is left as it was. */
  function QueryCast(v: Value, t: Type): (r: Result<Value>)
    decreases v, 1, 0
    ensures !LedBySelector(v) ==> r == HandleCast(v, t)
    ensures LedBySelector(v) && r.Ok? ==>
              r.value.Obj? && |r.value.fields| == |v.fields|
              && r.value.fields[0].0 == v.fields[0].0
              && r.value.fields[1..] == v.fields[1..]
  {
    if v.Obj? && |v.fields| > 0 then
      var firstKey := v.fields[0].0;
      if firstKey in ComparisonSelectors || firstKey == "$not" then
        var c :- QueryCast(v.fields[0].1, t);
        Ok(Obj([(firstKey, c)] + v.fields[1..]))
      else if firstKey in ArraySelectors then
        var cs :- QueryElems(v, t, |Elems(v.fields[0].1)|);
        Ok(Obj([(firstKey, Arr(cs))] + v.fields[1..]))
      else HandleCast(v, t)
    else HandleCast(v, t)
  }

  /** The `_.each` of `handleCastForQuery` over the first `n` elements of the
      operand of `op`'s `$in`/`$nin`, a non-array operand standing for `[operand]`. */
  function QueryElems(op: Value, t: Type, n: nat): (r: Result<seq<Value>>)
    requires op.Obj? && |op.fields| > 0 && n <= |Elems(op.fields[0].1)|
    decreases op, 0, n
    ensures r.Ok? ==> |r.value| == n
  {
    if n == 0 then Ok([])
    else
      var done :- QueryElems(op, t, n - 1);
      var operand := op.fields[0].1;
      assert Elems(operand)[n - 1] < op by {
        if operand.Arr? {
          assert Elems(operand)[n - 1] in operand.elems;
        }
      }
      var c :- QueryCast(Elems(operand)[n - 1], t);
      Ok(done + [c])
  }

  // ---- castFilter ----

  /** The error thrown for a value found on an Object-typed path that is not
      an object: `Could not cast <value> to Object`. As written the message
      reads the undefined `obj` (see ObjectShapeErrorAsWritten). This is the
      corrected half of that discrepancy: its meaning lies in where it is
      thrown, which FilteredEntry and ShapeErrorThrownByFilter state. */
  function ObjectShapeError(value: Value): (e: Error)
    ensures e.CouldNotCast? && e.value == value && e.typeName == "Object"
  {
    CouldNotCast(value, "Object")
  }

  /** lib/filters.js:30 as written: building the message evaluates the
      undefined `obj`, so what is thrown is a ReferenceError and the offending
      value is lost. */
  function ObjectShapeErrorAsWritten(value: Value): (e: Error)
    ensures e == ReferenceError("obj")
  {
    ReferenceError("obj")
  }

  /** The message as written never names the offending value: every
      non-object value on an Object-typed path throws the same error, and
      not the one that was intended. */
  lemma ShapeErrorAsWrittenLosesValue(v: Value, w: Value)
    ensures ObjectShapeErrorAsWritten(v) == ObjectShapeErrorAsWritten(w)
    ensures ObjectShapeErrorAsWritten(v) != ObjectShapeError(v)
    ensures v != w ==> ObjectShapeError(v) != ObjectShapeError(w)
  {
  }

  /** The shape check is reached by `castFilter`: a key whose Object-typed
      value is not an object makes the whole filter throw, so as written that
      filter throws the ReferenceError and not the intended error. */
  lemma ShapeErrorThrownByFilter(schema: Schema, path: string, key: string, x: Value)
    requires Typed(schema, Join(path, Name(key))) && schema[Join(path, Name(key))].value == TObject
    requires !IsObjectLike(x)
    ensures FilteredContainer(schema, Obj([(key, x)]), path) == Err(ObjectShapeError(x))
    ensures FilteredContainer(schema, Obj([(key, x)]), path) != Err(ObjectShapeErrorAsWritten(x))
  {
    var obj := Obj([(key, x)]);
    assert FieldOutcome(schema, obj, path, 0) == Err(ObjectShapeError(x));
    assert FilteredFields(schema, obj, path, 1) == Err(ObjectShapeError(x));
  }

  /** `castFilter(filters, schema, path)`: the container after its own keys
      (an object's keys, an array's indices) have been cast in place. */
  function FilteredContainer(schema: Schema, c: Value, path: string): (r: Result<Value>)
    decreases c, Room(schema, path), Width(c) + 2
    ensures r.Ok? && c.Obj? ==> r.value.Obj? && |r.value.fields| == |c.fields|
    ensures r.Ok? && c.Arr? ==> r.value.Arr? && |r.value.elems| == |c.elems|
    ensures !c.Obj? && !c.Arr? ==> r == Ok(c)
  {
    match c
    case Obj(fs) =>
      var out :- FilteredFields(schema, c, path, |fs|);
      Ok(Obj(out))
    case Arr(es) =>
      var out :- FilteredElems(schema, c, path, |es|);
      Ok(Arr(out))
    case _ => Ok(c)
  }

  /** The `_.each` of `castFilter` over the first `n` own keys of `obj`. */
  function FilteredFields(schema: Schema, obj: Value, path: string, n: nat): (r: Result<seq<(string, Value)>>)
    requires obj.Obj? && n <= |obj.fields|
    decreases obj, Room(schema, path), n
    ensures r.Ok? ==> |r.value| == n
  {
    if n == 0 then Ok([])
    else
      var done :- FilteredFields(schema, obj, path, n - 1);
      var entry :- FieldOutcome(schema, obj, path, n - 1);
      Ok(done + [entry])
  }

  /** One more key: the walk goes on with the key's cast value, or stops with its error. */
  lemma FilteredFieldsNext(schema: Schema, obj: Value, path: string, i: nat, done: seq<(string, Value)>)
    requires obj.Obj? && i < |obj.fields| && FilteredFields(schema, obj, path, i) == Ok(done)
    ensures var y := FilteredEntry(schema, path, Name(obj.fields[i].0), obj.fields[i].1);
            FilteredFields(schema, obj, path, i + 1)
            == if y.Ok? then Ok(done + [(obj.fields[i].0, y.value)]) else Err(y.error)
  {
  }

  /** The `_.each` of `castFilter` over the first `n` elements of `x`, which
      is an array or, promoted, stands for `[x]` on the Array-typed `path`. */
  function FilteredElems(schema: Schema, x: Value, path: string, n: nat): (r: Result<seq<Value>>)
    requires n <= |Elems(x)| && (x.Arr? || path in schema)
    decreases x, Room(schema, path), n
    ensures r.Ok? ==> |r.value| == n
  {
    if n == 0 then Ok([])
    else
      var done :- FilteredElems(schema, x, path, n - 1);
      assert x.Arr? || Room(schema, Join(path, Index(n - 1))) < Room(schema, path) by {
        if !x.Arr? {
          RoomShrinks(schema, path, Join(path, Index(n - 1)));
        }
      }
      var y :- FilteredEntry(schema, path, Index(n - 1), Elems(x)[n - 1]);
      Ok(done + [y])
  }

  /** The callback of `castFilter` for the entry `x` under `seg`: untouched
      unless its path is typed; promoted and cast element-wise on an Array
      path; shape-checked and walked on an Object path; cast as a query
      value otherwise. */
  function FilteredEntry(schema: Schema, path: string, seg: Segment, x: Value): (r: Result<Value>)
    decreases x, Room(schema, Join(path, seg)), Width(x) + 3
    ensures !Typed(schema, Join(path, seg)) ==> r == Ok(x)
    ensures (Typed(schema, Join(path, seg)) && schema[Join(path, seg)].value == TObject && !IsObjectLike(x))
            ==> r == Err(ObjectShapeError(x))
  {
    var p := Join(path, seg);
    if !Typed(schema, p) then Ok(x)
    else
      match schema[p].value
      case TArray =>
        var out :- FilteredElems(schema, x, p, |Elems(x)|);
        Ok(Arr(out))
      case TObject =>
        if !IsObjectLike(x) then Err(ObjectShapeError(x))
        else FilteredContainer(schema, x, p)
      case t => QueryCast(x, t)
  }

  // ---- positional characterisations ----

  /** The outcome of the callback of `castFilter` for the `j`-th own key:
      the key with the value it is left holding, or the error thrown. */
  function FieldOutcome(schema: Schema, obj: Value, path: string, j: nat): Result<(string, Value)>
    requires obj.Obj? && j < |obj.fields|
    decreases obj, Room(schema, path), 0
  {
    var y :- FilteredEntry(schema, path, Name(obj.fields[j].0), obj.fields[j].1);
    Ok((obj.fields[j].0, y))
  }

  function FieldOutcomes(schema: Schema, obj: Value, path: string, n: nat): (outs: seq<Result<(string, Value)>>)
    requires obj.Obj? && n <= |obj.fields|
    ensures |outs| == n
  {
    seq(n, j requires 0 <= j < n => FieldOutcome(schema, obj, path, j))
  }

  /** The walk over the keys is each key's callback run in order, stopping at
      the first that throws (see SequencedPositional): unknown and untyped
      keys keep their values, every key keeps its place, and the first
      failing key's error is the one thrown. */
  lemma {:induction false} FilteredFieldsSequenced(schema: Schema, obj: Value, path: string, n: nat)
    requires obj.Obj? && n <= |obj.fields|
    ensures FilteredFields(schema, obj, path, n) == Sequenced(FieldOutcomes(schema, obj, path, n))
  {
    if n > 0 {
      FilteredFieldsSequenced(schema, obj, path, n - 1);
      FieldOutcomesStep(schema, obj, path, n);
      SequencedSnoc(FieldOutcomes(schema, obj, path, n), FieldOutcomes(schema, obj, path, n - 1), FieldOutcome(schema, obj, path, n - 1));
      FilteredFieldsUnfold(schema, obj, path, n);
    }
  }

  lemma FilteredFieldsUnfold(schema: Schema, obj: Value, path: string, n: nat)
    requires obj.Obj? && 0 < n <= |obj.fields|
    ensures FilteredFields(schema, obj, path, n)
         == if FilteredFields(schema, obj, path, n - 1).Err? then Err(FilteredFields(schema, obj, path, n - 1).error)
            else if FieldOutcome(schema, obj, path, n - 1).Err? then Err(FieldOutcome(schema, obj, path, n - 1).error)
            else Ok(FilteredFields(schema, obj, path, n - 1).value + [FieldOutcome(schema, obj, path, n - 1).value])
  {
  }

  lemma FieldOutcomesStep(schema: Schema, obj: Value, path: string, n: nat)
    requires obj.Obj? && 0 < n <= |obj.fields|
    ensures FieldOutcomes(schema, obj, path, n)[..n - 1] == FieldOutcomes(schema, obj, path, n - 1)
    ensures FieldOutcomes(schema, obj, path, n)[n - 1] == FieldOutcome(schema, obj, path, n - 1)
  {
    assert FieldOutcomes(schema, obj, path, n)[..n - 1] == FieldOutcomes(schema, obj, path, n - 1);
  }

  /** The outcome of the callback of `castFilter` for element `j`. */
  function ElemOutcome(schema: Schema, x: Value, path: string, j: nat): Result<Value>
    requires j < |Elems(x)|
  {
    FilteredEntry(schema, path, Index(j), Elems(x)[j])
  }

  function ElemOutcomes(schema: Schema, x: Value, path: string, n: nat): (outs: seq<Result<Value>>)
    requires n <= |Elems(x)|
    ensures |outs| == n
  {
    seq(n, j requires 0 <= j < n => ElemOutcome(schema, x, path, j))
  }

  /** The walk over the elements is each element's callback run in order,
      stopping at the first that throws. */
  lemma {:induction false} FilteredElemsSequenced(schema: Schema, x: Value, path: string, n: nat)
    requires n <= |Elems(x)| && (x.Arr? || path in schema)
    ensures FilteredElems(schema, x, path, n) == Sequenced(ElemOutcomes(schema, x, path, n))
  {
    if n > 0 {
      FilteredElemsSequenced(schema, x, path, n - 1);
      FilteredElemsSequencedStep(schema, x, path, n);
    }
  }

  lemma FilteredElemsSequencedStep(schema: Schema, x: Value, path: string, n: nat)
    requires 0 < n <= |Elems(x)| && (x.Arr? || path in schema)
    requires FilteredElems(schema, x, path, n - 1) == Sequenced(ElemOutcomes(schema, x, path, n - 1))
    ensures FilteredElems(schema, x, path, n) == Sequenced(ElemOutcomes(schema, x, path, n))
  {
    ElemOutcomesStep(schema, x, path, n);
    SequencedSnoc(ElemOutcomes(schema, x, path, n), ElemOutcomes(schema, x, path, n - 1), ElemOutcome(schema, x, path, n - 1));
    FilteredElemsUnfold(schema, x, path, n);
  }

  lemma FilteredElemsUnfold(schema: Schema, x: Value, path: string, n: nat)
    requires 0 < n <= |Elems(x)| && (x.Arr? || path in schema)
    ensures FilteredElems(schema, x, path, n)
         == if FilteredElems(schema, x, path, n - 1).Err? then Err(FilteredElems(schema, x, path, n - 1).error)
            else if ElemOutcome(schema, x, path, n - 1).Err? then Err(ElemOutcome(schema, x, path, n - 1).error)
            else Ok(FilteredElems(schema, x, path, n - 1).value + [ElemOutcome(schema, x, path, n - 1).value])
  {
  }

  lemma ElemOutcomesStep(schema: Schema, x: Value, path: string, n: nat)
    requires 0 < n <= |Elems(x)|
    ensures ElemOutcomes(schema, x, path, n)[..n - 1] == ElemOutcomes(schema, x, path, n - 1)
    ensures ElemOutcomes(schema, x, path, n)[n - 1] == ElemOutcome(schema, x, path, n - 1)
  {
    assert ElemOutcomes(schema, x, path, n)[..n - 1] == ElemOutcomes(schema, x, path, n - 1);
  }

  function OperandOutcomes(op: Value, t: Type, n: nat): (outs: seq<Result<Value>>)
    requires op.Obj? && |op.fields| > 0 && n <= |Elems(op.fields[0].1)|
    ensures |outs| == n
  {
    seq(n, j requires 0 <= j < n => QueryCast(Elems(op.fields[0].1)[j], t))
  }

  /** `$in`/`$nin`: every element of the (promoted) operand is cast with the
      field's type, in order, stopping at the first that throws. */
  lemma {:induction false} QueryElemsSequenced(op: Value, t: Type, n: nat)
    requires op.Obj? && |op.fields| > 0 && n <= |Elems(op.fields[0].1)|
    ensures QueryElems(op, t, n) == Sequenced(OperandOutcomes(op, t, n))
  {
    if n > 0 {
      QueryElemsSequenced(op, t, n - 1);
      OperandOutcomesStep(op, t, n);
    }
  }

  lemma OperandOutcomesStep(op: Value, t: Type, n: nat)
    requires op.Obj? && |op.fields| > 0 && 0 < n <= |Elems(op.fields[0].1)|
    ensures OperandOutcomes(op, t, n)[..n - 1] == OperandOutcomes(op, t, n - 1)
    ensures OperandOutcomes(op, t, n)[n - 1] == QueryCast(Elems(op.fields[0].1)[n - 1], t)
  {
    assert OperandOutcomes(op, t, n)[..n - 1] == OperandOutcomes(op, t, n - 1);
  }

  // ---- casting a query value twice ----

  /** A plain cast never produces an operator object from a value that was not one. */
  lemma HandleCastNotLed(v: Value, t: Type)
    requires !LedBySelector(v) && HandleCast(v, t).Ok?
    ensures !LedBySelector(HandleCast(v, t).value)
  {
  }

  /** Casting a query value that has been cast already changes nothing: the
      operand of a selector, every element of an `$in`/`$nin` list and a
      plain value all come back as they are. */
  lemma QueryCastIdempotent(v: Value, t: Type)
    requires QueryCast(v, t).Ok?
    ensures QueryCast(QueryCast(v, t).value, t) == QueryCast(v, t)
    decreases v
  {
    if LedBySelector(v) {
      var k := v.fields[0].0;
      var operand := v.fields[0].1;
      if k in ComparisonSelectors || k == "$not" {
        QueryCastIdempotent(operand, t);
        var w := QueryCast(v, t).value;
        assert w.fields[0] == (k, QueryCast(operand, t).value);
        assert [(k, QueryCast(operand, t).value)] + w.fields[1..] == w.fields;
      } else {
        QueryElemsTwice(v, t);
      }
    } else {
      HandleCastNotLed(v, t);
      HandleCastIdempotent(v, t);
    }
  }

  /** The `$in`/`$nin` half of QueryCastIdempotent. */
  lemma QueryElemsTwice(v: Value, t: Type)
    requires LedBySelector(v) && v.fields[0].0 in ArraySelectors && QueryCast(v, t).Ok?
    ensures QueryCast(QueryCast(v, t).value, t) == QueryCast(v, t)
    decreases v, 0
  {
    var k := v.fields[0].0;
    var es := Elems(v.fields[0].1);
    var cs := QueryElems(v, t, |es|).value;
    var w := QueryCast(v, t).value;
    assert QueryElems(v, t, |es|).Ok?;
    assert w == Obj([(k, Arr(cs))] + v.fields[1..]);
    QueryElemsSequenced(v, t, |es|);
    SequencedPositional(OperandOutcomes(v, t, |es|));
    forall j | 0 <= j < |cs|
      ensures QueryCast(cs[j], t) == Ok(cs[j])
    {
      assert es[j] < v by {
        if v.fields[0].1.Arr? {
          assert es[j] in v.fields[0].1.elems;
        }
      }
      assert OperandOutcomes(v, t, |es|)[j] == QueryCast(es[j], t);
      QueryCastIdempotent(es[j], t);
    }
    QueryElemsSequenced(w, t, |cs|);
    SequencedAllOk(OperandOutcomes(w, t, |cs|), cs);
    assert [(k, Arr(cs))] + w.fields[1..] == w.fields;
  }

  // ---- a failure is final ----

  lemma {:induction false} FilteredFieldsFailureFinal(schema: Schema, obj: Value, path: string, n: nat, m: nat)
    requires obj.Obj? && n <= m <= |obj.fields| && FilteredFields(schema, obj, path, n).Err?
    ensures FilteredFields(schema, obj, path, m) == Err(FilteredFields(schema, obj, path, n).error)
    decreases m
  {
    if m > n {
      FilteredFieldsFailureFinal(schema, obj, path, n, m - 1);
    }
  }

  lemma {:induction false} FilteredElemsFailureFinal(schema: Schema, x: Value, path: string, n: nat, m: nat)
    requires n <= m <= |Elems(x)| && (x.Arr? || path in schema) && FilteredElems(schema, x, path, n).Err?
    ensures FilteredElems(schema, x, path, m) == Err(FilteredElems(schema, x, path, n).error)
    decreases m
  {
    if m > n {
      FilteredElemsFailureFinal(schema, x, path, n, m - 1);
    }
  }

  lemma {:induction false} QueryElemsFailureFinal(op: Value, t: Type, n: nat, m: nat)
    requires op.Obj? && |op.fields| > 0 && n <= m <= |Elems(op.fields[0].1)| && QueryElems(op, t, n).Err?
    ensures QueryElems(op, t, m) == Err(QueryElems(op, t, n).error)
    decreases m
  {
    if m > n {
      QueryElemsFailureFinal(op, t, n, m - 1);
    }
  }

  /** One more operand element: the walk goes on with its cast value, or stops with its error. */
  lemma QueryElemsNext(op: Value, t: Type, i: nat, done: seq<Value>, c: Result<Value>)
    requires op.Obj? && |op.fields| > 0 && i < |Elems(op.fields[0].1)|
    requires QueryElems(op, t, i) == Ok(done) && c == QueryCast(Elems(op.fields[0].1)[i], t)
    ensures QueryElems(op, t, i + 1) == if c.Ok? then Ok(done + [c.value]) else Err(c.error)
  {
  }

  // ---- the casts as the source runs them ----

  /** `handleCastForQuery(obj, key, type)` on the value `v` of `obj[key]`. */
  method HandleCastForQuery(v: Value, t: Type) returns (r: Result<Value>)
    decreases v
    ensures r == QueryCast(v, t)
  {
    if v.Obj? && |v.fields| > 0 {
      var firstKey := v.fields[0].0;
      if firstKey in ComparisonSelectors || firstKey == "$not" {
        var c := HandleCastForQuery(v.fields[0].1, t);
        if c.Err? {
          return Err(c.error);
        }
        return Ok(Obj([(firstKey, c.value)] + v.fields[1..]));
      } else if firstKey in ArraySelectors {
        var operand := Elems(v.fields[0].1);  // value[firstKey] = [value[firstKey]] unless an array
        var done: seq<Value> := [];
        for i := 0 to |operand|
          invariant QueryElems(v, t, i) == Ok(done)
        {
          assert operand[i] < v by {
            if v.fields[0].1.Arr? {
              assert operand[i] in v.fields[0].1.elems;
            }
          }
          var c := HandleCastForQuery(operand[i], t);
          QueryElemsNext(v, t, i, done, c);
          if c.Err? {
            QueryElemsFailureFinal(v, t, i + 1, |operand|);
            return Err(c.error);
          }
          done := done + [c.value];
        }
        return Ok(Obj([(firstKey, Arr(done))] + v.fields[1..]));
      }
    }
    r := HandleCast(v, t);
  }

  /** `castFilter(filters, schema, path)`: casts the container's own keys in
      place, throwing on the first failure. */
  method CastFilter(schema: Schema, filters: Value, path: string) returns (r: Result<Value>)
    decreases filters, Room(schema, path), 2
    ensures r == FilteredContainer(schema, filters, path)
  {
    if filters.Obj? {
      var out := CastFilterFields(schema, filters, path);
      if out.Err? {
        return Err(out.error);
      }
      return Ok(Obj(out.value));
    } else if filters.Arr? {
      var out := CastFilterElems(schema, filters, path);
      if out.Err? {
        return Err(out.error);
      }
      return Ok(Arr(out.value));
    }
    return Ok(filters);
  }

  /** The `_.each` loop of `castFilter` over an object's own keys. */
  method CastFilterFields(schema: Schema, obj: Value, path: string) returns (r: Result<seq<(string, Value)>>)
    requires obj.Obj?
    decreases obj, Room(schema, path), 1
    ensures r == FilteredFields(schema, obj, path, |obj.fields|)
  {
    var done: seq<(string, Value)> := [];
    var i := 0;
    while i < |obj.fields|
      invariant 0 <= i <= |obj.fields|
      invariant FilteredFields(schema, obj, path, i) == Ok(done)
    {
      var next := FieldFilterPass(schema, obj, path, i, done);
      if next.Err? {
        FilteredFieldsFailureFinal(schema, obj, path, i + 1, |obj.fields|);
        return Err(next.error);
      }
      done := next.value;
      i := i + 1;
    }
    return Ok(done);
  }

  /** The callback of that loop for the `i`-th key, the keys before it having
      been cast to `done`. */
  method FieldFilterPass(schema: Schema, obj: Value, path: string, i: nat, done: seq<(string, Value)>)
      returns (r: Result<seq<(string, Value)>>)
    requires obj.Obj? && i < |obj.fields| && FilteredFields(schema, obj, path, i) == Ok(done)
    decreases obj, Room(schema, path), 0
    ensures r == FilteredFields(schema, obj, path, i + 1)
  {
    var key := obj.fields[i].0;
    var y := CastFilterEntry(schema, path, Name(key), obj.fields[i].1);
    if y.Err? {
      return Err(y.error);
    }
    return Ok(done + [(key, y.value)]);
  }

  /** The `_.each` loop of `castFilter` over an array's elements, or over
      `[x]` once `x` has been promoted on an Array-typed path. */
  method CastFilterElems(schema: Schema, x: Value, path: string) returns (r: Result<seq<Value>>)
    requires x.Arr? || path in schema
    decreases x, Room(schema, path), 1
    ensures r == FilteredElems(schema, x, path, |Elems(x)|)
  {
    var arr := Elems(x);
    var done: seq<Value> := [];
    var i := 0;
    while i < |arr|
      invariant 0 <= i <= |arr|
      invariant FilteredElems(schema, x, path, i) == Ok(done)
    {
      if !x.Arr? {
        RoomShrinks(schema, path, Join(path, Index(i)));
      }
      var y := CastFilterEntry(schema, path, Index(i), arr[i]);
      FilteredElemsNext(schema, x, path, i, done, y);
      if y.Err? {
        FilteredElemsFailureFinal(schema, x, path, i + 1, |arr|);
        return Err(y.error);
      }
      done := done + [y.value];
      i := i + 1;
    }
    return Ok(done);
  }

  /** One more element: the walk goes on with its cast value, or stops with its error. */
  lemma FilteredElemsNext(schema: Schema, x: Value, path: string, i: nat, done: seq<Value>, y: Result<Value>)
    requires i < |Elems(x)| && (x.Arr? || path in schema)
    requires FilteredElems(schema, x, path, i) == Ok(done)
    requires y == FilteredEntry(schema, path, Index(i), Elems(x)[i])
    ensures FilteredElems(schema, x, path, i + 1) == if y.Ok? then Ok(done + [y.value]) else Err(y.error)
  {
  }

  /** The callback of `castFilter` for one entry. */
  method CastFilterEntry(schema: Schema, path: string, seg: Segment, x: Value) returns (r: Result<Value>)
    decreases x, Room(schema, Join(path, seg)), 3
    ensures r == FilteredEntry(schema, path, seg, x)
  {
    var p := Join(path, seg);
    if !Typed(schema, p) {
      return Ok(x);
    }
    var t := schema[p].value;
    if t == TArray {
      var out := CastFilterElems(schema, x, p);  // filters[key] = [value] unless an array
      if out.Err? {
        return Err(out.error);
      }
      return Ok(Arr(out.value));
    } else if t == TObject {
      if !IsObjectLike(x) {
        return Err(ObjectShapeError(x));
      }
      r := CastFilter(schema, x, p);
    } else {
      r := HandleCastForQuery(x, t);
    }
  }

  // ---- worked examples ----

  /** A schema with a class-typed `_id`, a Number `test` and a String `tags`. */
  const QuerySchema: Schema := map["_id" := Some(TClass("ObjectId")), "test" := Some(TNumber), "tags" := Some(TString)]

  /** A string `_id` is wrapped in the declared class. */
  lemma IdWrapped(id: string)
    ensures FilteredEntry(QuerySchema, "", Name("_id"), Str(id)) == Ok(Inst("ObjectId", Str(id)))
  {
    assert Join("", Name("_id")) == "_id";
  }

  /** An operator object led by a comparison selector or `$not`, whatever
      keys follow, has its first operand cast and nothing else: the cast
      throws exactly when the operand's does, with the same error, and
      otherwise the operand is replaced and the keys after it stay. */
  lemma SelectorCast(v: Value, t: Type)
    requires v.Obj? && |v.fields| > 0
    requires v.fields[0].0 in ComparisonSelectors || v.fields[0].0 == "$not"
    ensures QueryCast(v, t).Err? <==> QueryCast(v.fields[0].1, t).Err?
    ensures QueryCast(v, t).Err? ==> QueryCast(v, t).error == QueryCast(v.fields[0].1, t).error
    ensures QueryCast(v, t).Ok? ==>
              QueryCast(v, t).value == Obj([(v.fields[0].0, QueryCast(v.fields[0].1, t).value)] + v.fields[1..])
  {
  }

  /** `{$not: {$eq: '123'}}` on a Number field becomes `{$not: {$eq: 123}}`. */
  lemma NotEqCast()
    ensures FilteredEntry(QuerySchema, "", Name("test"), Obj([("$not", Obj([("$eq", Str("123"))]))]))
         == Ok(Obj([("$not", Obj([("$eq", Num(123))]))]))
  {
    assert Join("", Name("test")) == "test";
    assert ParseDigits("123") == 123 by {
      assert "123"[..2] == "12" && "12"[..1] == "1" && "1"[..0] == "";
    }
    assert QueryCast(Str("123"), TNumber) == Ok(Num(123));
    var inner := Obj([("$eq", Str("123"))]);
    assert [("$eq", Num(123))] + inner.fields[1..] == [("$eq", Num(123))];
    SelectorCast(inner, TNumber);
    var outer := Obj([("$not", inner)]);
    assert [("$not", Obj([("$eq", Num(123))]))] + outer.fields[1..] == [("$not", Obj([("$eq", Num(123))]))];
    SelectorCast(outer, TNumber);
  }

  /** `{$in: [123]}` on a String field becomes `{$in: ['123']}`. */
  lemma InCast()
    ensures FilteredEntry(QuerySchema, "", Name("tags"), Obj([("$in", Arr([Num(123)]))]))
         == Ok(Obj([("$in", Arr([Str("123")]))]))
  {
    assert Join("", Name("tags")) == "tags";
    assert IntText(123) == "123";
    var op := Obj([("$in", Arr([Num(123)]))]);
    assert "$in" == ArraySelectors[0] && "$in" !in ComparisonSelectors && "$in" != "$not";
    assert QueryCast(Num(123), TString) == Ok(Str("123"));
    assert QueryElems(op, TString, 0) == Ok([]);
    assert [] + [Str("123")] == [Str("123")];
    assert QueryElems(op, TString, 1) == Ok([Str("123")]);
    assert [("$in", Arr([Str("123")]))] + op.fields[1..] == [("$in", Arr([Str("123")]))];
  }

  /** The three keys of a filter are each cast with their own declared type. */
  lemma FilterExample(id: string)
    ensures FilteredContainer(QuerySchema,
              Obj([("_id", Str(id)), ("test", Obj([("$not", Obj([("$eq", Str("123"))]))])),
                   ("tags", Obj([("$in", Arr([Num(123)]))]))]), "")
         == Ok(Obj([("_id", Inst("ObjectId", Str(id))), ("test", Obj([("$not", Obj([("$eq", Num(123))]))])),
                    ("tags", Obj([("$in", Arr([Str("123")]))]))]))
  {
    var f := Obj([("_id", Str(id)), ("test", Obj([("$not", Obj([("$eq", Str("123"))]))])),
                  ("tags", Obj([("$in", Arr([Num(123)]))]))]);
    IdWrapped(id);
    NotEqCast();
    InCast();
    var a := ("_id", Inst("ObjectId", Str(id)));
    var b := ("test", Obj([("$not", Obj([("$eq", Num(123))]))]));
    var c := ("tags", Obj([("$in", Arr([Str("123")]))]));
    FilteredFieldsNext(QuerySchema, f, "", 0, []);
    assert [] + [a] == [a];
    FilteredFieldsNext(QuerySchema, f, "", 1, [a]);
    assert [a] + [b] == [a, b];
    FilteredFieldsNext(QuerySchema, f, "", 2, [a, b]);
    assert [a, b] + [c] == [a, b, c];
  }

  /** A string that does not read as a number on a Number field aborts the cast. */
  lemma NotANumberThrows()
    ensures FilteredContainer(QuerySchema, Obj([("test", Str("not a number"))]), "")
         == Err(CouldNotCast(Str("not a number"), "Number"))
  {
    assert Join("", Name("test")) == "test";
    assert !AllDigits("not a number") by {
      assert !IsDigit("not a number"[0]);
    }
    assert ParseNumber("not a number") == None;
  }

  /** A logical operator is not a schema path, so its operands are left exactly
      as they are and nothing inside them is cast. */
  lemma LogicalOperatorUntouched(operands: Value)
    ensures FilteredContainer(QuerySchema, Obj([("$or", operands)]), "") == Ok(Obj([("$or", operands)]))
  {
    assert Join("", Name("$or")) == "$or";
    assert "$or"[0] == '$' && "_id"[0] == '_' && |"test"| == |"tags"| == 4;
    assert "$or" !in QuerySchema;
    FilteredFieldsNext(QuerySchema, Obj([("$or", operands)]), "", 0, []);
    assert [] + [("$or", operands)] == [("$or", operands)];
  }
}
