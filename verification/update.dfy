/** The fail-fast update caster (lib/update.js). */
module UpdateCasting {
  import opened Values
  import opened Common

  // ---- the traversal as functions ----

  /** `visitObject(obj, schema, path)`: the object after its keys have been
      pruned and cast in place, or the first error thrown. */
  function UpdatedObject(schema: Schema, v: Value, path: string): (r: Result<Value>)
    decreases v, Room(schema, path), Width(v) + 1
    ensures !IsObjectLike(v) ==> r == Err(CouldNotCast(v, "Object"))
    ensures v.Null? || v.Inst? ==> r == Ok(v)
    ensures v.Obj? && r.Ok? ==> r.value.Obj?
  {
    match v
    case Obj(fs) =>
      var out :- UpdatedFields(schema, v, path, |fs|);
      Ok(Obj(out))
    case Null => Ok(v)
    case Inst(_, _) => Ok(v)
    case _ => Err(CouldNotCast(v, "Object"))
  }

  /** The `_.each` of `visitObject` over the first `n` own keys of `obj`. */
  function UpdatedFields(schema: Schema, obj: Value, path: string, n: nat): Result<seq<(string, Value)>>
    requires obj.Obj? && n <= |obj.fields|
    decreases obj, Room(schema, path), n
  {
    if n == 0 then Ok([])
    else
      var done :- UpdatedFields(schema, obj, path, n - 1);
      UpdateFieldStep(schema, obj, path, n - 1, done)
  }

  /** The callback of `visitObject` on the `i`-th own key, the keys before it
      having left `done`. */
  function UpdateFieldStep(schema: Schema, obj: Value, path: string, i: nat, done: seq<(string, Value)>)
    : Result<seq<(string, Value)>>
    requires obj.Obj? && i < |obj.fields|
    decreases obj, Room(schema, path), 0
  {
    var key := obj.fields[i].0;
    var x := obj.fields[i].1;
    var p := Join(path, Name(key));
    if p !in schema then Ok(done)                                   // delete obj[key]
    else if schema[p].None? then Ok(done + [(key, x)])
    else if schema[p].value == TArray then
      var y :- UpdatedArray(schema, x, p);
      Ok(done + [(key, y)])
    else if schema[p].value == TObject then
      if x.Null? then Ok(done)                                      // delete obj[key]; visiting null does nothing
      else
        var y :- UpdatedObject(schema, x, p);
        Ok(done + [(key, y)])
    else
      var y :- HandleCast(x, schema[p].value);
      Ok(done + [(key, y)])
  }

  /** `visitArray(obj, key, path, schema)` on the value `x` of `obj[key]`,
      `curPath` being `join(path, key)`. Reading the `$type` of an absent
      `curPath.$` entry throws. */
  function UpdatedArray(schema: Schema, x: Value, curPath: string): (r: Result<Value>)
    decreases x, Room(schema, curPath), Width(x) + 1
    ensures Join(curPath, Name("$")) !in schema ==> r == Err(MissingElementEntry(Join(curPath, Name("$"))))
    ensures Join(curPath, Name("$")) in schema && schema[Join(curPath, Name("$"))].None? ==> r == Ok(x)
    ensures Typed(schema, Join(curPath, Name("$"))) && r.Ok? ==> r.value.Arr? && |r.value.elems| == |Elems(x)|
  {
    var newPath := Join(curPath, Name("$"));
    if newPath !in schema then Err(MissingElementEntry(newPath))
    else if schema[newPath].None? then Ok(x)
    else
      var out :- UpdatedElems(schema, x, curPath, |Elems(x)|);
      Ok(Arr(out))
  }

  /** The `forEach` of `visitArray` over the first `n` elements of `x`, a
      non-array `x` standing for `[x]`. */
  function UpdatedElems(schema: Schema, x: Value, curPath: string, n: nat): (r: Result<seq<Value>>)
    requires Typed(schema, Join(curPath, Name("$"))) && n <= |Elems(x)|
    decreases x, Room(schema, curPath), n
    ensures r.Ok? ==> |r.value| == n
  {
    if n == 0 then Ok([])
    else
      var done :- UpdatedElems(schema, x, curPath, n - 1);
      var y :- UpdatedElement(schema, x, curPath, n - 1);
      Ok(done + [y])
  }

  /** The callback of `visitArray` on element `i`: a nested array is visited
      one level deeper, an object is visited at `curPath.$`, and then the
      element is cast to the element type whatever it is. */
  function UpdatedElement(schema: Schema, x: Value, curPath: string, i: nat): Result<Value>
    requires Typed(schema, Join(curPath, Name("$"))) && i < |Elems(x)|
    decreases x, Room(schema, curPath), 0
  {
    var e := Elems(x)[i];
    var ep := ElementPath(schema, curPath, i);
    var t := schema[ep].value;
    if t == TArray then
      var z :- UpdatedArray(schema, e, ep);
      HandleCast(z, TArray)
    else if t == TObject then
      var z :- UpdatedObject(schema, e, ep);
      HandleCast(z, TObject)
    else HandleCast(e, t)
  }

  /** `join(curPath, index)` for element `i`: the typed `curPath.$`, with less
      room left below it than below `curPath`. */
  function ElementPath(schema: Schema, curPath: string, i: nat): (ep: string)
    requires Typed(schema, Join(curPath, Name("$")))
    ensures ep == Join(curPath, Name("$")) && Typed(schema, ep)
    ensures Room(schema, ep) < Room(schema, curPath)
  {
    JoinIndexIsWildcard(curPath, i);
    RoomShrinks(schema, curPath, Join(curPath, Index(i)));
    Join(curPath, Index(i))
  }

  // ---- castUpdate ----

  /** `key.charAt(0) === '$'`. */
  predicate IsOperator(key: string) {
    |key| > 0 && key[0] == '$'
  }

  /** The state of the classification loop of `castUpdate`: the update with
      the operands seen so far cast in place, `firstDollarKey` and
      `hasNonDollarKey`. */
  datatype Scan = Scan(fields: seq<(string, Value)>, dollarKey: Option<string>, hasPlainKey: bool)

  /** The classification loop over the first `n` top-level keys: an operator
      key is remembered and its operand visited as a document rooted at the
      field names; any other key sets the flag. */
  function Scanned(schema: Schema, update: seq<(string, Value)>, n: nat): Result<Scan>
    requires n <= |update|
  {
    if n == 0 then Ok(Scan([], None, false))
    else
      var s :- Scanned(schema, update, n - 1);
      var key := update[n - 1].0;
      if IsOperator(key) then
        var y :- UpdatedObject(schema, update[n - 1].1, "");
        Ok(Scan(s.fields + [(key, y)], Some(key), s.hasPlainKey))
      else Ok(Scan(s.fields + [update[n - 1]], s.dollarKey, true))
  }

  /** `castUpdate(update, schema, {overwrite})`. */
  function CastUpdated(schema: Schema, update: seq<(string, Value)>, overwrite: bool): Result<Value> {
    var s :- Scanned(schema, update, |update|);
    if s.dollarKey.Some? && s.hasPlainKey then Err(DollarFieldName(s.dollarKey.value))
    else if s.hasPlainKey then
      var u :- UpdatedObject(schema, Obj(s.fields), "");
      if overwrite then Ok(u) else Ok(Obj([("$set", u)]))
    else Ok(Obj(s.fields))
  }

  // ---- what the classification loop computes ----

  /** Some top-level key among the first `n` is a plain field name. */
  predicate HasPlainKey(update: seq<(string, Value)>, n: nat)
    requires n <= |update|
  {
    exists j :: 0 <= j < n && !IsOperator(update[j].0)
  }

  /** `m` is the last operator key among the first `n`. */
  predicate IsLastOperator(update: seq<(string, Value)>, n: nat, m: int)
    requires n <= |update|
  {
    0 <= m < n && IsOperator(update[m].0) && forall j :: m < j < n ==> !IsOperator(update[j].0)
  }

  /** The flags after `n` keys: a plain key was seen exactly when there is
      one, no operator is remembered exactly when there is none, and the one
      remembered is the last. */
  lemma {:induction false} ScannedFlags(schema: Schema, update: seq<(string, Value)>, n: nat)
    requires n <= |update| && Scanned(schema, update, n).Ok?
    ensures Scanned(schema, update, n).value.hasPlainKey <==> HasPlainKey(update, n)
    ensures Scanned(schema, update, n).value.dollarKey.None? <==> forall j :: 0 <= j < n ==> !IsOperator(update[j].0)
    ensures forall m :: IsLastOperator(update, n, m) ==> Scanned(schema, update, n).value.dollarKey == Some(update[m].0)
  {
    if n > 0 {
      ScannedFlags(schema, update, n - 1);
      var s := Scanned(schema, update, n - 1).value;
      var r := Scanned(schema, update, n).value;
      if IsOperator(update[n - 1].0) {
        assert r.dollarKey == Some(update[n - 1].0) && r.hasPlainKey == s.hasPlainKey;
        assert HasPlainKey(update, n) ==> HasPlainKey(update, n - 1) by {
          if HasPlainKey(update, n) {
            var j :| 0 <= j < n && !IsOperator(update[j].0);
            assert j < n - 1;
          }
        }
        forall m | IsLastOperator(update, n, m)
          ensures r.dollarKey == Some(update[m].0)
        {
          assert m == n - 1;
        }
      } else {
        assert r.dollarKey == s.dollarKey && r.hasPlainKey;
        assert !IsOperator(update[n - 1].0);
        forall m | IsLastOperator(update, n, m)
          ensures r.dollarKey == Some(update[m].0)
        {
          assert IsLastOperator(update, n - 1, m);
        }
      }
    }
  }

  /** What the loop does to the `j`-th top-level key: an operand is visited,
      a plain field is left for later. */
  function KeyOutcome(schema: Schema, update: seq<(string, Value)>, j: nat): Result<(string, Value)>
    requires j < |update|
  {
    if IsOperator(update[j].0) then
      var y :- UpdatedObject(schema, update[j].1, "");
      Ok((update[j].0, y))
    else Ok(update[j])
  }

  function KeyOutcomes(schema: Schema, update: seq<(string, Value)>, n: nat): (outs: seq<Result<(string, Value)>>)
    requires n <= |update|
    ensures |outs| == n
  {
    seq(n, j requires 0 <= j < n => KeyOutcome(schema, update, j))
  }

  lemma KeyOutcomesStep(schema: Schema, update: seq<(string, Value)>, n: nat)
    requires 0 < n <= |update|
    ensures KeyOutcomes(schema, update, n)[..n - 1] == KeyOutcomes(schema, update, n - 1)
    ensures KeyOutcomes(schema, update, n)[n - 1] == KeyOutcome(schema, update, n - 1)
  {
    assert KeyOutcomes(schema, update, n)[..n - 1] == KeyOutcomes(schema, update, n - 1);
  }

  /** The rewritten update is each key's outcome in order, stopping at the
      first operand that throws (see SequencedPositional). */
  lemma {:induction false} ScannedSequenced(schema: Schema, update: seq<(string, Value)>, n: nat)
    requires n <= |update|
    ensures Scanned(schema, update, n).Ok? <==> Sequenced(KeyOutcomes(schema, update, n)).Ok?
    ensures Scanned(schema, update, n).Ok? ==>
              Scanned(schema, update, n).value.fields == Sequenced(KeyOutcomes(schema, update, n)).value
    ensures Scanned(schema, update, n).Err? ==>
              Scanned(schema, update, n).error == Sequenced(KeyOutcomes(schema, update, n)).error
  {
    if n > 0 {
      ScannedSequenced(schema, update, n - 1);
      KeyOutcomesStep(schema, update, n);
    }
  }

  /** An update with both operator keys and plain keys, whose operands all
      cast, is rejected naming the LAST operator key. */
  lemma MixedUpdateRejected(schema: Schema, update: seq<(string, Value)>, overwrite: bool, m: nat, q: nat)
    requires IsLastOperator(update, |update|, m) && q < |update| && !IsOperator(update[q].0)
    requires forall j :: 0 <= j < |update| && IsOperator(update[j].0) ==> UpdatedObject(schema, update[j].1, "").Ok?
    ensures CastUpdated(schema, update, overwrite) == Err(DollarFieldName(update[m].0))
  {
    AllOperandsCast(schema, update);
    ScannedFlags(schema, update, |update|);
  }

  /** When every operand casts, the classification loop runs through. */
  lemma AllOperandsCast(schema: Schema, update: seq<(string, Value)>)
    requires forall j :: 0 <= j < |update| && IsOperator(update[j].0) ==> UpdatedObject(schema, update[j].1, "").Ok?
    ensures Scanned(schema, update, |update|).Ok?
  {
    var outs := KeyOutcomes(schema, update, |update|);
    ScannedSequenced(schema, update, |update|);
    SequencedPositional(outs);
    assert forall j :: 0 <= j < |outs| ==> outs[j] == KeyOutcome(schema, update, j);
  }

  /** The first operand that fails to cast decides the outcome: its error is
      thrown from inside the loop, before the mixed-form check is reached. */
  lemma FirstFailingOperandThrows(schema: Schema, update: seq<(string, Value)>, overwrite: bool, m: nat)
    requires m < |update| && IsOperator(update[m].0) && UpdatedObject(schema, update[m].1, "").Err?
    requires forall j :: 0 <= j < m && IsOperator(update[j].0) ==> UpdatedObject(schema, update[j].1, "").Ok?
    ensures CastUpdated(schema, update, overwrite) == Err(UpdatedObject(schema, update[m].1, "").error)
  {
    var outs := KeyOutcomes(schema, update, |update|);
    ScannedSequenced(schema, update, |update|);
    SequencedPositional(outs);
    assert outs[m] == KeyOutcome(schema, update, m);
    assert outs[m].Err?;
    var m' :| 0 <= m' < |outs| && outs[m'].Err? && Sequenced(outs).error == outs[m'].error
               && forall j :: 0 <= j < m' ==> outs[j].Ok?;
    assert outs[m'] == KeyOutcome(schema, update, m');
    if m' < m {
      assert false;
    }
  }

  /** An update made only of operators comes back as the same keys in the
      same order, each operand cast as a document rooted at the field names. */
  lemma OperatorUpdateCast(schema: Schema, update: seq<(string, Value)>, overwrite: bool)
    requires forall j :: 0 <= j < |update| ==> IsOperator(update[j].0)
    requires forall j :: 0 <= j < |update| ==> UpdatedObject(schema, update[j].1, "").Ok?
    ensures CastUpdated(schema, update, overwrite).Ok?
    ensures var r := CastUpdated(schema, update, overwrite).value;
            r.Obj? && |r.fields| == |update|
            && forall j :: 0 <= j < |update| ==>
                 r.fields[j] == (update[j].0, UpdatedObject(schema, update[j].1, "").value)
  {
    var outs := KeyOutcomes(schema, update, |update|);
    AllOperandsCast(schema, update);
    ScannedSequenced(schema, update, |update|);
    ScannedFlags(schema, update, |update|);
    SequencedPositional(outs);
    forall j | 0 <= j < |update|
      ensures outs[j] == KeyOutcome(schema, update, j)
    {
    }
    assert !HasPlainKey(update, |update|);
  }

  /** An update of plain fields only is visited as one document; it is
      wrapped as `{$set: update}` unless `overwrite` is set, and returned
      unwrapped when it is. */
  lemma PlainUpdateCast(schema: Schema, update: seq<(string, Value)>)
    requires |update| > 0 && forall j :: 0 <= j < |update| ==> !IsOperator(update[j].0)
    ensures CastUpdated(schema, update, true) == UpdatedObject(schema, Obj(update), "")
    ensures CastUpdated(schema, update, false)
         == if UpdatedObject(schema, Obj(update), "").Ok?
            then Ok(Obj([("$set", UpdatedObject(schema, Obj(update), "").value)]))
            else UpdatedObject(schema, Obj(update), "")
  {
    var outs := KeyOutcomes(schema, update, |update|);
    forall j | 0 <= j < |update|
      ensures outs[j] == Ok(update[j])
    {
      assert outs[j] == KeyOutcome(schema, update, j);
    }
    SequencedAllOk(outs, update);
    ScannedSequenced(schema, update, |update|);
    ScannedFlags(schema, update, |update|);
    assert HasPlainKey(update, |update|) by {
      assert !IsOperator(update[0].0);
    }
  }

  // ---- what happens to each key of a visited object ----

  /** The keys `visitObject` keeps: those the schema knows, except an
      Object-typed key holding `null`. */
  predicate Kept(schema: Schema, path: string, key: string, x: Value) {
    var p := Join(path, Name(key));
    p in schema && !(schema[p] == Some(TObject) && x.Null?)
  }

  predicate HasKey(fields: seq<(string, Value)>, key: string) {
    exists j :: 0 <= j < |fields| && fields[j].0 == key
  }

  /** The fate of the own key `key`, holding `x`, in the object `out` left by
      a `visitObject` that did not throw. */
  predicate UpdateFate(schema: Schema, path: string, key: string, x: Value, out: seq<(string, Value)>) {
    var p := Join(path, Name(key));
    if !Kept(schema, path, key, x) then !HasKey(out, key)              // deleted
    else if schema[p].None? then (key, x) in out                         // left alone
    else if schema[p].value == TArray then
      UpdatedArray(schema, x, p).Ok? && (key, UpdatedArray(schema, x, p).value) in out
    else if schema[p].value == TObject then
      UpdatedObject(schema, x, p).Ok? && (key, UpdatedObject(schema, x, p).value) in out
    else
      HandleCast(x, schema[p].value).Ok? && (key, HandleCast(x, schema[p].value).value) in out
  }

  /** One pass keeps what was there and appends at most the key it is given,
      exactly when that key is kept, settling its fate. */
  lemma UpdateFieldStepShape(schema: Schema, obj: Value, path: string, i: nat, done: seq<(string, Value)>)
    requires obj.Obj? && i < |obj.fields| && UpdateFieldStep(schema, obj, path, i, done).Ok?
    ensures var r := UpdateFieldStep(schema, obj, path, i, done).value;
            var key := obj.fields[i].0;
            && (!Kept(schema, path, key, obj.fields[i].1) ==> r == done)
            && (Kept(schema, path, key, obj.fields[i].1) ==>
                  |r| == |done| + 1 && r[..|done|] == done && r[|done|].0 == key
                  && UpdateFate(schema, path, key, obj.fields[i].1, [r[|done|]]))
  {
    var r := UpdateFieldStep(schema, obj, path, i, done).value;
    if Kept(schema, path, obj.fields[i].0, obj.fields[i].1) {
      assert r[..|done|] == done;
    }
  }

  /** A walk that did not throw went through every earlier key too, and
      only ever appended. */
  lemma {:induction false} UpdatedFieldsPrefix(schema: Schema, obj: Value, path: string, m: nat, n: nat)
    requires obj.Obj? && m <= n <= |obj.fields| && UpdatedFields(schema, obj, path, n).Ok?
    ensures UpdatedFields(schema, obj, path, m).Ok?
    ensures UpdatedFields(schema, obj, path, m).value <= UpdatedFields(schema, obj, path, n).value
    decreases n
  {
    if m < n {
      var done := UpdatedFields(schema, obj, path, n - 1);
      assert done.Ok?;
      UpdateFieldStepShape(schema, obj, path, n - 1, done.value);
      UpdatedFieldsPrefix(schema, obj, path, m, n - 1);
    }
  }

  /** A key none of whose occurrences among the first `n` is kept is not in the result. */
  lemma {:induction false} UpdatedFieldsOmits(schema: Schema, obj: Value, path: string, n: nat, key: string)
    requires obj.Obj? && n <= |obj.fields| && UpdatedFields(schema, obj, path, n).Ok?
    requires forall j :: 0 <= j < n && obj.fields[j].0 == key ==> !Kept(schema, path, key, obj.fields[j].1)
    ensures !HasKey(UpdatedFields(schema, obj, path, n).value, key)
  {
    if n > 0 {
      var done := UpdatedFields(schema, obj, path, n - 1);
      assert done.Ok?;
      UpdatedFieldsOmits(schema, obj, path, n - 1, key);
      UpdateFieldStepShape(schema, obj, path, n - 1, done.value);
      var r := UpdatedFields(schema, obj, path, n).value;
      if r != done.value {
        forall j | 0 <= j < |r|
          ensures r[j].0 != key
        {
          if j < |done.value| {
            assert r[j] == r[..|done.value|][j];
          }
        }
      }
    }
  }

  /** `visitObject` on an object with distinct keys, when it does not throw:
      unknown keys and null Object-typed keys are deleted, untyped keys are
      left alone, nested values are replaced by their visit and leaves by
      their cast. */
  lemma UpdateKeyFate(schema: Schema, v: Value, path: string, m: nat)
    requires v.Obj? && DistinctKeys(v.fields) && m < |v.fields| && UpdatedObject(schema, v, path).Ok?
    ensures UpdateFate(schema, path, v.fields[m].0, v.fields[m].1, UpdatedObject(schema, v, path).value.fields)
  {
    var n := |v.fields|;
    var key := v.fields[m].0;
    var out := UpdatedObject(schema, v, path).value.fields;
    assert out == UpdatedFields(schema, v, path, n).value;
    UpdatedFieldsPrefix(schema, v, path, m, n);
    UpdatedFieldsPrefix(schema, v, path, m + 1, n);
    var done := UpdatedFields(schema, v, path, m).value;
    var after := UpdatedFields(schema, v, path, m + 1).value;
    UpdateFieldStepShape(schema, v, path, m, done);
    if Kept(schema, path, key, v.fields[m].1) {
      assert after[m - m + |done|] == out[|done|];
      assert out[|done|] == after[|done|];
    } else {
      UpdatedFieldsOmits(schema, v, path, n, key);
    }
  }

  // ---- what happens to each element of a visited array ----

  /** The callback of `visitArray` settles element `i`: a nested array is its
      own visit (or the cast of the element when its element type is left
      open), an object is its visit with `null` becoming `{}`, and a leaf is
      its cast; whatever succeeds has the element type. */
  lemma UpdatedElementFate(schema: Schema, x: Value, curPath: string, i: nat)
    requires Typed(schema, Join(curPath, Name("$"))) && i < |Elems(x)|
    ensures var e := Elems(x)[i];
            var ep := Join(curPath, Name("$"));
            var inner := Join(ep, Name("$"));
            var t := schema[ep].value;
            var r := UpdatedElement(schema, x, curPath, i);
            && (t == TArray && Typed(schema, inner) ==> r == UpdatedArray(schema, e, ep))
            && (t == TArray && inner in schema && schema[inner].None? ==> r == HandleCast(e, TArray))
            && (t == TArray && inner !in schema ==> r == Err(MissingElementEntry(inner)))
            && (t == TObject ==> r == if e.Null? then Ok(Obj([])) else UpdatedObject(schema, e, ep))
            && (t != TArray && t != TObject ==> r == HandleCast(e, t))
            && (r.Ok? ==> Conforms(r.value, t))
  {
    var e := Elems(x)[i];
    var ep := ElementPath(schema, curPath, i);
    var t := schema[ep].value;
    if t == TObject && e.Obj? && UpdatedObject(schema, e, ep).Ok? {
      assert InstanceOf(UpdatedObject(schema, e, ep).value, TObject);
    }
  }

  function UpdatedElementOutcomes(schema: Schema, x: Value, curPath: string, n: nat): (outs: seq<Result<Value>>)
    requires Typed(schema, Join(curPath, Name("$"))) && n <= |Elems(x)|
    ensures |outs| == n
  {
    seq(n, j requires 0 <= j < n => UpdatedElement(schema, x, curPath, j))
  }

  lemma UpdatedElementOutcomesStep(schema: Schema, x: Value, curPath: string, n: nat)
    requires Typed(schema, Join(curPath, Name("$"))) && 0 < n <= |Elems(x)|
    ensures UpdatedElementOutcomes(schema, x, curPath, n)[..n - 1] == UpdatedElementOutcomes(schema, x, curPath, n - 1)
    ensures UpdatedElementOutcomes(schema, x, curPath, n)[n - 1] == UpdatedElement(schema, x, curPath, n - 1)
  {
    assert UpdatedElementOutcomes(schema, x, curPath, n)[..n - 1] == UpdatedElementOutcomes(schema, x, curPath, n - 1);
  }

  /** The walk over the elements is each element's callback run in order,
      stopping at the first that throws. */
  lemma {:induction false} UpdatedElemsSequenced(schema: Schema, x: Value, curPath: string, n: nat)
    requires Typed(schema, Join(curPath, Name("$"))) && n <= |Elems(x)|
    ensures UpdatedElems(schema, x, curPath, n) == Sequenced(UpdatedElementOutcomes(schema, x, curPath, n))
  {
    if n > 0 {
      UpdatedElemsSequenced(schema, x, curPath, n - 1);
      UpdatedElementOutcomesStep(schema, x, curPath, n);
      SequencedSnoc(UpdatedElementOutcomes(schema, x, curPath, n), UpdatedElementOutcomes(schema, x, curPath, n - 1),
                    UpdatedElement(schema, x, curPath, n - 1));
      UpdatedElemsUnfold(schema, x, curPath, n);
    }
  }

  lemma UpdatedElemsUnfold(schema: Schema, x: Value, curPath: string, n: nat)
    requires Typed(schema, Join(curPath, Name("$"))) && 0 < n <= |Elems(x)|
    ensures UpdatedElems(schema, x, curPath, n)
         == if UpdatedElems(schema, x, curPath, n - 1).Err? then Err(UpdatedElems(schema, x, curPath, n - 1).error)
            else if UpdatedElement(schema, x, curPath, n - 1).Err? then Err(UpdatedElement(schema, x, curPath, n - 1).error)
            else Ok(UpdatedElems(schema, x, curPath, n - 1).value + [UpdatedElement(schema, x, curPath, n - 1).value])
  {
  }

  /** `visitArray` on a typed array is its element callbacks run in order:
      the array of their results when all succeed, otherwise the error of
      the first that throws (see SequencedPositional). */
  lemma UpdatedArraySequenced(schema: Schema, x: Value, curPath: string)
    requires Typed(schema, Join(curPath, Name("$")))
    ensures Sequenced(UpdatedElementOutcomes(schema, x, curPath, |Elems(x)|)).Ok? ==>
              UpdatedArray(schema, x, curPath) == Ok(Arr(Sequenced(UpdatedElementOutcomes(schema, x, curPath, |Elems(x)|)).value))
    ensures Sequenced(UpdatedElementOutcomes(schema, x, curPath, |Elems(x)|)).Err? ==>
              UpdatedArray(schema, x, curPath) == Err(Sequenced(UpdatedElementOutcomes(schema, x, curPath, |Elems(x)|)).error)
  {
    var res := UpdatedElems(schema, x, curPath, |Elems(x)|);
    assert UpdatedArray(schema, x, curPath) == if res.Err? then Err(res.error) else Ok(Arr(res.value));
    UpdatedElemsSequenced(schema, x, curPath, |Elems(x)|);
  }

  // ---- the casts as the source runs them ----

  /** `visitObject`: throws on a value that is not an object, then prunes and
      casts each own key in turn, throwing on the first failure. */
  method VisitObject(schema: Schema, v: Value, path: string) returns (r: Result<Value>)
    decreases v, Room(schema, path), 3
    ensures r == UpdatedObject(schema, v, path)
  {
    if !IsObjectLike(v) {
      return Err(CouldNotCast(v, "Object"));
    }
    if !v.Obj? {
      return Ok(v);
    }
    var kept: seq<(string, Value)> := [];
    var i := 0;
    while i < |v.fields|
      invariant 0 <= i <= |v.fields|
      invariant UpdatedFields(schema, v, path, i) == Ok(kept)
    {
      var next := FieldPass(schema, v, path, i, kept);
      if next.Err? {
        UpdatedFieldsFailureFinal(schema, v, path, i + 1, |v.fields|);
        return Err(next.error);
      }
      kept := next.value;
      i := i + 1;
    }
    return Ok(Obj(kept));
  }

  /** The callback of `visitObject` for the `i`-th key. */
  method FieldPass(schema: Schema, v: Value, path: string, i: nat, kept: seq<(string, Value)>)
      returns (r: Result<seq<(string, Value)>>)
    requires v.Obj? && i < |v.fields|
    decreases v, Room(schema, path), 1
    ensures r == UpdateFieldStep(schema, v, path, i, kept)
  {
    var key := v.fields[i].0;
    var x := v.fields[i].1;
    var p := Join(path, Name(key));
    if p !in schema {
      return Ok(kept);
    }
    if schema[p].None? {
      return Ok(kept + [(key, x)]);
    }
    var t := schema[p].value;
    if t == TArray {
      var y := VisitArray(schema, x, p);
      if y.Err? {
        return Err(y.error);
      }
      return Ok(kept + [(key, y.value)]);
    } else if t == TObject {
      if x.Null? {
        return Ok(kept);
      }
      var y := VisitObject(schema, x, p);
      if y.Err? {
        return Err(y.error);
      }
      return Ok(kept + [(key, y.value)]);
    }
    var y := HandleCast(x, t);
    if y.Err? {
      return Err(y.error);
    }
    return Ok(kept + [(key, y.value)]);
  }

  lemma {:induction false} UpdatedFieldsFailureFinal(schema: Schema, obj: Value, path: string, n: nat, m: nat)
    requires obj.Obj? && n <= m <= |obj.fields| && UpdatedFields(schema, obj, path, n).Err?
    ensures UpdatedFields(schema, obj, path, m) == Err(UpdatedFields(schema, obj, path, n).error)
    decreases m
  {
    if m > n {
      UpdatedFieldsFailureFinal(schema, obj, path, n, m - 1);
    }
  }

  /** What the callback on the `i`-th own key contributes: nothing for a
      deleted key, the key with its kept, visited or cast value otherwise,
      or the error it throws. */
  function FieldContribution(schema: Schema, obj: Value, path: string, i: nat): Result<seq<(string, Value)>>
    requires obj.Obj? && i < |obj.fields|
  {
    UpdateFieldStep(schema, obj, path, i, [])
  }

  function FieldContributions(schema: Schema, obj: Value, path: string, n: nat)
    : (outs: seq<Result<seq<(string, Value)>>>)
    requires obj.Obj? && n <= |obj.fields|
    ensures |outs| == n
  {
    seq(n, j requires 0 <= j < n => FieldContribution(schema, obj, path, j))
  }

  lemma FieldContributionsStep(schema: Schema, obj: Value, path: string, n: nat)
    requires obj.Obj? && 0 < n <= |obj.fields|
    ensures FieldContributions(schema, obj, path, n)[..n - 1] == FieldContributions(schema, obj, path, n - 1)
    ensures FieldContributions(schema, obj, path, n)[n - 1] == FieldContribution(schema, obj, path, n - 1)
  {
    assert FieldContributions(schema, obj, path, n)[..n - 1] == FieldContributions(schema, obj, path, n - 1);
  }

  /** A key's callback throws or not whatever the keys before it left, and
      otherwise appends its contribution to them. */
  lemma UpdateFieldStepAppends(schema: Schema, obj: Value, path: string, i: nat, done: seq<(string, Value)>)
    requires obj.Obj? && i < |obj.fields|
    ensures UpdateFieldStep(schema, obj, path, i, done)
         == if FieldContribution(schema, obj, path, i).Err? then Err(FieldContribution(schema, obj, path, i).error)
            else Ok(done + FieldContribution(schema, obj, path, i).value)
  {
    var key := obj.fields[i].0;
    var p := Join(path, Name(key));
    var none: seq<(string, Value)> := [];
    assert done + none == done;
    forall y: Value
      ensures none + [(key, y)] == [(key, y)]
    {
    }
  }

  /** The key loop of `visitObject` runs each key's callback in order: it
      succeeds exactly when every key does, with the keys' contributions
      concatenated in input order, and otherwise throws the first failing
      key's error. */
  lemma {:induction false} UpdatedFieldsSequenced(schema: Schema, obj: Value, path: string, n: nat)
    requires obj.Obj? && n <= |obj.fields|
    ensures UpdatedFields(schema, obj, path, n)
         == if Sequenced(FieldContributions(schema, obj, path, n)).Err?
            then Err(Sequenced(FieldContributions(schema, obj, path, n)).error)
            else Ok(Concat(Sequenced(FieldContributions(schema, obj, path, n)).value))
  {
    if n > 0 {
      UpdatedFieldsSequenced(schema, obj, path, n - 1);
      FieldContributionsStep(schema, obj, path, n);
      var prev := Sequenced(FieldContributions(schema, obj, path, n - 1));
      var last := FieldContribution(schema, obj, path, n - 1);
      SequencedSnoc(FieldContributions(schema, obj, path, n), FieldContributions(schema, obj, path, n - 1), last);
      if prev.Ok? {
        UpdateFieldStepAppends(schema, obj, path, n - 1, Concat(prev.value));
        if last.Ok? {
          var parts := prev.value + [last.value];
          assert parts[..|parts| - 1] == prev.value;
          assert Concat(parts) == Concat(prev.value) + last.value;
        }
      }
    }
  }

  /** `visitArray`: throws when the element entry is absent, leaves the value
      alone when it is untyped, and otherwise promotes it and visits and
      casts each element in turn. */
  method VisitArray(schema: Schema, x: Value, curPath: string) returns (r: Result<Value>)
    decreases x, Room(schema, curPath), 3
    ensures r == UpdatedArray(schema, x, curPath)
  {
    var newPath := Join(curPath, Name("$"));
    if newPath !in schema {
      return Err(MissingElementEntry(newPath));
    }
    if schema[newPath].None? {
      return Ok(x);
    }
    var out := VisitElements(schema, x, curPath);
    if out.Err? {
      return Err(out.error);
    }
    return Ok(Arr(out.value));
  }

  /** The `forEach` of `visitArray` over the promoted value. */
  method VisitElements(schema: Schema, x: Value, curPath: string) returns (r: Result<seq<Value>>)
    requires Typed(schema, Join(curPath, Name("$")))
    decreases x, Room(schema, curPath), 2
    ensures r == UpdatedElems(schema, x, curPath, |Elems(x)|)
  {
    var arr := Elems(x);  // obj[key] = [arr] unless an array
    var done: seq<Value> := [];
    for i := 0 to |arr|
      invariant UpdatedElems(schema, x, curPath, i) == Ok(done)
    {
      var y := ElemPass(schema, x, curPath, i);
      if y.Err? {
        UpdatedElemsStopAt(schema, x, curPath, i, done, y);
        return Err(y.error);
      }
      UpdatedElemsNext(schema, x, curPath, i, done, y);
      done := done + [y.value];
    }
    return Ok(done);
  }

  /** One more element: the walk goes on with its cast value, or stops with its error. */
  lemma UpdatedElemsNext(schema: Schema, x: Value, curPath: string, i: nat, done: seq<Value>, y: Result<Value>)
    requires Typed(schema, Join(curPath, Name("$"))) && i < |Elems(x)|
    requires UpdatedElems(schema, x, curPath, i) == Ok(done) && y == UpdatedElement(schema, x, curPath, i)
    ensures UpdatedElems(schema, x, curPath, i + 1) == if y.Ok? then Ok(done + [y.value]) else Err(y.error)
  {
  }

  /** An element that throws ends the walk with its error. */
  lemma UpdatedElemsStopAt(schema: Schema, x: Value, curPath: string, i: nat, done: seq<Value>, y: Result<Value>)
    requires Typed(schema, Join(curPath, Name("$"))) && i < |Elems(x)|
    requires UpdatedElems(schema, x, curPath, i) == Ok(done) && y == UpdatedElement(schema, x, curPath, i) && y.Err?
    ensures UpdatedElems(schema, x, curPath, |Elems(x)|) == Err(y.error)
  {
    UpdatedElemsNext(schema, x, curPath, i, done, y);
    UpdatedElemsFailureFinal(schema, x, curPath, i + 1, |Elems(x)|);
  }

  /** The callback of `visitArray` for element `i`. */
  method ElemPass(schema: Schema, x: Value, curPath: string, i: nat) returns (r: Result<Value>)
    requires Typed(schema, Join(curPath, Name("$"))) && i < |Elems(x)|
    decreases x, Room(schema, curPath), 1
    ensures r == UpdatedElement(schema, x, curPath, i)
  {
    var e := Elems(x)[i];
    var ep := ElementPath(schema, curPath, i);
    var t := schema[ep].value;
    if t == TArray {
      var z := VisitArray(schema, e, ep);
      if z.Err? {
        return Err(z.error);
      }
      r := HandleCast(z.value, TArray);
    } else if t == TObject {
      var z := VisitObject(schema, e, ep);
      if z.Err? {
        return Err(z.error);
      }
      r := HandleCast(z.value, TObject);
    } else {
      r := HandleCast(e, t);
    }
  }

  lemma {:induction false} UpdatedElemsFailureFinal(schema: Schema, x: Value, curPath: string, n: nat, m: nat)
    requires Typed(schema, Join(curPath, Name("$"))) && n <= m <= |Elems(x)|
    requires UpdatedElems(schema, x, curPath, n).Err?
    ensures UpdatedElems(schema, x, curPath, m) == Err(UpdatedElems(schema, x, curPath, n).error)
    decreases m
  {
    if m > n {
      UpdatedElemsFailureFinal(schema, x, curPath, n, m - 1);
    }
  }

  /** `castUpdate`: the classification loop, the mixed-form check, and the
      visit and wrapping of a plain-field update. */
  method CastUpdate(schema: Schema, update: seq<(string, Value)>, overwrite: bool) returns (r: Result<Value>)
    ensures r == CastUpdated(schema, update, overwrite)
  {
    var hasNonDollarKey := false;
    var firstDollarKey: Option<string> := None;
    var fields: seq<(string, Value)> := [];
    var i := 0;
    while i < |update|
      invariant 0 <= i <= |update|
      invariant Scanned(schema, update, i) == Ok(Scan(fields, firstDollarKey, hasNonDollarKey))
    {
      var key := update[i].0;
      if IsOperator(key) {
        firstDollarKey := Some(key);
        var y := VisitObject(schema, update[i].1, "");
        if y.Err? {
          ScannedFailureFinal(schema, update, i + 1, |update|);
          return Err(y.error);
        }
        fields := fields + [(key, y.value)];
      } else {
        hasNonDollarKey := true;
        fields := fields + [update[i]];
      }
      i := i + 1;
    }
    if firstDollarKey.Some? && hasNonDollarKey {
      return Err(DollarFieldName(firstDollarKey.value));
    }
    if hasNonDollarKey {
      var u := VisitObject(schema, Obj(fields), "");
      if u.Err? {
        return Err(u.error);
      }
      if !overwrite {
        return Ok(Obj([("$set", u.value)]));
      }
      return Ok(u.value);
    }
    return Ok(Obj(fields));
  }

  lemma {:induction false} ScannedFailureFinal(schema: Schema, update: seq<(string, Value)>, n: nat, m: nat)
    requires n <= m <= |update| && Scanned(schema, update, n).Err?
    ensures Scanned(schema, update, m) == Err(Scanned(schema, update, n).error)
    decreases m
  {
    if m > n {
      ScannedFailureFinal(schema, update, n, m - 1);
    }
  }

  // ---- worked examples ----

  /** A schema with a Number `test` and a String `tags`. */
  const UpdateSchema: Schema := map["test" := Some(TNumber), "tags" := Some(TString)]

  /** `{$set: {tags: 123}, $inc: {test: '1'}}` becomes
      `{$set: {tags: '123'}, $inc: {test: 1}}`: each operand is cast against
      the field names, whichever operator holds it. */
  lemma OperatorsCast()
    ensures CastUpdated(UpdateSchema, [("$set", Obj([("tags", Num(123))])), ("$inc", Obj([("test", Str("1"))]))], false)
         == Ok(Obj([("$set", Obj([("tags", Str("123"))])), ("$inc", Obj([("test", Num(1))]))]))
  {
    var update := [("$set", Obj([("tags", Num(123))])), ("$inc", Obj([("test", Str("1"))]))];
    SetOperandCast();
    IncOperandCast();
    assert IsOperator(update[0].0) && IsOperator(update[1].0);
    OperatorUpdateCast(UpdateSchema, update, false);
    var r := CastUpdated(UpdateSchema, update, false).value;
    assert r.fields[0] == ("$set", Obj([("tags", Str("123"))]));
    assert r.fields[1] == ("$inc", Obj([("test", Num(1))]));
    assert r.fields == [("$set", Obj([("tags", Str("123"))])), ("$inc", Obj([("test", Num(1))]))];
  }

  lemma SetOperandCast()
    ensures UpdatedObject(UpdateSchema, Obj([("tags", Num(123))]), "") == Ok(Obj([("tags", Str("123"))]))
  {
    assert Join("", Name("tags")) == "tags";
    assert IntText(123) == "123";
    assert UpdatedFields(UpdateSchema, Obj([("tags", Num(123))]), "", 0) == Ok([]);
    assert [] + [("tags", Str("123"))] == [("tags", Str("123"))];
  }

  lemma IncOperandCast()
    ensures UpdatedObject(UpdateSchema, Obj([("test", Str("1"))]), "") == Ok(Obj([("test", Num(1))]))
  {
    assert Join("", Name("test")) == "test";
    assert ParseDigits("1") == 1 by {
      assert "1"[..0] == "";
    }
    assert UpdatedFields(UpdateSchema, Obj([("test", Str("1"))]), "", 0) == Ok([]);
    assert [] + [("test", Num(1))] == [("test", Num(1))];
  }

  /** A plain-field update whose Number field does not read as a number throws. */
  lemma PlainNotANumberThrows(overwrite: bool)
    ensures CastUpdated(UpdateSchema, [("test", Str("not a number"))], overwrite)
         == Err(CouldNotCast(Str("not a number"), "Number"))
  {
    var update := [("test", Str("not a number"))];
    assert Join("", Name("test")) == "test";
    assert !AllDigits("not a number") by {
      assert !IsDigit("not a number"[0]);
    }
    assert ParseNumber("not a number") == None;
    assert UpdatedFields(UpdateSchema, Obj(update), "", 0) == Ok([]);
    PlainUpdateCast(UpdateSchema, update);
  }

  /** A schema declaring `tags` as an array without an entry for its elements. */
  const BareArraySchema: Schema := map["tags" := Some(TArray)]

  /** Visiting an Array-typed field whose `tags.$` entry is absent throws. */
  lemma MissingElementEntryThrows(x: Value)
    ensures UpdatedObject(BareArraySchema, Obj([("tags", x)]), "") == Err(MissingElementEntry("tags.$"))
  {
    assert Join("", Name("tags")) == "tags";
    assert Join("tags", Name("$")) == "tags.$";
    assert "tags.$" !in BareArraySchema by {
      assert "tags.$" != "tags";
    }
    assert UpdatedArray(BareArraySchema, x, "tags") == Err(MissingElementEntry("tags.$"));
    assert UpdateFieldStep(BareArraySchema, Obj([("tags", x)]), "", 0, []) == Err(MissingElementEntry("tags.$"));
    assert UpdatedFields(BareArraySchema, Obj([("tags", x)]), "", 0) == Ok([]);
  }
}
