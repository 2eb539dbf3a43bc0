/** The accumulating document caster (lib/document.js).

    `realPathToSchemaPath` (imported at lib/document.js:8) is not exported by
    lib/common.js, so as written its calls at lib/document.js:19 and :81 throw
    a TypeError on every array and every object visited. It is taken as the
    identity, since `join` already writes every array level as `$`. The
    undefined `realPath` at lib/document.js:57 is taken as `path` (see
    ArrayLeafErrorPath). */
module DocumentCasting {
  import opened Values
  import opened Common
  import opened CastErrors

  /** `{value, error}` as `visitObject` and `visitArray` return it, with the
      aggregate's contents in place of the aggregate (`null` when empty). */
  datatype Visit = Visit(value: Value, errors: Errors)

  /** The object's surviving keys and the entries recorded so far. */
  datatype FieldsVisit = FieldsVisit(fields: seq<(string, Value)>, errors: Errors)

  /** The array's elements so far and the entries recorded so far. */
  datatype ElemsVisit = ElemsVisit(elems: seq<Value>, errors: Errors)

  /** `key` equals `path` or lies below it. */
  predicate Below(path: string, key: string) {
    path == "" || key == path || (|key| > |path| && key[..|path|] == path && key[|path|] == '.')
  }

  /** Every recorded path lies below `path`. */
  predicate AllBelow(path: string, e: Errors) {
    forall k :: k in e.entries ==> Below(path, k)
  }

  /** Every recorded error is an object-shape failure. */
  predicate OnlyShapeErrors(e: Errors) {
    forall k :: k in e.entries ==> e.entries[k].CouldNotCast? && e.entries[k].typeName == "Object"
  }

  /** What a visit of `path` may leave in its aggregate: a well-formed set of
      entries, all below `path`, and with `skipCast` only shape failures. */
  ghost predicate Sound(path: string, skip: bool, e: Errors) {
    WellFormed(e) && AllBelow(path, e) && (skip ==> OnlyShapeErrors(e))
  }

  predicate HasKey(fields: seq<(string, Value)>, key: string) {
    exists j :: 0 <= j < |fields| && fields[j].0 == key
  }

  /** The keys of `fields`, in order. */
  function KeysOf(fields: seq<(string, Value)>): (keys: seq<string>)
    ensures |keys| == |fields|
  {
    seq(|fields|, j requires 0 <= j < |fields| => fields[j].0)
  }

  /** A path lies below the one it was joined onto. */
  lemma BelowJoinSelf(path: string, seg: Segment)
    ensures Below(path, Join(path, seg))
  {
    JoinParts(path, seg);
  }

  lemma BelowJoin(path: string, seg: Segment, e: Errors)
    requires AllBelow(Join(path, seg), e)
    ensures AllBelow(path, e)
  {
    forall k | k in e.entries
      ensures Below(path, k)
    {
      var q := Join(path, seg);
      JoinParts(path, seg);
      if path != "" && k != q {
        assert k[..|q|] == q;
        assert k[..|path|] == q[..|path|];
      }
    }
  }

  /** A child visit's sound aggregate, merged into a sound one, keeps it sound. */
  lemma MergeSound(path: string, seg: Segment, skip: bool, acc: Errors, child: Errors)
    requires Sound(path, skip, acc) && Sound(Join(path, seg), skip, child)
    ensures Sound(path, skip, MergeErrors(acc, child))
  {
    BelowJoin(path, seg, child);
    MergeEntries(acc, child);
  }

  /** Recording a failure below `path` keeps the aggregate sound. */
  lemma RecordSound(path: string, skip: bool, acc: Errors, p: string, err: Error)
    requires Sound(path, skip, acc) && Below(path, p)
    requires skip ==> err.CouldNotCast? && err.typeName == "Object"
    ensures Sound(path, skip, WithError(acc, p, err))
  {
    WithErrorWellFormed(acc, p, err);
  }

  /** The path `visitArray` records a failed element under: `join(path, index)`,
      which is `path.$`. As written the code reads the undefined `realPath`
      there (see ArrayLeafErrorPathAsWritten). */
  function ArrayLeafErrorPath(path: string, index: nat): (p: string)
    ensures p == Join(path, Name("$"))
  {
    JoinIndexIsWildcard(path, index);
    Join(path, Index(index))
  }

  /** lib/document.js:57 as written: evaluating `join(realPath, index, true)`
      throws, because no `realPath` is in scope, so the `catch` handler itself
      throws and the leaf failure escapes `castDocument` instead of being recorded. */
  function ArrayLeafErrorPathAsWritten(path: string, index: nat): (r: Result<string>)
    ensures r.Err? && r.error == ReferenceError("realPath")
  {
    Err(ReferenceError("realPath"))
  }

  /** The discrepancy: as written, no failing element is ever recorded under its path. */
  lemma ArrayLeafErrorPathAsWrittenNeverRecords(path: string, index: nat)
    ensures ArrayLeafErrorPathAsWritten(path, index) != Ok(ArrayLeafErrorPath(path, index))
  {
  }

  // ---- the traversal as functions ----

  /** `visitObject(v, schema, path, skipCast)`. */
  function VisitedObject(schema: Schema, v: Value, path: string, skip: bool): (r: Visit)
    decreases v, Room(schema, path), Width(v) + 1
    ensures !IsObjectLike(v) ==> r.value == Null && r.errors.entries == map[path := CouldNotCast(v, "Object")]
    ensures v.Null? || v.Inst? ==> r == Visit(v, NoErrors)
    ensures v.Obj? ==> r.value.Obj?
  {
    match v
    case Obj(fs) =>
      var res := VisitedFields(schema, v, path, skip, |fs|);
      Visit(Obj(res.fields), res.errors)
    case Null => Visit(Null, NoErrors)
    case Inst(_, _) => Visit(v, NoErrors)
    case _ => Visit(Null, WithError(NoErrors, path, CouldNotCast(v, "Object")))
  }

  /** The loop of `visitObject` over the first `n` own keys of `obj`. */
  function VisitedFields(schema: Schema, obj: Value, path: string, skip: bool, n: nat): FieldsVisit
    requires obj.Obj? && n <= |obj.fields|
    decreases obj, Room(schema, path), n
  {
    if n == 0 then FieldsVisit([], NoErrors)
    else FieldStep(schema, obj, path, skip, n - 1, VisitedFields(schema, obj, path, skip, n - 1))
  }

  /** One pass of the `_.each` callback of `visitObject`, on the `i`-th own key. */
  function FieldStep(schema: Schema, obj: Value, path: string, skip: bool, i: nat, acc: FieldsVisit): FieldsVisit
    requires obj.Obj? && i < |obj.fields|
    decreases obj, Room(schema, path), 0
  {
    var key := obj.fields[i].0;
    var x := obj.fields[i].1;
    var p := Join(path, Name(key));
    if p !in schema then acc
    else if schema[p].None? then FieldsVisit(acc.fields + [(key, x)], acc.errors)
    else if schema[p].value == TArray then
      var res := VisitedArray(schema, x, p, skip);
      FieldsVisit(acc.fields + [(key, res.value)], MergeErrors(acc.errors, res.errors))
    else if schema[p].value == TObject then
      if x.Null? then acc
      else
        var res := VisitedObject(schema, x, p, skip);
        FieldsVisit(acc.fields + [(key, res.value)], MergeErrors(acc.errors, res.errors))
    else if skip then FieldsVisit(acc.fields + [(key, x)], acc.errors)
    else
      match HandleCast(x, schema[p].value)
      case Ok(y) => FieldsVisit(acc.fields + [(key, y)], acc.errors)
      case Err(e) => FieldsVisit(acc.fields + [(key, x)], WithError(acc.errors, p, e))
  }

  /** `visitArray(x, schema, path, skipCast)`. */
  function VisitedArray(schema: Schema, x: Value, path: string, skip: bool): (r: Visit)
    decreases x, Room(schema, path), Width(x) + 1
    ensures !Typed(schema, Join(path, Name("$"))) ==> r == Visit(x, NoErrors)
    ensures Typed(schema, Join(path, Name("$"))) ==> r.value.Arr? && |r.value.elems| == |Elems(x)|
  {
    if !Typed(schema, Join(path, Name("$"))) then Visit(x, NoErrors)
    else
      var res := VisitedElems(schema, x, path, skip, |Elems(x)|);
      Visit(Arr(res.elems), res.errors)
  }

  /** The `forEach` of `visitArray` over the first `n` elements of `x`, a
      non-array `x` standing for `[x]`. */
  function VisitedElems(schema: Schema, x: Value, path: string, skip: bool, n: nat): (r: ElemsVisit)
    requires Typed(schema, Join(path, Name("$"))) && n <= |Elems(x)|
    decreases x, Room(schema, path), n
    ensures |r.elems| == n
  {
    if n == 0 then ElemsVisit([], NoErrors)
    else ElemStep(schema, x, path, skip, n - 1, VisitedElems(schema, x, path, skip, n - 1))
  }

  /** One pass of the `forEach` callback of `visitArray`, on element `i`. */
  function ElemStep(schema: Schema, x: Value, path: string, skip: bool, i: nat, acc: ElemsVisit): (r: ElemsVisit)
    requires Typed(schema, Join(path, Name("$"))) && i < |Elems(x)|
    decreases x, Room(schema, path), 0
    ensures |r.elems| == |acc.elems| + 1
  {
    var e := Elems(x)[i];
    var ep := ElementPath(schema, x, path, i);
    var t := schema[ep].value;
    if t == TArray then
      var res := VisitedArray(schema, e, ep, skip);
      ElemsVisit(acc.elems + [res.value], MergeErrors(acc.errors, res.errors))
    else if t == TObject then
      var res := VisitedObject(schema, e, ep, skip);
      ElemsVisit(acc.elems + [res.value], MergeErrors(acc.errors, res.errors))
    else if skip then ElemsVisit(acc.elems + [e], acc.errors)
    else
      match HandleCast(e, t)
      case Ok(y) => ElemsVisit(acc.elems + [y], acc.errors)
      case Err(err) => ElemsVisit(acc.elems + [e], WithError(acc.errors, ArrayLeafErrorPath(path, i), err))
  }

  /** `join(path, index)` for element `i`: the typed `path.$`, with less room
      left below it than below `path`. */
  function ElementPath(schema: Schema, x: Value, path: string, i: nat): (ep: string)
    requires Typed(schema, Join(path, Name("$")))
    ensures ep == Join(path, Name("$")) && Typed(schema, ep)
    ensures Room(schema, ep) < Room(schema, path)
  {
    JoinIndexIsWildcard(path, i);
    RoomShrinks(schema, path, Join(path, Index(i)));
    Join(path, Index(i))
  }

  // ---- what every visit records ----

  /** Every visit leaves a sound aggregate: well formed, every recorded path
      below the visited one, and with `skipCast` nothing but shape failures. */
  lemma VisitedObjectSound(schema: Schema, v: Value, path: string, skip: bool)
    decreases v, Room(schema, path), Width(v) + 1
    ensures Sound(path, skip, VisitedObject(schema, v, path, skip).errors)
  {
    match v
    case Obj(fs) => VisitedFieldsSound(schema, v, path, skip, |fs|);
    case Null =>
    case Inst(_, _) =>
    case _ => RecordSound(path, skip, NoErrors, path, CouldNotCast(v, "Object"));
  }

  lemma VisitedFieldsSound(schema: Schema, obj: Value, path: string, skip: bool, n: nat)
    requires obj.Obj? && n <= |obj.fields|
    decreases obj, Room(schema, path), n
    ensures Sound(path, skip, VisitedFields(schema, obj, path, skip, n).errors)
  {
    if n > 0 {
      VisitedFieldsSound(schema, obj, path, skip, n - 1);
      FieldStepSound(schema, obj, path, skip, n - 1, VisitedFields(schema, obj, path, skip, n - 1));
    }
  }

  lemma FieldStepSound(schema: Schema, obj: Value, path: string, skip: bool, i: nat, acc: FieldsVisit)
    requires obj.Obj? && i < |obj.fields| && Sound(path, skip, acc.errors)
    decreases obj, Room(schema, path), 0
    ensures Sound(path, skip, FieldStep(schema, obj, path, skip, i, acc).errors)
  {
    var key := obj.fields[i].0;
    var x := obj.fields[i].1;
    var p := Join(path, Name(key));
    if p in schema && schema[p].Some? {
      if schema[p].value == TArray {
        VisitedArraySound(schema, x, p, skip);
        MergeSound(path, Name(key), skip, acc.errors, VisitedArray(schema, x, p, skip).errors);
      } else if schema[p].value == TObject {
        if !x.Null? {
          VisitedObjectSound(schema, x, p, skip);
          MergeSound(path, Name(key), skip, acc.errors, VisitedObject(schema, x, p, skip).errors);
        }
      } else if !skip && HandleCast(x, schema[p].value).Err? {
        BelowJoinSelf(path, Name(key));
        RecordSound(path, skip, acc.errors, p, HandleCast(x, schema[p].value).error);
      }
    }
  }

  lemma VisitedArraySound(schema: Schema, x: Value, path: string, skip: bool)
    decreases x, Room(schema, path), Width(x) + 1
    ensures Sound(path, skip, VisitedArray(schema, x, path, skip).errors)
  {
    if Typed(schema, Join(path, Name("$"))) {
      VisitedElemsSound(schema, x, path, skip, |Elems(x)|);
    }
  }

  lemma VisitedElemsSound(schema: Schema, x: Value, path: string, skip: bool, n: nat)
    requires Typed(schema, Join(path, Name("$"))) && n <= |Elems(x)|
    decreases x, Room(schema, path), n, 1
    ensures Sound(path, skip, VisitedElems(schema, x, path, skip, n).errors)
  {
    if n > 0 {
      VisitedElemsSound(schema, x, path, skip, n - 1);
      VisitedElemsSoundStep(schema, x, path, skip, n);
    }
  }

  /** The callback on element `n - 1` keeps the aggregate of the first
      `n - 1` elements sound. */
  lemma VisitedElemsSoundStep(schema: Schema, x: Value, path: string, skip: bool, n: nat)
    requires Typed(schema, Join(path, Name("$"))) && 0 < n <= |Elems(x)|
    requires Sound(path, skip, VisitedElems(schema, x, path, skip, n - 1).errors)
    decreases x, Room(schema, path), n, 0
    ensures Sound(path, skip, VisitedElems(schema, x, path, skip, n).errors)
  {
    var acc := VisitedElems(schema, x, path, skip, n - 1);
    ElemStepSound(schema, x, path, skip, n - 1, acc);
    VisitedElemsUnfold(schema, x, path, skip, n);
    SoundSame(path, skip, ElemStep(schema, x, path, skip, n - 1, acc).errors,
              VisitedElems(schema, x, path, skip, n).errors);
  }

  lemma SoundSame(path: string, skip: bool, a: Errors, b: Errors)
    requires Sound(path, skip, a) && a == b
    ensures Sound(path, skip, b)
  { }

  lemma ElemStepSound(schema: Schema, x: Value, path: string, skip: bool, i: nat, acc: ElemsVisit)
    requires Typed(schema, Join(path, Name("$"))) && i < |Elems(x)| && Sound(path, skip, acc.errors)
    decreases x, Room(schema, path), 0
    ensures Sound(path, skip, ElemStep(schema, x, path, skip, i, acc).errors)
  {
    var e := Elems(x)[i];
    var ep := ElementPath(schema, x, path, i);
    var t := schema[ep].value;
    if t == TArray {
      VisitedArraySound(schema, e, ep, skip);
      MergeSound(path, Name("$"), skip, acc.errors, VisitedArray(schema, e, ep, skip).errors);
    } else if t == TObject {
      VisitedObjectSound(schema, e, ep, skip);
      MergeSound(path, Name("$"), skip, acc.errors, VisitedObject(schema, e, ep, skip).errors);
    } else if !skip && HandleCast(e, t).Err? {
      BelowJoinSelf(path, Name("$"));
      RecordSound(path, skip, acc.errors, ep, HandleCast(e, t).error);
    }
  }

  /** Only keys the schema knows survive a visit. */
  lemma {:induction false} VisitedFieldsKnown(schema: Schema, obj: Value, path: string, skip: bool, n: nat)
    requires obj.Obj? && n <= |obj.fields|
    ensures forall j :: 0 <= j < |VisitedFields(schema, obj, path, skip, n).fields| ==>
              Join(path, Name(VisitedFields(schema, obj, path, skip, n).fields[j].0)) in schema
  {
    if n > 0 {
      VisitedFieldsKnown(schema, obj, path, skip, n - 1);
      var acc := VisitedFields(schema, obj, path, skip, n - 1);
      var r := VisitedFields(schema, obj, path, skip, n);
      FieldStepShape(schema, obj, path, skip, n - 1, acc);
      forall j | 0 <= j < |r.fields|
        ensures Join(path, Name(r.fields[j].0)) in schema
      {
        if j < |acc.fields| {
          assert r.fields[j] == acc.fields[j];
          assert Join(path, Name(acc.fields[j].0)) in schema;
        } else {
          assert r.fields[j].0 == obj.fields[n - 1].0;
        }
      }
    }
  }

  // ---- what happens to each key ----

  /** The fate of the own key `key`, holding `x`, in the object `out` that
      `visitObject` leaves behind with the aggregate `errs`. */
  predicate FieldFate(schema: Schema, path: string, skip: bool, key: string, x: Value,
                      out: seq<(string, Value)>, errs: Errors)
  {
    var p := Join(path, Name(key));
    if p !in schema then !HasKey(out, key)                              // deleted
    else if schema[p].None? then (key, x) in out                         // left alone
    else if schema[p].value == TArray then
      var res := VisitedArray(schema, x, p, skip);
      (key, res.value) in out && res.errors.entries.Keys <= errs.entries.Keys
    else if schema[p].value == TObject then
      if x.Null? then !HasKey(out, key)                                  // deleted
      else
        var res := VisitedObject(schema, x, p, skip);
        (key, res.value) in out && res.errors.entries.Keys <= errs.entries.Keys
    else if skip then (key, x) in out                                    // never coerced
    else
      match HandleCast(x, schema[p].value)
      case Ok(y) => (key, y) in out                                      // coerced
      case Err(_) => (key, x) in out && p in errs.entries                // recorded, kept as it was
  }

  /** A fate survives the processing of the keys that follow, which neither
      mention `key` nor drop any recorded path. */
  lemma FieldFateLasts(schema: Schema, path: string, skip: bool, key: string, x: Value,
                       out: seq<(string, Value)>, errs: Errors,
                       more: seq<(string, Value)>, errs': Errors)
    requires FieldFate(schema, path, skip, key, x, out, errs)
    requires !HasKey(more, key) && errs.entries.Keys <= errs'.entries.Keys
    ensures FieldFate(schema, path, skip, key, x, out + more, errs')
  {
    if !HasKey(out, key) {
      assert !HasKey(out + more, key) by {
        forall j | 0 <= j < |out + more|
          ensures (out + more)[j].0 != key
        {
          if j >= |out| {
            assert (out + more)[j] == more[j - |out|];
          }
        }
      }
    }
  }

  /** One pass of the callback appends at most the key it is given and drops
      no recorded path. */
  lemma FieldStepShape(schema: Schema, obj: Value, path: string, skip: bool, i: nat, acc: FieldsVisit)
    requires obj.Obj? && i < |obj.fields|
    ensures var r := FieldStep(schema, obj, path, skip, i, acc);
            && (r.fields == acc.fields || r.fields == acc.fields + [(obj.fields[i].0, r.fields[|acc.fields|].1)])
            && acc.errors.entries.Keys <= r.errors.entries.Keys
            && (r.fields != acc.fields ==> Join(path, Name(obj.fields[i].0)) in schema)
  {
    var x := obj.fields[i].1;
    var p := Join(path, Name(obj.fields[i].0));
    if p in schema && schema[p] == Some(TArray) {
      MergeKeeps(acc.errors, VisitedArray(schema, x, p, skip).errors);
    } else if p in schema && schema[p] == Some(TObject) && !x.Null? {
      MergeKeeps(acc.errors, VisitedObject(schema, x, p, skip).errors);
    }
  }

  /** One pass of the callback settles the fate of the key it is given. */
  lemma FieldStepFate(schema: Schema, obj: Value, path: string, skip: bool, i: nat, acc: FieldsVisit)
    requires obj.Obj? && i < |obj.fields|
    requires !HasKey(acc.fields, obj.fields[i].0)
    ensures var r := FieldStep(schema, obj, path, skip, i, acc);
            FieldFate(schema, path, skip, obj.fields[i].0, obj.fields[i].1, r.fields, r.errors)
    ensures var p := Join(path, Name(obj.fields[i].0));
            var r := FieldStep(schema, obj, path, skip, i, acc);
            p in schema && schema[p].Some? && schema[p].value != TArray && schema[p].value != TObject
            && !skip && HandleCast(obj.fields[i].1, schema[p].value).Err? ==>
              p in r.errors.entries && r.errors.entries[p] == HandleCast(obj.fields[i].1, schema[p].value).error
  {
    var x := obj.fields[i].1;
    var p := Join(path, Name(obj.fields[i].0));
    if p in schema && schema[p] == Some(TArray) {
      VisitedArraySound(schema, x, p, skip);
      MergeEntries(acc.errors, VisitedArray(schema, x, p, skip).errors);
    } else if p in schema && schema[p] == Some(TObject) && !x.Null? {
      VisitedObjectSound(schema, x, p, skip);
      MergeEntries(acc.errors, VisitedObject(schema, x, p, skip).errors);
    }
  }

  /** Appending at most an entry for `added` keeps every other key absent. */
  lemma AppendOmits(acc: seq<(string, Value)>, r: seq<(string, Value)>, added: string, key: string)
    requires r == acc || (|r| == |acc| + 1 && r == acc + [(added, r[|acc|].1)])
    requires !HasKey(acc, key) && added != key
    ensures !HasKey(r, key)
  {
    if r != acc {
      forall j | 0 <= j < |r|
        ensures r[j].0 != key
      {
        if j < |acc| {
          assert r[j] == acc[j];
        }
      }
    }
  }

  /** Appending at most an entry for a key not yet present keeps the keys distinct. */
  lemma AppendDistinct(acc: seq<(string, Value)>, r: seq<(string, Value)>, added: string)
    requires r == acc || (|r| == |acc| + 1 && r == acc + [(added, r[|acc|].1)])
    requires DistinctKeys(acc) && !HasKey(acc, added)
    ensures DistinctKeys(r)
  {
    if r != acc {
      forall i, j | 0 <= i < j < |r|
        ensures r[i].0 != r[j].0
      {
        assert r[i] == acc[i];
        if j < |acc| {
          assert r[j] == acc[j];
        }
      }
    }
  }

  /** A key that none of the first `n` keys of the input equals is not a key
      of the result: `visitObject` never adds a key. */
  lemma {:induction false} VisitedFieldsOmits(schema: Schema, obj: Value, path: string, skip: bool, n: nat, key: string)
    requires obj.Obj? && n <= |obj.fields|
    requires forall m :: 0 <= m < n ==> obj.fields[m].0 != key
    ensures !HasKey(VisitedFields(schema, obj, path, skip, n).fields, key)
  {
    if n > 0 {
      VisitedFieldsOmits(schema, obj, path, skip, n - 1, key);
      var acc := VisitedFields(schema, obj, path, skip, n - 1);
      FieldStepShape(schema, obj, path, skip, n - 1, acc);
      AppendOmits(acc.fields, VisitedFields(schema, obj, path, skip, n).fields, obj.fields[n - 1].0, key);
    }
  }

  /** The keys of the result stay distinct when those of the input are. */
  lemma {:induction false} VisitedFieldsDistinct(schema: Schema, obj: Value, path: string, skip: bool, n: nat)
    requires obj.Obj? && n <= |obj.fields| && DistinctKeys(obj.fields)
    ensures DistinctKeys(VisitedFields(schema, obj, path, skip, n).fields)
  {
    if n > 0 {
      var key := obj.fields[n - 1].0;
      var acc := VisitedFields(schema, obj, path, skip, n - 1);
      var r := VisitedFields(schema, obj, path, skip, n);
      assert r == FieldStep(schema, obj, path, skip, n - 1, acc);
      VisitedFieldsDistinct(schema, obj, path, skip, n - 1);
      forall m | 0 <= m < n - 1
        ensures obj.fields[m].0 != key
      {
      }
      VisitedFieldsOmits(schema, obj, path, skip, n - 1, key);
      FieldStepShape(schema, obj, path, skip, n - 1, acc);
      AppendDistinct(acc.fields, r.fields, key);
    }
  }

  /** The fates of the first `n - 1` keys carry over the `n`-th pass. */
  lemma FatesCarry(schema: Schema, path: string, skip: bool, fs: seq<(string, Value)>, n: nat,
                   acc: FieldsVisit, r: FieldsVisit)
    requires 0 < n <= |fs| && DistinctKeys(fs)
    requires r.fields == acc.fields || (|r.fields| == |acc.fields| + 1 && r.fields == acc.fields + [(fs[n - 1].0, r.fields[|acc.fields|].1)])
    requires acc.errors.entries.Keys <= r.errors.entries.Keys
    requires forall m :: 0 <= m < n - 1 ==> FieldFate(schema, path, skip, fs[m].0, fs[m].1, acc.fields, acc.errors)
    ensures forall m :: 0 <= m < n - 1 ==> FieldFate(schema, path, skip, fs[m].0, fs[m].1, r.fields, r.errors)
  {
    var more := r.fields[|acc.fields|..];
    assert r.fields == acc.fields + more;
    forall m | 0 <= m < n - 1
      ensures FieldFate(schema, path, skip, fs[m].0, fs[m].1, r.fields, r.errors)
    {
      assert !HasKey(more, fs[m].0) by {
        forall j | 0 <= j < |more|
          ensures more[j].0 != fs[m].0
        {
          assert more[j].0 == fs[n - 1].0;
        }
      }
      FieldFateLasts(schema, path, skip, fs[m].0, fs[m].1, acc.fields, acc.errors, more, r.errors);
    }
  }

  /** Every key of an object with distinct keys meets its fate: unknown keys
      and null Object-typed keys are deleted, untyped keys are left alone,
      nested values are replaced by their visit, leaves are coerced, and a
      failed leaf stays as it was with its path recorded, the keys after it
      still being processed. */
  lemma {:induction false} VisitedFieldsFate(schema: Schema, obj: Value, path: string, skip: bool, n: nat)
    requires obj.Obj? && n <= |obj.fields| && DistinctKeys(obj.fields)
    ensures var r := VisitedFields(schema, obj, path, skip, n);
            forall m :: 0 <= m < n ==>
              FieldFate(schema, path, skip, obj.fields[m].0, obj.fields[m].1, r.fields, r.errors)
  {
    if n > 0 {
      VisitedFieldsFate(schema, obj, path, skip, n - 1);
      VisitedFieldsOmits(schema, obj, path, skip, n - 1, obj.fields[n - 1].0);
      var acc := VisitedFields(schema, obj, path, skip, n - 1);
      var r := VisitedFields(schema, obj, path, skip, n);
      FieldStepShape(schema, obj, path, skip, n - 1, acc);
      FieldStepFate(schema, obj, path, skip, n - 1, acc);
      FatesCarry(schema, path, skip, obj.fields, n, acc, r);
    }
  }

  /** `castDocument` on an object with distinct keys: each key meets its fate. */
  lemma DocumentFieldFate(schema: Schema, v: Value, path: string, skip: bool)
    requires v.Obj? && DistinctKeys(v.fields)
    ensures var r := VisitedObject(schema, v, path, skip);
            && DistinctKeys(r.value.fields)
            && KeysOf(r.value.fields) == KeptKeys(schema, v, path, |v.fields|)
            && forall m :: 0 <= m < |v.fields| ==>
                 FieldFate(schema, path, skip, v.fields[m].0, v.fields[m].1, r.value.fields, r.errors)
  {
    VisitedFieldsFate(schema, v, path, skip, |v.fields|);
    VisitedFieldsDistinct(schema, v, path, skip, |v.fields|);
    VisitedFieldsOrder(schema, v, path, skip, |v.fields|);
  }

  /** Whether `visitObject` keeps the own key `key`, holding `x`, under
      `path`: it deletes keys absent from the schema and Object-typed keys
      holding `null`. */
  predicate KeepsKey(schema: Schema, path: string, key: string, x: Value) {
    var p := Join(path, Name(key));
    p in schema && !(schema[p] == Some(TObject) && x.Null?)
  }

  /** The keys among the first `n` own keys of `obj` that `visitObject`
      keeps, in input order. */
  function KeptKeys(schema: Schema, obj: Value, path: string, n: nat): seq<string>
    requires obj.Obj? && n <= |obj.fields|
  {
    if n == 0 then []
    else KeptKeys(schema, obj, path, n - 1)
         + (if KeepsKey(schema, path, obj.fields[n - 1].0, obj.fields[n - 1].1) then [obj.fields[n - 1].0] else [])
  }

  /** One pass of the callback appends its key exactly when the key is kept. */
  lemma FieldStepKeys(schema: Schema, obj: Value, path: string, skip: bool, i: nat, acc: FieldsVisit)
    requires obj.Obj? && i < |obj.fields|
    ensures KeysOf(FieldStep(schema, obj, path, skip, i, acc).fields)
         == KeysOf(acc.fields) + (if KeepsKey(schema, path, obj.fields[i].0, obj.fields[i].1) then [obj.fields[i].0] else [])
  {
    var r := FieldStep(schema, obj, path, skip, i, acc);
    if KeepsKey(schema, path, obj.fields[i].0, obj.fields[i].1) {
      assert r.fields == acc.fields + [(obj.fields[i].0, r.fields[|acc.fields|].1)];
      assert KeysOf(r.fields) == KeysOf(acc.fields) + [obj.fields[i].0] by {
        forall j | 0 <= j < |r.fields|
          ensures KeysOf(r.fields)[j] == (KeysOf(acc.fields) + [obj.fields[i].0])[j]
        {
          if j < |acc.fields| {
            assert r.fields[j] == acc.fields[j];
          }
        }
      }
    } else {
      assert r.fields == acc.fields;
    }
  }

  /** The keys `visitObject` keeps come out in their input order, and no
      others. */
  lemma {:induction false} VisitedFieldsOrder(schema: Schema, obj: Value, path: string, skip: bool, n: nat)
    requires obj.Obj? && n <= |obj.fields|
    ensures KeysOf(VisitedFields(schema, obj, path, skip, n).fields) == KeptKeys(schema, obj, path, n)
  {
    if n > 0 {
      VisitedFieldsOrder(schema, obj, path, skip, n - 1);
      VisitedFieldsOrderStep(schema, obj, path, skip, n);
    }
  }

  lemma VisitedFieldsOrderStep(schema: Schema, obj: Value, path: string, skip: bool, n: nat)
    requires obj.Obj? && 0 < n <= |obj.fields|
    requires KeysOf(VisitedFields(schema, obj, path, skip, n - 1).fields) == KeptKeys(schema, obj, path, n - 1)
    ensures KeysOf(VisitedFields(schema, obj, path, skip, n).fields) == KeptKeys(schema, obj, path, n)
  {
    FieldStepKeys(schema, obj, path, skip, n - 1, VisitedFields(schema, obj, path, skip, n - 1));
  }

  /** The fate of element `i` of an array visit: a nested array or object is
      replaced by its own visit at `path.$`, whose recorded paths are kept; a
      leaf is left alone under `skipCast`, coerced when `handleCast` succeeds,
      and otherwise kept as it was with the element's error path recorded. */
  predicate ElemFate(schema: Schema, x: Value, path: string, skip: bool, i: nat, out: Value, errs: Errors)
    requires Typed(schema, Join(path, Name("$"))) && i < |Elems(x)|
  {
    var e := Elems(x)[i];
    var ep := ElementPath(schema, x, path, i);
    var t := schema[ep].value;
    if t == TArray then
      var res := VisitedArray(schema, e, ep, skip);
      out == res.value && res.errors.entries.Keys <= errs.entries.Keys
    else if t == TObject then
      var res := VisitedObject(schema, e, ep, skip);
      out == res.value && res.errors.entries.Keys <= errs.entries.Keys
    else if skip then out == e                                           // never coerced
    else
      match HandleCast(e, t)
      case Ok(y) => out == y                                             // coerced
      case Err(_) => out == e && ArrayLeafErrorPath(path, i) in errs.entries  // recorded, kept
  }

  /** One pass of the callback appends element `i`, settling its fate, and
      drops no recorded path. */
  lemma ElemStepFate(schema: Schema, x: Value, path: string, skip: bool, i: nat, acc: ElemsVisit)
    requires Typed(schema, Join(path, Name("$"))) && i < |Elems(x)|
    ensures var r := ElemStep(schema, x, path, skip, i, acc);
            && r.elems[..|acc.elems|] == acc.elems
            && acc.errors.entries.Keys <= r.errors.entries.Keys
            && ElemFate(schema, x, path, skip, i, r.elems[|acc.elems|], r.errors)
    ensures var t := schema[Join(path, Name("$"))].value;
            var r := ElemStep(schema, x, path, skip, i, acc);
            t != TArray && t != TObject && !skip && HandleCast(Elems(x)[i], t).Err? ==>
              ArrayLeafErrorPath(path, i) in r.errors.entries
              && r.errors.entries[ArrayLeafErrorPath(path, i)] == HandleCast(Elems(x)[i], t).error
  {
    var e := Elems(x)[i];
    var ep := ElementPath(schema, x, path, i);
    var t := schema[ep].value;
    if t == TArray {
      var res := VisitedArray(schema, e, ep, skip);
      VisitedArraySound(schema, e, ep, skip);
      MergeEntries(acc.errors, res.errors);
    } else if t == TObject {
      var res := VisitedObject(schema, e, ep, skip);
      VisitedObjectSound(schema, e, ep, skip);
      MergeEntries(acc.errors, res.errors);
    }
  }

  /** Every element of an array visit meets its fate: the elements are
      processed in order, and a failed leaf does not stop its siblings. */
  lemma {:induction false} VisitedElemsFate(schema: Schema, x: Value, path: string, skip: bool, n: nat)
    requires Typed(schema, Join(path, Name("$"))) && n <= |Elems(x)|
    ensures forall j :: 0 <= j < n ==>
              ElemFate(schema, x, path, skip, j, VisitedElems(schema, x, path, skip, n).elems[j],
                       VisitedElems(schema, x, path, skip, n).errors)
  {
    if n > 0 {
      VisitedElemsFate(schema, x, path, skip, n - 1);
      ElemStepFated(schema, x, path, skip, n - 1, VisitedElems(schema, x, path, skip, n - 1));
      VisitedElemsUnfold(schema, x, path, skip, n);
    }
  }

  /** A pass over element `i` keeps the fates of the elements before it and
      settles the fate of element `i`. */
  lemma ElemStepFated(schema: Schema, x: Value, path: string, skip: bool, i: nat, acc: ElemsVisit)
    requires Typed(schema, Join(path, Name("$"))) && i < |Elems(x)| && i == |acc.elems|
    requires forall j :: 0 <= j < i ==> ElemFate(schema, x, path, skip, j, acc.elems[j], acc.errors)
    ensures forall j :: 0 <= j < i + 1 ==>
              ElemFate(schema, x, path, skip, j, ElemStep(schema, x, path, skip, i, acc).elems[j],
                       ElemStep(schema, x, path, skip, i, acc).errors)
  {
    ElemStepFate(schema, x, path, skip, i, acc);
    ElemFatesCarry(schema, x, path, skip, acc, ElemStep(schema, x, path, skip, i, acc));
  }

  lemma VisitedElemsUnfold(schema: Schema, x: Value, path: string, skip: bool, n: nat)
    requires Typed(schema, Join(path, Name("$"))) && 0 < n <= |Elems(x)|
    ensures VisitedElems(schema, x, path, skip, n)
            == ElemStep(schema, x, path, skip, n - 1, VisitedElems(schema, x, path, skip, n - 1))
  { }

  /** The fates of the elements already visited survive the next pass, which
      only appends and drops no recorded path. */
  lemma ElemFatesCarry(schema: Schema, x: Value, path: string, skip: bool, acc: ElemsVisit, r: ElemsVisit)
    requires Typed(schema, Join(path, Name("$"))) && |acc.elems| < |Elems(x)|
    requires |acc.elems| < |r.elems| && r.elems[..|acc.elems|] == acc.elems
    requires acc.errors.entries.Keys <= r.errors.entries.Keys
    requires forall j :: 0 <= j < |acc.elems| ==> ElemFate(schema, x, path, skip, j, acc.elems[j], acc.errors)
    ensures forall j :: 0 <= j < |acc.elems| ==> ElemFate(schema, x, path, skip, j, r.elems[j], r.errors)
  {
    forall j | 0 <= j < |acc.elems|
      ensures ElemFate(schema, x, path, skip, j, r.elems[j], r.errors)
    {
      assert r.elems[j] == acc.elems[j];
      ElemFateLasts(schema, x, path, skip, j, acc.elems[j], acc.errors, r.errors);
    }
  }

  /** A fate survives any growth of the recorded paths. */
  lemma ElemFateLasts(schema: Schema, x: Value, path: string, skip: bool, i: nat, out: Value,
                      errs: Errors, errs': Errors)
    requires Typed(schema, Join(path, Name("$"))) && i < |Elems(x)|
    requires ElemFate(schema, x, path, skip, i, out, errs)
    requires errs.entries.Keys <= errs'.entries.Keys
    ensures ElemFate(schema, x, path, skip, i, out, errs')
  {
    var e := Elems(x)[i];
    var t := schema[ElementPath(schema, x, path, i)].value;
    if t != TArray && t != TObject && !skip && HandleCast(e, t).Err? {
      assert ArrayLeafErrorPath(path, i) in errs.entries;
    }
  }

  /** `visitArray` on a typed array: element `j` of the result is the fate of
      element `j` of the input (a non-array standing for `[x]`). */
  lemma ArrayElemFate(schema: Schema, x: Value, path: string, skip: bool)
    requires Typed(schema, Join(path, Name("$")))
    ensures var r := VisitedArray(schema, x, path, skip);
            && r.value == Arr(r.value.elems) && |r.value.elems| == |Elems(x)|
            && forall j :: 0 <= j < |Elems(x)| ==> ElemFate(schema, x, path, skip, j, r.value.elems[j], r.errors)
  {
    var res := VisitedElems(schema, x, path, skip, |Elems(x)|);
    VisitedElemsFate(schema, x, path, skip, |Elems(x)|);
    assert VisitedArray(schema, x, path, skip) == Visit(Arr(res.elems), res.errors);
  }

  // ---- the traversal as the source runs it ----

  /** `visitObject`: the `_.each` loop over the own keys, recording failures
      in a fresh `CastError`; `error` is `null` when nothing was recorded. */
  method VisitObject(schema: Schema, v: Value, path: string, skip: bool) returns (value: Value, error: CastError?)
    decreases v, Room(schema, path), 1
    ensures value == VisitedObject(schema, v, path, skip).value
    ensures error == null <==> VisitedObject(schema, v, path, skip).errors.entries == map[]
    ensures error != null ==> fresh(error) && error.Valid() && error.Model() == VisitedObject(schema, v, path, skip).errors
  {
    var agg := new CastError();
    if !IsObjectLike(v) {
      agg := agg.MarkError(path, CouldNotCast(v, "Object"));
      return Null, agg;
    }
    if !v.Obj? {
      return v, null;
    }
    var kept: seq<(string, Value)> := [];
    var i := 0;
    while i < |v.fields|
      invariant 0 <= i <= |v.fields|
      invariant fresh(agg) && agg.Valid()
      invariant FieldsVisit(kept, agg.Model()) == VisitedFields(schema, v, path, skip, i)
    {
      kept := FieldPass(schema, v, path, skip, i, kept, agg);
      i := i + 1;
    }
    value := Obj(kept);
    error := if agg.hasError then agg else null;
  }

  /** The body of the `_.each` callback of `visitObject` for the `i`-th key:
      delete it, leave it, replace it by its visit or its cast, and record
      failures in `agg`. */
  method FieldPass(schema: Schema, v: Value, path: string, skip: bool, i: nat,
                   kept: seq<(string, Value)>, agg: CastError) returns (kept': seq<(string, Value)>)
    requires v.Obj? && i < |v.fields| && agg.Valid()
    requires FieldsVisit(kept, agg.Model()) == VisitedFields(schema, v, path, skip, i)
    modifies agg
    decreases v, Room(schema, path), 0
    ensures agg.Valid()
    ensures FieldsVisit(kept', agg.Model()) == VisitedFields(schema, v, path, skip, i + 1)
  {
    var key := v.fields[i].0;
    var x := v.fields[i].1;
    var p := Join(path, Name(key));
    kept' := kept;
    if p !in schema {
      // delete obj[key]
    } else if schema[p].None? {
      kept' := kept + [(key, x)];
    } else if schema[p].value == TArray {
      var y, childError := VisitArray(schema, x, p, skip);
      if childError != null {
        var _ := agg.Merge(childError);
      } else {
        MergeNothing(agg.Model(), VisitedArray(schema, x, p, skip).errors);
      }
      kept' := kept + [(key, y)];
    } else if schema[p].value == TObject {
      if !x.Null? {
        var y, childError := VisitObject(schema, x, p, skip);
        if childError != null {
          var _ := agg.Merge(childError);
        } else {
          MergeNothing(agg.Model(), VisitedObject(schema, x, p, skip).errors);
        }
        kept' := kept + [(key, y)];
      }
    } else if skip {
      kept' := kept + [(key, x)];
    } else {
      var cast := HandleCast(x, schema[p].value);
      if cast.Ok? {
        kept' := kept + [(key, cast.value)];
      } else {
        var _ := agg.MarkError(p, cast.error);
        kept' := kept + [(key, x)];
      }
    }
  }

  /** `visitArray`: a value on a path whose elements are typed is promoted to
      `[x]` unless it is an array, and each element is visited or cast in turn. */
  method VisitArray(schema: Schema, x: Value, path: string, skip: bool) returns (value: Value, error: CastError?)
    decreases x, Room(schema, path), 2
    ensures value == VisitedArray(schema, x, path, skip).value
    ensures error == null <==> VisitedArray(schema, x, path, skip).errors.entries == map[]
    ensures error != null ==> fresh(error) && error.Valid() && error.Model() == VisitedArray(schema, x, path, skip).errors
  {
    if !Typed(schema, Join(path, Name("$"))) {
      return x, null;
    }
    var done, agg := VisitElements(schema, x, path, skip);
    value := Arr(done);
    error := if agg.hasError then agg else null;
  }

  /** The `forEach` loop of `visitArray` over `x`, or over `[x]` when `x` is
      not an array. */
  method VisitElements(schema: Schema, x: Value, path: string, skip: bool) returns (done: seq<Value>, agg: CastError)
    requires Typed(schema, Join(path, Name("$")))
    decreases x, Room(schema, path), 1
    ensures fresh(agg) && agg.Valid()
    ensures ElemsVisit(done, agg.Model()) == VisitedElems(schema, x, path, skip, |Elems(x)|)
  {
    agg := new CastError();
    done := [];
    for i := 0 to |Elems(x)|
      invariant fresh(agg) && agg.Valid()
      invariant ElemsVisit(done, agg.Model()) == VisitedElems(schema, x, path, skip, i)
    {
      done := ElemPass(schema, x, path, skip, i, done, agg);
    }
  }

  /** The body of the `forEach` callback of `visitArray` for element `i`. */
  method ElemPass(schema: Schema, x: Value, path: string, skip: bool, i: nat,
                  done: seq<Value>, agg: CastError) returns (done': seq<Value>)
    requires Typed(schema, Join(path, Name("$"))) && i < |Elems(x)| && agg.Valid()
    requires ElemsVisit(done, agg.Model()) == VisitedElems(schema, x, path, skip, i)
    modifies agg
    decreases x, Room(schema, path), 0
    ensures agg.Valid()
    ensures ElemsVisit(done', agg.Model()) == VisitedElems(schema, x, path, skip, i + 1)
  {
    var e := Elems(x)[i];
    var ep := ElementPath(schema, x, path, i);
    var t := schema[ep].value;
    if t == TArray {
      var y, childError := VisitArray(schema, e, ep, skip);
      if childError != null {
        var _ := agg.Merge(childError);
      } else {
        MergeNothing(agg.Model(), VisitedArray(schema, e, ep, skip).errors);
      }
      done' := done + [y];
    } else if t == TObject {
      var y, childError := VisitObject(schema, e, ep, skip);
      if childError != null {
        var _ := agg.Merge(childError);
      } else {
        MergeNothing(agg.Model(), VisitedObject(schema, e, ep, skip).errors);
      }
      done' := done + [y];
    } else if skip {
      done' := done + [e];
    } else {
      var cast := HandleCast(e, t);
      if cast.Ok? {
        done' := done + [cast.value];
      } else {
        var _ := agg.MarkError(ArrayLeafErrorPath(path, i), cast.error);
        done' := done + [e];
      }
    }
  }

  /** `castDocument(obj, schema, path, skipCast)`; an absent path is `""`. */
  method CastDocument(schema: Schema, obj: Value, path: string, skip: bool) returns (value: Value, error: CastError?)
    ensures value == VisitedObject(schema, obj, path, skip).value
    ensures error == null <==> VisitedObject(schema, obj, path, skip).errors.entries == map[]
    ensures error != null ==> fresh(error) && error.Valid() && error.Model() == VisitedObject(schema, obj, path, skip).errors
  {
    value, error := VisitObject(schema, obj, path, skip);
  }

  // ---- worked examples ----

  /** A polygon schema `points: [[Number]]`. */
  const PolygonSchema: Schema := map["points" := Some(TArray), "points.$" := Some(TArray), "points.$.$" := Some(TNumber)]

  /** The inner level of NestedPromotion: `1` on `points.$` becomes `[1]`. */
  lemma InnerPromotion()
    ensures VisitedArray(PolygonSchema, Num(1), "points.$", false) == Visit(Arr([Num(1)]), NoErrors)
  {
    assert Join("points.$", Name("$")) == "points.$.$";
    assert ElementPath(PolygonSchema, Num(1), "points.$", 0) == "points.$.$";
    assert HandleCast(Num(1), TNumber) == Ok(Num(1));
    assert ElemStep(PolygonSchema, Num(1), "points.$", false, 0, ElemsVisit([], NoErrors)) == ElemsVisit([Num(1)], NoErrors);
  }

  /** The outer level of NestedPromotion: `1` on `points` becomes `[[1]]`. */
  lemma OuterPromotion()
    ensures VisitedArray(PolygonSchema, Num(1), "points", false) == Visit(Arr([Arr([Num(1)])]), NoErrors)
  {
    assert Join("points", Name("$")) == "points.$";
    assert ElementPath(PolygonSchema, Num(1), "points", 0) == "points.$";
    InnerPromotion();
    MergeNothing(NoErrors, NoErrors);
    assert VisitedElems(PolygonSchema, Num(1), "points", false, 1) == ElemsVisit([Arr([Num(1)])], NoErrors);
  }

  /** `points = 1` is promoted twice and comes back as `[[1]]`, with nothing recorded. */
  lemma NestedPromotion()
    ensures VisitedObject(PolygonSchema, Obj([("points", Num(1))]), "", false)
         == Visit(Obj([("points", Arr([Arr([Num(1)])]))]), NoErrors)
  {
    NestedPromotionField();
  }

  lemma NestedPromotionField()
    ensures VisitedFields(PolygonSchema, Obj([("points", Num(1))]), "", false, 1)
         == FieldsVisit([("points", Arr([Arr([Num(1)])]))], NoErrors)
  {
    var obj := Obj([("points", Num(1))]);
    assert Join("", Name("points")) == "points";
    FieldStepArrayTyped(PolygonSchema, obj, "", false, 0, FieldsVisit([], NoErrors));
    OuterPromotion();
    MergeNothing(NoErrors, NoErrors);
  }

  /** One pass of the callback on an Array-typed key stores that key's array visit. */
  lemma FieldStepArrayTyped(schema: Schema, obj: Value, path: string, skip: bool, i: nat, acc: FieldsVisit)
    requires obj.Obj? && i < |obj.fields|
    requires Join(path, Name(obj.fields[i].0)) in schema && schema[Join(path, Name(obj.fields[i].0))] == Some(TArray)
    ensures FieldStep(schema, obj, path, skip, i, acc)
         == FieldsVisit(acc.fields + [(obj.fields[i].0, VisitedArray(schema, obj.fields[i].1, Join(path, Name(obj.fields[i].0)), skip).value)],
                        MergeErrors(acc.errors, VisitedArray(schema, obj.fields[i].1, Join(path, Name(obj.fields[i].0)), skip).errors))
  {
  }

  /** A user schema whose `name` is an object of two strings. */
  const UserSchema: Schema := map["name" := Some(TObject), "name.first" := Some(TString), "name.last" := Some(TString)]

  /** A plain string where an object is declared is recorded under the key's
      path, and the key is left holding `null`. */
  lemma StringForObjectRecorded()
    ensures VisitedObject(UserSchema, Obj([("name", Str("Axl Rose"))]), "", false)
         == Visit(Obj([("name", Null)]), Errors(map["name" := CouldNotCast(Str("Axl Rose"), "Object")], ["name"]))
  {
    StringForObjectField();
  }

  lemma StringForObjectField()
    ensures VisitedFields(UserSchema, Obj([("name", Str("Axl Rose"))]), "", false, 1)
         == FieldsVisit([("name", Null)], Errors(map["name" := CouldNotCast(Str("Axl Rose"), "Object")], ["name"]))
  {
    assert Join("", Name("name")) == "name";
    StringForObjectChild();
    MergeIntoNothing(VisitedObject(UserSchema, Str("Axl Rose"), "name", false).errors);
  }

  lemma StringForObjectChild()
    ensures VisitedObject(UserSchema, Str("Axl Rose"), "name", false)
         == Visit(Null, Errors(map["name" := CouldNotCast(Str("Axl Rose"), "Object")], ["name"]))
  {
  }

  /** The nested half of NestedPruneAndCast. */
  lemma NestedNameCast()
    ensures VisitedObject(UserSchema, Obj([("first", Str("Axl")), ("last", Num(123)), ("nested", Obj([("x", Num(1))]))]), "name", false)
         == Visit(Obj([("first", Str("Axl")), ("last", Str("123"))]), NoErrors)
  {
    var inner := Obj([("first", Str("Axl")), ("last", Num(123)), ("nested", Obj([("x", Num(1))]))]);
    assert Join("name", Name("first")) == "name.first" && Join("name", Name("last")) == "name.last";
    assert Join("name", Name("nested")) == "name.nested";
    assert IntText(123) == "123";
    assert VisitedFields(UserSchema, inner, "name", false, 1) == FieldsVisit([("first", Str("Axl"))], NoErrors);
    assert VisitedFields(UserSchema, inner, "name", false, 2)
        == FieldsVisit([("first", Str("Axl")), ("last", Str("123"))], NoErrors);
  }

  /** Unknown keys are pruned at every depth, and a number declared as a
      string becomes its decimal text. */
  lemma NestedPruneAndCast()
    ensures VisitedObject(UserSchema,
              Obj([("name", Obj([("first", Str("Axl")), ("last", Num(123)), ("nested", Obj([("x", Num(1))]))])),
                   ("other", Str("abc"))]), "", false)
         == Visit(Obj([("name", Obj([("first", Str("Axl")), ("last", Str("123"))]))]), NoErrors)
  {
    var top := Obj([("name", Obj([("first", Str("Axl")), ("last", Num(123)), ("nested", Obj([("x", Num(1))]))])),
                    ("other", Str("abc"))]);
    assert Join("", Name("name")) == "name" && Join("", Name("other")) == "other";
    NestedNameCast();
    MergeNothing(NoErrors, NoErrors);
    assert VisitedFields(UserSchema, top, "", false, 1)
        == FieldsVisit([("name", Obj([("first", Str("Axl")), ("last", Str("123"))]))], NoErrors);
  }
}
