/** The values the casting engine walks over, the declared types of a schema,
    and the failures a cast can end in. */
module Values {

  datatype Option<+T> = None | Some(value: T)

  /** Success or a thrown error; usable with `:-`. */
  datatype Result<+T> = Ok(value: T) | Err(error: Error) {
    predicate IsFailure() { Err? }

    function PropagateFailure<U>(): Result<U>
      requires Err?
    {
      Err(error)
    }

    function Extract(): T
      requires Ok?
    {
      value
    }
  }

  /** Running a sequence of steps that may throw, in order: the results of
      all of them, or the error of the first one that throws. */
  function Sequenced<T>(outs: seq<Result<T>>): (r: Result<seq<T>>)
    ensures r.Ok? ==> |r.value| == |outs|
  {
    if outs == [] then Ok([])
    else
      var done :- Sequenced(outs[..|outs| - 1]);
      var last :- outs[|outs| - 1];
      Ok(done + [last])
  }

  /** The sequenced run succeeds exactly when every step does, and then holds
      each step's result in place; otherwise it fails with the error of the
      first step that fails. */
  lemma {:induction false} SequencedPositional<T>(outs: seq<Result<T>>)
    ensures Sequenced(outs).Ok? <==> forall j :: 0 <= j < |outs| ==> outs[j].Ok?
    ensures Sequenced(outs).Ok? ==> forall j :: 0 <= j < |outs| ==> Sequenced(outs).value[j] == outs[j].value
    ensures Sequenced(outs).Err? ==>
              exists m :: 0 <= m < |outs| && outs[m].Err? && Sequenced(outs).error == outs[m].error
                          && forall j :: 0 <= j < m ==> outs[j].Ok?
    decreases |outs|
  {
    if outs != [] {
      var front := outs[..|outs| - 1];
      SequencedPositional(front);
      assert forall j :: 0 <= j < |front| ==> front[j] == outs[j];
      if Sequenced(front).Ok? && outs[|outs| - 1].Ok? {
        forall j | 0 <= j < |outs|
          ensures Sequenced(outs).value[j] == outs[j].value
        {
          if j < |front| {
            assert Sequenced(outs).value[j] == Sequenced(front).value[j];
          }
        }
      }
    }
  }

  /** One more step: the run stops at an earlier failure, then at this step's
      failure, and otherwise appends this step's result. */
  lemma SequencedSnoc<T>(outs: seq<Result<T>>, init: seq<Result<T>>, last: Result<T>)
    requires outs != [] && outs[..|outs| - 1] == init && outs[|outs| - 1] == last
    ensures Sequenced(outs)
         == if Sequenced(init).Err? then Err(Sequenced(init).error)
            else if last.Err? then Err(last.error)
            else Ok(Sequenced(init).value + [last.value])
  {
  }

  /** Steps that all succeed run to their results, in place. */
  lemma {:induction false} SequencedAllOk<T>(outs: seq<Result<T>>, vals: seq<T>)
    requires |outs| == |vals| && forall j :: 0 <= j < |outs| ==> outs[j] == Ok(vals[j])
    ensures Sequenced(outs) == Ok(vals)
    decreases |outs|
  {
    if outs != [] {
      var n := |outs| - 1;
      SequencedAllOk(outs[..n], vals[..n]);
      assert vals == vals[..n] + [vals[n]];
    }
  }

  /** The concatenation of `parts`, in order. */
  function Concat<T>(parts: seq<seq<T>>): seq<T>
  {
    if parts == [] then [] else Concat(parts[..|parts| - 1]) + parts[|parts| - 1]
  }

  /** A JavaScript value as a document, filter or update holds it. Objects keep
      their own keys in insertion order, which decides the order of `_.each`.
      `Inst` is an instance of a registered class such as `ObjectId`, built
      around the value it was constructed from. */
  datatype Value =
    | Null
    | Bool(b: bool)
    | Num(n: int)
    | Str(s: string)
    | Arr(elems: seq<Value>)
    | Obj(fields: seq<(string, Value)>)
    | Inst(cls: string, payload: Value)

  /** The `$type` a schema entry can declare. */
  datatype Type = TArray | TObject | TNumber | TString | TBoolean | TClass(name: string)

  /** Everything a cast can throw or record. */
  datatype Error =
    | CouldNotCast(value: Value, typeName: string)  // "Could not cast <v> to <Type>"
    | DollarFieldName(key: string)                  // "field names cannot start with $ [<key>]"
    | MissingElementEntry(path: string)             // TypeError: reading `$type` of an absent entry
    | InvalidArrayLength(length: int)               // RangeError thrown by `Array(n)` for n < 0 or n >= 2^32
    | ReferenceError(name: string)                  // an identifier that is not defined

  /** `schema._paths`: canonical path to its entry; `None` is an entry without `$type`. */
  type Schema = map<string, Option<Type>>

  /** A path whose entry exists and declares a `$type`. */
  predicate Typed(schema: Schema, path: string) {
    path in schema && schema[path].Some?
  }

  /** `typeof v === 'object' && !Array.isArray(v)`: null, plain objects and class instances. */
  predicate IsObjectLike(v: Value) {
    v.Null? || v.Obj? || v.Inst?
  }

  /** The elements a traversal walks for a value found on an Array-typed path:
      an array's own elements, or the value alone once promoted to `[v]`. */
  function Elems(v: Value): (es: seq<Value>)
    ensures v.Arr? ==> es == v.elems
    ensures !v.Arr? ==> es == [v]
  {
    if v.Arr? then v.elems else [v]
  }

  /** A bound on the number of children a traversal visits directly below `v`,
      whether it walks `v` as an object or as an array. */
  function Width(v: Value): nat {
    |Elems(v)| + if v.Obj? then |v.fields| else 0
  }

  /** Distinct own keys, as every JavaScript object has. */
  predicate DistinctKeys(fields: seq<(string, Value)>) {
    forall i, j :: 0 <= i < j < |fields| ==> fields[i].0 != fields[j].0
  }

  /** An upper bound on the length of the schema's paths. */
  ghost function MaxKeyLength(keys: set<string>): (m: nat)
    ensures forall k :: k in keys ==> |k| <= m
    decreases keys
  {
    if keys == {} then 0
    else
      var k :| k in keys;
      var rest := MaxKeyLength(keys - {k});
      if |k| > rest then |k| else rest
  }

  /** How many more characters a path can grow before it leaves every schema
      path behind. A scalar promoted to `[v]` is visited again one `$` deeper,
      so this, and not the value, is what shrinks on such a step. */
  ghost function Room(schema: Schema, path: string): nat {
    var bound := MaxKeyLength(schema.Keys);
    if |path| <= bound + 1 then bound + 1 - |path| else 0
  }

  lemma RoomShrinks(schema: Schema, p: string, q: string)
    requires p in schema || q in schema
    requires |p| < |q|
    ensures Room(schema, q) < Room(schema, p)
  {
  }
}
