# monogram-casting in Dafny

A model of the casting engine of `monogram-casting`: the code that walks a
MongoDB-style document, query filter or update against a schema index
(`schema._paths`, canonical dot-paths in which every array level is written
`$`), prunes the keys the schema does not know, promotes scalars on
Array-typed paths and coerces leaves to their declared `$type`.

| file | module | models |
|---|---|---|
| `values.dfy` | `Values` | JavaScript values as a datatype (objects as ordered key/value sequences, class instances as a class name and the value they wrap), declared types, the schema index, `Result` for thrown errors, and `Sequenced` (running steps that may throw, in order) |
| `common.dfy` | `Common` | `join` and `handleCast` with its `Number` special case, including the parts of JavaScript's `Number()`, `String()` and `Boolean()` it relies on |
| `error.dfy` | `CastErrors` | the `CastError` aggregate as a class over a path-to-error map with its insertion order, specified by the pure value `Errors` |
| `document.dfy` | `DocumentCasting` | `castDocument` and its accumulating `visitObject` / `visitArray` |
| `filters.dfy` | `FilterCasting` | `castFilter`, `handleCastForQuery` and the selector tables |
| `update.dfy` | `UpdateCasting` | `castUpdate` and its fail-fast `visitObject` / `visitArray` |

Each traversal is written twice. First as recursive functions that return
the rewritten tree, or the error thrown. Then as methods with the source's
loops, each proved to compute its function. The properties the source
promises are proved about the functions. Termination of the promotion
recursion (a scalar on an Array-typed path is visited again one level
deeper) rests on a ghost measure: how much longer a path may grow before it
leaves every key of the finite schema.

Where the repository's tests and the code disagree the model follows the code:

- Logical operators (`$or`, `$and`, `$nor`) are not traversed by
  `castFilter`. `LOGICAL_SELECTORS` is declared but never used, and a
  logical key is not a schema path, so it is left as it is
  (`FilterCasting.LogicalOperatorUntouched`). The test at
  test/examples.test.js:387-398 expects otherwise.
- Error keys for array elements are `names.$`, not `names.0`: the third
  argument given to `join` at its call sites is ignored.

## Model

| member | source | states |
|---|---|---|
| Common.Join | lib/common.js:23-31 | a numeric segment always makes the path longer than its prefix |
| Common.JoinParts | lib/common.js:27-30 | an empty path yields the key alone; any other path yields `path`, a dot, then the key |
| Common.JoinIndexIsWildcard | lib/common.js:24-26 | a numeric index contributes `$`, never its digits |
| Common.HandleCast | lib/common.js:3-21 | an instance of the type is left as it is, a boxed primitive such as `new Number(5)` included; otherwise for Number the cast fails exactly when `Number(v)` is NaN, with `Could not cast v to Number`, and otherwise yields that number; any other type yields `type(v)`; a successful cast always has the declared type; the only failures are the Number one and `Array(n)` for a number `n` that is negative or at least 2^32, which fails exactly then |
| Common.CastSlot | lib/common.js:13-21 | `handleCast(obj, key, type)` writes only `obj[key]`: every other slot is unchanged, and a failed cast writes nothing and throws the cast's error |
| Common.HandleCastConforming | lib/common.js:14 | a value that already has the declared type is returned unchanged |
| Common.HandleCastIdempotent | lib/common.js:13-21 | casting a cast value again changes nothing |
| Common.BoxedPrimitiveKept | lib/common.js:14 | `new Number(5)`, `new String('x')` and `new Boolean(false)` are instances of their wrapper types and are left as they are |
| Common.ArrayLengthRange | lib/common.js:18 | `Array(n)` throws the RangeError `Invalid array length` exactly when `n` is negative or at least 2^32, and otherwise makes `n` empty slots |
| Common.NumberStringRoundTrip | lib/common.js:4-11 | an integer cast to String and that text cast back to Number gives the integer again |
| CastErrors.WithError | lib/error.js:13 | `errors[path] = err` changes that one entry and no other |
| CastErrors.WithErrorWellFormed | lib/error.js:13 | setting a path keeps the order listing every path exactly once: a new path is appended, an existing one keeps its place |
| CastErrors.MergedUpToCopies | lib/error.js:19-21 | after the first `n` steps of the merge loop the map is the old map overridden by exactly the entries copied so far |
| CastErrors.MergedUpToWellFormed | lib/error.js:19-21 | every step of the merge loop keeps the order listing every path exactly once |
| CastErrors.MergeEntries | lib/error.js:18-22 | a merge yields the old entries overridden by every incoming entry: incoming wins on a collision, entries only in `this` are kept |
| CastErrors.MergeKeeps | lib/error.js:18-21 | a merge never drops a path |
| CastErrors.MergeNothing | lib/error.js:18-21 | merging an aggregate without entries changes nothing |
| CastErrors.MergeIntoNothing | lib/error.js:18-21 | merging into a fresh aggregate copies the other one, order included |
| CastErrors.EntryTexts | lib/error.js:28-29 | text `j` is entry `j` of the insertion order as `"path: error"`, its path followed by `: ` and the text of the error recorded under it |
| CastErrors.ToStringAsWritten | lib/error.js:26-32 | as written, `toString` throws a ReferenceError |
| CastErrors.ToStringAsWrittenNeverDescribes | lib/error.js:28 | as written, `toString` never returns the description of the entries |
| CastErrors.DescribeOneEntry | lib/error.js:26-32 | an aggregate with one entry prints as `path: error` alone |
| CastErrors.CastError.constructor | lib/error.js:6-10 | a fresh aggregate has no entries and `hasError` false |
| CastErrors.CastError.MarkError | lib/error.js:12-16 | sets `errors[path] = err` and no other entry, sets `hasError`, returns `this`, and keeps `hasError` equal to "some entry exists" |
| CastErrors.CastError.Put | lib/error.js:20 | one assignment of the merge loop changes that entry alone |
| CastErrors.CastError.Merge | lib/error.js:18-24 | the entries become old entries overridden by the incoming ones, `hasError` becomes "some entry exists", `this` is returned |
| CastErrors.CastError.PutAll | lib/error.js:19-21 | the loop copies every incoming entry in the incoming order |
| CastErrors.CastError.ToString | lib/error.js:26-32 | the evident intent: every entry as `"path: error"`, in insertion order, joined by `", "` |
| DocumentCasting.ArrayLeafErrorPath | lib/document.js:57 | an element's failure is recorded under `path.$` |
| DocumentCasting.ArrayLeafErrorPathAsWritten | lib/document.js:57 | as written, recording an element's failure throws a ReferenceError |
| DocumentCasting.ArrayLeafErrorPathAsWrittenNeverRecords | lib/document.js:57 | as written, a failing element is never recorded under its path |
| DocumentCasting.VisitedObject | lib/document.js:68-129 | a non-object or an array becomes `null` with exactly one entry, at `path`, `Could not cast v to Object`; `null` and class instances come back unchanged with no entry; an object stays an object |
| DocumentCasting.VisitedArray | lib/document.js:16-31 | an absent or untyped `path.$` leaves the value as it is with no entry, even a non-array; otherwise the result is an array with one element per element of the value, a scalar counting as `[scalar]` |
| DocumentCasting.VisitedElems | lib/document.js:34-60 | the loop yields one element per element visited; what each becomes, and what is recorded for it, is the contract of VisitedElemsFate |
| DocumentCasting.ElemStep | lib/document.js:35-59 | each element visited yields exactly one element; which one is the contract of ElemStepFate |
| DocumentCasting.ElementPath | lib/document.js:36-44 | `join(path, index)` is `path.$`, which is typed and leaves less room below it |
| DocumentCasting.BelowJoinSelf | lib/common.js:27-30 | a joined path lies below the path it extends |
| DocumentCasting.MergeSound | lib/document.js:96-99 | merging a child's aggregate keeps the parent's well formed, below its path and, with `skipCast`, holding only shape errors |
| DocumentCasting.RecordSound | lib/document.js:116-121 | recording a failure below the path keeps the aggregate sound |
| DocumentCasting.VisitedObjectSound | lib/document.js:68-129 | every recorded path lies at or below the visited path; with `skipCast` every recorded error is an object-shape failure |
| DocumentCasting.VisitedFieldsSound | lib/document.js:83-123 | the key loop keeps the aggregate sound |
| DocumentCasting.FieldStepSound | lib/document.js:84-122 | one key's callback keeps the aggregate sound |
| DocumentCasting.VisitedArraySound | lib/document.js:16-65 | every recorded path lies at or below the array's path; with `skipCast`, shape errors only |
| DocumentCasting.VisitedElemsSound | lib/document.js:34-60 | the element loop keeps the aggregate sound |
| DocumentCasting.ElemStepSound | lib/document.js:35-59 | one element's callback keeps the aggregate sound |
| DocumentCasting.ElemStepFate | lib/document.js:35-59 | one element's callback keeps the elements before it, drops no recorded path, and settles its element's fate: a nested array or object becomes its own visit at `path.$` with that visit's entries kept; under `skipCast` a leaf is kept; otherwise a leaf becomes its cast, or stays as it was with the cast's own error recorded under `path.$` |
| DocumentCasting.ElemFateLasts | lib/document.js:34-60 | an element's fate is kept while the elements after it are processed |
| DocumentCasting.ElemFatesCarry | lib/document.js:34-60 | the fates of the elements already visited survive the next callback |
| DocumentCasting.ElemStepFated | lib/document.js:35-59 | after element `i`'s callback, elements `0..i` have all met their fates |
| DocumentCasting.VisitedElemsFate | lib/document.js:34-60 | every element visited meets its fate, in order, and a failed leaf does not stop its siblings |
| DocumentCasting.ArrayElemFate | lib/document.js:16-65 | on a typed `path.$`, element `j` of the resulting array is the fate of element `j` of the value, a scalar counting as `[scalar]` |
| DocumentCasting.VisitedFieldsKnown | lib/document.js:84-88 | every surviving key's path is in the schema |
| DocumentCasting.FieldFateLasts | lib/document.js:83-123 | a key's fate is kept while the keys after it are processed |
| DocumentCasting.FieldStepShape | lib/document.js:84-122 | one callback appends at most its own key, only a key the schema knows, and drops no recorded path |
| DocumentCasting.FieldStepFate | lib/document.js:84-122 | one callback settles the fate of its key; a leaf whose cast throws is kept as it was, with the cast's own error recorded under its path |
| DocumentCasting.VisitedFieldsOmits | lib/document.js:84-88 | a key no input key equals is never in the result |
| DocumentCasting.VisitedFieldsDistinct | lib/document.js:83-123 | the surviving keys stay distinct |
| DocumentCasting.VisitedFieldsFate | lib/document.js:83-123 | every key meets its fate. Unknown keys and null Object-typed keys are deleted. Untyped keys are left alone. Nested values are replaced by their visit and their entries kept. With `skipCast`, leaves are kept as they are. Otherwise each leaf is coerced, or kept with its path recorded, and the keys after it are still processed |
| DocumentCasting.DocumentFieldFate | lib/document.js:12-14 | `castDocument` on an object: distinct surviving keys, exactly the kept keys in their input order, each input key meeting its fate |
| DocumentCasting.FieldStepKeys | lib/document.js:84-122 | one callback appends its key exactly when the key is kept: its path is in the schema, and it is not an Object-typed `null` |
| DocumentCasting.VisitedFieldsOrder | lib/document.js:83-123 | the keys of the visited object are exactly the kept input keys, in input order |
| DocumentCasting.VisitObject | lib/document.js:68-129 | the key loop returns the visit's value, and an aggregate that is `null` exactly when nothing was recorded and otherwise holds the recorded entries |
| DocumentCasting.FieldPass | lib/document.js:84-122 | one callback extends the loop's result by one key |
| DocumentCasting.VisitArray | lib/document.js:16-65 | returns the array visit's value, and `null` or an aggregate of exactly its entries; by ArrayElemFate, each element of that value is its element's fate |
| DocumentCasting.VisitElements | lib/document.js:29-60 | the loop computes the elements and the aggregate of the element walk, which by VisitedElemsFate gives every element its fate |
| DocumentCasting.ElemPass | lib/document.js:35-59 | one element's callback takes the loop's result and aggregate one element further, to the state whose new element ElemStepFate describes |
| DocumentCasting.CastDocument | lib/document.js:12-14 | returns the root visit's value and its aggregate, `null` when empty |
| DocumentCasting.InnerPromotion | test/examples.test.js:129-142 | `1` on `points.$` of `[[Number]]` becomes `[1]` |
| DocumentCasting.OuterPromotion | test/examples.test.js:129-142 | `1` on `points` of `[[Number]]` becomes `[[1]]` |
| DocumentCasting.NestedPromotion | test/examples.test.js:129-142 | `{points: 1}` becomes `{points: [[1]]}` with nothing recorded |
| DocumentCasting.StringForObjectRecorded | test/examples.test.js:159-179 | `name: 'Axl Rose'` on an Object-typed `name` is recorded under `name` and the key holds `null` |
| DocumentCasting.NestedNameCast | test/examples.test.js:325-330 | inside `name`, an unknown key is pruned and `last: 123` becomes `'123'` |
| DocumentCasting.NestedPruneAndCast | test/examples.test.js:311-330 | unknown keys are pruned at every depth while known leaves are coerced |
| FilterCasting.QueryCast | lib/filters.js:40-63 | a value not led by a selector is cast with `handleCast`; a selector-led object keeps its keys, its first key, and every key after the first unchanged |
| FilterCasting.QueryElems | lib/filters.js:50-57 | `$in`/`$nin` yield one cast element per element of the promoted operand; that these are the element casts in order, or the first one's error, is the contract of QueryElemsSequenced |
| FilterCasting.ObjectShapeError | lib/filters.js:28-32 | the evident intent: `Could not cast value to Object`, naming the offending value |
| FilterCasting.ObjectShapeErrorAsWritten | lib/filters.js:30 | as written, the error thrown is a ReferenceError for `obj` |
| FilterCasting.ShapeErrorAsWrittenLosesValue | lib/filters.js:30 | as written, every offending value throws the same error, never the intended one |
| FilterCasting.ShapeErrorThrownByFilter | lib/filters.js:28-32 | `castFilter` on `{key: x}` with a non-object `x` on an Object-typed path throws the intended shape error, so the as-written ReferenceError is what that filter would throw |
| FilterCasting.FilteredContainer | lib/filters.js:14-38 | a cast object keeps its number of keys, a cast array its length, and anything else is returned unchanged; the keys' and elements' contents are the contracts of FilteredFieldsSequenced and FilteredElemsSequenced |
| FilterCasting.FilteredFields | lib/filters.js:15-37 | the key loop never drops a key; what each key holds, or which error is thrown, is the contract of FilteredFieldsSequenced |
| FilterCasting.FilteredFieldsNext | lib/filters.js:15-37 | one more key either extends the result with its cast value or stops the walk with its error |
| FilterCasting.FilteredElems | lib/filters.js:23-27 | the element loop never drops an element; what each element becomes, or which error is thrown, is the contract of FilteredElemsSequenced |
| FilterCasting.FilteredEntry | lib/filters.js:18-35 | an absent or untyped path leaves the value as it is; a non-object or array value on an Object-typed path throws the shape error |
| FilterCasting.FilteredFieldsSequenced | lib/filters.js:15-37 | the key loop runs each key's callback in order: it succeeds exactly when every key does, with each key in its place, and otherwise throws the first failing key's error |
| FilterCasting.FilteredElemsSequenced | lib/filters.js:23-27 | likewise for the elements of an Array-typed value |
| FilterCasting.QueryElemsSequenced | lib/filters.js:50-57 | likewise for the operand of `$in`/`$nin` |
| FilterCasting.FilteredFieldsFailureFinal | lib/filters.js:15-37 | once a key throws, the walk ends with that error |
| FilterCasting.FilteredElemsFailureFinal | lib/filters.js:23-27 | once an element throws, the walk ends with that error |
| FilterCasting.QueryElemsFailureFinal | lib/filters.js:50-57 | once an operand element throws, the walk ends with that error |
| FilterCasting.HandleCastNotLed | lib/filters.js:43-62 | a plain cast never turns a value into a selector-led object |
| FilterCasting.QueryCastIdempotent | lib/filters.js:40-63 | casting a cast query value again changes nothing |
| FilterCasting.QueryElemsTwice | lib/filters.js:50-57 | the `$in`/`$nin` case of that idempotence |
| FilterCasting.HandleCastForQuery | lib/filters.js:40-63 | the recursive method computes the query cast |
| FilterCasting.CastFilter | lib/filters.js:14-38 | the method computes the filter cast |
| FilterCasting.CastFilterFields | lib/filters.js:15-37 | the key loop computes the cast keys or the first error |
| FilterCasting.FieldFilterPass | lib/filters.js:16-36 | one callback extends the loop by one key |
| FilterCasting.CastFilterElems | lib/filters.js:23-27 | the element loop computes the cast elements or the first error |
| FilterCasting.CastFilterEntry | lib/filters.js:18-35 | the callback for one entry |
| FilterCasting.IdWrapped | test/examples.test.js:366-374 | a string `_id` is wrapped in the declared class |
| FilterCasting.SelectorCast | lib/filters.js:43-49 | an object led by a comparison selector or `$not`, whatever keys follow, throws exactly when its first operand's cast throws, with the same error; otherwise only that operand is replaced by its cast, and the first key and the keys after it stay |
| FilterCasting.NotEqCast | test/examples.test.js:367-375 | `{$not: {$eq: '123'}}` on a Number field becomes `{$not: {$eq: 123}}` |
| FilterCasting.InCast | test/examples.test.js:368-376 | `{$in: [123]}` on a String field becomes `{$in: ['123']}` |
| FilterCasting.FilterExample | test/examples.test.js:365-377 | the whole three-key filter is cast key by key |
| FilterCasting.NotANumberThrows | test/examples.test.js:379-385 | `{test: 'not a number'}` throws `Could not cast 'not a number' to Number` |
| FilterCasting.LogicalOperatorUntouched | lib/filters.js:18-21 | an `$or` key is not a schema path, so its operands are left exactly as they are |
| UpdateCasting.UpdatedObject | lib/update.js:66-95 | a non-object or an array throws `Could not cast v to Object`; `null` and class instances come back unchanged; an object stays an object |
| UpdateCasting.UpdatedArray | lib/update.js:41-64 | an absent `path.$` entry throws; an untyped one leaves the value as it is; otherwise the result is an array with one element per element of the promoted value; what those elements are, and which error is thrown, is the contract of UpdatedArraySequenced |
| UpdateCasting.UpdatedElems | lib/update.js:55-63 | a loop that does not throw yields one element per element; that the loop is each element's outcome in order, stopping at the first error, is the contract of UpdatedElemsSequenced |
| UpdateCasting.UpdatedElementFate | lib/update.js:56-62 | element `i` becomes: for an Array element type, its own visit (its cast when `path.$.$` is untyped, and `MissingElementEntry` when that entry is absent); for Object, its visit with `null` becoming `{}`; otherwise its cast; whatever succeeds has the element type |
| UpdateCasting.UpdatedElementOutcomesStep | lib/update.js:55-63 | the outcomes of `n` elements are those of the first `n - 1` followed by element `n - 1`'s |
| UpdateCasting.UpdatedElemsSequenced | lib/update.js:55-63 | the element loop runs each element's callback in order: it succeeds exactly when every element does, with each element's result in its place, and otherwise throws the first failing element's error |
| UpdateCasting.UpdatedArraySequenced | lib/update.js:41-64 | on a typed `path.$`, `visitArray` is the array of the element callbacks' results, or the error of the first that throws |
| UpdateCasting.ElementPath | lib/update.js:57-59 | the element path is `curPath.$`, typed, with less room below it |
| UpdateCasting.ScannedFlags | lib/update.js:11-23 | after the loop, `hasNonDollarKey` is set exactly when some key is plain, `firstDollarKey` is unset exactly when no key is an operator, and it holds the LAST operator key |
| UpdateCasting.ScannedSequenced | lib/update.js:15-23 | the loop visits each operand in order: the rewritten update holds every key in its place, or the first failing operand's error is thrown |
| UpdateCasting.MixedUpdateRejected | lib/update.js:15-27 | an update with both operator and plain keys, whose operands all cast, throws `field names cannot start with $ [k]` for the last operator key `k` |
| UpdateCasting.AllOperandsCast | lib/update.js:15-23 | when every operand casts, the loop runs through |
| UpdateCasting.FirstFailingOperandThrows | lib/update.js:19-25 | the first failing operand's error is what `castUpdate` throws, mixed or not, before the mixed-form check |
| UpdateCasting.OperatorUpdateCast | lib/update.js:15-20 | an operator-only update comes back with the same keys in the same order, each operand cast as a document rooted at the field names, whichever operator holds it, and `overwrite` is ignored |
| UpdateCasting.PlainUpdateCast | lib/update.js:29-38 | a plain-field update is visited as one document, then returned as `{$set: update}` without `overwrite` and unwrapped with it; a failure propagates |
| UpdateCasting.UpdateFieldStepShape | lib/update.js:72-94 | one callback appends exactly the key it is given when that key is kept, and otherwise changes nothing |
| UpdateCasting.UpdatedFieldsPrefix | lib/update.js:72-94 | a walk that does not throw passed every earlier key and only appended |
| UpdateCasting.UpdatedFieldsOmits | lib/update.js:74-77 | a key none of whose occurrences is kept is absent from the result |
| UpdateCasting.UpdateKeyFate | lib/update.js:72-94 | when no error is thrown, unknown keys and null Object-typed keys are deleted, untyped keys are left alone, arrays and objects are replaced by their visit, and leaves by their cast |
| UpdateCasting.UpdatedFieldsFailureFinal | lib/update.js:72-94 | once a key throws, `visitObject` throws that error |
| UpdateCasting.UpdateFieldStepAppends | lib/update.js:72-94 | whether a key's callback throws, and with which error, does not depend on the keys before it; otherwise it appends that key's contribution to them |
| UpdateCasting.UpdatedFieldsSequenced | lib/update.js:72-94 | the key loop of `visitObject` succeeds exactly when every key's callback does, with the keys' contributions concatenated in input order, and otherwise throws the first failing key's error |
| UpdateCasting.UpdatedElemsFailureFinal | lib/update.js:55-63 | once an element throws, `visitArray` throws that error |
| UpdateCasting.ScannedFailureFinal | lib/update.js:15-23 | once an operand throws, `castUpdate` throws that error |
| UpdateCasting.VisitObject | lib/update.js:66-95 | the method's key loop computes the object visit or its error |
| UpdateCasting.FieldPass | lib/update.js:72-94 | one callback of that loop |
| UpdateCasting.VisitArray | lib/update.js:41-64 | the method computes the array visit or its error, which UpdatedArraySequenced ties to the elements' outcomes |
| UpdateCasting.VisitElements | lib/update.js:49-63 | the element loop computes the element walk, that is by UpdatedElemsSequenced the elements' outcomes in order or the first error |
| UpdateCasting.UpdatedElemsNext | lib/update.js:55-63 | one more element either extends the result or stops the walk with its error |
| UpdateCasting.ElemPass | lib/update.js:56-62 | one element's callback computes that element's outcome, described by UpdatedElementFate |
| UpdateCasting.CastUpdate | lib/update.js:10-39 | the flag-setting loop and the checks after it compute the update cast |
| UpdateCasting.OperatorsCast | test/examples.test.js:430-438 | `{$set: {tags: 123}, $inc: {test: '1'}}` becomes `{$set: {tags: '123'}, $inc: {test: 1}}` |
| UpdateCasting.SetOperandCast | test/examples.test.js:430-436 | the `$set` operand's `tags: 123` becomes `'123'` |
| UpdateCasting.IncOperandCast | test/examples.test.js:430-436 | the `$inc` operand's `test: '1'` becomes `1` |
| UpdateCasting.PlainNotANumberThrows | test/examples.test.js:440-445 | `{test: 'not a number'}` throws `Could not cast 'not a number' to Number`, with or without `overwrite` |
| UpdateCasting.MissingElementEntryThrows | lib/update.js:45 | an Array-typed field without a `.$` entry makes the visit throw |

## Left out

- In-place mutation and aliasing: each traversal returns a new tree. When two keys share one sub-object, or a caller keeps a reference to it, the model does not show that the sub-object was changed in place.
- A fail-fast cast that throws part-way has already changed the keys before the failing one. The model returns only the error. This covers update operands cast before the mixed-form check throws.
- `undefined` is not a value of the model: a missing slot is either absent or `null`. Array holes made by `Array(n)` are `null`.
- Class instances (`ObjectId` and the like) are opaque: `_.each` over an instance's own enumerable properties is not modelled. An instance is left as it is.
- lodash iterates an object that has a numeric `length` key as if it were an array. This is not modelled; objects are always iterated by their own keys.
- Key order follows the sequence the object is given in. JavaScript lists integer-like keys first; this is not modelled.
- `Number()` on `null` (0) and on booleans (0 and 1) is exact. On strings it is an integer parse: an empty string is 0, an optionally negated run of digits is its value, and floats, a leading `+` (`'+5'`, 5 in JavaScript), the exponent form (`'1e3'`, 1000 in JavaScript), whitespace, hex and `Infinity` are NaN. A boxed primitive reads as the primitive it boxes, as in JavaScript. Arrays and objects are NaN, whereas JavaScript reads `[]` as 0 and a one-element array such as `[5]` or `['7']` as that element's number. Integers are unbounded: the loss of precision beyond 2^53 and the exponent form `String()` uses from 1e21 are not modelled.
- `String()` of an object is `[object Object]`, and an instance prints the value it wraps. `util.inspect` is approximated by quoting strings.
- `Boolean(v)` is exact: the primitive `true` or `false` by JavaScript truthiness. `Object(null)` giving `{}` and `Object(obj)` giving `obj` are exact. `Object` of a primitive gives its boxed form (`Inst` of `Number`, `String` or `Boolean`), which is an instance of that wrapper type, as `new Number(5) instanceof Number` is in JavaScript; the class constructors are abstract wrappers (`Inst`). `ObjectId` is not validated.
- `realPathToSchemaPath` (lib/document.js:8) is not exported by lib/common.js. As written, `castDocument` therefore throws a TypeError for every object, at lib/document.js:81, and every array visit throws one at lib/document.js:19. The model takes the helper as the identity, because `join` already writes every array level as `$`.
- VisitedElems: its own contract states only the element count; the contents of each element and the paths recorded for it are stated apart, by ElemStepFate and VisitedElemsFate, to keep the recursive function's contract small.
- ElemStep: its own contract states only that one element is appended; which element, and what is recorded, is stated by ElemStepFate.
- UpdatedArray: its own contract states only the element count in the typed case; the elements and the error thrown are stated by UpdatedArraySequenced.
- UpdatedElems: its own contract states only the count on success; the elements and the error thrown are stated by UpdatedElemsSequenced.
- Test expectations the code does not implement are not asserted:
  - traversal of `$or`/`$and`/`$nor`;
  - the `$exists`/`$type` element selectors;
  - literal-index error keys such as `names.0`.
- `index.js` is not part of this model. It registers hooks with the host library. `debug` logging and the test suite are not part of this model either.
- `castUpdate` takes the update as the sequence of its top-level keys. An update that is not an object is not modelled.

## Findings

| source | as written | input that shows it | evidently intended | confidence | as-written member | corrected member |
|---|---|---|---|---|---|---|
| lib/error.js:28 | `toString` iterates `error.errors`, and no `error` is in scope, so every call throws a ReferenceError | any aggregate, even a fresh one | iterate `this.errors` | high; not executed | CastErrors.ToStringAsWritten | CastErrors.CastError.ToString |
| lib/document.js:57 | a failed element cast is recorded under `join(realPath, index, true)`, and `realPath` is undefined, so the catch block throws a ReferenceError and `castDocument` aborts. The line is reached only once `realPathToSchemaPath` exists (see Left out); as written, the TypeError at lib/document.js:81 comes first | `{points: ['x']}` against `points: [Number]`, with `realPathToSchemaPath` supplied as the identity | record the failure under `join(path, index)`, that is `points.$` | high; not executed | DocumentCasting.ArrayLeafErrorPathAsWritten | DocumentCasting.ArrayLeafErrorPath |
| lib/filters.js:30 | the shape error's message inspects the undefined `obj`, so a ReferenceError is thrown instead of `Could not cast <value> to Object` | `{name: 'x'}` against an Object-typed `name` | inspect `value` | high; not executed | FilterCasting.ObjectShapeErrorAsWritten | FilterCasting.ObjectShapeError |
