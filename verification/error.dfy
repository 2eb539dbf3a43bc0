/** The accumulating cast-error aggregate (lib/error.js). */
module CastErrors {
  import opened Values
  import opened Common

  /** An aggregate's contents: path to error, and the order in which the paths
      were first set (the order `_.each` and `toString` walk them in). */
  datatype Errors = Errors(entries: map<string, Error>, order: seq<string>)

  /** The order lists every path of the map exactly once. */
  ghost predicate WellFormed(e: Errors) {
    (forall i, j :: 0 <= i < j < |e.order| ==> e.order[i] != e.order[j])
    && (forall k :: k in e.entries <==> k in e.order)
    && (e.order == [] <==> e.entries == map[])
  }

  const NoErrors: Errors := Errors(map[], [])

  /** `errors[path] = err`: a new path is appended to the order, a path already
      present keeps its place and gets the new error. */
  function WithError(e: Errors, path: string, err: Error): (r: Errors)
    ensures r.entries == e.entries[path := err]
  {
    Errors(e.entries[path := err], if path in e.entries then e.order else e.order + [path])
  }

  /** Setting one path keeps the order listing every path exactly once. */
  lemma WithErrorWellFormed(e: Errors, path: string, err: Error)
    requires WellFormed(e)
    ensures WellFormed(WithError(e, path, err))
    ensures path !in e.entries ==> WithError(e, path, err).order == e.order + [path]
    ensures path in e.entries ==> WithError(e, path, err).order == e.order
  {
  }

  /** `a` after copying in the first `n` entries of `b`, in `b`'s order. */
  function MergedUpTo(a: Errors, b: Errors, n: nat): Errors
    requires n <= |b.order|
  {
    if n == 0 then a
    else
      var key := b.order[n - 1];
      var prev := MergedUpTo(a, b, n - 1);
      if key in b.entries then WithError(prev, key, b.entries[key]) else prev
  }

  /** `a.merge(b)`: every entry of `b` is copied in, in `b`'s order. */
  function MergeErrors(a: Errors, b: Errors): Errors {
    MergedUpTo(a, b, |b.order|)
  }

  /** The entries of `b` among its first `n` paths. */
  function Copied(b: Errors, n: nat): map<string, Error>
    requires n <= |b.order|
  {
    if n == 0 then map[]
    else
      var key := b.order[n - 1];
      if key in b.entries then Copied(b, n - 1)[key := b.entries[key]] else Copied(b, n - 1)
  }

  /** Copying in `b`'s first `n` entries overrides `a` with exactly those. */
  lemma {:induction false} MergedUpToCopies(a: Errors, b: Errors, n: nat)
    requires n <= |b.order|
    ensures MergedUpTo(a, b, n).entries == a.entries + Copied(b, n)
  {
    if n > 0 {
      MergedUpToCopies(a, b, n - 1);
    }
  }

  /** What is copied is part of `b`, and every path among the first `n` that
      `b` holds is copied. */
  lemma {:induction false} CopiedPart(b: Errors, n: nat)
    requires n <= |b.order|
    ensures forall k :: k in Copied(b, n) ==> k in b.entries && Copied(b, n)[k] == b.entries[k]
    ensures forall j :: 0 <= j < n && b.order[j] in b.entries ==> b.order[j] in Copied(b, n)
  {
    if n > 0 {
      CopiedPart(b, n - 1);
    }
  }

  lemma {:induction false} MergedUpToWellFormed(a: Errors, b: Errors, n: nat)
    requires WellFormed(a) && n <= |b.order|
    ensures WellFormed(MergedUpTo(a, b, n))
  {
    if n > 0 {
      MergedUpToWellFormed(a, b, n - 1);
      var key := b.order[n - 1];
      if key in b.entries {
        WithErrorWellFormed(MergedUpTo(a, b, n - 1), key, b.entries[key]);
      }
    }
  }

  lemma {:induction false} MergedUpToKeeps(a: Errors, b: Errors, n: nat)
    requires n <= |b.order|
    ensures a.entries.Keys <= MergedUpTo(a, b, n).entries.Keys
  {
    if n > 0 {
      MergedUpToKeeps(a, b, n - 1);
    }
  }

  /** Merging keeps every path `a` had, adds every path `b` has with `b`'s
      error winning on a shared path, and keeps the order well formed. */
  lemma MergeEntries(a: Errors, b: Errors)
    requires WellFormed(b)
    ensures MergeErrors(a, b).entries == a.entries + b.entries
    ensures WellFormed(a) ==> WellFormed(MergeErrors(a, b))
  {
    MergedUpToCopies(a, b, |b.order|);
    CopiedPart(b, |b.order|);
    assert Copied(b, |b.order|) == b.entries by {
      forall k | k in b.entries
        ensures k in Copied(b, |b.order|)
      {
        var j :| 0 <= j < |b.order| && b.order[j] == k;
      }
    }
    if WellFormed(a) {
      MergedUpToWellFormed(a, b, |b.order|);
    }
  }

  /** Merging never drops a path, whatever `b` is. */
  lemma MergeKeeps(a: Errors, b: Errors)
    ensures a.entries.Keys <= MergeErrors(a, b).entries.Keys
  {
    MergedUpToKeeps(a, b, |b.order|);
  }

  lemma {:induction false} MergedUpToNothing(a: Errors, b: Errors, n: nat)
    requires b.entries == map[] && n <= |b.order|
    ensures MergedUpTo(a, b, n) == a
  {
    if n > 0 {
      MergedUpToNothing(a, b, n - 1);
    }
  }

  /** Merging an aggregate without entries changes nothing. */
  lemma MergeNothing(a: Errors, b: Errors)
    requires b.entries == map[]
    ensures MergeErrors(a, b) == a
  {
    MergedUpToNothing(a, b, |b.order|);
  }

  /** Merging into an aggregate without entries copies the other one, order included. */
  lemma MergeIntoNothing(b: Errors)
    requires WellFormed(b)
    ensures MergeErrors(NoErrors, b) == b
  {
    MergedUpToFresh(b, |b.order|);
    MergeEntries(NoErrors, b);
    assert b.order[..|b.order|] == b.order;
  }

  lemma {:induction false} MergedUpToFresh(b: Errors, n: nat)
    requires WellFormed(b) && n <= |b.order|
    ensures MergedUpTo(NoErrors, b, n).order == b.order[..n]
    ensures forall k :: k in MergedUpTo(NoErrors, b, n).entries <==> k in b.order[..n]
  {
    if n > 0 {
      MergedUpToFresh(b, n - 1);
      var key := b.order[n - 1];
      assert key in b.entries;
      assert b.order[..n] == b.order[..n - 1] + [key];
      assert key !in b.order[..n - 1] by {
        var prefix := b.order[..n - 1];
        forall j | 0 <= j < |prefix|
          ensures prefix[j] != key
        {
          assert prefix[j] == b.order[j];
        }
      }
    }
  }

  // ---- how an aggregate prints ----

  /** `util.inspect(v)`: strings in single quotes, anything else as `String(v)`. */
  function Inspect(v: Value): string {
    if v.Str? then "'" + v.s + "'" else Stringify(v)
  }

  function Message(e: Error): string {
    match e
    case CouldNotCast(v, t) => "Could not cast " + Inspect(v) + " to " + t
    case DollarFieldName(k) => "field names cannot start with $ [" + k + "]"
    case MissingElementEntry(_) => "Cannot read property '$type' of undefined"
    case InvalidArrayLength(_) => "Invalid array length"
    case ReferenceError(name) => name + " is not defined"
  }

  /** `${err}`: the error's class name, a colon and its message. */
  function ErrorText(e: Error): string {
    var name :=
      match e
      case MissingElementEntry(_) => "TypeError"
      case InvalidArrayLength(_) => "RangeError"
      case ReferenceError(_) => "ReferenceError"
      case _ => "Error";
    name + ": " + Message(e)
  }

  /** The `"<path>: <error>"` texts of the first `n` entries, in order. */
  function EntryTexts(e: Errors, n: nat): (parts: seq<string>)
    requires WellFormed(e) && n <= |e.order|
    ensures |parts| == n
    ensures forall j :: 0 <= j < n ==>
              e.order[j] in e.entries && parts[j] == e.order[j] + ": " + ErrorText(e.entries[e.order[j]])
  {
    if n == 0 then []
    else
      var key := e.order[n - 1];
      assert key in e.order;
      EntryTexts(e, n - 1) + [key + ": " + ErrorText(e.entries[key])]
  }

  /** `parts.join(sep)`. */
  function JoinWith(parts: seq<string>, sep: string): string {
    if |parts| == 0 then ""
    else if |parts| == 1 then parts[0]
    else JoinWith(parts[..|parts| - 1], sep) + sep + parts[|parts| - 1]
  }

  /** What `toString` is evidently meant to return. */
  function Describe(e: Errors): string
    requires WellFormed(e)
  {
    JoinWith(EntryTexts(e, |e.order|), ", ")
  }

  /** `toString` as written: it walks `error.errors`, and no `error` is in
      scope in lib/error.js, so every call throws. */
  function ToStringAsWritten(e: Errors): (r: Result<string>)
    ensures r.Err? && r.error.ReferenceError?
  {
    Err(ReferenceError("error"))
  }

  /** The discrepancy: as written, `toString` never yields the description. */
  lemma ToStringAsWrittenNeverDescribes(e: Errors)
    requires WellFormed(e)
    ensures ToStringAsWritten(e) != Ok(Describe(e))
  {
  }

  /** An aggregate with one entry prints as that entry alone. */
  lemma DescribeOneEntry(path: string, err: Error)
    ensures Describe(WithError(NoErrors, path, err)) == path + ": " + ErrorText(err)
  {
  }

  /** The aggregate object. Its invariant, kept by the constructor, `MarkError`
      and `Merge`, is that `hasError` holds exactly when the map is non-empty. */
  class CastError {
    var errors: map<string, Error>
    var order: seq<string>
    var hasError: bool

    ghost predicate Valid()
      reads this
    {
      WellFormed(Errors(errors, order)) && (hasError <==> errors != map[])
    }

    function Model(): Errors
      reads this
    {
      Errors(errors, order)
    }

    constructor ()
      ensures Valid()
      ensures errors == map[] && order == [] && !hasError
    {
      errors := map[];
      order := [];
      hasError := false;
    }

    /** Records `err` at `path`, marks the aggregate as failed and returns it. */
    method MarkError(path: string, err: Error) returns (self: CastError)
      requires Valid()
      modifies this
      ensures Valid() && self == this
      ensures errors == old(errors)[path := err] && hasError
      ensures Model() == WithError(old(Model()), path, err)
    {
      Put(path, err);
      hasError := true;
      self := this;
    }

    /** `this.errors[path] = err`, leaving `hasError` as it is. */
    method Put(path: string, err: Error)
      modifies this
      ensures Model() == WithError(old(Model()), path, err) && hasError == old(hasError)
    {
      if path !in errors {
        order := order + [path];
      }
      errors := errors[path := err];
    }

    /** Copies every entry of `other` in, then recomputes `hasError`. */
    method Merge(other: CastError) returns (self: CastError)
      requires Valid() && other.Valid()
      modifies this
      ensures Valid() && self == this
      ensures errors == old(errors) + old(other.errors)
      ensures hasError <==> errors != map[]
      ensures Model() == MergeErrors(old(Model()), old(other.Model()))
    {
      MergeEntries(Model(), other.Model());
      PutAll(other.Model());
      hasError := errors != map[];
      self := this;
    }

    /** The `_.each` loop of `merge`: `this.errors[path] = err` for every entry
        of `incoming`, in its order. */
    method PutAll(incoming: Errors)
      requires WellFormed(incoming)
      modifies this
      ensures Model() == MergeErrors(old(Model()), incoming) && hasError == old(hasError)
    {
      var i := 0;
      while i < |incoming.order|
        invariant 0 <= i <= |incoming.order|
        invariant Model() == MergedUpTo(old(Model()), incoming, i) && hasError == old(hasError)
      {
        var key := incoming.order[i];
        assert key in incoming.entries;
        Put(key, incoming.entries[key]);
        i := i + 1;
      }
    }

    /** Every entry as `"<path>: <error>"`, in order, joined by `", "`. */
    method ToString() returns (s: string)
      requires Valid()
      ensures s == Describe(Model())
    {
      var parts: seq<string> := [];
      var i := 0;
      while i < |order|
        invariant 0 <= i <= |order|
        invariant parts == EntryTexts(Model(), i)
      {
        var key := order[i];
        parts := parts + [key + ": " + ErrorText(errors[key])];
        i := i + 1;
      }
      s := JoinWith(parts, ", ");
    }
  }
}
