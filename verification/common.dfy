/** Path building and single-value coercion (lib/common.js). */
module Common {
  import opened Values

  /** The second argument of `join`: an array index (a JavaScript number) or an object key. */
  datatype Segment = Index(i: nat) | Name(key: string)

  /** The text a segment contributes to a canonical path: an index becomes `$`. */
  function SegmentText(seg: Segment): string {
    match seg
    case Index(_) => "$"
    case Name(k) => k
  }

  /** `join(path, key)`: the canonical schema path of `key` below `path`; an
      empty path stands for the root (JavaScript `undefined` and `''` alike). */
  function Join(path: string, seg: Segment): (r: string)
    ensures seg.Index? ==> |r| > |path|
  {
    var key := SegmentText(seg);
    if path != "" then path + "." + key else key
  }

  /** An empty path contributes nothing; any other path is followed by a dot
      and then the segment's text. */
  lemma JoinParts(path: string, seg: Segment)
    ensures path == "" ==> Join(path, seg) == SegmentText(seg)
    ensures path != "" ==> |Join(path, seg)| == |path| + 1 + |SegmentText(seg)|
                           && Join(path, seg)[..|path|] == path && Join(path, seg)[|path|] == '.'
                           && Join(path, seg)[|path| + 1..] == SegmentText(seg)
  {
  }

  /** A numeric key contributes the wildcard `$`, never the literal index. */
  lemma JoinIndexIsWildcard(path: string, i: nat)
    ensures Join(path, Index(i)) == Join(path, Name("$"))
    ensures Join(path, Index(i))[|Join(path, Index(i))| - 1] == '$'
  {
  }

  // ---- JavaScript's Number() on the values it can read as integers ----

  predicate IsDigit(c: char) {
    '0' <= c <= '9'
  }

  predicate AllDigits(s: string) {
    forall i :: 0 <= i < |s| ==> IsDigit(s[i])
  }

  function DigitChar(d: nat): (c: char)
    requires d < 10
    ensures IsDigit(c)
  {
    ('0' as int + d) as char
  }

  /** The value of a run of decimal digits, read left to right. */
  function ParseDigits(s: string): nat
    requires AllDigits(s)
  {
    if s == [] then 0
    else 10 * ParseDigits(s[..|s| - 1]) + (s[|s| - 1] as int - '0' as int)
  }

  /** The decimal text of a natural number, without leading zeros. */
  function NatText(n: nat): (s: string)
    ensures |s| > 0 && AllDigits(s)
  {
    if n < 10 then [DigitChar(n)] else NatText(n / 10) + [DigitChar(n % 10)]
  }

  /** `String(n)` for an integer. */
  function IntText(n: int): string {
    if n < 0 then "-" + NatText(-n) else NatText(n)
  }

  /** `Number(s)` for a string: `''` reads as 0, an optionally negated run of
      digits reads as its value, and anything else is NaN (`None`). */
  function ParseNumber(s: string): Option<int> {
    if s == "" then Some(0)
    else if s[0] == '-' && |s| > 1 && AllDigits(s[1..]) then Some(0 - ParseDigits(s[1..]) as int)
    else if AllDigits(s) then Some(ParseDigits(s))
    else None
  }

  /** `Number(v)`; `None` where JavaScript yields NaN. A boxed primitive
      reads as the primitive it boxes. */
  function NumberOf(v: Value): Option<int> {
    match v
    case Null => Some(0)
    case Bool(b) => Some(if b then 1 else 0)
    case Num(n) => Some(n)
    case Str(s) => ParseNumber(s)
    case Inst(c, p) => if IsBoxClass(c) then NumberOf(p) else None
    case _ => None
  }

  /** The wrapper classes of the primitives, which `Object(v)` and `new`
      produce around a number, string or boolean. */
  predicate IsBoxClass(c: string) {
    c == "Number" || c == "String" || c == "Boolean"
  }

  lemma {:induction false} ParseNatText(n: nat)
    ensures ParseDigits(NatText(n)) == n
    decreases n
  {
    if n >= 10 {
      var s := NatText(n);
      assert s[..|s| - 1] == NatText(n / 10);
      ParseNatText(n / 10);
    }
  }

  /** Reading back the text of an integer gives the integer. */
  lemma NumberOfIntText(n: int)
    ensures ParseNumber(IntText(n)) == Some(n)
  {
    if n < 0 {
      var s := IntText(n);
      assert s[1..] == NatText(-n);
      ParseNatText(-n);
    } else {
      ParseNatText(n);
    }
  }

  // ---- JavaScript's String() and Boolean() ----

  /** `String(v)`. Arrays join their elements' texts with commas, null
      elements contributing nothing; an instance prints the value it wraps. */
  function Stringify(v: Value): string
    decreases v, Width(v) + 1
  {
    match v
    case Null => "null"
    case Bool(b) => if b then "true" else "false"
    case Num(n) => IntText(n)
    case Str(s) => s
    case Arr(es) => ElementsText(v, |es|)
    case Obj(_) => "[object Object]"
    case Inst(_, p) => Stringify(p)
  }

  /** `Array.prototype.join(',')` over the first `n` elements of `a`. */
  function ElementsText(a: Value, n: nat): string
    requires a.Arr? && n <= |a.elems|
    decreases a, n
  {
    if n == 0 then ""
    else
      var e := a.elems[n - 1];
      var t := if e.Null? then "" else Stringify(e);
      if n == 1 then t else ElementsText(a, n - 1) + "," + t
  }

  /** `Boolean(v)`. */
  predicate Truthy(v: Value) {
    match v
    case Null => false
    case Bool(b) => b
    case Num(n) => n != 0
    case Str(s) => s != ""
    case _ => true
  }

  // ---- handleCast ----

  /** `v instanceof type`. Primitives are never instances of their wrapper
      types, but boxed ones (`new Number(5)`) are; every array, object and
      class instance is an `Object`. */
  predicate InstanceOf(v: Value, t: Type) {
    match t
    case TNumber => v.Inst? && v.cls == "Number"
    case TString => v.Inst? && v.cls == "String"
    case TBoolean => v.Inst? && v.cls == "Boolean"
    case TArray => v.Arr?
    case TObject => v.Arr? || v.Obj? || v.Inst?
    case TClass(c) => v.Inst? && v.cls == c
  }

  /** The value already has the declared type: a primitive of that type or an
      instance of it. */
  predicate Conforms(v: Value, t: Type) {
    match t
    case TNumber => v.Num? || InstanceOf(v, t)
    case TString => v.Str? || InstanceOf(v, t)
    case TBoolean => v.Bool? || InstanceOf(v, t)
    case _ => InstanceOf(v, t)
  }

  /** One more than the largest length `Array(n)` accepts: 2^32 - 1. */
  const MaxArrayLength: int := 0x1_0000_0000

  /** `type(v)`: the declared type called as a plain function. `Array(n)`
      makes `n` empty slots (here `null`s) and throws a RangeError unless
      `n` is a valid array length, below 2^32;
      `Object(v)` boxes a primitive; a class such as `ObjectId` wraps `v`. */
  function Convert(t: Type, v: Value): (r: Result<Value>)
    requires t != TNumber
  {
    match t
    case TString => Ok(Str(Stringify(v)))
    case TBoolean => Ok(Bool(Truthy(v)))
    case TArray =>
      if v.Num? then
        if 0 <= v.n < MaxArrayLength then Ok(Arr(seq(v.n, _ => Null))) else Err(InvalidArrayLength(v.n))
      else Ok(Arr([v]))
    case TObject =>
      (match v
       case Null => Ok(Obj([]))
       case Bool(_) => Ok(Inst("Boolean", v))
       case Num(_) => Ok(Inst("Number", v))
       case Str(_) => Ok(Inst("String", v))
       case _ => Ok(v))
    case TClass(c) => Ok(Inst(c, v))
  }

  /** The value `handleCast(obj, key, type)` leaves in `obj[key]`, or the
      error it throws. Callers store the value into that one slot and leave
      every other slot of the container as it was. */
  function HandleCast(v: Value, t: Type): (r: Result<Value>)
    ensures InstanceOf(v, t) ==> r == Ok(v)
    ensures t == TNumber && !InstanceOf(v, t) ==> (r.Err? <==> NumberOf(v).None?)
    ensures t == TNumber && !InstanceOf(v, t) && r.Ok? ==> r.value == Num(NumberOf(v).value)
    ensures t == TNumber && r.Err? ==> r.error == CouldNotCast(v, "Number")
    ensures t != TNumber && !InstanceOf(v, t) ==> r == Convert(t, v)
    ensures r.Ok? ==> Conforms(r.value, t)
    ensures r.Err? ==> (t == TNumber && r.error.CouldNotCast?) || (t == TArray && r.error.InvalidArrayLength?)
    ensures t == TArray && v.Num? ==> (r.Err? <==> !(0 <= v.n < MaxArrayLength))
    ensures t == TArray && v.Num? && r.Ok? ==> |r.value.elems| == v.n
  {
    if InstanceOf(v, t) then Ok(v)
    else if t == TNumber then
      match NumberOf(v)
      case None => Err(CouldNotCast(v, "Number"))
      case Some(n) => Ok(Num(n))
    else Convert(t, v)
  }

  /** `handleCast(obj, key, type)` on the `i`-th own key of an object: that
      slot alone takes the cast value, or the call throws and nothing is written. */
  function CastSlot(fields: seq<(string, Value)>, i: nat, t: Type): (r: Result<seq<(string, Value)>>)
    requires i < |fields|
    ensures r.Err? <==> HandleCast(fields[i].1, t).Err?
    ensures r.Err? ==> r.error == HandleCast(fields[i].1, t).error
    ensures r.Ok? ==> |r.value| == |fields| && r.value[i] == (fields[i].0, HandleCast(fields[i].1, t).value)
    ensures r.Ok? ==> forall j :: 0 <= j < |fields| && j != i ==> r.value[j] == fields[j]
  {
    var y :- HandleCast(fields[i].1, t);
    Ok(fields[i := (fields[i].0, y)])
  }

  /** A value that already has the declared type is left exactly as it is. */
  lemma HandleCastConforming(v: Value, t: Type)
    requires Conforms(v, t)
    ensures HandleCast(v, t) == Ok(v)
  {
  }

  /** A boxed primitive (`new Number(5)`, `new String('x')`, `new Boolean(false)`)
      is an instance of its wrapper type, so `handleCast` leaves it as it is. */
  lemma BoxedPrimitiveKept(v: Value, t: Type)
    requires v.Inst?
    requires (t == TNumber && v.cls == "Number") || (t == TString && v.cls == "String")
             || (t == TBoolean && v.cls == "Boolean")
    ensures HandleCast(v, t) == Ok(v)
  {
  }

  /** `Array(n)` throws a RangeError exactly when `n` is negative or at least
      2^32, and otherwise makes `n` empty slots. */
  lemma ArrayLengthRange(n: int)
    ensures HandleCast(Num(n), TArray).Err? <==> n < 0 || n >= 0x1_0000_0000
    ensures HandleCast(Num(n), TArray).Err? ==> HandleCast(Num(n), TArray).error == InvalidArrayLength(n)
    ensures HandleCast(Num(n), TArray).Ok? ==> HandleCast(Num(n), TArray).value == Arr(seq(n, _ => Null))
  {
  }

  /** Casting twice is casting once. */
  lemma HandleCastIdempotent(v: Value, t: Type)
    requires HandleCast(v, t).Ok?
    ensures HandleCast(HandleCast(v, t).value, t) == HandleCast(v, t)
  {
    HandleCastConforming(HandleCast(v, t).value, t);
  }

  /** An integer cast to String and back to Number is the integer again. */
  lemma NumberStringRoundTrip(n: int)
    ensures HandleCast(Num(n), TString) == Ok(Str(IntText(n)))
    ensures HandleCast(Str(IntText(n)), TNumber) == Ok(Num(n))
  {
    NumberOfIntText(n);
  }
}
