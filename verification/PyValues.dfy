/** The dynamically typed arguments of the command layer, and the number test of DR_common2.py. */
module PyValues {

  /** A Python value as far as the checks can tell; floats are NaN-free reals. */
  datatype Py =
    | None | Bool(b: bool) | Int(i: int) | Float(r: real) | Str(s: string)
    | List(items: seq<Py>) | Posj(items: seq<Py>) // an instance of posj is a list of its own type

  /** DR_Error with DR_ERROR_TYPE or DR_ERROR_VALUE, and Python's own TypeError, ValueError and
      UnboundLocalError; `NativeAssert` is what a request field of fixed length raises. */
  datatype Exception = DrType | DrValue | NativeType | NativeValue | UnboundLocal | NativeAssert

  datatype Result<T> = Ok(value: T) | Raise(exn: Exception)

  /** How a service call ends: with a response, with none, or with an exception. */
  datatype Reply = Answered(success: bool) | NoResponse | Throws

  /** What a command returns after its service call. When the call threw, the `return` statement reads
      a variable that was never assigned. */
  function ReturnOf(reply: Reply): Result<int> {
    match reply
    case Answered(success) => Ok(if success then 0 else -1)
    case NoResponse => Ok(-1)
    case Throws => Raise(UnboundLocal)
  }

  /** What `float(s)` reads from a text; any partial function will do. */
  datatype FloatReader = FloatReader(read: string -> Result<real>)

  function Read(reader: FloatReader, s: string): Result<real> {
    match reader.read(s)
    case Ok(x) => Ok(x)
    case Raise(_) => Raise(NativeValue)
  }

  /** `float(v)`. */
  function FloatOf(reader: FloatReader, v: Py): Result<real> {
    match v
    case Str(s) => Read(reader, s)
    case None => Raise(NativeType)
    case List(_) => Raise(NativeType)
    case Posj(_) => Raise(NativeType)
    case _ => Ok(Num(v))
  }

  /** The value in arithmetic and comparisons; strings, lists and None have none (TypeError). */
  predicate Numeric(v: Py) {
    v.Bool? || v.Int? || v.Float?
  }

  function Num(v: Py): real
    requires Numeric(v)
  {
    match v
    case Bool(b) => if b then 1.0 else 0.0
    case Int(i) => i as real
    case Float(r) => r
  }

  /** `type(v) == int or type(v) == float`; a bool is neither. */
  predicate IntOrFloat(v: Py) {
    v.Int? || v.Float?
  }

  /** `get_param(x, y)`. */
  function GetParam(x: Py, y: Py): Py {
    if x != None then x else y
  }

  /** `is_number`. Its loop returns in the first iteration, and a string is iterable too. */
  function IsNumber(v: Py): Result<bool> {
    if Iterable(v) then
      if v.items == [] then Ok(true) else if v.items[0].Str? then Ok(false) else IsNumber(v.items[0])
    else if v.Str? then Ok(v.s == "")
    else if v == None then Raise(NativeType)
    else Ok(true)
  }

  predicate Iterable(v: Py) {
    v.List? || v.Posj?
  }

  /** Only the head of a list is looked at, so a list can pass with anything behind its first item. */
  lemma IsNumberSeesOnlyTheHead(x: Py, rest: seq<Py>, other: seq<Py>)
    ensures IsNumber(List([x] + rest)) == IsNumber(List([x] + other))
    ensures Numeric(x) ==> IsNumber(List([x] + rest)) == Ok(true)
  {
  }

  /** The leaf that is reached by going to the first item again and again; a list only if it is empty. */
  function Head(v: Py): (h: Py)
    ensures Iterable(h) ==> h.items == []
  {
    if Iterable(v) && v.items != [] then Head(v.items[0]) else v
  }

  predicate HeadPasses(v: Py) {
    Numeric(Head(v)) || Iterable(Head(v))
  }

  /** What `is_number` answers, for every value: it accepts a number or an empty list at the head and
      the empty string, raises if the head is None, and refuses the rest. */
  lemma {:induction false} IsNumberAcceptsExactly(v: Py)
    ensures IsNumber(v) == Ok(true) <==> HeadPasses(v) || v == Str("")
    ensures IsNumber(v) == Raise(NativeType) <==> Head(v) == None
    ensures IsNumber(v) == Ok(false) <==> Head(v).Str? && v != Str("")
    ensures IsNumber(v).Raise? ==> IsNumber(v) == Raise(NativeType)
  {
    if Iterable(v) && v.items != [] { IsNumberAcceptsExactly(v.items[0]); }
  }

  /** What the test is meant to find out: every leaf is a number. */
  predicate AllNumbers(v: Py) {
    if Iterable(v) then forall k | 0 <= k < |v.items| :: AllNumbers(v.items[k]) else Numeric(v)
  }

  /** Every leaf but the head is a number. */
  predicate NumbersBehindHead(v: Py) {
    Iterable(v) && v.items != [] ==>
      NumbersBehindHead(v.items[0]) && forall k | 1 <= k < |v.items| :: AllNumbers(v.items[k])
  }

  lemma {:induction false} HeadAndRest(v: Py)
    ensures AllNumbers(v) <==> HeadPasses(v) && NumbersBehindHead(v)
  {
    if Iterable(v) && v.items != [] { HeadAndRest(v.items[0]); }
  }

  /** The test misses its purpose exactly for the empty string and for lists whose head is a number (or
      an empty list) with something else than a number behind it. */
  lemma IsNumberErrsExactlyWhen(v: Py)
    ensures (IsNumber(v) == Ok(true)) != AllNumbers(v) <==> v == Str("") || (HeadPasses(v) && !NumbersBehindHead(v))
  {
    IsNumberAcceptsExactly(v);
    HeadAndRest(v);
  }

  /** For a list without inner lists: when the first item is a number and a later one is not. */
  lemma FlatListErrsExactlyWhen(items: seq<Py>)
    requires forall k | 0 <= k < |items| :: !Iterable(items[k])
    ensures (IsNumber(List(items)) == Ok(true)) != AllNumbers(List(items)) <==>
      items != [] && Numeric(items[0]) && exists k | 1 <= k < |items| :: !Numeric(items[k])
  {
    IsNumberErrsExactlyWhen(List(items));
    if items != [] { assert Head(List(items)) == Head(items[0]) == items[0]; }
  }
}
