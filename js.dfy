/** JavaScript values and the few language and library rules the server code
    relies on: truthiness and `||`, destructuring defaults, ramda's
    `pathOr`/`propOr`, `const [x] = xs`, and `String.prototype.replace` with a
    string pattern. Exceptions are modelled as a `Completion`, after the
    ECMAScript completion records (a normal value, or a thrown one). */
module Js {

  datatype Option<+T> = None | Some(value: T)

  /** A JavaScript value, as far as the request pipeline needs one. */
  datatype Value =
    | Undefined
    | Null
    | Bool(b: bool)
    | Num(n: int)
    | Str(s: string)
    | Arr(items: seq<Value>)
    | Obj(props: map<string, Value>)
      /** An `Error` instance: its name, message and `status` own property
          (`Undefined` while nobody has set it). */
    | ErrorObj(name: string, message: string, status: Value)
      /** The function ramda's `always(result)` builds: it ignores its
          arguments and returns `result`. */
    | ConstFn(result: Value)
      /** The incoming request object itself. */
    | Req(request: Request)

  /** The parts of an Express request the handlers read. `context` is the
      field the server's first middleware writes. */
  datatype Request = Request(
    query: map<string, Value>,
    body: Value,
    params: map<string, string>,
    context: Option<Context>)

  /** The per-process request context `{log, db}`; both are handles to
      foreign objects (a bunyan logger, a knex instance). */
  datatype Context = Context(log: Logger, db: DbHandle)
  datatype Logger = Logger(name: string, level: string)
  datatype DbHandle = DbHandle(id: nat)

  /** The outcome of evaluating JavaScript code that may throw. */
  datatype Completion<+T> = Normal(value: T) | Throw(thrown: Value) {
    predicate IsFailure() { Throw? }
    function PropagateFailure<U>(): Completion<U>
      requires Throw?
    {
      Throw(thrown)
    }
    function Extract(): T
      requires Normal?
    {
      value
    }
  }

  /** `new Error(message)`. */
  function NewError(message: string): Value {
    ErrorObj("Error", message, Undefined)
  }

  /** The TypeError the engine throws when code reads a property of
      `undefined`; the message text is the engine's, not the program's. */
  function TypeError(message: string): Value {
    ErrorObj("TypeError", message, Undefined)
  }

  /** JavaScript truthiness (NaN and -0 are not modelled). */
  predicate Truthy(v: Value) {
    match v
    case Undefined => false
    case Null => false
    case Bool(b) => b
    case Num(n) => n != 0
    case Str(s) => s != ""
    case _ => true
  }

  /** `a || b`. */
  function Or(a: Value, b: Value): Value {
    if Truthy(a) then a else b
  }

  /** A destructuring default `{ x = d } = o`: only `undefined` is replaced. */
  function OrDefault(v: Value, d: Value): Value {
    if v.Undefined? then d else v
  }

  /** ramda's `pathOr`/`propOr` fall back when the value found is `undefined`
      or `null`. */
  function PathOr(d: Value, v: Value): Value {
    if v.Undefined? || v.Null? then d else v
  }

  /** Property read `m[k]` on a plain object. */
  function Get(m: map<string, Value>, k: string): Value {
    if k in m then m[k] else Undefined
  }

  /** `const [x] = xs`: the first element, `undefined` for an empty array. */
  function First(xs: seq<Value>): Value {
    if |xs| == 0 then Undefined else xs[0]
  }

  /** The own enumerable properties an object spread `{...v}` copies. */
  function Spread(v: Value): map<string, Value> {
    if v.Obj? then v.props else map[]
  }

  /** Concatenation regroups; stated once so that proofs about growing
      stacks need not rediscover it element by element. */
  lemma AppendAssoc<T>(a: seq<T>, b: seq<T>, c: seq<T>)
    ensures (a + b) + c == a + (b + c)
  {
  }

  // ---------------------------------------------------------------------
  // String.prototype.replace with a string pattern
  // ---------------------------------------------------------------------

  predicate OccursAt(s: string, pat: string, i: nat) {
    i + |pat| <= |s| && s[i..i + |pat|] == pat
  }

  lemma OccursAtTail(s: string, pat: string, k: nat)
    requires |s| > 0
    ensures OccursAt(s, pat, k + 1) <==> OccursAt(s[1..], pat, k)
  {
    if k + 1 + |pat| <= |s| {
      assert s[k + 1..k + 1 + |pat|] == s[1..][k..k + |pat|];
    }
  }

  /** `s.indexOf(pat)`: where the first occurrence of `pat` starts. */
  function IndexOf(s: string, pat: string): (r: Option<nat>)
    ensures r.Some? ==> OccursAt(s, pat, r.value)
    ensures forall j: nat :: (r.None? || j < r.value) ==> !OccursAt(s, pat, j)
    decreases |s|
  {
    if OccursAt(s, pat, 0) then Some(0)
    else if |s| == 0 then None
    else
      var r := IndexOf(s[1..], pat);
      forall j: nat | 0 < j && (r.None? || j - 1 < r.value)
        ensures !OccursAt(s, pat, j)
      {
        OccursAtTail(s, pat, j - 1);
      }
      match r
      case None => None
      case Some(k) => OccursAtTail(s, pat, k); Some(k + 1)
  }

  /** A string shorter than the pattern cannot contain it. */
  lemma ShorterHasNoOccurrence(s: string, pat: string)
    requires |s| < |pat|
    ensures IndexOf(s, pat).None?
  {
  }

  /** `s.replace(pat, '')`: `s` with the first occurrence of `pat` cut out,
      or `s` unchanged when `pat` does not occur. */
  function RemoveFirst(s: string, pat: string): (r: string)
    ensures IndexOf(s, pat).None? ==> r == s
    ensures IndexOf(s, pat).Some? ==>
      var k := IndexOf(s, pat).value; r == s[..k] + s[k + |pat|..]
    decreases |s|
  {
    if OccursAt(s, pat, 0) then s[|pat|..]
    else if |s| == 0 then s
    else [s[0]] + RemoveFirst(s[1..], pat)
  }
}
