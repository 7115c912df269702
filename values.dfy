/** JavaScript values as the promise library sees them: plain data, arrays,
    instances of the library's own Promise (by reference), foreign objects
    that may or may not expose a callable `then`, and the TypeError objects
    the library throws. */
module Values {

  datatype Option<+T> = None | Some(value: T)

  datatype Value =
    | Undefined
    | Null
    | Bool(b: bool)
    | Num(n: int)
    | Str(s: string)
    | List(items: seq<Value>)      // a JavaScript array
    | PromiseObj(id: nat)          // an instance of this library's Promise; identity is the id
    | Obj(callableThen: bool)      // any other object: does its `then` member hold a function?
    | TypeError(message: string)

  /** How a JavaScript call ends: it returns a value or throws one. */
  datatype Completion = Return(value: Value) | Throw(error: Value)

  /** JavaScript truthiness: `undefined`, `null`, `false`, `0` and `""` are falsy. */
  predicate Truthy(v: Value) {
    match v
    case Undefined => false
    case Null => false
    case Bool(b) => b
    case Num(n) => n != 0
    case Str(s) => s != ""
    case _ => true
  }

  /** `type(o['then']) === 'function'`: the library's Promise inherits `then`
      from its prototype; a foreign object says so itself; nothing else has one. */
  predicate HasCallableThen(v: Value) {
    match v
    case PromiseObj(_) => true
    case Obj(t) => t
    case _ => false
  }

  /** `Promise.isThenable(o)`: `o && type(o['then']) === 'function'`. */
  predicate IsThenable(v: Value)
    ensures IsThenable(v) ==> Truthy(v)
    ensures IsThenable(v) <==> HasCallableThen(v)
  {
    Truthy(v) && HasCallableThen(v)
  }
}
