/** JavaScript values as the two core classes see them: the dynamic argument of a
    setter, an entry of an options object, a data item, a registry entry.
    Only what the core inspects is modelled: `typeof`, truthiness and plain
    property lookup. */
module JsValue {

  /** A JavaScript value. Numbers are integers (no NaN, no fractions); arrays are
      objects whose keys are their indices; `VRef` is a host object (a class
      instance such as a field type or the orchestrator), compared by identity;
      `VFunc` is a function value, known only by a name. */
  datatype Value =
    | VUndef
    | VNull
    | VBool(b: bool)
    | VNum(n: int)
    | VStr(s: string)
    | VObj(fields: map<string, Value>)
    | VRef(ref: object)
    | VFunc(name: string)

  /** The `typeof` operator. `typeof null` is `'object'`. */
  function TypeOf(v: Value): (t: string)
    ensures t == "object" <==> v.VNull? || v.VObj? || v.VRef?
    ensures t == "string" <==> v.VStr?
    ensures t == "boolean" <==> v.VBool?
    ensures t == "undefined" <==> v.VUndef?
  {
    match v
    case VUndef => "undefined"
    case VNull => "object"
    case VBool(_) => "boolean"
    case VNum(_) => "number"
    case VStr(_) => "string"
    case VObj(_) => "object"
    case VRef(_) => "object"
    case VFunc(_) => "function"
  }

  /** JavaScript truthiness: `undefined`, `null`, `false`, `0` and `''` are falsy,
      every object and function is truthy. */
  predicate Truthy(v: Value)
  {
    match v
    case VUndef => false
    case VNull => false
    case VBool(b) => b
    case VNum(n) => n != 0
    case VStr(s) => s != ""
    case VObj(_) => true
    case VRef(_) => true
    case VFunc(_) => true
  }

  /** The property key a value becomes when used as `obj[v]`. Only a string or
      `undefined` reaches this point (the `_field` of a field type). */
  function PropertyKey(v: Value): (k: string)
    requires v.VStr? || v.VUndef?
    ensures v.VStr? ==> k == v.s
    ensures v.VUndef? ==> k == "undefined"
  {
    if v.VStr? then v.s else "undefined"
  }

  /** The methods every plain object inherits from `Object.prototype`. */
  const ObjectPrototypeMethods: set<string> :=
    {"constructor", "toString", "toLocaleString", "valueOf", "hasOwnProperty",
     "isPrototypeOf", "propertyIsEnumerable", "__defineGetter__", "__defineSetter__",
     "__lookupGetter__", "__lookupSetter__"}

  /** The function a plain object inherits under `key`: `constructor` is the
      `Object` function, every other name is the method of that name. */
  function InheritedMethod(key: string): (r: Value)
    requires key in ObjectPrototypeMethods
    ensures r.VFunc? && TypeOf(r) == "function"
    ensures key == "constructor" ==> r == VFunc("Object")
    ensures key != "constructor" ==> r == VFunc(key)
  {
    if key == "constructor" then VFunc("Object") else VFunc(key)
  }

  /** `obj[key]` on a non-nullish value: for a plain object, its own entry,
      else the member it inherits from `Object.prototype`, else `undefined`. */
  function GetProperty(obj: Value, key: string): (r: Value)
    ensures obj.VObj? && key in obj.fields ==> r == obj.fields[key]
    ensures obj.VObj? && key !in obj.fields && key in ObjectPrototypeMethods ==> r == InheritedMethod(key)
    ensures obj.VObj? && key !in obj.fields && key !in ObjectPrototypeMethods && key != "__proto__" ==> r.VUndef?
  {
    if !obj.VObj? then VUndef
    else if key in obj.fields then obj.fields[key]
    else if key in ObjectPrototypeMethods then InheritedMethod(key)
    else VUndef
  }

  /** A value that may be absent. */
  datatype Option<+T> = None | Some(value: T)

  /** What a thrown JavaScript exception carries. */
  datatype JsError = TypeError(message: string) | Error(message: string)

  /** The outcome of a call that may throw. */
  datatype Result<+T> = Ok(value: T) | Throw(error: JsError)
}
