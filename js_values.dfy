/** JavaScript values as the dashboard's code sees them: a string-valued
    field of a JSON payload may be missing (undefined), null, or a string.
    Truthiness, `String(x)` coercion, the `x || fallback` idiom and default
    parameters are defined once here and used by every page. */
module JsValues {

  datatype Option<+T> = None | Some(value: T) {
    function GetOr(default: T): T {
      match this
      case Some(v) => v
      case None => default
    }
  }

  /** A JSON field that should hold a string. */
  datatype JsStr = Undefined | Null | Str(value: string)

  /** `Boolean(x)`: only a non-empty string is truthy. */
  predicate Truthy(x: JsStr) {
    x.Str? && x.value != ""
  }

  /** `x == null` in JavaScript (loose equality): undefined and null. */
  predicate Nullish(x: JsStr) {
    !x.Str?
  }

  /** `String(x)`, which is also what a template literal `${x}` and
      `Storage.setItem` apply to their argument. */
  function Stringify(x: JsStr): (r: string)
    ensures x.Str? ==> r == x.value
    ensures x == Undefined ==> r == "undefined"
    ensures x == Null ==> r == "null"
  {
    match x
    case Undefined => "undefined"
    case Null => "null"
    case Str(s) => s
  }

  /** `x || fallback` where the fallback is a non-empty string literal. */
  function OrElse(x: JsStr, fallback: string): (r: string)
    ensures Truthy(x) ==> r == x.value
    ensures !Truthy(x) ==> r == fallback
  {
    if Truthy(x) then x.value else fallback
  }

  /** A parameter declared `p = d`: the default applies to undefined only,
      an explicit null is passed through. */
  function WithDefault(x: JsStr, d: string): (r: JsStr)
    ensures x == Undefined ==> r == Str(d)
    ensures x != Undefined ==> r == x
  {
    if x == Undefined then Str(d) else x
  }

  /** `raw ?? null` over a value that `Storage.getItem` returned. */
  function FromNullable(o: Option<string>): (r: JsStr)
    ensures o.Some? <==> r.Str?
    ensures o.Some? ==> r.value == o.value
    ensures r != Undefined
  {
    match o
    case Some(s) => Str(s)
    case None => Null
  }

  /** The properties every object literal inherits from `Object.prototype`
      (section 20.1.3 of ECMA-262, with the accessors of its Annex B.2.2).
      Each is a function or an object: truthy, and not a string. */
  const InheritedNames := [
    "constructor", "hasOwnProperty", "isPrototypeOf", "propertyIsEnumerable",
    "toLocaleString", "toString", "valueOf", "__proto__",
    "__defineGetter__", "__defineSetter__", "__lookupGetter__", "__lookupSetter__"
  ]

  /** What `table[key]` reads from an object literal: one of its own
      string properties, a member inherited from `Object.prototype`, or
      undefined. */
  datatype Property = Absent | Own(text: string) | Inherited(name: string)

  /** The own string property of `table` under `key`, if there is one. */
  function OwnProperty(table: seq<(string, string)>, key: string): (r: Option<string>)
    ensures r.Some? <==> exists i :: 0 <= i < |table| && table[i].0 == key
    ensures r.Some? ==> exists i :: 0 <= i < |table| && table[i] == (key, r.value)
  {
    if table == [] then None
    else if table[0].0 == key then Some(table[0].1)
    else
      var r := OwnProperty(table[1..], key);
      assert forall i :: 1 <= i < |table| ==> table[i] == table[1..][i - 1];
      r
  }

  /** `table[key]` on an object literal: own properties first, then the
      prototype chain. */
  function ReadProperty(table: seq<(string, string)>, key: string): (p: Property)
    ensures p.Own? <==> OwnProperty(table, key).Some?
    ensures p.Own? ==> p.text == OwnProperty(table, key).value
    ensures p.Inherited? <==> OwnProperty(table, key).None? && key in InheritedNames
    ensures p.Inherited? ==> p.name == key
  {
    match OwnProperty(table, key)
    case Some(v) => Own(v)
    case None => if key in InheritedNames then Inherited(key) else Absent
  }

  /** What an expression that should produce a string evaluates to: a string,
      or an inherited member that is not one. */
  datatype Value = Text(text: string) | Member(name: string)

  /** `table[key] || fallback`, as JavaScript evaluates it. */
  function ReadPropertyOr(table: seq<(string, string)>, key: string, fallback: string): (r: Value)
    ensures r.Member? <==> ReadProperty(table, key).Inherited?
  {
    match ReadProperty(table, key)
    case Own(v) => Text(if v != "" then v else fallback)
    case Inherited(name) => Member(name)
    case Absent => Text(fallback)
  }

  /** `table[key] || fallback` where only the table's own properties count
      (`Object.hasOwn(table, key) ? table[key] : undefined`). */
  function OwnPropertyOr(table: seq<(string, string)>, key: string, fallback: string): (r: string)
    ensures OwnProperty(table, key).Some? && OwnProperty(table, key).value != "" ==> r == OwnProperty(table, key).value
    ensures OwnProperty(table, key).None? ==> r == fallback
  {
    match OwnProperty(table, key)
    case Some(v) => if v != "" then v else fallback
    case None => fallback
  }

  /** The two lookups agree on every key that is not a name inherited from
      `Object.prototype`, and on every key the table defines itself. */
  lemma ReadsAgreeOffPrototype(table: seq<(string, string)>, key: string, fallback: string)
    requires key !in InheritedNames || OwnProperty(table, key).Some?
    ensures ReadPropertyOr(table, key, fallback) == Text(OwnPropertyOr(table, key, fallback))
  {
  }
}
