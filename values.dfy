/**
 * The translation table: a language code maps to a bundle, and a bundle is a
 * tree whose leaves are strings and whose inner nodes are objects keyed by
 * property name. The JavaScript notions the scripts rely on (truthiness,
 * own-property lookup, conversion of an assigned value to a string) are
 * stated here once.
 */
module Values {
  import opened Wrappers

  /** A parsed JSON value of the translation file: a string or an object. */
  datatype Value = Str(s: string) | Node(children: map<string, Value>)

  /** Language code to bundle, as held by `translations` in both scripts. */
  type Table = map<string, Value>

  /** JavaScript truthiness: the empty string is falsy, every object is truthy. */
  predicate Truthy(v: Value)
  {
    v.Node? || v.s != ""
  }

  /** Truthiness of a property read that may have given `undefined`. */
  predicate Present(o: Option<Value>)
  {
    o.Some? && Truthy(o.value)
  }

  /** The string a DOM property holds after `value` is assigned to it (String(value)). */
  function ToText(v: Value): string
  {
    match v
    case Str(s) => s
    case Node(_) => "[object Object]"
  }

  /** `Object.prototype.hasOwnProperty.call(v, key)`; a string leaf has no own keys here. */
  predicate HasOwn(v: Value, key: string)
  {
    v.Node? && key in v.children
  }

  /** A plain property read `v.key`, `undefined` when the key is absent. */
  function Field(v: Value, key: string): (r: Option<Value>)
    ensures r.Some? <==> HasOwn(v, key)
    ensures r.Some? ==> r.value == v.children[key]
  {
    if HasOwn(v, key) then Some(v.children[key]) else None
  }

  /** A read `o?.key` that yields `undefined` once the chain has. */
  function FieldOf(o: Option<Value>, key: string): Option<Value>
  {
    if o.None? then None else Field(o.value, key)
  }

  /** The guard `if (!translations[lang])` shared by both scripts. */
  predicate HasBundle(table: Table, lang: string)
  {
    lang in table && Truthy(table[lang])
  }
}
