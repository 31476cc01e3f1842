/**
 * The slice of JavaScript's object model the Blockthrough adapter relies on.
 *
 * Every JavaScript object is a `JsObject` on the heap, so two references to one object
 * see each other's updates (the adapter deletes a key from an object that the outbound
 * request later points at). Arrays are values: the adapter only ever reads them.
 */
module JsValues {

  /** A JavaScript value. `Undefined` is a value of its own: `{a: undefined}` has the key `a`. */
  datatype JsVal =
    | Undefined
    | Null
    | Bool(b: bool)
    | Num(n: real)
    | Str(s: string)
    | Arr(elems: seq<JsVal>)
    | Ref(obj: JsObject)

  /** A plain object; `props` holds its own enumerable properties. */
  class JsObject {
    var props: map<string, JsVal>

    constructor (p: map<string, JsVal>)
      ensures props == p
    {
      props := p;
    }

    /** `o[k] = v` */
    method Set(k: string, v: JsVal)
      modifies this
      ensures props == old(props)[k := v]
    {
      props := props[k := v];
    }

    /** `delete o[k]` */
    method Delete(k: string)
      modifies this
      ensures props == old(props) - {k}
    {
      props := props - {k};
    }
  }

  /** The object a value refers to, if any: the footprint of reading one of its properties. */
  function Deref(v: JsVal): set<JsObject>
  {
    if v.Ref? then {v.obj} else {}
  }

  /** `o[k]` on an object: a missing key reads as undefined. */
  function Get(o: JsObject, k: string): JsVal
    reads o
  {
    if k in o.props then o.props[k] else Undefined
  }

  /**
   * `v[k]` on any value that is not null or undefined. The keys the adapter reads
   * (`blockthrough`, `orgID`, `ext`, `gpid`, `seat`, ...) are not properties of any
   * primitive or array, so on those they read as undefined.
   */
  function Prop(v: JsVal, k: string): JsVal
    reads Deref(v)
  {
    if v.Ref? then Get(v.obj, k) else Undefined
  }

  /** `v == null` */
  predicate IsNullish(v: JsVal)
  {
    v.Undefined? || v.Null?
  }

  /** JavaScript truthiness (`if (v)`, `!v`). */
  predicate Truthy(v: JsVal)
  {
    match v
    case Undefined => false
    case Null => false
    case Bool(b) => b
    case Num(n) => n != 0.0
    case Str(s) => s != ""
    case Arr(_) => true
    case Ref(_) => true
  }

  /** A value whose `typeof` is not "object": deepSetValue overwrites it with a new `{}`. */
  predicate Replaceable(v: JsVal)
  {
    !v.Ref? && !v.Null? && !v.Arr?
  }

  /**
   * One step of deepSetValue's walk along a dotted path (the `dset` rule): an object already
   * stored under `k` is entered as it is; anything else is replaced by a new empty object,
   * which is entered. A null or an array under `k` is excluded (the walk would go on into it).
   */
  method Descend(t: JsObject, k: string) returns (child: JsObject)
    requires Get(t, k).Ref? || Replaceable(Get(t, k))
    modifies t
    ensures old(Get(t, k)).Ref? ==> child == old(Get(t, k)).obj && t.props == old(t.props)
    ensures !old(Get(t, k)).Ref? ==> fresh(child) && child.props == map[] && t.props == old(t.props)[k := Ref(child)]
  {
    var x := Get(t, k);
    if x.Ref? {
      child := x.obj;
    } else {
      child := new JsObject(map[]);
      t.Set(k, Ref(child));
    }
  }
}
