/**
 * The part of the host's dynamic value ("Object") that keymap lowering
 * produces, and the `From<Option<T>> for Object` conversions it relies on.
 * Absence encodes as `Nil`; a present value encodes as the variant of its
 * type. Each encoder has a decoder that inverts it.
 */
module Objects {
  import opened Wrappers

  /**
   * A callback already boxed and registered with Lua: an opaque reference
   * into the Lua registry. The closure behind it is not modelled.
   */
  datatype LuaFnMut = LuaFnMut(ref: int)

  /** The dynamic value variants that lowering can produce. */
  datatype Object = Nil | Boolean(b: bool) | String(s: string) | LuaRef(ref: int)

  /** `Option<bool>` into `Object`. */
  function FromOptionBool(x: Option<bool>): (obj: Object)
    ensures obj.Nil? <==> x.None?
    ensures x.Some? ==> obj.Boolean? && obj.b == x.value
  {
    match x
    case None => Nil
    case Some(b) => Boolean(b)
  }

  /** `Option<NvimString>` into `Object`. */
  function FromOptionString(x: Option<string>): (obj: Object)
    ensures obj.Nil? <==> x.None?
    ensures x.Some? ==> obj.String? && obj.s == x.value
  {
    match x
    case None => Nil
    case Some(s) => String(s)
  }

  /** `Option<LuaFnMut>` into `Object`: a registered callback travels as its registry reference. */
  function FromOptionLuaFn(x: Option<LuaFnMut>): (obj: Object)
    ensures obj.Nil? <==> x.None?
    ensures x.Some? ==> obj.LuaRef? && obj.ref == x.value.ref
  {
    match x
    case None => Nil
    case Some(f) => LuaRef(f.ref)
  }

  /** Reads an `Option<bool>` back; `None` when the object has another shape. */
  function ToOptionBool(obj: Object): (r: Option<Option<bool>>)
    ensures r.Some? <==> obj.Nil? || obj.Boolean?
    ensures r.Some? ==> FromOptionBool(r.value) == obj
  {
    match obj
    case Nil => Some(None)
    case Boolean(b) => Some(Some(b))
    case _ => None
  }

  /** Reads an `Option<NvimString>` back; `None` when the object has another shape. */
  function ToOptionString(obj: Object): (r: Option<Option<string>>)
    ensures r.Some? <==> obj.Nil? || obj.String?
    ensures r.Some? ==> FromOptionString(r.value) == obj
  {
    match obj
    case Nil => Some(None)
    case String(s) => Some(Some(s))
    case _ => None
  }

  /** Reads an `Option<LuaFnMut>` back; `None` when the object has another shape. */
  function ToOptionLuaFn(obj: Object): (r: Option<Option<LuaFnMut>>)
    ensures r.Some? <==> obj.Nil? || obj.LuaRef?
    ensures r.Some? ==> FromOptionLuaFn(r.value) == obj
  {
    match obj
    case Nil => Some(None)
    case LuaRef(ref) => Some(Some(LuaFnMut(ref)))
    case _ => None
  }

  /** Decoding undoes encoding, for each of the three option types. */
  lemma EncodingRoundTrips(b: Option<bool>, s: Option<string>, f: Option<LuaFnMut>)
    ensures ToOptionBool(FromOptionBool(b)) == Some(b)
    ensures ToOptionString(FromOptionString(s)) == Some(s)
    ensures ToOptionLuaFn(FromOptionLuaFn(f)) == Some(f)
  {
  }
}
