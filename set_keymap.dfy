/**
 * Options for `Buffer::set_keymap`: the eight optional settings, the builder
 * that stages them one setter call at a time, and the lowering of finished
 * options into the fixed-layout `KeyDict_keymap` record handed to Neovim.
 */
module SetKeymap {
  import opened Wrappers
  import opened Objects

  /** `SetKeymapOpts`: every field independently optional, `None` by default. */
  datatype SetKeymapOpts = SetKeymapOpts(
    callback: Option<LuaFnMut>,
    desc: Option<string>,
    expr: Option<bool>,
    noremap: Option<bool>,
    nowait: Option<bool>,
    script: Option<bool>,
    silent: Option<bool>,
    unique: Option<bool>)

  /** The names of the eight options. */
  datatype OptName =
    | CallbackOpt | DescOpt | ExprOpt | NoremapOpt | NowaitOpt | ScriptOpt | SilentOpt | UniqueOpt

  /** The typed value one option can hold. */
  datatype OptValue = FnValue(f: LuaFnMut) | TextValue(s: string) | FlagValue(flag: bool)

  /** One setter call: which option it sets and to what. */
  datatype Setting = Setting(name: OptName, value: OptValue)

  /** A setting whose value has the type its option holds. */
  predicate WellTyped(s: Setting) {
    match s.name
    case CallbackOpt => s.value.FnValue?
    case DescOpt => s.value.TextValue?
    case _ => s.value.FlagValue?
  }

  predicate AllWellTyped(h: seq<Setting>) {
    forall i :: 0 <= i < |h| ==> WellTyped(h[i])
  }

  function FlagOf(x: Option<bool>): Option<OptValue> {
    if x.Some? then Some(FlagValue(x.value)) else None
  }

  /** The value of one option, or `None` when it is unset. */
  function Get(o: SetKeymapOpts, n: OptName): (r: Option<OptValue>)
    ensures r.Some? ==> WellTyped(Setting(n, r.value))
  {
    match n
    case CallbackOpt => if o.callback.Some? then Some(FnValue(o.callback.value)) else None
    case DescOpt => if o.desc.Some? then Some(TextValue(o.desc.value)) else None
    case ExprOpt => FlagOf(o.expr)
    case NoremapOpt => FlagOf(o.noremap)
    case NowaitOpt => FlagOf(o.nowait)
    case ScriptOpt => FlagOf(o.script)
    case SilentOpt => FlagOf(o.silent)
    case UniqueOpt => FlagOf(o.unique)
  }

  /** Options are equal exactly when every option has the same value. */
  lemma OptsExtensional(a: SetKeymapOpts, b: SetKeymapOpts)
    requires forall n :: Get(a, n) == Get(b, n)
    ensures a == b
  {
    assert Get(a, CallbackOpt) == Get(b, CallbackOpt);
    assert Get(a, DescOpt) == Get(b, DescOpt);
    assert Get(a, ExprOpt) == Get(b, ExprOpt);
    assert Get(a, NoremapOpt) == Get(b, NoremapOpt);
    assert Get(a, NowaitOpt) == Get(b, NowaitOpt);
    assert Get(a, ScriptOpt) == Get(b, ScriptOpt);
    assert Get(a, SilentOpt) == Get(b, SilentOpt);
    assert Get(a, UniqueOpt) == Get(b, UniqueOpt);
  }

  /** `Default for SetKeymapOpts`: nothing set. */
  function DefaultOpts(): (o: SetKeymapOpts)
    ensures forall n :: Get(o, n) == None
  {
    SetKeymapOpts(None, None, None, None, None, None, None, None)
  }

  /** The effect of one setter call on the options it will build: that option becomes `Some(value)`. */
  function Apply(o: SetKeymapOpts, s: Setting): (r: SetKeymapOpts)
    requires WellTyped(s)
    ensures Get(r, s.name) == Some(s.value)
    ensures forall n :: n != s.name ==> Get(r, n) == Get(o, n)
  {
    match s.name
    case CallbackOpt => o.(callback := Some(s.value.f))
    case DescOpt => o.(desc := Some(s.value.s))
    case ExprOpt => o.(expr := Some(s.value.flag))
    case NoremapOpt => o.(noremap := Some(s.value.flag))
    case NowaitOpt => o.(nowait := Some(s.value.flag))
    case ScriptOpt => o.(script := Some(s.value.flag))
    case SilentOpt => o.(silent := Some(s.value.flag))
    case UniqueOpt => o.(unique := Some(s.value.flag))
  }

  /** The options a fresh builder builds after the given setter calls, in order. */
  function BuildFrom(h: seq<Setting>): SetKeymapOpts
    requires AllWellTyped(h)
  {
    if h == [] then DefaultOpts() else Apply(BuildFrom(h[..|h| - 1]), h[|h| - 1])
  }

  /** Independent reference: the value of the last call that set option `n`, if any. */
  function LastValue(h: seq<Setting>, n: OptName): (r: Option<OptValue>)
    ensures r.None? <==> forall i :: 0 <= i < |h| ==> h[i].name != n
    ensures r.Some? ==> exists i :: 0 <= i < |h| && h[i] == Setting(n, r.value)
                                    && forall j :: i < j < |h| ==> h[j].name != n
  {
    if h == [] then None
    else if h[|h| - 1].name == n then Some(h[|h| - 1].value)
    else LastValue(h[..|h| - 1], n)
  }

  /** Each built option is the value of the last setter call for it, and `None` when there was none. */
  lemma {:induction false} BuildFromIsLastValue(h: seq<Setting>, n: OptName)
    requires AllWellTyped(h)
    ensures Get(BuildFrom(h), n) == LastValue(h, n)
  {
    if h != [] {
      BuildFromIsLastValue(h[..|h| - 1], n);
    }
  }

  /** One more setter call applies on top of the options the earlier calls build. */
  lemma BuildFromSnoc(h: seq<Setting>, s: Setting)
    requires AllWellTyped(h) && WellTyped(s)
    ensures AllWellTyped(h + [s])
    ensures BuildFrom(h + [s]) == Apply(BuildFrom(h), s)
  {
    assert (h + [s])[..|h|] == h;
  }

  /** Setting the same option twice keeps only the second value. */
  lemma LastWriteWins(h: seq<Setting>, s1: Setting, s2: Setting)
    requires AllWellTyped(h) && WellTyped(s1) && WellTyped(s2)
    requires s1.name == s2.name
    ensures BuildFrom(h + [s1, s2]) == BuildFrom(h + [s2])
  {
    BuildFromSnoc(h, s1);
    BuildFromSnoc(h + [s1], s2);
    BuildFromSnoc(h, s2);
    assert h + [s1] + [s2] == h + [s1, s2];
    var a := BuildFrom(h + [s1, s2]);
    var b := BuildFrom(h + [s2]);
    assert forall n :: Get(a, n) == Get(b, n);
    OptsExtensional(a, b);
  }

  /** Setter calls for different options can be made in either order. */
  lemma SettersCommute(h: seq<Setting>, s1: Setting, s2: Setting)
    requires AllWellTyped(h) && WellTyped(s1) && WellTyped(s2)
    requires s1.name != s2.name
    ensures BuildFrom(h + [s1, s2]) == BuildFrom(h + [s2, s1])
  {
    BuildFromSnoc(h, s1);
    BuildFromSnoc(h + [s1], s2);
    BuildFromSnoc(h, s2);
    BuildFromSnoc(h + [s2], s1);
    assert h + [s1] + [s2] == h + [s1, s2];
    assert h + [s2] + [s1] == h + [s2, s1];
    var a := BuildFrom(h + [s1, s2]);
    var b := BuildFrom(h + [s2, s1]);
    assert forall n :: Get(a, n) == Get(b, n);
    OptsExtensional(a, b);
  }

  /** Options that agree with the last setter call for every option are the ones the calls build. */
  lemma ReplayDetermines(h: seq<Setting>, o: SetKeymapOpts)
    ensures AllWellTyped(h) && (forall n :: Get(o, n) == LastValue(h, n)) ==> o == BuildFrom(h)
  {
    if AllWellTyped(h) && forall n :: Get(o, n) == LastValue(h, n) {
      forall n ensures Get(o, n) == Get(BuildFrom(h), n) {
        BuildFromIsLastValue(h, n);
      }
      OptsExtensional(o, BuildFrom(h));
    }
  }

  // ---------------------------------------------------------------------
  // `SetKeymapOptsBuilder`
  // ---------------------------------------------------------------------

  /** The value a builder field holds once set, or `None` while unset. */
  function Staged<T>(field: Option<Option<T>>): Option<T> {
    if field.Some? then field.value else None
  }

  /**
   * The derived builder. Each field is `None` until its setter is called;
   * a setter stores `Some(Some(v))` and returns the same builder. The ghost
   * `history` records the setter calls made so far.
   */
  class SetKeymapOptsBuilder {
    var callback: Option<Option<LuaFnMut>>
    var desc: Option<Option<string>>
    var expr: Option<Option<bool>>
    var noremap: Option<Option<bool>>
    var nowait: Option<Option<bool>>
    var script: Option<Option<bool>>
    var silent: Option<Option<bool>>
    var unique: Option<Option<bool>>
    ghost var history: seq<Setting>

    /** The value staged for option `n`, if its setter has been called. */
    ghost function Pending(n: OptName): Option<OptValue>
      reads this
    {
      match n
      case CallbackOpt => if Staged(callback).Some? then Some(FnValue(Staged(callback).value)) else None
      case DescOpt => if Staged(desc).Some? then Some(TextValue(Staged(desc).value)) else None
      case ExprOpt => FlagOf(Staged(expr))
      case NoremapOpt => FlagOf(Staged(noremap))
      case NowaitOpt => FlagOf(Staged(nowait))
      case ScriptOpt => FlagOf(Staged(script))
      case SilentOpt => FlagOf(Staged(silent))
      case UniqueOpt => FlagOf(Staged(unique))
    }

    /** Every staged value is the one the last setter call for that option stored. */
    ghost predicate Valid()
      reads this
    {
      AllWellTyped(history) && forall n :: Pending(n) == LastValue(history, n)
    }

    /** `SetKeymapOpts::builder()`: the default builder, every field unset. */
    constructor ()
      ensures callback == None && desc == None && expr == None && noremap == None
      ensures nowait == None && script == None && silent == None && unique == None
      ensures history == [] && Valid()
      ensures Build() == DefaultOpts()
    {
      callback, desc, expr, noremap := None, None, None, None;
      nowait, script, silent, unique := None, None, None, None;
      history := [];
    }

    /**
     * `build()`: reads the builder without changing it. With struct-level
     * defaults it cannot fail; an unset option takes the default `None`.
     * The result is what replaying the recorded setter calls on the defaults gives.
     */
    function Build(): (o: SetKeymapOpts)
      reads this
      ensures forall n :: Get(o, n) == Pending(n)
      ensures Valid() ==> o == BuildFrom(history)
    {
      var o := SetKeymapOpts(Staged(callback), Staged(desc), Staged(expr), Staged(noremap),
                             Staged(nowait), Staged(script), Staged(silent), Staged(unique));
      ReplayDetermines(history, o);
      o
    }

    /** The custom `callback` setter: stores the boxed callback and returns the same builder. */
    method Callback(fun: LuaFnMut) returns (self: SetKeymapOptsBuilder)
      requires Valid()
      modifies this`callback, this`history
      ensures self == this && Valid()
      ensures callback == Some(Some(fun))
      ensures history == old(history) + [Setting(CallbackOpt, FnValue(fun))]
      ensures Build() == old(Build()).(callback := Some(fun))
    {
      callback := Some(Some(fun));
      history := history + [Setting(CallbackOpt, FnValue(fun))];
      self := this;
    }

    /** The `desc` setter: converts its argument into a string, stores it, and returns the same builder. */
    method Desc(value: string) returns (self: SetKeymapOptsBuilder)
      requires Valid()
      modifies this`desc, this`history
      ensures self == this && Valid()
      ensures desc == Some(Some(value))
      ensures history == old(history) + [Setting(DescOpt, TextValue(value))]
      ensures Build() == old(Build()).(desc := Some(value))
    {
      desc := Some(Some(value));
      history := history + [Setting(DescOpt, TextValue(value))];
      self := this;
    }

    /** The `expr` setter: stores the flag and returns the same builder. */
    method Expr(value: bool) returns (self: SetKeymapOptsBuilder)
      requires Valid()
      modifies this`expr, this`history
      ensures self == this && Valid()
      ensures expr == Some(Some(value))
      ensures history == old(history) + [Setting(ExprOpt, FlagValue(value))]
      ensures Build() == old(Build()).(expr := Some(value))
    {
      expr := Some(Some(value));
      history := history + [Setting(ExprOpt, FlagValue(value))];
      self := this;
    }

    /** The `noremap` setter: stores the flag and returns the same builder. */
    method Noremap(value: bool) returns (self: SetKeymapOptsBuilder)
      requires Valid()
      modifies this`noremap, this`history
      ensures self == this && Valid()
      ensures noremap == Some(Some(value))
      ensures history == old(history) + [Setting(NoremapOpt, FlagValue(value))]
      ensures Build() == old(Build()).(noremap := Some(value))
    {
      noremap := Some(Some(value));
      history := history + [Setting(NoremapOpt, FlagValue(value))];
      self := this;
    }

    /** The `nowait` setter: stores the flag and returns the same builder. */
    method Nowait(value: bool) returns (self: SetKeymapOptsBuilder)
      requires Valid()
      modifies this`nowait, this`history
      ensures self == this && Valid()
      ensures nowait == Some(Some(value))
      ensures history == old(history) + [Setting(NowaitOpt, FlagValue(value))]
      ensures Build() == old(Build()).(nowait := Some(value))
    {
      nowait := Some(Some(value));
      history := history + [Setting(NowaitOpt, FlagValue(value))];
      self := this;
    }

    /** The `script` setter: stores the flag and returns the same builder. */
    method Script(value: bool) returns (self: SetKeymapOptsBuilder)
      requires Valid()
      modifies this`script, this`history
      ensures self == this && Valid()
      ensures script == Some(Some(value))
      ensures history == old(history) + [Setting(ScriptOpt, FlagValue(value))]
      ensures Build() == old(Build()).(script := Some(value))
    {
      script := Some(Some(value));
      history := history + [Setting(ScriptOpt, FlagValue(value))];
      self := this;
    }

    /** The `silent` setter: stores the flag and returns the same builder. */
    method Silent(value: bool) returns (self: SetKeymapOptsBuilder)
      requires Valid()
      modifies this`silent, this`history
      ensures self == this && Valid()
      ensures silent == Some(Some(value))
      ensures history == old(history) + [Setting(SilentOpt, FlagValue(value))]
      ensures Build() == old(Build()).(silent := Some(value))
    {
      silent := Some(Some(value));
      history := history + [Setting(SilentOpt, FlagValue(value))];
      self := this;
    }

    /** The `unique` setter: stores the flag and returns the same builder. */
    method Unique(value: bool) returns (self: SetKeymapOptsBuilder)
      requires Valid()
      modifies this`unique, this`history
      ensures self == this && Valid()
      ensures unique == Some(Some(value))
      ensures history == old(history) + [Setting(UniqueOpt, FlagValue(value))]
      ensures Build() == old(Build()).(unique := Some(value))
    {
      unique := Some(Some(value));
      history := history + [Setting(UniqueOpt, FlagValue(value))];
      self := this;
    }
  }

  // ---------------------------------------------------------------------
  // `KeyDict_keymap` and the lowering `From<&SetKeymapOpts>`
  // ---------------------------------------------------------------------

  /** The `#[repr(C)]` record Neovim reads: one object per option, in declaration order. */
  datatype KeyDictKeymap = KeyDictKeymap(
    callback: Object,
    desc: Object,
    expr: Object,
    noremap: Object,
    nowait: Object,
    script: Object,
    silent: Object,
    unique: Object)

  /** The record's field order. */
  const FieldOrder: seq<OptName> :=
    [CallbackOpt, DescOpt, ExprOpt, NoremapOpt, NowaitOpt, ScriptOpt, SilentOpt, UniqueOpt]

  /** The name of the record field that carries option `n`. */
  function FieldName(n: OptName): string {
    match n
    case CallbackOpt => "callback"
    case DescOpt => "desc"
    case ExprOpt => "expr"
    case NoremapOpt => "noremap"
    case NowaitOpt => "nowait"
    case ScriptOpt => "script"
    case SilentOpt => "silent"
    case UniqueOpt => "unique"
  }

  /** The record field that carries option `n`. */
  function FieldOf(k: KeyDictKeymap, n: OptName): Object {
    match n
    case CallbackOpt => k.callback
    case DescOpt => k.desc
    case ExprOpt => k.expr
    case NoremapOpt => k.noremap
    case NowaitOpt => k.nowait
    case ScriptOpt => k.script
    case SilentOpt => k.silent
    case UniqueOpt => k.unique
  }

  /** The record as the host lays it out: named fields in declaration order. */
  function Layout(k: KeyDictKeymap): seq<(string, Object)> {
    [("callback", k.callback), ("desc", k.desc), ("expr", k.expr), ("noremap", k.noremap),
     ("nowait", k.nowait), ("script", k.script), ("silent", k.silent), ("unique", k.unique)]
  }

  /** The object one option value becomes, by the conversion for its type. */
  function EncodeValue(n: OptName, v: Option<OptValue>): Object
    requires v.Some? ==> WellTyped(Setting(n, v.value))
  {
    match n
    case CallbackOpt => FromOptionLuaFn(if v.Some? then Some(v.value.f) else None)
    case DescOpt => FromOptionString(if v.Some? then Some(v.value.s) else None)
    case _ => FromOptionBool(if v.Some? then Some(v.value.flag) else None)
  }

  /**
   * `From<&SetKeymapOpts> for KeyDict_keymap`: each option is converted on
   * its own into the field of the same name; the options are only read.
   */
  function Lower(o: SetKeymapOpts): (k: KeyDictKeymap)
    ensures forall n :: FieldOf(k, n) == EncodeValue(n, Get(o, n))
    ensures forall n :: FieldOf(k, n).Nil? <==> Get(o, n).None?
  {
    KeyDictKeymap(
      FromOptionLuaFn(o.callback),
      FromOptionString(o.desc),
      FromOptionBool(o.expr),
      FromOptionBool(o.noremap),
      FromOptionBool(o.nowait),
      FromOptionBool(o.script),
      FromOptionBool(o.silent),
      FromOptionBool(o.unique))
  }

  /** Reads options back from a record; `None` when a field has the wrong shape. */
  function Lift(k: KeyDictKeymap): Option<SetKeymapOpts> {
    var callback, desc := ToOptionLuaFn(k.callback), ToOptionString(k.desc);
    var expr, noremap, nowait := ToOptionBool(k.expr), ToOptionBool(k.noremap), ToOptionBool(k.nowait);
    var script, silent, unique := ToOptionBool(k.script), ToOptionBool(k.silent), ToOptionBool(k.unique);
    if callback.Some? && desc.Some? && expr.Some? && noremap.Some? && nowait.Some?
       && script.Some? && silent.Some? && unique.Some?
    then Some(SetKeymapOpts(callback.value, desc.value, expr.value, noremap.value,
                            nowait.value, script.value, silent.value, unique.value))
    else None
  }

  /** Lowering loses nothing: the options can be read back from the record. */
  lemma LiftLower(o: SetKeymapOpts)
    ensures Lift(Lower(o)) == Some(o)
  {
  }

  /** Every record that reads back as options is the lowering of those options. */
  lemma LowerLift(k: KeyDictKeymap, o: SetKeymapOpts)
    requires Lift(k) == Some(o)
    ensures Lower(o) == k
  {
  }

  /** Different options lower to different records. */
  lemma LowerInjective(a: SetKeymapOpts, b: SetKeymapOpts)
    requires Lower(a) == Lower(b)
    ensures a == b
  {
    LiftLower(a);
    LiftLower(b);
  }

  /** The record lists callback, desc, expr, noremap, nowait, script, silent, unique, each carrying its own option. */
  lemma LayoutOfLowered(o: SetKeymapOpts)
    ensures |Layout(Lower(o))| == |FieldOrder| == 8
    ensures forall i :: 0 <= i < 8 ==>
      Layout(Lower(o))[i] == (FieldName(FieldOrder[i]), EncodeValue(FieldOrder[i], Get(o, FieldOrder[i])))
  {
  }

  /** A record is all `Nil` exactly when it lowers options with nothing set. */
  lemma LowerUnsetIffDefault(o: SetKeymapOpts)
    ensures (forall n :: FieldOf(Lower(o), n) == Nil) <==> o == DefaultOpts()
  {
    if forall n :: FieldOf(Lower(o), n) == Nil {
      forall n ensures Get(o, n) == Get(DefaultOpts(), n) {
        assert FieldOf(Lower(o), n) == Nil;
      }
      OptsExtensional(o, DefaultOpts());
    }
  }

  /** Record `k` with the field for option `n` replaced. */
  function WithField(k: KeyDictKeymap, n: OptName, obj: Object): KeyDictKeymap {
    match n
    case CallbackOpt => k.(callback := obj)
    case DescOpt => k.(desc := obj)
    case ExprOpt => k.(expr := obj)
    case NoremapOpt => k.(noremap := obj)
    case NowaitOpt => k.(nowait := obj)
    case ScriptOpt => k.(script := obj)
    case SilentOpt => k.(silent := obj)
    case UniqueOpt => k.(unique := obj)
  }

  /** Setting one option changes only the matching field of the lowered record. */
  lemma LowerAfterSetting(o: SetKeymapOpts, s: Setting)
    requires WellTyped(s)
    ensures Lower(Apply(o, s)) == WithField(Lower(o), s.name, EncodeValue(s.name, Some(s.value)))
  {
  }

  /** A builder's lowered record: the last value set for each option, `Nil` where none was set. */
  lemma LowerBuilt(h: seq<Setting>, n: OptName)
    requires AllWellTyped(h)
    ensures FieldOf(Lower(BuildFrom(h)), n) == EncodeValue(n, LastValue(h, n))
  {
    BuildFromIsLastValue(h, n);
  }
}
