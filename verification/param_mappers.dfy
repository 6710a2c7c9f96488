/** The per-parameter binder: which slot an argument goes to and how it is serialized. */
module ParamMappers {
  import opened Results
  import opened Reflection
  import opened Statements

  /** The codec class named on a parameter; `NoCodec` is the annotation's default. */
  datatype CodecClass = NoCodec | UserCodec(name: string)

  /**
   * One parameter's binder. When `paramName` is `None` the slot is addressed by
   * `paramIdx`; otherwise by name and `paramIdx` is ignored.
   */
  datatype ParamMapper = ParamMapper(
    paramName: Option<string>,
    paramIdx: int,
    paramType: JType,
    codec: Option<Codec>)

  /**
   * The binder's constructor: a codec is instantiated only when a codec class
   * other than the `NoCodec` default is given.
   */
  function NewParamMapper(
    paramName: Option<string>, paramIdx: int, paramType: JType, codecClass: Option<CodecClass>
  ): (pm: ParamMapper)
    ensures pm.paramName == paramName && pm.paramIdx == paramIdx && pm.paramType == paramType
    ensures pm.codec.None? <==> codecClass.None? || codecClass == Some(NoCodec)
    ensures pm.codec.Some? ==> codecClass == Some(UserCodec(pm.codec.value.codecClass))
  {
    var codec :=
      match codecClass
      case None => None
      case Some(NoCodec) => None
      case Some(UserCodec(name)) => Some(Codec(name));
    ParamMapper(paramName, paramIdx, paramType, codec)
  }

  /** The single write `setValue` makes for argument `arg`. */
  function WriteOf(pm: ParamMapper, arg: Value): (w: Write)
    ensures w.value == arg
    ensures w.target.ByIndex? <==> pm.paramName.None?
    ensures pm.paramName.None? ==> w.target.index == pm.paramIdx
    ensures pm.paramName.Some? ==> w.target.name == pm.paramName.value
    ensures w.serializer.ViaCodec? <==> pm.codec.Some?
    ensures pm.codec.Some? ==> w.serializer.codec == pm.codec.value
    ensures pm.codec.None? ==> w.serializer.javaType == pm.paramType
  {
    match pm.paramName
    case None =>
      if pm.codec.None? then Write(ByIndex(pm.paramIdx), arg, ViaType(pm.paramType))
      else Write(ByIndex(pm.paramIdx), arg, ViaCodec(pm.codec.value))
    case Some(name) =>
      if pm.codec.None? then Write(ByName(name), arg, ViaType(pm.paramType))
      else Write(ByName(name), arg, ViaCodec(pm.codec.value))
  }

  /**
   * The codec choice of the constructor decides how `setValue` serializes:
   * through the declared type exactly when no codec class, or the `NoCodec`
   * default, was named, and otherwise through an instance of the named class.
   */
  lemma CodecChoiceDecidesSerializer(
    paramName: Option<string>, paramIdx: int, paramType: JType, codecClass: Option<CodecClass>, arg: Value)
    ensures var w := WriteOf(NewParamMapper(paramName, paramIdx, paramType, codecClass), arg);
      && (w.serializer == ViaType(paramType) <==> codecClass.None? || codecClass == Some(NoCodec))
      && (forall name :: codecClass == Some(UserCodec(name)) ==> w.serializer == ViaCodec(Codec(name)))
  {
  }

  /** `paramMapper.setValue(bs, arg)`: append that write, leave the settings alone. */
  function SetValue(pm: ParamMapper, bs: BoundStatement, arg: Value): BoundStatement
  {
    bs.(writes := bs.writes + [WriteOf(pm, arg)])
  }

  /**
   * The binding loop of `invoke`: argument `i` goes through binder `i`, for
   * increasing `i`. Every argument needs a binder.
   */
  function BindAll(bs: BoundStatement, pms: seq<ParamMapper>, args: seq<Value>): (r: BoundStatement)
    requires |args| <= |pms|
    ensures r.settings == bs.settings
    ensures |r.writes| == |bs.writes| + |args|
    ensures r.writes[..|bs.writes|] == bs.writes
    ensures forall i :: 0 <= i < |args| ==> r.writes[|bs.writes| + i] == WriteOf(pms[i], args[i])
    decreases |args|
  {
    if |args| == 0 then bs
    else
      var next := SetValue(pms[0], bs, args[0]);
      var r := BindAll(next, pms[1..], args[1..]);
      assert r.writes[..|bs.writes|] == next.writes[..|bs.writes|] by {
        assert r.writes[..|bs.writes|] == r.writes[..|next.writes|][..|bs.writes|];
      }
      assert forall i :: 1 <= i < |args| ==> r.writes[|bs.writes| + i] == WriteOf(pms[i], args[i]) by {
        forall i | 1 <= i < |args|
          ensures r.writes[|bs.writes| + i] == WriteOf(pms[i], args[i])
        {
          assert r.writes[|next.writes| + (i - 1)] == WriteOf(pms[1..][i - 1], args[1..][i - 1]);
        }
      }
      assert r.writes[|bs.writes|] == r.writes[..|next.writes|][|bs.writes|];
      r
  }
}
