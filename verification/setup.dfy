/**
 * The setup phase of an accessor method (`prepare`): check the parameters
 * against the query's bind variables, then sort the declared return type into
 * one execution/return shape, resolving an entity mapper when one is needed.
 */
module Setup {
  import opened Results
  import opened Reflection
  import opened Statements
  import opened ParamMappers

  /** What went wrong while preparing a method. */
  datatype ErrorKind =
    | VarArgsMethod
    | NotEnoughArguments(found: nat, required: nat)
    | TooManyArguments(found: nat, allowed: nat)
    | UnsupportedReturnType(javaType: JType)
    | UnmappableReturnClass(returnClass: ClassDesc)
    | UntypedFutureReturn     // a raw `ListenableFuture`, which `MethodMapper` casts unchecked

  /** A configuration error, naming the method it was raised for. */
  datatype ConfigError = ConfigError(methodName: string, kind: ErrorKind)

  datatype Mode = Sync | Async

  /** What an executed call hands back: the raw result, one entity, or all of them. */
  datatype Returned = Raw | MapOne(mapper: EntityMapper) | MapAll(mapper: EntityMapper)

  /**
   * The compiled shape of a method. A statement-returning method never
   * executes, so it has neither a mode nor a mapper.
   */
  datatype Shape = ReturnStatement | Execute(mode: Mode, returned: Returned)

  /** An accessor method as constructed, before `prepare`. */
  datatype MethodMapper = MethodMapper(
    signature: MethodDesc,
    queryString: string,
    paramMappers: seq<ParamMapper>,
    overrides: Overrides)

  /** A prepared accessor method: everything `invoke` reads. */
  datatype PreparedMapper = PreparedMapper(mapper: MethodMapper, statement: PreparedStatement, shape: Shape)

  /** The distinct names of the bind variables, gathered into a set as `validateParameters` does. */
  function UniqueNames(variables: seq<BindVariable>): (names: set<string>)
    ensures |names| <= |variables|
    ensures names == set v | v in variables :: v.name
  {
    if |variables| == 0 then {}
    else
      var last := |variables| - 1;
      assert variables == variables[..last] + [variables[last]];
      UniqueNames(variables[..last]) + {variables[last].name}
  }

  /**
   * `validateParameters`: varargs methods are refused; otherwise the parameter
   * count P must lie between the number U of distinct bind-variable names and
   * the number V of bind variables.
   */
  function ValidateParameters(m: MethodDesc, variables: seq<BindVariable>): (r: Validity<ConfigError>)
    ensures r.Pass? <==>
      !m.isVarArgs && |UniqueNames(variables)| <= |m.parameterTypes| <= |variables|
    ensures r.Fail? ==> r.error.methodName == m.name
    ensures m.isVarArgs ==> r.error.kind == VarArgsMethod
    ensures !m.isVarArgs && |m.parameterTypes| < |UniqueNames(variables)| ==>
      r.error.kind == NotEnoughArguments(|m.parameterTypes|, |UniqueNames(variables)|)
    ensures !m.isVarArgs && |m.parameterTypes| > |variables| ==>
      r.error.kind == TooManyArguments(|m.parameterTypes|, |variables|)
  {
    var p := |m.parameterTypes|;
    var u := |UniqueNames(variables)|;
    if m.isVarArgs then Fail(ConfigError(m.name, VarArgsMethod))
    else if p < u then Fail(ConfigError(m.name, NotEnoughArguments(p, u)))
    else if p > |variables| then Fail(ConfigError(m.name, TooManyArguments(p, |variables|)))
    else Pass
  }

  /** The entity type `Result<E>` stands for, when `t` is a parameterized `Result`. */
  function ResultArgument(t: JType): Option<JType>
  {
    match t
    case ParameterizedType(ClassType(raw), arg, _) =>
      if AssignableTo(raw, ResultType) then Some(arg) else None
    case _ => None
  }

  /**
   * `mapType`: `Result<C>` maps all rows with the mapper of `C`; a plain class
   * `C` maps one row with the mapper of `C`; anything else is unsupported, and
   * a failed mapper lookup is an error naming the full return class.
   */
  function MapType(m: MethodDesc, manager: MappingManager, fullReturnType: ClassDesc, t: JType)
    : (r: Result<Returned, ConfigError>)
    ensures r.Ok? ==> !r.value.Raw?
    ensures r.Err? ==> r.error.methodName == m.name
    ensures r.Ok? && r.value.MapAll? ==> ResultArgument(t) == Some(ClassType(r.value.mapper.entity))
    ensures r.Ok? && r.value.MapOne? ==> t == ClassType(r.value.mapper.entity)
    ensures r.Ok? ==> manager.mappable(r.value.mapper.entity)
    ensures (t.ClassType? && manager.mappable(t.cls)) ==> r.Ok?
    ensures (exists c :: ResultArgument(t) == Some(ClassType(c)) && manager.mappable(c)) ==> r.Ok?
    ensures r.Err? && r.error.kind.UnsupportedReturnType? ==>
      !t.ClassType? && (ResultArgument(t).None? || !ResultArgument(t).value.ClassType?)
    ensures r.Err? && !r.error.kind.UnsupportedReturnType? ==>
      r.error.kind == UnmappableReturnClass(fullReturnType)
    ensures var e := if ResultArgument(t).Some? then ResultArgument(t).value else t;
      !e.ClassType? ==> r == Err(ConfigError(m.name, UnsupportedReturnType(e)))
  {
    var (entity, one) :=
      match ResultArgument(t)
      case Some(arg) => (arg, false)
      case None => (t, true);
    match entity
    case ClassType(c) =>
      (match LookupMapper(manager, c)
       case Some(mapper) => Ok(if one then MapOne(mapper) else MapAll(mapper))
       case None => Err(ConfigError(m.name, UnmappableReturnClass(fullReturnType))))
    case _ => Err(ConfigError(m.name, UnsupportedReturnType(entity)))
  }

  /** A compiled sync or async shape from the outcome of `mapType`. */
  function WithMode(mode: Mode, mapped: Result<Returned, ConfigError>): Result<Shape, ConfigError>
  {
    match mapped
    case Ok(ret) => Ok(Execute(mode, ret))
    case Err(e) => Err(e)
  }

  /**
   * The return-type classification of `prepare`, first match wins: void or a
   * result set, then a statement, then the driver's result-set future, then
   * any other future (whose type argument is mapped), then a synchronous
   * mapped return.
   */
  function ClassifyReturn(m: MethodDesc, manager: MappingManager): (r: Result<Shape, ConfigError>)
    ensures r.Err? ==> r.error.methodName == m.name
  {
    var rt := m.returnType;
    if AssignableTo(rt, VoidType) || AssignableTo(rt, ResultSetType) then Ok(Execute(Sync, Raw))
    else if AssignableTo(rt, StatementType) then Ok(ReturnStatement)
    else if AssignableTo(rt, ResultSetFutureType) then Ok(Execute(Async, Raw))
    else if AssignableTo(rt, ListenableFutureType) then
      match m.genericReturnType
      case ParameterizedType(_, k, _) =>
        if k.ClassType? && AssignableTo(k.cls, ResultSetType) then Ok(Execute(Async, Raw))
        else WithMode(Async, MapType(m, manager, rt, k))
      case _ => Err(ConfigError(m.name, UntypedFutureReturn))
    else WithMode(Sync, MapType(m, manager, rt, m.genericReturnType))
  }

  /** `prepare`: parameter validation first, then return-type classification. */
  function Prepare(mm: MethodMapper, ps: PreparedStatement, manager: MappingManager)
    : (r: Result<PreparedMapper, ConfigError>)
    ensures r.Err? ==> r.error.methodName == mm.signature.name
    ensures r.Ok? ==> r.value.mapper == mm && r.value.statement == ps
    ensures r.Ok? ==>
      |UniqueNames(ps.variables)| <= |mm.signature.parameterTypes| <= |ps.variables|
    ensures mm.signature.isVarArgs ==> r == Err(ConfigError(mm.signature.name, VarArgsMethod))
  {
    match ValidateParameters(mm.signature, ps.variables)
    case Fail(e) => Err(e)
    case Pass =>
      match ClassifyReturn(mm.signature, manager)
      case Ok(shape) => Ok(PreparedMapper(mm, ps, shape))
      case Err(e) => Err(e)
  }
}
