/**
 * The call phase of an accessor method (`invoke`): bind the arguments into a
 * fresh statement, apply the configured overrides, then return the statement
 * or execute it and hand back the raw, single-entity or all-entity result.
 */
module Invocation {
  import opened Results
  import opened Reflection
  import opened Statements
  import opened ParamMappers
  import opened Setup

  /**
   * What one call does. Execution itself (the session, futures, row mapping)
   * is outside the model; an outcome names the statement that was executed,
   * the mode, and what was handed back.
   */
  datatype Outcome =
    | ReturnedStatement(statement: BoundStatement)
    | ExecutedSync(statement: BoundStatement, returned: Returned)
    | ExecutedAsync(statement: BoundStatement, returned: Returned)

  /**
   * Applies each override only under its own condition: a consistency level
   * and an idempotence flag when set, a fetch size when positive, tracing when
   * switched on. The bound values are untouched.
   */
  function ApplyOverrides(bs: BoundStatement, o: Overrides): (r: BoundStatement)
    ensures r.writes == bs.writes
    ensures r.settings.consistency == if o.consistency.Some? then o.consistency else bs.settings.consistency
    ensures o.fetchSize > 0 ==> r.settings.fetchSize == o.fetchSize
    ensures o.fetchSize <= 0 ==> r.settings.fetchSize == bs.settings.fetchSize
    ensures r.settings.tracing <==> o.tracing || bs.settings.tracing
    ensures r.settings.idempotent == if o.idempotent.Some? then o.idempotent else bs.settings.idempotent
  {
    var s := bs.settings;
    var s1 := if o.consistency.Some? then s.(consistency := o.consistency) else s;
    var s2 := if o.fetchSize > 0 then s1.(fetchSize := o.fetchSize) else s1;
    var s3 := if o.tracing then s2.(tracing := true) else s2;
    var s4 := if o.idempotent.Some? then s3.(idempotent := o.idempotent) else s3;
    bs.(settings := s4)
  }

  /** The statement a call produced, whether returned or executed. */
  function StatementOf(o: Outcome): BoundStatement
  {
    match o
    case ReturnedStatement(bs) => bs
    case ExecutedSync(bs, _) => bs
    case ExecutedAsync(bs, _) => bs
  }

  /** The closing dispatch of `invoke`, over the compiled shape. */
  function Dispatch(shape: Shape, bs: BoundStatement): Outcome
  {
    match shape
    case ReturnStatement => ReturnedStatement(bs)
    case Execute(Sync, ret) => ExecutedSync(bs, ret)
    case Execute(Async, ret) => ExecutedAsync(bs, ret)
  }

  /**
   * `invoke`: one call of a prepared accessor method. Every argument needs a
   * parameter binder.
   */
  function Invoke(pm: PreparedMapper, args: seq<Value>): (o: Outcome)
    requires |args| <= |pm.mapper.paramMappers|
    ensures |StatementOf(o).writes| == |args|
    ensures forall i :: 0 <= i < |args| ==>
      StatementOf(o).writes[i] == WriteOf(pm.mapper.paramMappers[i], args[i])
    ensures StatementOf(o).settings
         == ApplyOverrides(NewBoundStatement(pm.statement), pm.mapper.overrides).settings
    ensures o.ReturnedStatement? <==> pm.shape.ReturnStatement?
    ensures o.ExecutedAsync? <==> pm.shape.Execute? && pm.shape.mode == Async
    ensures o.ExecutedSync? <==> pm.shape.Execute? && pm.shape.mode == Sync
    ensures !o.ReturnedStatement? ==> o.returned == pm.shape.returned
  {
    var bound := BindAll(NewBoundStatement(pm.statement), pm.mapper.paramMappers, args);
    Dispatch(pm.shape, ApplyOverrides(bound, pm.mapper.overrides))
  }

  /** The four mutable fields through which `MethodMapper` records the shape. */
  datatype Flags = Flags(
    returnStatement: bool,
    async: bool,
    mapOne: bool,
    returnMapper: Option<EntityMapper>)

  /** The field values `prepare` leaves behind for a given shape. */
  function FlagsOf(shape: Shape): (f: Flags)
    ensures !(f.returnStatement && f.async)
    ensures f.returnStatement ==> f.returnMapper.None?
    ensures f.mapOne ==> f.returnMapper.Some?
  {
    match shape
    case ReturnStatement => Flags(true, false, false, None)
    case Execute(mode, Raw) => Flags(false, mode == Async, false, None)
    case Execute(mode, MapOne(mapper)) => Flags(false, mode == Async, true, Some(mapper))
    case Execute(mode, MapAll(mapper)) => Flags(false, mode == Async, false, Some(mapper))
  }

  /** The dispatch of `invoke` as written, over the flag fields. */
  function DispatchOnFlags(f: Flags, bs: BoundStatement): Outcome
  {
    if f.returnStatement then ReturnedStatement(bs)
    else
      var ret :=
        match f.returnMapper
        case None => Raw
        case Some(mapper) => if f.mapOne then MapOne(mapper) else MapAll(mapper);
      if f.async then ExecutedAsync(bs, ret) else ExecutedSync(bs, ret)
  }

  /** Dispatching on the shape agrees with dispatching on `MethodMapper`'s flags. */
  lemma FlagDispatchAgrees(shape: Shape, bs: BoundStatement)
    ensures DispatchOnFlags(FlagsOf(shape), bs) == Dispatch(shape, bs)
  {
  }

  /** A statement-returning call hands back exactly the supplied arguments, unexecuted. */
  lemma StatementCarriesArguments(pm: PreparedMapper, args: seq<Value>)
    requires |args| <= |pm.mapper.paramMappers|
    requires pm.shape == ReturnStatement
    ensures Invoke(pm, args).ReturnedStatement?
    ensures BoundValues(Invoke(pm, args).statement) == args
  {
  }

  /**
   * The sync and async variants of a shape bind the arguments and apply the
   * overrides identically; only the execution mode differs.
   */
  lemma SyncAndAsyncBindAlike(pm: PreparedMapper, ret: Returned, args: seq<Value>)
    requires |args| <= |pm.mapper.paramMappers|
    ensures var sync := Invoke(pm.(shape := Execute(Sync, ret)), args);
            var async := Invoke(pm.(shape := Execute(Async, ret)), args);
      && sync == ExecutedSync(StatementOf(async), ret)
      && async == ExecutedAsync(StatementOf(sync), ret)
  {
  }

  /** Applying the overrides a second time changes nothing. */
  lemma OverridesIdempotent(bs: BoundStatement, o: Overrides)
    ensures ApplyOverrides(ApplyOverrides(bs, o), o) == ApplyOverrides(bs, o)
  {
  }
}
