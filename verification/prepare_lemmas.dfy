/**
 * Properties of `prepare`: validation comes first, and the classification of
 * the return type is a first-match rule whose precedence is observable.
 */
module PrepareLemmas {
  import opened Results
  import opened Reflection
  import opened Statements
  import opened Setup

  /** The return class is one of the two "execute and hand back the raw result" kinds. */
  predicate VoidOrResultSet(c: ClassDesc)
  {
    AssignableTo(c, VoidType) || AssignableTo(c, ResultSetType)
  }

  /** A class none of whose markers triggers the earlier classification rules. */
  predicate PlainClass(c: ClassDesc)
  {
    !VoidOrResultSet(c) && !AssignableTo(c, StatementType)
    && !AssignableTo(c, ResultSetFutureType) && !AssignableTo(c, ListenableFutureType)
  }

  /** A failed parameter check decides the outcome, whatever the return type is. */
  lemma ValidationComesFirst(mm: MethodMapper, ps: PreparedStatement, manager: MappingManager)
    ensures ValidateParameters(mm.signature, ps.variables).Fail? ==>
      Prepare(mm, ps, manager) == Err(ValidateParameters(mm.signature, ps.variables).error)
  {
  }

  /** Exactly one of the two count errors applies when the count is out of range. */
  lemma CountErrorsExclusive(m: MethodDesc, variables: seq<BindVariable>)
    requires !m.isVarArgs
    ensures ValidateParameters(m, variables).Fail? <==>
      (|m.parameterTypes| < |UniqueNames(variables)|) != (|m.parameterTypes| > |variables|)
  {
  }

  /** The statement shape is chosen exactly for statements that are neither void nor result sets. */
  lemma StatementShapeIff(mm: MethodMapper, ps: PreparedStatement, manager: MappingManager)
    ensures (Prepare(mm, ps, manager).Ok? && Prepare(mm, ps, manager).value.shape == ReturnStatement)
      <==> ValidateParameters(mm.signature, ps.variables).Pass?
           && !VoidOrResultSet(mm.signature.returnType)
           && AssignableTo(mm.signature.returnType, StatementType)
  {
  }

  /** A synchronous raw execution is chosen exactly for void and result-set returns. */
  lemma RawSyncShapeIff(mm: MethodMapper, ps: PreparedStatement, manager: MappingManager)
    ensures (Prepare(mm, ps, manager).Ok? && Prepare(mm, ps, manager).value.shape == Execute(Sync, Raw))
      <==> ValidateParameters(mm.signature, ps.variables).Pass? && VoidOrResultSet(mm.signature.returnType)
  {
  }

  /**
   * An asynchronous raw execution is chosen exactly for the driver's result-set
   * future and for a generic future whose type argument is a result-set class,
   * when no earlier rule applies.
   */
  lemma RawAsyncShapeIff(mm: MethodMapper, ps: PreparedStatement, manager: MappingManager)
    ensures (Prepare(mm, ps, manager).Ok? && Prepare(mm, ps, manager).value.shape == Execute(Async, Raw))
      <==> var rt := mm.signature.returnType;
           var g := mm.signature.genericReturnType;
           && ValidateParameters(mm.signature, ps.variables).Pass?
           && !VoidOrResultSet(rt) && !AssignableTo(rt, StatementType)
           && (|| AssignableTo(rt, ResultSetFutureType)
               || (&& AssignableTo(rt, ListenableFutureType)
                   && g.ParameterizedType? && g.firstArg.ClassType?
                   && AssignableTo(g.firstArg.cls, ResultSetType)))
  {
  }

  /** A prepared method executes asynchronously exactly when its return class is a future. */
  lemma AsyncIffFuture(mm: MethodMapper, ps: PreparedStatement, manager: MappingManager)
    requires Prepare(mm, ps, manager).Ok?
    requires Prepare(mm, ps, manager).value.shape.Execute?
    ensures Prepare(mm, ps, manager).value.shape.mode == Async <==>
      var rt := mm.signature.returnType;
      && !VoidOrResultSet(rt)
      && (AssignableTo(rt, ResultSetFutureType) || AssignableTo(rt, ListenableFutureType))
  {
  }

  /** A non-future return is mapped by `mapType` applied to the declared generic return type. */
  lemma SyncReturnIsMapped(mm: MethodMapper, ps: PreparedStatement, manager: MappingManager)
    requires ValidateParameters(mm.signature, ps.variables).Pass?
    requires PlainClass(mm.signature.returnType)
    ensures var mapped := MapType(mm.signature, manager, mm.signature.returnType, mm.signature.genericReturnType);
      && (Prepare(mm, ps, manager).Ok? <==> mapped.Ok?)
      && (mapped.Ok? ==> Prepare(mm, ps, manager).value.shape == Execute(Sync, mapped.value))
      && (mapped.Err? ==> Prepare(mm, ps, manager).error == mapped.error)
  {
  }

  /**
   * The type argument of a generic future goes through the same `mapType` rule
   * as a synchronous return of that type: the future method `fut` and the
   * synchronous method `sync` declaring the argument directly either both fail
   * or yield the same mapping, asynchronous for the one and synchronous for the
   * other.
   */
  lemma FutureArgumentMappedLikeSync(
    fut: MethodMapper, sync: MethodMapper, ps: PreparedStatement, manager: MappingManager)
    requires fut.signature.name == sync.signature.name
    requires fut.signature.parameterTypes == sync.signature.parameterTypes
    requires fut.signature.isVarArgs == sync.signature.isVarArgs
    requires var rt := fut.signature.returnType;
      && !VoidOrResultSet(rt) && !AssignableTo(rt, StatementType)
      && !AssignableTo(rt, ResultSetFutureType) && AssignableTo(rt, ListenableFutureType)
    requires fut.signature.genericReturnType.ParameterizedType?
    requires var k := fut.signature.genericReturnType.firstArg;
      !(k.ClassType? && AssignableTo(k.cls, ResultSetType))
    requires PlainClass(sync.signature.returnType)
    requires sync.signature.genericReturnType == fut.signature.genericReturnType.firstArg
    ensures Prepare(fut, ps, manager).Ok? <==> Prepare(sync, ps, manager).Ok?
    ensures Prepare(fut, ps, manager).Ok? ==>
      && Prepare(fut, ps, manager).value.shape.Execute?
      && Prepare(fut, ps, manager).value.shape
         == Prepare(sync, ps, manager).value.shape.(mode := Async)
      && Prepare(sync, ps, manager).value.shape.mode == Sync
    ensures Prepare(fut, ps, manager).Err? ==>
      (Prepare(fut, ps, manager).error.kind.UnsupportedReturnType?
       <==> Prepare(sync, ps, manager).error.kind.UnsupportedReturnType?)
  {
  }
}
