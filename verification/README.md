# Accessor method binding — a Dafny model

This project models the core of the object mapper's accessor support in the
Cassandra Java driver: `MethodMapper`, which binds one method of an
`@Accessor` interface to a prepared query. The model covers both of its
phases:

- **Setup (`prepare`).** It checks the method's parameter count against the
  query's bind variables. It then sorts the declared return type into one
  execution/return *shape*, and resolves an entity mapper when the shape
  needs one.
- **Call (`invoke`).** It binds the arguments in order into a fresh bound
  statement and applies the configured overrides. Then it either returns the
  statement, or executes it synchronously or asynchronously and hands back the
  raw result, one mapped entity, or the whole mapped result.

Reflection, the session, futures and the entity mapper are replaced by
abstract values:

- A class is known only through the library types it is assignable to
  (`Reflection.ClassDesc`). Several of these can hold at once, so the order of
  the checks is observable.
- The mapping manager is an oracle that says whether a mapper can be built for
  a class.
- A bound statement is the ordered list of its `set` calls plus its settings.
- A call's result is an outcome tag: `ReturnedStatement`, or
  `ExecutedSync`/`ExecutedAsync` carrying `Raw`, `MapOne(mapper)` or
  `MapAll(mapper)`.

`MethodMapper` keeps the shape in four mutable fields: `returnStatement`, `async`,
`mapOne` and `returnMapper`. The model uses one sum type instead,
`Setup.Shape = ReturnStatement | Execute(mode, returned)`. A statement-returning
method therefore has no mode and no mapper by construction.
`Invocation.FlagsOf` and `Invocation.DispatchOnFlags` give the driver's view
through those fields, and `Invocation.FlagDispatchAgrees` proves the two
dispatches agree.

Modules, leaves first:

- `Results`: `Option`, `Result` and `Validity`.
- `Reflection`: marker types, classes, types, method descriptors and the
  mapper oracle.
- `Statements`: bind variables, settings, prepared and bound statements, and
  overrides.
- `ParamMappers`: the nested `ParamMapper`.
- `Setup`: `prepare`, `validateParameters` and `mapType`.
- `PrepareLemmas`: precedence of the classification.
- `Invocation`: `invoke`.
- `Scenarios`: worked methods.

## Model

| member | source | states |
|---|---|---|
| ParamMappers.NewParamMapper | driver-mapping/src/main/java/com/datastax/driver/mapping/MethodMapper.java:200-212 | name, index and type are kept; a codec is present iff the codec class is neither absent nor `NoCodec`, and then it is an instance of that class |
| ParamMappers.CodecChoiceDecidesSerializer | driver-mapping/src/main/java/com/datastax/driver/mapping/MethodMapper.java:208-221 | for every binder built by the constructor, `setValue` serializes through the declared type iff the codec class is absent or `NoCodec`, and otherwise through an instance of the named codec class |
| ParamMappers.WriteOf | driver-mapping/src/main/java/com/datastax/driver/mapping/MethodMapper.java:214-222 | the argument is written by index iff no parameter name is set (else by that name), through the codec iff one is configured (else through the declared type), value passed through unchanged, including null |
| ParamMappers.BindAll | driver-mapping/src/main/java/com/datastax/driver/mapping/MethodMapper.java:164-166 | earlier writes and settings are kept, and exactly one write per argument is appended: write i is argument i through binder i, in increasing i |
| Setup.UniqueNames | driver-mapping/src/main/java/com/datastax/driver/mapping/MethodMapper.java:110-114 | the collected names are exactly the bind variables' names, and there are at most as many as there are bind variables (U ≤ V) |
| Setup.ValidateParameters | driver-mapping/src/main/java/com/datastax/driver/mapping/MethodMapper.java:105-128 | passes iff the method is not varargs and U ≤ P ≤ V; a varargs method fails as such; otherwise P < U fails with "not enough" (P, U) and P > V with "too many" (P, V); every error names the method |
| Setup.MapType | driver-mapping/src/main/java/com/datastax/driver/mapping/MethodMapper.java:135-158 | never yields a raw result; `Result<C>` gives all-entity mapping with C's mapper, a class C gives single-entity mapping with C's mapper, a mappable class always succeeds, a type that is neither a class nor `Result` of a class fails with an unsupported-type error carrying that type (and only such a type does), and any other failure is the lookup failing for the full return class |
| Setup.ClassifyReturn | driver-mapping/src/main/java/com/datastax/driver/mapping/MethodMapper.java:79-101 | every error it raises names the method (the precedence is stated by the lemmas in `PrepareLemmas`) |
| Setup.Prepare | driver-mapping/src/main/java/com/datastax/driver/mapping/MethodMapper.java:73-102 | a varargs method is always rejected whatever its return type; success keeps the method mapper and prepared statement and implies U ≤ P ≤ V; every error names the method |
| PrepareLemmas.ValidationComesFirst | driver-mapping/src/main/java/com/datastax/driver/mapping/MethodMapper.java:77-79 | a failed parameter check is the result of `prepare`, whatever the return type |
| PrepareLemmas.CountErrorsExclusive | driver-mapping/src/main/java/com/datastax/driver/mapping/MethodMapper.java:116-128 | for a non-varargs method, validation fails iff exactly one of P < U and P > V holds; the two never hold together |
| PrepareLemmas.StatementShapeIff | driver-mapping/src/main/java/com/datastax/driver/mapping/MethodMapper.java:80-86 | the statement shape is chosen iff validation passes and the return class is a statement but neither void nor a result set |
| PrepareLemmas.RawSyncShapeIff | driver-mapping/src/main/java/com/datastax/driver/mapping/MethodMapper.java:80-81 | synchronous raw execution is chosen iff validation passes and the return class is void or a result set, whatever else it is |
| PrepareLemmas.RawAsyncShapeIff | driver-mapping/src/main/java/com/datastax/driver/mapping/MethodMapper.java:88-96 | asynchronous raw execution is chosen iff validation passes, no earlier rule applies, and the return class is the driver's result-set future or a generic future whose type argument is a result-set class |
| PrepareLemmas.AsyncIffFuture | driver-mapping/src/main/java/com/datastax/driver/mapping/MethodMapper.java:88-100 | a prepared executing method is asynchronous iff its return class is a future of either kind and is neither void nor a result set |
| PrepareLemmas.SyncReturnIsMapped | driver-mapping/src/main/java/com/datastax/driver/mapping/MethodMapper.java:99-101 | for a return class matching no earlier rule, `prepare` succeeds iff `mapType` on the generic return type does, with a synchronous shape carrying its mapping, and fails with its error otherwise |
| PrepareLemmas.FutureArgumentMappedLikeSync | driver-mapping/src/main/java/com/datastax/driver/mapping/MethodMapper.java:93-100 | a generic future's non-result-set type argument is mapped by the same rule as a synchronous return of that type: both succeed or both fail (with the same kind of unsupported-type error), and on success the shapes differ only in mode |
| Invocation.ApplyOverrides | driver-mapping/src/main/java/com/datastax/driver/mapping/MethodMapper.java:168-171 | consistency and idempotence are replaced iff configured, fetch size iff the configured one is positive, tracing is switched on iff configured and never switched off; bound values are unchanged |
| Invocation.Invoke | driver-mapping/src/main/java/com/datastax/driver/mapping/MethodMapper.java:160-190 | the statement holds one write per argument, write i being argument i through binder i; its settings are the prepared statement's with the overrides applied; it is returned unexecuted iff the shape is the statement shape, otherwise executed once, asynchronously iff the shape's mode is async, handing back the shape's raw/one/all result |
| Invocation.FlagsOf | driver-mapping/src/main/java/com/datastax/driver/mapping/MethodMapper.java:51-54 | `MethodMapper`'s fields derived from a shape never combine `returnStatement` with `async` or with a mapper, and `mapOne` is only set together with a mapper |
| Invocation.FlagDispatchAgrees | driver-mapping/src/main/java/com/datastax/driver/mapping/MethodMapper.java:173-189 | dispatching over `MethodMapper`'s flag fields gives the same outcome as dispatching over the shape |
| Invocation.StatementCarriesArguments | driver-mapping/src/main/java/com/datastax/driver/mapping/MethodMapper.java:162-173 | a statement-returning call is never executed and the returned statement carries exactly the supplied arguments in order |
| Invocation.SyncAndAsyncBindAlike | driver-mapping/src/main/java/com/datastax/driver/mapping/MethodMapper.java:162-189 | the sync and async variants of a shape produce the same bound statement and hand back the same result kind; only the execution mode differs |
| Invocation.OverridesIdempotent | driver-mapping/src/main/java/com/datastax/driver/mapping/MethodMapper.java:168-171 | applying the overrides twice is the same as applying them once |
| Scenarios.FindUser | driver-mapping/src/main/java/com/datastax/driver/mapping/MethodMapper.java:73-190 | `User findUser(int)` against one positional variable compiles to synchronous single-entity mapping, and a call writes its argument to slot 0 through the declared type |
| Scenarios.FutureOfResult | driver-mapping/src/main/java/com/datastax/driver/mapping/MethodMapper.java:93-100 | `ListenableFuture<Result<User>>` compiles to asynchronous all-entity mapping with the `User` mapper |
| Scenarios.FutureOfListRejected | driver-mapping/src/main/java/com/datastax/driver/mapping/MethodMapper.java:137-151 | `ListenableFuture<List<User>>` is refused as an unsupported return type |
| Scenarios.TooManyArgumentsRejected | driver-mapping/src/main/java/com/datastax/driver/mapping/MethodMapper.java:123-128 | three parameters against two bind variables fail with "too many arguments" (3, 2) |
| Scenarios.RepeatedNameNeedsOneArgument | driver-mapping/src/main/java/com/datastax/driver/mapping/MethodMapper.java:110-128 | one parameter covers a query that uses the same name twice |

## Behaviour worth noting

- Only the mapping layer's `Result<T>` is unwrapped. A
  `ListenableFuture<List<User>>` return is refused as an unsupported type
  (lines 137-151; `Scenarios.FutureOfListRejected`).
- What `Result.one()` does on an empty result belongs to the mapping layer.
  The model records only that single-entity extraction was chosen
  (`MapOne`).

## Left out

- Reflection (`Method`, `ParameterizedType`, `TypeToken`, `isAssignableFrom`)
  is replaced by `Reflection.ClassDesc` and `Reflection.JType`. The model does
  not require the erased return class to agree with the generic return type,
  because `MethodMapper` reads them separately.
- Line 95 casts the generic return type of a future-returning method to
  `ParameterizedType` without a check. For a raw `ListenableFuture` this
  throws a `ClassCastException` during `prepare`. The model turns that into
  the configuration error `UntypedFutureReturn` rather than a precondition.
- Execution is left out: `Session.execute`, `executeAsync`,
  `Futures.transform` and future completion are outside this model.
  An outcome only records the statement, the mode and the result kind.
  Storing the session (line 74) is not modelled either.
- Codec instantiation (`ReflectionUtils.newInstance`) and serialization are
  left out. A codec is just the name of its class.
- The internals of `MappingManager.mapper` and `Result.one()` are left out.
  The manager is an oracle that can or cannot map a class.
- Exception classes and message texts are not modelled. An error is
  `ConfigError(method name, kind)`, and the kind carries the counts or the
  type in question. `MethodMapper`'s message for a failed mapper lookup names the
  return class but not the method. The model records both.
- `queryString` is carried on `Setup.MethodMapper` but is never read, just as
  in `MethodMapper`.
- Invocation.Invoke: requires at least as many parameter binders as
  arguments. With fewer, the loop at line 164 indexes past the binder array.
  Its caller passes one argument per declared parameter.
- Invocation.Invoke: the driver's `BoundStatement.set` rejects a name that is not
  a bind variable and an index outside the bind variables. `validateParameters`
  compares counts only (lines 116-131), so such a method prepares and then
  fails on every call. The model records the write regardless and does not
  model that failure, because the slot check belongs to the driver's
  statement, not to `MethodMapper`.
- Setup.ClassifyReturn: its own contract only states that its errors name the
  method. The first-match precedence it implements is stated by the
  `PrepareLemmas` lemmas about `Setup.Prepare`.
