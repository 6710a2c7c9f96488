/** Worked accessor methods, stated as lemmas over the model. */
module Scenarios {
  import opened Results
  import opened Reflection
  import opened Statements
  import opened ParamMappers
  import opened Setup
  import opened Invocation

  const User := ClassDesc("User", {})
  const IntType := ClassType(ClassDesc("int", {}))
  const ListClass := ClassDesc("List", {})
  const ResultClass := ClassDesc("Result", {ResultType})
  const FutureClass := ClassDesc("ListenableFuture", {ListenableFutureType})
  const NoOverrides := Overrides(None, 0, false, None)
  const DefaultSettings := Settings(None, 0, false, None)

  /** A manager that can map `User` and nothing else. */
  function UserOnly(): MappingManager
  {
    MappingManager(c => c == User)
  }

  /**
   * `User findUser(int id)` against `SELECT * FROM users WHERE id = ?`:
   * a synchronous single-entity shape, and a call binds its argument to slot 0.
   */
  lemma FindUser(arg: Value)
    ensures var m := MethodDesc("findUser", [IntType], false, User, ClassType(User));
            var binder := NewParamMapper(None, 0, IntType, None);
            var mm := MethodMapper(m, "SELECT * FROM users WHERE id = ?", [binder], NoOverrides);
            var ps := PreparedStatement([BindVariable("id")], DefaultSettings);
            var r := Prepare(mm, ps, UserOnly());
      && r == Ok(PreparedMapper(mm, ps, Execute(Sync, MapOne(EntityMapper(User)))))
      && Invoke(r.value, [arg])
         == ExecutedSync(BoundStatement([Write(ByIndex(0), arg, ViaType(IntType))], DefaultSettings),
                         MapOne(EntityMapper(User)))
  {
    assert UniqueNames([BindVariable("id")]) == {"id"};
  }

  /** `ListenableFuture<Result<User>>` compiles to an asynchronous all-entity shape. */
  lemma FutureOfResult()
    ensures var g := ParameterizedType(ClassType(FutureClass),
                       ParameterizedType(ClassType(ResultClass), ClassType(User), []), []);
            var m := MethodDesc("findUsersAsync", [ClassType(ClassDesc("String", {}))], false, FutureClass, g);
            var mm := MethodMapper(m, "SELECT * FROM users WHERE status = :status",
                                   [NewParamMapper(Some("status"), 0, ClassType(ClassDesc("String", {})), None)],
                                   NoOverrides);
            var ps := PreparedStatement([BindVariable("status")], DefaultSettings);
            var r := Prepare(mm, ps, UserOnly());
      r.Ok? && r.value.shape == Execute(Async, MapAll(EntityMapper(User)))
  {
    assert UniqueNames([BindVariable("status")]) == {"status"};
  }

  /** `ListenableFuture<List<User>>` is refused: `List` is a parameterized type but not `Result`. */
  lemma FutureOfListRejected()
    ensures var listOfUser := ParameterizedType(ClassType(ListClass), ClassType(User), []);
            var g := ParameterizedType(ClassType(FutureClass), listOfUser, []);
            var m := MethodDesc("findUsersAsync", [ClassType(ClassDesc("String", {}))], false, FutureClass, g);
            var mm := MethodMapper(m, "", [], NoOverrides);
            var ps := PreparedStatement([BindVariable("status")], DefaultSettings);
      Prepare(mm, ps, UserOnly())
      == Err(ConfigError("findUsersAsync", UnsupportedReturnType(listOfUser)))
  {
    assert UniqueNames([BindVariable("status")]) == {"status"};
  }

  /** Three parameters against two bind variables with two distinct names: too many arguments. */
  lemma TooManyArgumentsRejected()
    ensures var m := MethodDesc("f", [IntType, IntType, IntType], false, User, ClassType(User));
            var mm := MethodMapper(m, "", [], NoOverrides);
            var ps := PreparedStatement([BindVariable("a"), BindVariable("b")], DefaultSettings);
      Prepare(mm, ps, UserOnly()) == Err(ConfigError("f", TooManyArguments(3, 2)))
  {
    assert UniqueNames([BindVariable("a"), BindVariable("b")]) == {"a", "b"};
  }

  /** One parameter against a name used twice: enough, since only distinct names must be covered. */
  lemma RepeatedNameNeedsOneArgument()
    ensures var m := MethodDesc("g", [IntType], false, User, ClassType(User));
            var vars := [BindVariable("k"), BindVariable("k")];
      ValidateParameters(m, vars) == Pass
  {
    assert UniqueNames([BindVariable("k"), BindVariable("k")]) == {"k"};
  }
}
