/**
 * An abstract stand-in for the Java reflection the accessor mapper inspects:
 * classes are known only through the library types they are assignable to,
 * and generic types are a small tree of classes, parameterized types and
 * anything else (type variables, wildcards, generic arrays).
 */
module Reflection {
  import opened Results

  /** The library types whose `isAssignableFrom` the binding logic tests. */
  datatype Marker =
    | VoidType             // the primitive `void`
    | ResultSetType        // the driver's raw result set
    | StatementType        // an executable statement
    | ResultSetFutureType  // the driver's future of a raw result set
    | ListenableFutureType // a generic future
    | ResultType           // the mapping layer's `Result<T>` collection of entities

  /**
   * A class, identified by its name and the set of marker types it is
   * assignable to. Several markers may hold at once, which is what makes the
   * order of the checks in the classification observable.
   */
  datatype ClassDesc = ClassDesc(name: string, supertypes: set<Marker>)

  predicate AssignableTo(c: ClassDesc, m: Marker)
  {
    m in c.supertypes
  }

  /**
   * A `java.lang.reflect.Type`. A parameterized type always has at least one
   * type argument, so its first argument is a field of its own.
   */
  datatype JType =
    | ClassType(cls: ClassDesc)
    | ParameterizedType(raw: JType, firstArg: JType, otherArgs: seq<JType>)
    | OtherType(description: string)

  /** What reflection reveals about one accessor method. */
  datatype MethodDesc = MethodDesc(
    name: string,
    parameterTypes: seq<JType>,
    isVarArgs: bool,
    returnType: ClassDesc,      // the erased return class
    genericReturnType: JType)   // the declared return type with its type arguments

  /** The entity mapper the mapping manager hands out for one entity class. */
  datatype EntityMapper = EntityMapper(entity: ClassDesc)

  /**
   * The mapping manager, reduced to the one question the binding logic asks
   * it: can a mapper be built for this class, or does the lookup fail?
   */
  datatype MappingManager = MappingManager(mappable: ClassDesc -> bool)

  /** `manager.mapper(c)`: the mapper for `c`, or `None` when the lookup throws. */
  function LookupMapper(manager: MappingManager, c: ClassDesc): (r: Option<EntityMapper>)
    ensures r.Some? <==> manager.mappable(c)
    ensures r.Some? ==> r.value.entity == c
  {
    if manager.mappable(c) then Some(EntityMapper(c)) else None
  }
}
