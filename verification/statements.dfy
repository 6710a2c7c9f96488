/**
 * The driver objects the accessor mapper reads and writes: the bind variables
 * of a prepared query, the statement settings, and the bound statement that
 * collects argument values.
 */
module Statements {
  import opened Results
  import opened Reflection

  datatype ConsistencyLevel =
    | Any | One | Two | Three | Quorum | All
    | LocalQuorum | EachQuorum | Serial | LocalSerial | LocalOne

  /** One bind marker of a prepared query; several markers may share a name. */
  datatype BindVariable = BindVariable(name: string)

  /** The per-statement execution settings; `None` means the session default. */
  datatype Settings = Settings(
    consistency: Option<ConsistencyLevel>,
    fetchSize: int,
    tracing: bool,
    idempotent: Option<bool>)

  /** A prepared query: its bind variables, in query order, and its own settings. */
  datatype PreparedStatement = PreparedStatement(variables: seq<BindVariable>, defaults: Settings)

  /** An argument value as the accessor receives it; `null` is passed through. */
  datatype Value = NullValue | ObjectValue(repr: string)

  /** The slot a value is written to: by bind-marker position or by name. */
  datatype Target = ByIndex(index: int) | ByName(name: string)

  /** An instance of a user-supplied codec class. */
  datatype Codec = Codec(codecClass: string)

  /** How a value is serialized: through an explicit codec or from its declared type. */
  datatype Serializer = ViaCodec(codec: Codec) | ViaType(javaType: JType)

  /** One `BoundStatement.set` call. */
  datatype Write = Write(target: Target, value: Value, serializer: Serializer)

  /** A bound statement: the writes made to it, in order, and its settings. */
  datatype BoundStatement = BoundStatement(writes: seq<Write>, settings: Settings)

  /** `PreparedStatement.bind()`: no values yet, the prepared statement's own settings. */
  function NewBoundStatement(ps: PreparedStatement): BoundStatement
  {
    BoundStatement([], ps.defaults)
  }

  /** The argument values a bound statement carries, in the order they were written. */
  function BoundValues(bs: BoundStatement): seq<Value>
  {
    seq(|bs.writes|, i requires 0 <= i < |bs.writes| => bs.writes[i].value)
  }

  /**
   * The execution options an accessor method was annotated with: a consistency
   * level (null when unset), a fetch size (applied only when positive), a
   * tracing switch and an idempotence flag (null when unset).
   */
  datatype Overrides = Overrides(
    consistency: Option<ConsistencyLevel>,
    fetchSize: int,
    tracing: bool,
    idempotent: Option<bool>)
}
