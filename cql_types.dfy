/**
 * Column types as the Cassandra driver describes them.  The driver tags each
 * type with the option id of section 4.2.5.2 of the Cassandra native protocol
 * v4 specification (the column-type table of a Rows result); the generator
 * dispatches on that id.  The kinds it handles are the named constructors of
 * `CqlType`; every other id is kept as `Other(code)`.
 */
module CqlTypes {

  // Option ids of section 4.2.5.2 of the native protocol v4 specification.
  const ASCII: nat := 0x0001
  const BIGINT: nat := 0x0002
  const BOOLEAN: nat := 0x0004
  const DOUBLE: nat := 0x0007
  const FLOAT: nat := 0x0008
  const INT: nat := 0x0009
  const TIMESTAMP: nat := 0x000B
  const UUID: nat := 0x000C
  const VARCHAR: nat := 0x000D
  const VARINT: nat := 0x000E
  const TIMEUUID: nat := 0x000F
  const DATE: nat := 0x0011
  const TIME: nat := 0x0012
  const LIST: nat := 0x0020
  const MAP: nat := 0x0021
  const SET: nat := 0x0022
  const UDT: nat := 0x0030

  /** The option ids that have a branch of their own in the type mapper. */
  predicate IsHandledCode(code: nat) {
    code in {ASCII, BIGINT, BOOLEAN, DOUBLE, FLOAT, INT, TIMESTAMP, UUID,
             VARCHAR, VARINT, TIMEUUID, DATE, TIME, LIST, MAP, SET, UDT}
  }

  /** Every other option id: custom (0x0000), blob, counter, decimal, inet, smallint, tinyint, tuple, ... */
  type UnhandledCode = code: nat | !IsHandledCode(code) witness 0

  /**
   * A schema type.  A user-defined type carries its own ordered field names
   * and field types, as the driver's `UserDefinedType` does.
   */
  datatype CqlType =
    | Ascii | Bigint | Boolean | Double | Float | Int | Timestamp | Uuid
    | Varchar | Varint | Timeuuid | Date | Time
    | List(elementType: CqlType)
    | Set(elementType: CqlType)
    | Map(keyType: CqlType, valueType: CqlType)
    | Udt(name: string, fieldNames: seq<string>, fieldTypes: seq<CqlType>)
    | Other(code: UnhandledCode)

  /** The protocol option id the driver reports for a type. */
  function ProtocolCode(t: CqlType): (code: nat)
    ensures IsHandledCode(code) <==> !t.Other?
    ensures t.Other? ==> code == t.code
  {
    match t
    case Ascii => ASCII
    case Bigint => BIGINT
    case Boolean => BOOLEAN
    case Double => DOUBLE
    case Float => FLOAT
    case Int => INT
    case Timestamp => TIMESTAMP
    case Uuid => UUID
    case Varchar => VARCHAR
    case Varint => VARINT
    case Timeuuid => TIMEUUID
    case Date => DATE
    case Time => TIME
    case List(_) => LIST
    case Map(_, _) => MAP
    case Set(_) => SET
    case Udt(_, _, _) => UDT
    case Other(code) => code
  }

  /** Two types of the same kind: the same constructor, whatever the payload. */
  predicate SameKind(a: CqlType, b: CqlType) {
    match (a, b)
    case (Ascii, Ascii) => true
    case (Bigint, Bigint) => true
    case (Boolean, Boolean) => true
    case (Double, Double) => true
    case (Float, Float) => true
    case (Int, Int) => true
    case (Timestamp, Timestamp) => true
    case (Uuid, Uuid) => true
    case (Varchar, Varchar) => true
    case (Varint, Varint) => true
    case (Timeuuid, Timeuuid) => true
    case (Date, Date) => true
    case (Time, Time) => true
    case (List(_), List(_)) => true
    case (Set(_), Set(_)) => true
    case (Map(_, _), Map(_, _)) => true
    case (Udt(_, _, _), Udt(_, _, _)) => true
    case (Other(c), Other(d)) => c == d
    case _ => false
  }

  /**
   * The protocol code determines the kind, so matching on the constructor is
   * the same dispatch as the source's `when` on the protocol code.
   */
  lemma CodeDeterminesKind(a: CqlType, b: CqlType)
    requires ProtocolCode(a) == ProtocolCode(b)
    ensures SameKind(a, b)
  {
  }

  /**
   * Reference definition of the types the generator can translate: every
   * leaf of the tree, not looking inside user-defined types, is one of the
   * handled primitive kinds or a user-defined type.
   */
  predicate Supported(t: CqlType) {
    match t
    case List(e) => Supported(e)
    case Set(e) => Supported(e)
    case Map(k, v) => Supported(k) && Supported(v)
    case Udt(_, _, _) => true
    case Other(_) => false
    case _ => true
  }

  /** Number of nodes of a type tree, counting a user-defined type as one node. */
  function ReferenceSize(t: CqlType): nat {
    match t
    case List(e) => 1 + ReferenceSize(e)
    case Set(e) => 1 + ReferenceSize(e)
    case Map(k, v) => 1 + ReferenceSize(k) + ReferenceSize(v)
    case _ => 1
  }

  /** Names of the user-defined types a type refers to, not looking inside them. */
  function UdtNames(t: CqlType): set<string> {
    match t
    case List(e) => UdtNames(e)
    case Set(e) => UdtNames(e)
    case Map(k, v) => UdtNames(k) + UdtNames(v)
    case Udt(name, _, _) => {name}
    case _ => {}
  }
}
