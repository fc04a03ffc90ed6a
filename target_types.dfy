/**
 * The Kotlin type names the generator produces: a class name, or a class name
 * parameterized by type arguments (KotlinPoet's `ClassName` and
 * `ParameterizedTypeName`).
 */
module TargetTypes {

  /** A class given by its package and simple name; the package "" is the default package. */
  datatype ClassName = ClassName(packageName: string, simpleName: string)

  datatype TargetType =
    | Named(className: ClassName)
    | Param(rawType: ClassName, typeArguments: seq<TargetType>)

  // The classes the mapper names for primitive and container kinds.
  const KotlinString := ClassName("kotlin", "String")
  const KotlinLong := ClassName("kotlin", "Long")
  const KotlinBoolean := ClassName("kotlin", "Boolean")
  const KotlinInt := ClassName("kotlin", "Int")
  const KotlinFloat := ClassName("kotlin", "Float")
  const KotlinDouble := ClassName("kotlin", "Double")
  const JavaUuid := ClassName("java.util", "UUID")
  const JavaInstant := ClassName("java.time", "Instant")
  const KotlinList := ClassName("kotlin.collections", "List")
  const KotlinSet := ClassName("kotlin.collections", "Set")
  /** The driver's `MapType` interface, which the source imports under the name `MapType`. */
  const DriverMapType := ClassName("com.datastax.oss.driver.api.core.type", "MapType")

  /** Number of nodes of a type name. */
  function NodeCount(t: TargetType): nat {
    match t
    case Named(_) => 1
    case Param(_, args) => 1 + NodeCountAll(args)
  }

  function NodeCountAll(ts: seq<TargetType>): nat {
    if ts == [] then 0 else NodeCount(ts[0]) + NodeCountAll(ts[1..])
  }
}
