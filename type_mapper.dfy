/**
 * The recursive translation of a CQL column type into a Kotlin type name
 * (the local function `mapType` of the generator).  `None` is the source's
 * `null`; a `null` from a nested element type is the source's failing `!!`,
 * which here makes the whole translation `None`.
 */
module TypeMapper {
  import opened Wrappers
  import opened CqlTypes
  import opened TargetTypes
  import opened CaseChanger

  /**
   * Translates `t`.  A user-defined type becomes a reference by name into
   * the output package (the default package when none is configured); its
   * fields are never looked at.
   */
  function MapType(t: CqlType, outputPackage: Option<string>, naming: Naming): Option<TargetType> {
    match t
    case Ascii => Some(Named(KotlinString))
    case Varchar => Some(Named(KotlinString))
    case Bigint => Some(Named(KotlinLong))
    case Varint => Some(Named(KotlinLong))
    case Boolean => Some(Named(KotlinBoolean))
    case Int => Some(Named(KotlinInt))
    case Float => Some(Named(KotlinFloat))
    case Double => Some(Named(KotlinDouble))
    case Uuid => Some(Named(JavaUuid))
    case Timeuuid => Some(Named(JavaUuid))
    case Time => Some(Named(JavaInstant))
    case Date => Some(Named(JavaInstant))
    case Timestamp => Some(Named(JavaInstant))
    case List(e) =>
      var m := MapType(e, outputPackage, naming);
      if m.Some? then Some(Param(KotlinList, [m.value])) else None
    case Set(e) =>
      var m := MapType(e, outputPackage, naming);
      if m.Some? then Some(Param(KotlinSet, [m.value])) else None
    case Map(k, v) =>
      var mk := MapType(k, outputPackage, naming);
      if mk.None? then None
      else
        var mv := MapType(v, outputPackage, naming);
        if mv.None? then None else Some(Param(DriverMapType, [mk.value, mv.value]))
    case Udt(name, _, _) =>
      Some(Named(ClassName(outputPackage.GetOr(""), TypeName(naming, name))))
    case Other(_) => None
  }

  /** The primitive table: each kind has a fixed class, whatever the package and naming. */
  lemma PrimitiveTable(outputPackage: Option<string>, naming: Naming)
    ensures MapType(Ascii, outputPackage, naming) == Some(Named(ClassName("kotlin", "String")))
    ensures MapType(Varchar, outputPackage, naming) == Some(Named(ClassName("kotlin", "String")))
    ensures MapType(Bigint, outputPackage, naming) == Some(Named(ClassName("kotlin", "Long")))
    ensures MapType(Varint, outputPackage, naming) == Some(Named(ClassName("kotlin", "Long")))
    ensures MapType(Boolean, outputPackage, naming) == Some(Named(ClassName("kotlin", "Boolean")))
    ensures MapType(Int, outputPackage, naming) == Some(Named(ClassName("kotlin", "Int")))
    ensures MapType(Float, outputPackage, naming) == Some(Named(ClassName("kotlin", "Float")))
    ensures MapType(Double, outputPackage, naming) == Some(Named(ClassName("kotlin", "Double")))
    ensures MapType(Uuid, outputPackage, naming) == Some(Named(ClassName("java.util", "UUID")))
    ensures MapType(Timeuuid, outputPackage, naming) == Some(Named(ClassName("java.util", "UUID")))
    ensures MapType(Time, outputPackage, naming) == Some(Named(ClassName("java.time", "Instant")))
    ensures MapType(Date, outputPackage, naming) == Some(Named(ClassName("java.time", "Instant")))
    ensures MapType(Timestamp, outputPackage, naming) == Some(Named(ClassName("java.time", "Instant")))
  {
  }

  /** `list<T>` and `set<T>` are defined exactly when `T` is, with `T`'s translation as their one argument. */
  lemma CollectionElement(e: CqlType, outputPackage: Option<string>, naming: Naming)
    ensures MapType(List(e), outputPackage, naming).Some? <==> MapType(e, outputPackage, naming).Some?
    ensures MapType(Set(e), outputPackage, naming).Some? <==> MapType(e, outputPackage, naming).Some?
    ensures MapType(e, outputPackage, naming).Some? ==>
      && MapType(List(e), outputPackage, naming).value
         == Param(ClassName("kotlin.collections", "List"), [MapType(e, outputPackage, naming).value])
      && MapType(Set(e), outputPackage, naming).value
         == Param(ClassName("kotlin.collections", "Set"), [MapType(e, outputPackage, naming).value])
  {
  }

  /**
   * `map<K, V>` is defined exactly when both `K` and `V` are; it has
   * exactly two arguments, the key's translation first.
   */
  lemma MapKeyValue(k: CqlType, v: CqlType, outputPackage: Option<string>, naming: Naming)
    ensures MapType(Map(k, v), outputPackage, naming).Some? <==>
      MapType(k, outputPackage, naming).Some? && MapType(v, outputPackage, naming).Some?
    ensures MapType(Map(k, v), outputPackage, naming).Some? ==>
      MapType(Map(k, v), outputPackage, naming).value
      == Param(ClassName("com.datastax.oss.driver.api.core.type", "MapType"),
               [MapType(k, outputPackage, naming).value, MapType(v, outputPackage, naming).value])
  {
  }

  /**
   * A user-defined type maps to a name-only reference into the output
   * package, and its own fields make no difference.
   */
  lemma UdtByName(name: string, fieldNames: seq<string>, fieldTypes: seq<CqlType>,
                  otherNames: seq<string>, otherTypes: seq<CqlType>,
                  outputPackage: Option<string>, naming: Naming)
    ensures MapType(Udt(name, fieldNames, fieldTypes), outputPackage, naming)
         == Some(Named(ClassName(if outputPackage.Some? then outputPackage.value else "",
                                 naming.toCamelCase(name))))
    ensures MapType(Udt(name, fieldNames, fieldTypes), outputPackage, naming)
         == MapType(Udt(name, otherNames, otherTypes), outputPackage, naming)
  {
  }

  /** An unhandled protocol code yields no type. */
  lemma OtherUnmapped(code: UnhandledCode, outputPackage: Option<string>, naming: Naming)
    ensures MapType(Other(code), outputPackage, naming) == None
  {
  }

  /**
   * The translation is defined exactly on the supported types: a single
   * unhandled kind anywhere in the tree (outside user-defined types) makes
   * the whole translation fail, and nothing else does.
   */
  lemma {:induction false} DefinedIffSupported(t: CqlType, outputPackage: Option<string>, naming: Naming)
    ensures MapType(t, outputPackage, naming).Some? <==> Supported(t)
  {
    match t
    case List(e) => DefinedIffSupported(e, outputPackage, naming);
    case Set(e) => DefinedIffSupported(e, outputPackage, naming);
    case Map(k, v) =>
      DefinedIffSupported(k, outputPackage, naming);
      DefinedIffSupported(v, outputPackage, naming);
    case _ =>
  }

  /**
   * A translated type has exactly as many nodes as the schema type, where a
   * user-defined type counts as one node: nothing is inlined.
   */
  lemma {:induction false} SizePreserved(t: CqlType, outputPackage: Option<string>, naming: Naming)
    requires MapType(t, outputPackage, naming).Some?
    ensures NodeCount(MapType(t, outputPackage, naming).value) == ReferenceSize(t)
  {
    match t
    case List(e) =>
      SizePreserved(e, outputPackage, naming);
      var m := MapType(e, outputPackage, naming).value;
      assert NodeCountAll([m]) == NodeCount(m) by { assert [m][1..] == []; }
    case Set(e) =>
      SizePreserved(e, outputPackage, naming);
      var m := MapType(e, outputPackage, naming).value;
      assert NodeCountAll([m]) == NodeCount(m) by { assert [m][1..] == []; }
    case Map(k, v) =>
      SizePreserved(k, outputPackage, naming);
      SizePreserved(v, outputPackage, naming);
      var mk := MapType(k, outputPackage, naming).value;
      var mv := MapType(v, outputPackage, naming).value;
      assert NodeCountAll([mv]) == NodeCount(mv) by { assert [mv][1..] == []; }
      assert NodeCountAll([mk, mv]) == NodeCount(mk) + NodeCount(mv) by { assert [mk, mv][1..] == [mv]; }
    case _ =>
  }

  /**
   * Without user-defined types the translation depends on neither the
   * output package nor the naming functions.
   */
  lemma {:induction false} IndependentWithoutUdts(t: CqlType, p1: Option<string>, n1: Naming,
                                                  p2: Option<string>, n2: Naming)
    requires UdtNames(t) == {}
    ensures MapType(t, p1, n1) == MapType(t, p2, n2)
  {
    match t
    case List(e) => IndependentWithoutUdts(e, p1, n1, p2, n2);
    case Set(e) => IndependentWithoutUdts(e, p1, n1, p2, n2);
    case Map(k, v) =>
      IndependentWithoutUdts(k, p1, n1, p2, n2);
      IndependentWithoutUdts(v, p1, n1, p2, n2);
    case _ =>
  }

  /** Nesting composes: `list<list<int>>` is `List<List<Int>>`. */
  lemma NestedList(outputPackage: Option<string>, naming: Naming)
    ensures MapType(List(List(Int)), outputPackage, naming)
         == Some(Param(ClassName("kotlin.collections", "List"),
                       [Param(ClassName("kotlin.collections", "List"), [Named(ClassName("kotlin", "Int"))])]))
  {
    assert MapType(List(Int), outputPackage, naming) == Some(Param(KotlinList, [Named(KotlinInt)]));
  }
}
