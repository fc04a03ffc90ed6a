/**
 * Worked instances: a user-defined type, a table, and a run that stops at
 * a table with an unsupported column after the user-defined type was
 * written.  The naming functions are constrained only on the identifiers
 * involved.
 */
module Scenarios {
  import opened Wrappers
  import opened CqlTypes
  import opened TargetTypes
  import opened CaseChanger
  import opened TypeMapper
  import opened EntityBuilder
  import opened Generator

  const UserAddressFields := [Field("street_name", Varchar), Field("zip_code", Int)]

  /** `user_address(street_name text, zip_code int)` becomes `UserAddress(streetName: String, zipCode: Int)`. */
  lemma UserAddressEntity(keyspace: string, outputPackage: Option<string>, naming: Naming)
    requires naming.toCamelCase("user_address") == "UserAddress"
    requires naming.beginWithLowerCase(naming.toCamelCase("street_name")) == "streetName"
    requires naming.beginWithLowerCase(naming.toCamelCase("zip_code")) == "zipCode"
    ensures EntitySpec("user_address", UserAddressFields, keyspace, outputPackage, naming)
         == Some(TypeSpec(
              "UserAddress", [Data],
              [CqlName("user_address"), Entity(keyspace), PropertyStrategy(false)],
              [PropertySpec("streetName", Named(ClassName("kotlin", "String")), "streetName", [CqlName("street_name")]),
               PropertySpec("zipCode", Named(ClassName("kotlin", "Int")), "zipCode", [CqlName("zip_code")])],
              [ParameterSpec("streetName", Named(ClassName("kotlin", "String"))),
               ParameterSpec("zipCode", Named(ClassName("kotlin", "Int")))]))
  {
    var fields := UserAddressFields;
    EntityFailsIff("user_address", fields, keyspace, outputPackage, naming);
    assert Supported(fields[0].fieldType) && Supported(fields[1].fieldType);
    MembersShape(fields, outputPackage, naming);
    var members := BuildMembers(fields, outputPackage, naming).value;
    assert members.properties
        == [PropertySpec("streetName", Named(KotlinString), "streetName", [CqlName("street_name")]),
            PropertySpec("zipCode", Named(KotlinInt), "zipCode", [CqlName("zip_code")])];
    assert members.parameters
        == [ParameterSpec("streetName", Named(KotlinString)), ParameterSpec("zipCode", Named(KotlinInt))];
  }

  const OrdersColumns := [Field("order_id", Uuid), Field("items", List(Varchar))]

  /** `list<text>` is `List<String>`. */
  lemma StringList(outputPackage: Option<string>, naming: Naming)
    ensures MapType(List(Varchar), outputPackage, naming) == Some(Param(KotlinList, [Named(KotlinString)]))
  {
    CollectionElement(Varchar, outputPackage, naming);
  }

  /** `orders(order_id uuid, items list<text>)` becomes `Orders(orderId: UUID, items: List<String>)`. */
  lemma OrdersEntity(keyspace: string, outputPackage: Option<string>, naming: Naming)
    requires naming.toCamelCase("orders") == "Orders"
    requires naming.beginWithLowerCase(naming.toCamelCase("order_id")) == "orderId"
    requires naming.beginWithLowerCase(naming.toCamelCase("items")) == "items"
    ensures EntitySpec("orders", OrdersColumns, keyspace, outputPackage, naming)
         == Some(TypeSpec(
              "Orders", [Data],
              [CqlName("orders"), Entity(keyspace), PropertyStrategy(false)],
              [PropertySpec("orderId", Named(ClassName("java.util", "UUID")), "orderId", [CqlName("order_id")]),
               PropertySpec("items", Param(ClassName("kotlin.collections", "List"), [Named(ClassName("kotlin", "String"))]),
                            "items", [CqlName("items")])],
              [ParameterSpec("orderId", Named(ClassName("java.util", "UUID"))),
               ParameterSpec("items", Param(ClassName("kotlin.collections", "List"), [Named(ClassName("kotlin", "String"))]))]))
  {
    var fields := OrdersColumns;
    EntityFailsIff("orders", fields, keyspace, outputPackage, naming);
    assert Supported(fields[0].fieldType) && Supported(fields[1].fieldType);
    MembersShape(fields, outputPackage, naming);
    var members := BuildMembers(fields, outputPackage, naming).value;
    var stringList := Param(KotlinList, [Named(KotlinString)]);
    StringList(outputPackage, naming);
    assert members.properties
        == [PropertySpec("orderId", Named(JavaUuid), "orderId", [CqlName("order_id")]),
            PropertySpec("items", stringList, "items", [CqlName("items")])];
    assert members.parameters
        == [ParameterSpec("orderId", Named(JavaUuid)), ParameterSpec("items", stringList)];
  }

  /** A keyspace with one user-defined type and one table with a blob (option id 0x0003) column. */
  const MixedKeyspace := Keyspace(
    [UdtDef("user_address", ["street_name", "zip_code"], [Varchar, Int])],
    [TableDef("events", [Field("id", Uuid), Field("payload", Other(0x0003))])])

  /** The user-defined type of the mixed keyspace has a class. */
  lemma MixedUdtBuilds(cfg: Config)
    ensures Artifact(UdtElement(MixedKeyspace.userDefinedTypes[0]), cfg).Some?
  {
    var udt := UdtElement(MixedKeyspace.userDefinedTypes[0]);
    assert udt.fields == UserAddressFields;
    EntityFailsIff(udt.name, udt.fields, cfg.keyspace, cfg.outputPackage, cfg.naming);
    assert Supported(udt.fields[0].fieldType) && Supported(udt.fields[1].fieldType);
  }

  /** The table of the mixed keyspace has none, because of its blob column. */
  lemma MixedTableFails(cfg: Config)
    ensures Artifact(TableElement(MixedKeyspace.tables[0]), cfg).None?
  {
    var table := TableElement(MixedKeyspace.tables[0]);
    EntityFailsIff(table.name, table.fields, cfg.keyspace, cfg.outputPackage, cfg.naming);
    assert !Supported(table.fields[1].fieldType);
  }

  /**
   * The run writes the user-defined type's file, then stops at the table,
   * whose blob column has no translation; the table gets no file.
   */
  lemma StopsAtUnsupportedColumn(cfg: Config)
    ensures var r := RunSpec(Elements(MixedKeyspace), cfg);
      && r.outcome == Aborted("events")
      && |r.writes| == 1
      && r.writes[0].file.typeSpec.name == cfg.naming.toCamelCase("user_address")
  {
    var elements := Elements(MixedKeyspace);
    ElementsAt(MixedKeyspace);
    MixedUdtBuilds(cfg);
    MixedTableFails(cfg);
    var ps := ProcessAll(elements, cfg);
    assert ps[0].artifact.Some? && ps[1].artifact.None? && ps[1].name == "events";
    RunOverShape(ps);
    ArtifactNaming(elements[0], cfg);
  }
}
