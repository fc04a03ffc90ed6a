/**
 * Building the class description of one schema element (a user-defined type
 * or a table): the loop over its fields that fills KotlinPoet's class and
 * constructor builders.  The generator runs the same steps for user-defined
 * types and for tables, so both use `BuildEntity`.
 */
module EntityBuilder {
  import opened Wrappers
  import opened CqlTypes
  import opened TargetTypes
  import opened CaseChanger
  import opened TypeMapper

  /** The mapper annotations a generated class and its properties carry. */
  datatype Annotation =
    | CqlName(value: string)
    | Entity(defaultKeyspace: string)
    | PropertyStrategy(mutable: bool)

  datatype Modifier = Data

  /** A field of a user-defined type or a column of a table, in its schema's internal spelling. */
  datatype Field = Field(name: string, fieldType: CqlType)

  datatype PropertySpec =
    PropertySpec(name: string, propertyType: TargetType, initializer: string, annotations: seq<Annotation>)

  datatype ParameterSpec = ParameterSpec(name: string, parameterType: TargetType)

  /** The description of one generated class. */
  datatype TypeSpec = TypeSpec(
    name: string,
    modifiers: seq<Modifier>,
    annotations: seq<Annotation>,
    properties: seq<PropertySpec>,
    primaryConstructor: seq<ParameterSpec>)

  /** The class-level annotations, in the order they are added. */
  function ClassAnnotations(name: string, keyspace: string): seq<Annotation> {
    [CqlName(name), Entity(keyspace), PropertyStrategy(false)]
  }

  /** The property generated for a field whose type translated to `t`. */
  function PropertyFor(field: Field, t: TargetType, naming: Naming): PropertySpec {
    var propertyName := PropertyName(naming, field.name);
    PropertySpec(propertyName, t, propertyName, [CqlName(field.name)])
  }

  /** The constructor parameter generated for a field whose type translated to `t`. */
  function ParameterFor(field: Field, t: TargetType, naming: Naming): ParameterSpec {
    ParameterSpec(PropertyName(naming, field.name), t)
  }

  datatype Members = Members(properties: seq<PropertySpec>, parameters: seq<ParameterSpec>)

  /**
   * The properties and constructor parameters of a field list, added one
   * field at a time as the source's loop does; `None` as soon as one field's
   * type does not translate.
   */
  function BuildMembers(fields: seq<Field>, outputPackage: Option<string>, naming: Naming): Option<Members> {
    if fields == [] then Some(Members([], []))
    else
      var prefix := BuildMembers(fields[..|fields| - 1], outputPackage, naming);
      var last := fields[|fields| - 1];
      var m := MapType(last.fieldType, outputPackage, naming);
      if prefix.None? || m.None? then None
      else Some(Members(prefix.value.properties + [PropertyFor(last, m.value, naming)],
                        prefix.value.parameters + [ParameterFor(last, m.value, naming)]))
  }

  /** The class generated for an element, or `None` when one of its fields cannot be translated. */
  function EntitySpec(name: string, fields: seq<Field>, keyspace: string,
                      outputPackage: Option<string>, naming: Naming): Option<TypeSpec> {
    match BuildMembers(fields, outputPackage, naming)
    case None => None
    case Some(members) =>
      Some(TypeSpec(TypeName(naming, name), [Data], ClassAnnotations(name, keyspace),
                    members.properties, members.parameters))
  }

  /** The schema name a list of annotations records: the value of its first `CqlName`. */
  function RecordedName(annotations: seq<Annotation>): Option<string> {
    if annotations == [] then None
    else if annotations[0].CqlName? then Some(annotations[0].value)
    else RecordedName(annotations[1..])
  }

  /** Once a prefix of the fields fails, the whole field list fails. */
  lemma {:induction false} PrefixFailure(fields: seq<Field>, k: nat, outputPackage: Option<string>, naming: Naming)
    requires k <= |fields|
    requires BuildMembers(fields[..k], outputPackage, naming).None?
    ensures BuildMembers(fields, outputPackage, naming).None?
  {
    if k < |fields| {
      var init := fields[..|fields| - 1];
      assert init[..k] == fields[..k];
      PrefixFailure(init, k, outputPackage, naming);
    } else {
      assert fields[..k] == fields;
    }
  }

  /** The members are built exactly when every field's type translates. */
  lemma {:induction false} MembersDefinedIff(fields: seq<Field>, outputPackage: Option<string>, naming: Naming)
    ensures BuildMembers(fields, outputPackage, naming).Some? <==>
      forall i :: 0 <= i < |fields| ==> MapType(fields[i].fieldType, outputPackage, naming).Some?
  {
    if fields != [] {
      var init := fields[..|fields| - 1];
      MembersDefinedIff(init, outputPackage, naming);
      assert forall i :: 0 <= i < |init| ==> init[i] == fields[i];
    }
  }

  /**
   * On success there is one property and one constructor parameter per
   * field, in order: both carry the converted field name and the
   * field's translated type, the property is initialized from the parameter
   * of that name and is tagged with the field's schema name.
   */
  lemma {:induction false} MembersShape(fields: seq<Field>, outputPackage: Option<string>, naming: Naming)
    requires BuildMembers(fields, outputPackage, naming).Some?
    ensures var members := BuildMembers(fields, outputPackage, naming).value;
      && |members.properties| == |fields|
      && |members.parameters| == |fields|
      && forall i :: 0 <= i < |fields| ==>
           && MapType(fields[i].fieldType, outputPackage, naming).Some?
           && members.properties[i] == PropertySpec(
                PropertyName(naming, fields[i].name),
                MapType(fields[i].fieldType, outputPackage, naming).value,
                PropertyName(naming, fields[i].name),
                [CqlName(fields[i].name)])
           && members.parameters[i] == ParameterSpec(
                PropertyName(naming, fields[i].name),
                MapType(fields[i].fieldType, outputPackage, naming).value)
  {
    if fields != [] {
      MembersShape(fields[..|fields| - 1], outputPackage, naming);
    }
  }

  /**
   * An element fails exactly when one of its field types is unsupported
   * somewhere in its tree.
   */
  lemma EntityFailsIff(name: string, fields: seq<Field>, keyspace: string,
                       outputPackage: Option<string>, naming: Naming)
    ensures EntitySpec(name, fields, keyspace, outputPackage, naming).None? <==>
      exists i :: 0 <= i < |fields| && !Supported(fields[i].fieldType)
  {
    MembersDefinedIff(fields, outputPackage, naming);
    forall i | 0 <= i < |fields| {
      DefinedIffSupported(fields[i].fieldType, outputPackage, naming);
    }
  }

  /**
   * A generated class is named after the element, is a data class with the
   * three class annotations in order, and pairs each property with the
   * constructor parameter of the same name and type, in field order.
   */
  lemma EntityShape(name: string, fields: seq<Field>, keyspace: string,
                    outputPackage: Option<string>, naming: Naming)
    requires EntitySpec(name, fields, keyspace, outputPackage, naming).Some?
    ensures var spec := EntitySpec(name, fields, keyspace, outputPackage, naming).value;
      && spec.name == naming.toCamelCase(name)
      && spec.modifiers == [Data]
      && spec.annotations == [CqlName(name), Entity(keyspace), PropertyStrategy(false)]
      && |spec.properties| == |spec.primaryConstructor| == |fields|
      && forall i :: 0 <= i < |fields| ==>
           && spec.properties[i].name == spec.primaryConstructor[i].name
                                      == naming.beginWithLowerCase(naming.toCamelCase(fields[i].name))
           && spec.properties[i].propertyType == spec.primaryConstructor[i].parameterType
           && Some(spec.properties[i].propertyType) == MapType(fields[i].fieldType, outputPackage, naming)
           && spec.properties[i].initializer == spec.properties[i].name
  {
    MembersShape(fields, outputPackage, naming);
  }

  /**
   * The schema names survive the renaming: the class's annotations record
   * the element's name and each property's annotations record its field's
   * name, so the schema names can be read back from the generated class.
   */
  lemma OriginalNamesRecoverable(name: string, fields: seq<Field>, keyspace: string,
                                 outputPackage: Option<string>, naming: Naming)
    requires EntitySpec(name, fields, keyspace, outputPackage, naming).Some?
    ensures var spec := EntitySpec(name, fields, keyspace, outputPackage, naming).value;
      && RecordedName(spec.annotations) == Some(name)
      && |spec.properties| == |fields|
      && forall i :: 0 <= i < |fields| ==> RecordedName(spec.properties[i].annotations) == Some(fields[i].name)
  {
    MembersShape(fields, outputPackage, naming);
  }

  /** KotlinPoet's class builder, as far as the generator uses it. */
  class TypeSpecBuilder {
    var name: string
    var modifiers: seq<Modifier>
    var annotations: seq<Annotation>
    var properties: seq<PropertySpec>
    var primaryConstructor: seq<ParameterSpec>

    constructor ClassBuilder(name: string)
      ensures this.name == name && modifiers == [] && annotations == []
      ensures properties == [] && primaryConstructor == []
    {
      this.name := name;
      modifiers, annotations, properties, primaryConstructor := [], [], [], [];
    }

    method AddModifier(m: Modifier)
      modifies this
      ensures modifiers == old(modifiers) + [m]
      ensures name == old(name) && annotations == old(annotations)
      ensures properties == old(properties) && primaryConstructor == old(primaryConstructor)
    {
      modifiers := modifiers + [m];
    }

    method AddAnnotation(a: Annotation)
      modifies this
      ensures annotations == old(annotations) + [a]
      ensures name == old(name) && modifiers == old(modifiers)
      ensures properties == old(properties) && primaryConstructor == old(primaryConstructor)
    {
      annotations := annotations + [a];
    }

    method AddProperty(p: PropertySpec)
      modifies this
      ensures properties == old(properties) + [p]
      ensures name == old(name) && modifiers == old(modifiers)
      ensures annotations == old(annotations) && primaryConstructor == old(primaryConstructor)
    {
      properties := properties + [p];
    }

    method PrimaryConstructor(parameters: seq<ParameterSpec>)
      modifies this
      ensures primaryConstructor == parameters
      ensures name == old(name) && modifiers == old(modifiers)
      ensures annotations == old(annotations) && properties == old(properties)
    {
      primaryConstructor := parameters;
    }

    function Build(): TypeSpec
      reads this
    {
      TypeSpec(name, modifiers, annotations, properties, primaryConstructor)
    }
  }

  /** KotlinPoet's constructor builder: the parameters added so far. */
  class ConstructorBuilder {
    var parameters: seq<ParameterSpec>

    constructor ()
      ensures parameters == []
    {
      parameters := [];
    }

    method AddParameter(p: ParameterSpec)
      modifies this
      ensures parameters == old(parameters) + [p]
    {
      parameters := parameters + [p];
    }
  }

  /**
   * Builds the class of one element: the class builder gets the element's
   * class name, the data modifier and the three class annotations, then
   * each field in order adds a property and a constructor parameter.  A
   * field whose type does not translate ends the element with `None` (the
   * source's failing `!!`), before any class is produced.
   */
  method BuildEntity(name: string, fields: seq<Field>, keyspace: string,
                     outputPackage: Option<string>, naming: Naming)
    returns (r: Option<TypeSpec>)
    ensures r == EntitySpec(name, fields, keyspace, outputPackage, naming)
  {
    var typeSpec := new TypeSpecBuilder.ClassBuilder(TypeName(naming, name));
    typeSpec.AddModifier(Data);
    var constructorSpec := new ConstructorBuilder();

    typeSpec.AddAnnotation(CqlName(name));
    typeSpec.AddAnnotation(Entity(keyspace));
    typeSpec.AddAnnotation(PropertyStrategy(false));

    var i := 0;
    while i < |fields|
      invariant 0 <= i <= |fields|
      invariant BuildMembers(fields[..i], outputPackage, naming)
             == Some(Members(typeSpec.properties, constructorSpec.parameters))
      invariant typeSpec.name == TypeName(naming, name) && typeSpec.modifiers == [Data]
      invariant typeSpec.annotations == ClassAnnotations(name, keyspace)
    {
      var field := fields[i];
      assert fields[..i + 1][..i] == fields[..i];
      // The source translates the type once for the property and once for
      // the parameter; the translation is a function, so once is enough.
      var mapped := MapType(field.fieldType, outputPackage, naming);
      if mapped.None? {
        PrefixFailure(fields, i + 1, outputPackage, naming);
        return None;
      }
      typeSpec.AddProperty(PropertyFor(field, mapped.value, naming));
      constructorSpec.AddParameter(ParameterFor(field, mapped.value, naming));
      i := i + 1;
    }
    assert fields[..i] == fields;
    typeSpec.PrimaryConstructor(constructorSpec.parameters);
    r := Some(typeSpec.Build());
  }
}
