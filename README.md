# cass-class core, modelled in Dafny

cass-class reads a Cassandra keyspace's schema and generates one Kotlin data class per user-defined type and per table. The classes are annotated for the DataStax object mapper. This project models the core of that generator and proves properties of the model:

- **Type mapper** (`TypeMapper.MapType`): turns a CQL column type into a Kotlin type name. The type is a tree keyed on the option ids of section 4.2.5.2 of the Cassandra native protocol v4 specification. Primitive kinds map to fixed classes. `list`, `set` and `map` map recursively. A user-defined type becomes a reference by name into the output package. Every other kind yields nothing, and a nested failure makes the whole type fail.
- **Entity builder** (`EntityBuilder.BuildEntity`): the loop that fills KotlinPoet's class builder and constructor builder for one element. It adds the class name, the `data` modifier, three class annotations (`CqlName`, `Entity(defaultKeyspace)`, `PropertyStrategy(mutable = false)`), then one property and one constructor parameter per field, in the order the metadata lists them. The first field whose type does not translate ends the element, before any class is produced. The builders are classes whose `seq` fields the methods append to.
- **Output paths** (`OutputPaths`, over a model of `java.io.File` in `JavaFile`): the package directory is the output directory joined with the package name, its dots replaced by `/`. Each file is the class name plus `.kt`.
- **The run** (`Generator.Run`): all user-defined types, then all tables, each built and then written to its own file. The first failing element stops the run. Files already written stay. The file system is a class holding a map from path to file and the ordered list of paths written.

`toCamelCase` and `beginWithLowerCase` come from the case_changer library. They are the two uninterpreted arrow functions of a `CaseChanger.Naming` value, and every result here holds for any such pair. A `null` in the source is `Wrappers.None`. The `NullPointerException` that a failing `!!` raises is `None` for an element and `Generator.Aborted(name)` for the run.

Three behaviours of the code worth noting:
- `map<K, V>` is parameterized over the driver's `com.datastax.oss.driver.api.core.type.MapType` interface, not over Kotlin's `Map`. The source imports that interface under the name `MapType`.
- An unmappable column does not just fail its own element. The exception leaves both loops, so the whole run stops there.
- The code neither establishes nor needs idempotence of the naming conversion, so the model does not state it.

## Model

| member | source | states |
|---|---|---|
| CqlTypes.ProtocolCode | src/main/kotlin/de/smiles/cassclass/App.kt:54-97 | a type's protocol option id is one the mapper handles exactly when the type is not `Other`, and `Other` keeps its own id |
| CqlTypes.CodeDeterminesKind | src/main/kotlin/de/smiles/cassclass/App.kt:54 | two types with the same protocol id are of the same kind, so matching on the constructor is the same dispatch as the `when` on the protocol code |
| TypeMapper.MapType | src/main/kotlin/de/smiles/cassclass/App.kt:54-98 | the definition of `mapType`: one case per handled protocol kind, containers recursing and yielding nothing when a nested type does. Its properties are stated by the lemmas below |
| TypeMapper.PrimitiveTable | src/main/kotlin/de/smiles/cassclass/App.kt:55-80 | ascii and varchar map to kotlin.String, bigint and varint to kotlin.Long, boolean, int, float and double to the Kotlin class of that name, uuid and timeuuid to java.util.UUID, time, date and timestamp to java.time.Instant, whatever the package and naming |
| TypeMapper.CollectionElement | src/main/kotlin/de/smiles/cassclass/App.kt:81-86 | `list<T>` and `set<T>` are defined exactly when `T` is, and are kotlin.collections.List / Set with the single argument `mapType(T)` |
| TypeMapper.MapKeyValue | src/main/kotlin/de/smiles/cassclass/App.kt:87-92 | `map<K, V>` is defined exactly when both `K` and `V` are, and is the driver's MapType with exactly the two arguments `mapType(K)` then `mapType(V)` |
| TypeMapper.UdtByName | src/main/kotlin/de/smiles/cassclass/App.kt:93-96 | a UDT maps to the class of its camel-cased name in the output package, or in "" when none is given, and its fields make no difference |
| TypeMapper.OtherUnmapped | src/main/kotlin/de/smiles/cassclass/App.kt:97 | every protocol code without a branch yields no type |
| TypeMapper.DefinedIffSupported | src/main/kotlin/de/smiles/cassclass/App.kt:54-98 | the mapping is defined exactly on types all of whose leaves, outside UDTs, are handled kinds: one unhandled nested kind fails the whole type |
| TypeMapper.SizePreserved | src/main/kotlin/de/smiles/cassclass/App.kt:81-96 | a mapped type has exactly as many nodes as the schema type with each UDT counted as one node, so nothing is inlined |
| TypeMapper.IndependentWithoutUdts | src/main/kotlin/de/smiles/cassclass/App.kt:55-92 | a type that names no UDT maps the same under any output package and any naming functions |
| TypeMapper.NestedList | src/main/kotlin/de/smiles/cassclass/App.kt:81-83 | `list<list<int>>` maps to `List<List<Int>>` |
| EntityBuilder.BuildMembers | src/main/kotlin/de/smiles/cassclass/App.kt:124-137 | the definition of the per-field loop body: for each field in order, one property and one constructor parameter, and nothing once a field's type does not translate. `MembersDefinedIff` and `MembersShape` state its properties |
| EntityBuilder.EntitySpec | src/main/kotlin/de/smiles/cassclass/App.kt:105-138 | the definition of one element's class: name, `data` modifier, the three annotations, and the members of `BuildMembers`. `EntityFailsIff` and `EntityShape` state its properties |
| EntityBuilder.PrefixFailure | src/main/kotlin/de/smiles/cassclass/App.kt:124-137 | once one field fails to translate, the element fails whatever fields follow |
| EntityBuilder.MembersDefinedIff | src/main/kotlin/de/smiles/cassclass/App.kt:124-137 | an element's properties and parameters are built exactly when every field's type translates |
| EntityBuilder.MembersShape | src/main/kotlin/de/smiles/cassclass/App.kt:124-137 | on success, property i and parameter i belong to field i. Both are named `beginWithLowerCase(toCamelCase(field))` and typed `mapType(fieldType)`. The property's initializer is that name and its one annotation is `CqlName(field)` |
| EntityBuilder.EntityFailsIff | src/main/kotlin/de/smiles/cassclass/App.kt:169-182 | an element produces no class exactly when some field's type is unsupported somewhere in its tree |
| EntityBuilder.EntityShape | src/main/kotlin/de/smiles/cassclass/App.kt:105-138 | a built class is named after the camel-cased element and is a data class with `CqlName(name)`, `Entity(keyspace)`, `PropertyStrategy(false)` in that order. Its properties and constructor parameters pair up by name and type in field order, and each initializer is the property's own name |
| EntityBuilder.OriginalNamesRecoverable | src/main/kotlin/de/smiles/cassclass/App.kt:110-133 | the element's schema name and each field's schema name can be read back from the class's and the properties' `CqlName` annotations |
| EntityBuilder.TypeSpecBuilder.ClassBuilder | src/main/kotlin/de/smiles/cassclass/App.kt:106 | a new class builder has the given name and no modifiers, annotations, properties or constructor |
| EntityBuilder.TypeSpecBuilder.AddModifier | src/main/kotlin/de/smiles/cassclass/App.kt:107 | appends one modifier and changes nothing else |
| EntityBuilder.TypeSpecBuilder.AddAnnotation | src/main/kotlin/de/smiles/cassclass/App.kt:110-122 | appends one class annotation and changes nothing else |
| EntityBuilder.TypeSpecBuilder.AddProperty | src/main/kotlin/de/smiles/cassclass/App.kt:126-135 | appends one property and changes nothing else |
| EntityBuilder.TypeSpecBuilder.PrimaryConstructor | src/main/kotlin/de/smiles/cassclass/App.kt:138 | sets the primary constructor's parameters and changes nothing else |
| EntityBuilder.ConstructorBuilder.constructor | src/main/kotlin/de/smiles/cassclass/App.kt:108 | a new constructor builder has no parameters |
| EntityBuilder.ConstructorBuilder.AddParameter | src/main/kotlin/de/smiles/cassclass/App.kt:136 | appends one parameter |
| EntityBuilder.BuildEntity | src/main/kotlin/de/smiles/cassclass/App.kt:105-138 | the builder loop yields exactly the class of the specification `EntitySpec`, or nothing when a field fails. Its invariant keeps the built properties and parameters equal to those of the fields seen so far |
| JavaFile.Collapse | src/main/kotlin/de/smiles/cassclass/App.kt:100-101 | collapsing runs of '/' leaves no "//", keeps the first character and leaves a path without "//" unchanged |
| JavaFile.Normalize | src/main/kotlin/de/smiles/cassclass/App.kt:100-101 | `java.io.File`'s normal form has no "//" and no trailing '/' except the root "/" itself, keeps the first character and leaves normal paths unchanged |
| JavaFile.FromPath | src/main/kotlin/de/smiles/cassclass/App.kt:100 | the definition of `File(pathname)`: the pathname in `java.io.File`'s normal form, so `File("")` is the empty path. `JavaFile.Normalize` states its properties |
| JavaFile.Resolve | src/main/kotlin/de/smiles/cassclass/App.kt:101 | the definition of the Unix join of a normal, non-empty parent and a normal child: an empty child gives the parent, otherwise exactly one '/' separates them, and the root is not doubled. `ChildAppends` states the ordinary case |
| JavaFile.Child | src/main/kotlin/de/smiles/cassclass/App.kt:101 | the definition of `File(File parent, String child)`: the child is normalized and joined under the parent, and an empty parent stands for the root "/". `ChildOfRootIsAbsolute` and `ChildAppends` state its properties |
| JavaFile.ChildOfRootIsAbsolute | src/main/kotlin/de/smiles/cassclass/App.kt:101 | `File(parent, child)` with an empty or absolute parent is an absolute path |
| JavaFile.ChildAppends | src/main/kotlin/de/smiles/cassclass/App.kt:101 | a normal, relative child under a non-empty, non-root parent is appended after one '/' |
| OutputPaths.ReplaceDots | src/main/kotlin/de/smiles/cassclass/App.kt:101 | the package path has the package's length and each '.' in it replaced by '/', every other character kept |
| OutputPaths.FileName | src/main/kotlin/de/smiles/cassclass/App.kt:144 | the definition of a file's base name: the camel-cased element name followed by ".kt". `FileNameIsNormal` and `ArtifactNaming` state its properties |
| OutputPaths.OutFileDir | src/main/kotlin/de/smiles/cassclass/App.kt:100 | the definition of the output directory as written: `File(dir)`, or `File("")` without `--dir` |
| OutputPaths.OutPackageDir | src/main/kotlin/de/smiles/cassclass/App.kt:101 | the definition of the package directory as written: the output directory joined with the package, dots replaced by '/' |
| OutputPaths.OutFile | src/main/kotlin/de/smiles/cassclass/App.kt:144 | the definition of a file's path as written: the package directory joined with class name + ".kt". `NoDirIsAbsolute`, `NoDirLayout` and `NoDirExample` state what it gives |
| OutputPaths.NoDirNoPackageIsRoot | src/main/kotlin/de/smiles/cassclass/App.kt:100-101 | as written, with neither `--dir` nor a package the package directory is "/" |
| OutputPaths.NoDirIsAbsolute | src/main/kotlin/de/smiles/cassclass/App.kt:100-101 | as written, without `--dir` every output file path starts with '/' |
| OutputPaths.NoDirLayout | src/main/kotlin/de/smiles/cassclass/App.kt:100-144 | as written, without `--dir` and for a non-empty, well-formed package and a class name without '/', a file lands at "/" + package path + "/" + class name + ".kt" |
| OutputPaths.NoDirExample | src/main/kotlin/de/smiles/cassclass/App.kt:144 | as written, package de.smiles, class Foo and no `--dir` give "/de/smiles/Foo.kt" |
| OutputPaths.ChildOfWorkingDir | src/main/kotlin/de/smiles/cassclass/App.kt:101 | the definition of the corrected join: under an empty parent the child stays relative to the working directory, and any other parent joins as `File(File, String)` does |
| OutputPaths.IntendedPackageDir | src/main/kotlin/de/smiles/cassclass/App.kt:101 | the definition of the corrected package directory: the output directory joined, as corrected, with the package path |
| OutputPaths.IntendedOutFile | src/main/kotlin/de/smiles/cassclass/App.kt:144 | the definition of the corrected file path that the run writes to: the corrected package directory joined, as corrected, with class name + ".kt". `IntendedLayout`, `IntendedNoDirIsRelative` and `IntendedAgreesWithDir` state its properties |
| OutputPaths.IntendedAgreesWithDir | src/main/kotlin/de/smiles/cassclass/App.kt:100-101 | whenever a non-empty output directory is given, the corrected paths are those as written |
| OutputPaths.PackagePathIsNormal | src/main/kotlin/de/smiles/cassclass/App.kt:101 | a package with non-empty dotted segments and no '/' gives a normal, relative package path |
| OutputPaths.IntendedLayout | src/main/kotlin/de/smiles/cassclass/App.kt:144 | for a package with non-empty dotted segments and no '/', and a class name without '/', with the corrected join and the output directory normalized, a file's path is: nothing for an absent or empty output directory, "/" for the root, otherwise the directory and "/"; then the package with '.' replaced by '/' and a "/" when there is a package; then class name + ".kt" |
| OutputPaths.IntendedNoDirIsRelative | src/main/kotlin/de/smiles/cassclass/App.kt:100-101 | for a package with non-empty dotted segments and no '/', and a class name not starting with '/', with the corrected join, leaving out `--dir` keeps the file relative to the working directory |
| Generator.Zip | src/main/kotlin/de/smiles/cassclass/App.kt:124 | `fieldNames.zip(fieldTypes)` has the shorter list's length and pairs the names and types in order |
| Generator.Artifact | src/main/kotlin/de/smiles/cassclass/App.kt:140-144 | the definition of one element's file: its class from `EntitySpec`, in the output package, at the corrected path `IntendedOutFile`. `ArtifactNaming` and `ArtifactPathAsWritten` state its properties |
| Generator.ArtifactPathAsWritten | src/main/kotlin/de/smiles/cassclass/App.kt:140-144 | with a non-empty output directory an element's file goes to the path the source writes, `OutFile` |
| Generator.RunOver | src/main/kotlin/de/smiles/cassclass/App.kt:105-193 | the definition of a run over processed elements: their files in order, up to the first element without one, which it names. `RunOverShape` states its properties |
| Generator.RunSpec | src/main/kotlin/de/smiles/cassclass/App.kt:105-193 | the definition of the run: `RunOver` on the processed user-defined types and then tables |
| Generator.AbortStops | src/main/kotlin/de/smiles/cassclass/App.kt:127 | once an element fails, the rest of the run changes nothing |
| Generator.RunOverShape | src/main/kotlin/de/smiles/cassclass/App.kt:105-193 | over processed elements, the writes are the files of a prefix, in order. The run completes exactly when all were written, and otherwise it names the first element without a file |
| Generator.RunShape | src/main/kotlin/de/smiles/cassclass/App.kt:105-193 | a run writes, in order, exactly the files of a prefix of the elements. It completes exactly when every element was written, and otherwise stops at the first element that fails, naming it |
| Generator.UdtsBeforeTables | src/main/kotlin/de/smiles/cassclass/App.kt:105-150 | the first writes are the UDTs' in order, and a table's file is written only after every UDT's |
| Generator.RunPathsAsWritten | src/main/kotlin/de/smiles/cassclass/App.kt:140-144 | with a non-empty output directory, every path the run writes is the source's path for that element |
| Generator.ArtifactNaming | src/main/kotlin/de/smiles/cassclass/App.kt:140-144 | each file holds one class, in the output package or "", and the file's name and base name are the class name and class name + ".kt" |
| Generator.UdtPropertyCount | src/main/kotlin/de/smiles/cassclass/App.kt:124-137 | a UDT's class has as many properties and parameters as the shorter of its field-name and field-type lists, each tagged with its field's name and typed by its translated type |
| Generator.OutputFiles.WriteFile | src/main/kotlin/de/smiles/cassclass/App.kt:144-147 | a write replaces whatever was at the path and appends the path to the written list |
| Generator.BuildArtifact | src/main/kotlin/de/smiles/cassclass/App.kt:185-189 | one element's work yields exactly its specified file and path, or nothing when its class cannot be built |
| Generator.Step | src/main/kotlin/de/smiles/cassclass/App.kt:105-147 | after a prefix that completed, one element either aborts the run, leaving the files unchanged, or extends the run by its own write |
| Generator.RunLoops | src/main/kotlin/de/smiles/cassclass/App.kt:105-183 | the two loops, UDTs and then tables, give the outcome, the written paths and the files of `RunOver` on the processed elements |
| Generator.Run | src/main/kotlin/de/smiles/cassclass/App.kt:105-193 | the run's outcome, the paths written in order and the resulting files are those of `RunSpec` over all UDTs followed by all tables |
| Scenarios.UserAddressEntity | src/main/kotlin/de/smiles/cassclass/App.kt:105-138 | `user_address(street_name text, zip_code int)` becomes `UserAddress` with `streetName: kotlin.String` and `zipCode: kotlin.Int`, tagged `user_address`, `street_name`, `zip_code` |
| Scenarios.OrdersEntity | src/main/kotlin/de/smiles/cassclass/App.kt:150-183 | `orders(order_id uuid, items list<text>)` becomes `Orders` with `orderId: java.util.UUID` and `items: List<String>` |
| Scenarios.StringList | src/main/kotlin/de/smiles/cassclass/App.kt:57-83 | `list<text>` becomes `kotlin.collections.List<kotlin.String>` |
| Scenarios.MixedUdtBuilds | src/main/kotlin/de/smiles/cassclass/App.kt:105-138 | the example UDT, whose fields are all supported, gets a class |
| Scenarios.MixedTableFails | src/main/kotlin/de/smiles/cassclass/App.kt:150-172 | the example table, which has a blob column, gets no class |
| Scenarios.StopsAtUnsupportedColumn | src/main/kotlin/de/smiles/cassclass/App.kt:169-172 | a run over a UDT and then a table with a blob column writes the UDT's file and stops at the table, which gets no file |

## Findings

| source | as written | input that shows it | evidently intended | confidence | as-written member | corrected member |
|---|---|---|---|---|---|---|
| src/main/kotlin/de/smiles/cassclass/App.kt:100-101 | without `--dir` the output directory is `File("")`. `java.io.File(File parent, String child)` resolves a child under an empty parent against the default parent directory, which is "/" on Unix. The package directory of line 101 is therefore "/" followed by the package path, or just "/" when there is no package. Line 144 then joins the file name under that absolute directory | no `--dir`, `--package de.smiles`, a UDT whose class name is `Foo`: its file is written to `/de/smiles/Foo.kt` | the files go under the working directory (`de/smiles/Foo.kt`) | medium, not executed | OutputPaths.NoDirIsAbsolute | OutputPaths.IntendedNoDirIsRelative |

The run (`Generator.Artifact`, `Generator.Run`) uses the corrected paths, `OutputPaths.IntendedOutFile`. `OutputPaths.IntendedAgreesWithDir` and `Generator.RunPathsAsWritten` show that they equal the paths as written whenever a non-empty output directory is given.

## Left out

- Generator.Artifact: the path is the corrected `IntendedOutFile`, not the source's `File(outPackageDir, ...)`. The two agree whenever `--dir` is non-empty (`Generator.ArtifactPathAsWritten`). Without `--dir` the source writes under "/" (see Findings).
- Generator.BuildArtifact: yields `Generator.Artifact`, so its path is the corrected one. It agrees with the source whenever `--dir` is non-empty.
- Generator.RunLoops: the paths it writes are the corrected ones. They equal the source's whenever `--dir` is non-empty (`Generator.RunPathsAsWritten`).
- Generator.Run: the paths it writes are the corrected ones. They equal the source's whenever `--dir` is non-empty (`Generator.RunPathsAsWritten`). Without `--dir` the source's files land under "/" instead of the working directory.
- Command-line parsing (kotlinx.cli) is left out: it is a library wrapper with no logic. Its results are the fields of `Generator.Config`, and the defaults it supplies for the connection are not modelled.
- The Cassandra session, the keyspace metadata lookup and `session.close()` are network I/O and are left out. The keyspace is an input `Generator.Keyspace` whose sequences follow the metadata maps' iteration order. The source skips `session.close()` when a run aborts; the model does not track the session.
- `mkdirs`, the file writers and `FileSpec.writeTo` are file-system I/O. Writing is modelled as an update of `Generator.OutputFiles` (a map from path to file, plus the ordered list of paths), with no I/O errors.
- KotlinPoet's rendering of Kotlin source text is a foreign library and is left out. Its builders are modelled as records of what the generator passes them (`TypeSpec`, `PropertySpec`, `ParameterSpec`, `FileSpec`).
- `ClassName.bestGuess` is not modelled. The class names it derives from `String::class.qualifiedName` and the like are written out as `TargetTypes` constants.
- The internals of `toCamelCase` and `beginWithLowerCase` are foreign library code. They are uninterpreted, and nothing is assumed about them (no idempotence, no non-empty result).
- `asInternal()` is left out: schema names are plain strings already in their internal form.
- Only the protocol option ids the mapper dispatches on are spelled out. Every other id (custom, blob, counter, decimal, inet, smallint, tinyint, tuple, ...) is `Other(code)`.
- The exception a failing `!!` raises (its type and message) is not modelled. Only its effect is: the element yields no class, and the run stops.
- The source maps a field's type twice, once for the property and once for the constructor parameter. The model maps it once, because the mapping is a function and both calls give the same value.
- `JavaFile` models `java.io.File` as documented for Unix file systems. Windows path rules are not modelled.
- Float and Double appear only as type names, so there is no floating-point arithmetic to model.
