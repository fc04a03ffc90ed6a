/**
 * One run of the generator over a keyspace: every user-defined type, then
 * every table, is built into a class and written to its own file.  The
 * first element whose class cannot be built stops the run (the source's
 * uncaught failing `!!`); the files written before it stay.
 */
module Generator {
  import opened Wrappers
  import opened CqlTypes
  import opened CaseChanger
  import opened TypeMapper
  import opened EntityBuilder
  import opened JavaFile
  import opened OutputPaths

  /** A user-defined type of the keyspace: its field names and field types, in the metadata's iteration order. */
  datatype UdtDef = UdtDef(name: string, fieldNames: seq<string>, fieldTypes: seq<CqlType>)

  /** A table of the keyspace: its columns in the metadata's iteration order. */
  datatype TableDef = TableDef(name: string, columns: seq<Field>)

  /** The keyspace metadata the run reads. */
  datatype Keyspace = Keyspace(userDefinedTypes: seq<UdtDef>, tables: seq<TableDef>)

  /** The command-line options the core uses. */
  datatype Config = Config(keyspace: string, outputDir: Option<string>, outputPackage: Option<string>, naming: Naming)

  /** `fieldNames.zip(fieldTypes)`: pairs up to the shorter of the two lists. */
  function Zip(names: seq<string>, types: seq<CqlType>): (fields: seq<Field>)
    ensures |fields| == if |names| <= |types| then |names| else |types|
    ensures forall i :: 0 <= i < |fields| ==> fields[i] == Field(names[i], types[i])
  {
    if names == [] || types == [] then []
    else [Field(names[0], types[0])] + Zip(names[1..], types[1..])
  }

  /** A schema element as the builder sees it: a name and an ordered field list. */
  datatype Element = Element(name: string, fields: seq<Field>)

  function UdtElement(u: UdtDef): Element {
    Element(u.name, Zip(u.fieldNames, u.fieldTypes))
  }

  function TableElement(t: TableDef): Element {
    Element(t.name, t.columns)
  }

  /** The elements in the order the run visits them: all user-defined types, then all tables. */
  function Elements(ks: Keyspace): seq<Element> {
    seq(|ks.userDefinedTypes|, i requires 0 <= i < |ks.userDefinedTypes| => UdtElement(ks.userDefinedTypes[i]))
    + seq(|ks.tables|, i requires 0 <= i < |ks.tables| => TableElement(ks.tables[i]))
  }

  /** KotlinPoet's file description: the package, the file's name and its one class. */
  datatype FileSpec = FileSpec(packageName: string, name: string, typeSpec: TypeSpec)

  /** One file written: where, and what. */
  datatype Write = Write(path: string, file: FileSpec)

  /** The file produced for an element, or `None` when its class cannot be built. */
  function Artifact(e: Element, cfg: Config): Option<Write> {
    match EntitySpec(e.name, e.fields, cfg.keyspace, cfg.outputPackage, cfg.naming)
    case None => None
    case Some(spec) =>
      Some(Write(IntendedOutFile(cfg.outputDir, cfg.outputPackage, cfg.naming, e.name).path,
                 FileSpec(cfg.outputPackage.GetOr(""), TypeName(cfg.naming, e.name), spec)))
  }

  /** With a non-empty output directory, an element's file goes where the source writes it. */
  lemma ArtifactPathAsWritten(e: Element, cfg: Config)
    requires Normalize(cfg.outputDir.GetOr("")) != ""
    ensures Artifact(e, cfg).Some? ==>
      Artifact(e, cfg).value.path == OutFile(cfg.outputDir, cfg.outputPackage, cfg.naming, e.name).path
  {
    IntendedAgreesWithDir(cfg.outputDir, cfg.outputPackage, cfg.naming, e.name);
  }

  datatype Outcome = Completed | Aborted(element: string)

  datatype RunResult = RunResult(writes: seq<Write>, outcome: Outcome)

  /** What processing one element gives: its name and its file, if any. */
  datatype Processed = Processed(name: string, artifact: Option<Write>)

  function Process(e: Element, cfg: Config): Processed {
    Processed(e.name, Artifact(e, cfg))
  }

  function ProcessAll(elements: seq<Element>, cfg: Config): (ps: seq<Processed>)
    ensures |ps| == |elements|
    ensures forall i :: 0 <= i < |elements| ==> ps[i] == Process(elements[i], cfg)
  {
    seq(|elements|, i requires 0 <= i < |elements| => Process(elements[i], cfg))
  }

  /** The writes of a run over processed elements, in order, up to the first one without a file. */
  function RunOver(ps: seq<Processed>): RunResult {
    if ps == [] then RunResult([], Completed)
    else
      var before := RunOver(ps[..|ps| - 1]);
      var last := ps[|ps| - 1];
      if before.outcome.Aborted? then before
      else
        match last.artifact
        case None => RunResult(before.writes, Aborted(last.name))
        case Some(w) => RunResult(before.writes + [w], Completed)
  }

  /** The writes and outcome of a run over `elements`. */
  function RunSpec(elements: seq<Element>, cfg: Config): RunResult {
    RunOver(ProcessAll(elements, cfg))
  }

  function Paths(writes: seq<Write>): (paths: seq<string>)
    ensures |paths| == |writes|
    ensures forall i :: 0 <= i < |writes| ==> paths[i] == writes[i].path
  {
    if writes == [] then [] else Paths(writes[..|writes| - 1]) + [writes[|writes| - 1].path]
  }

  /** The files after a sequence of writes, each replacing whatever was at its path. */
  function Apply(files: map<string, FileSpec>, writes: seq<Write>): map<string, FileSpec> {
    if writes == [] then files
    else Apply(files, writes[..|writes| - 1])[writes[|writes| - 1].path := writes[|writes| - 1].file]
  }

  /** Once a prefix of the run aborts, the run is that prefix's run. */
  lemma {:induction false} AbortStops(ps: seq<Processed>, k: nat)
    requires k <= |ps|
    requires RunOver(ps[..k]).outcome.Aborted?
    ensures RunOver(ps) == RunOver(ps[..k])
  {
    if k < |ps| {
      var init := ps[..|ps| - 1];
      assert init[..k] == ps[..k];
      AbortStops(init, k);
    } else {
      assert ps[..k] == ps;
    }
  }

  /**
   * A run writes the files of a prefix of the processed elements, in order.
   * It completes exactly when every element had a file; otherwise it stops
   * at the first element without one, naming it.
   */
  lemma {:induction false} RunOverShape(ps: seq<Processed>)
    ensures var r := RunOver(ps);
      && |r.writes| <= |ps|
      && (forall i :: 0 <= i < |r.writes| ==> ps[i].artifact == Some(r.writes[i]))
      && (r.outcome.Completed? <==> |r.writes| == |ps|)
      && (r.outcome.Aborted? ==>
            r.outcome.element == ps[|r.writes|].name && ps[|r.writes|].artifact.None?)
  {
    if ps != [] {
      var init := ps[..|ps| - 1];
      RunOverShape(init);
      assert forall i :: 0 <= i < |init| ==> init[i] == ps[i];
    }
  }

  /**
   * A run writes the files of a prefix of the elements, each exactly the
   * element's artifact, in order.  It completes exactly when every element
   * was written; otherwise it stops at the first element whose class cannot
   * be built, naming it.
   */
  lemma RunShape(elements: seq<Element>, cfg: Config)
    ensures var r := RunSpec(elements, cfg);
      && |r.writes| <= |elements|
      && (forall i :: 0 <= i < |r.writes| ==> Artifact(elements[i], cfg) == Some(r.writes[i]))
      && (r.outcome.Completed? <==> |r.writes| == |elements|)
      && (r.outcome.Aborted? ==>
            && r.outcome.element == elements[|r.writes|].name
            && Artifact(elements[|r.writes|], cfg).None?)
  {
    RunOverShape(ProcessAll(elements, cfg));
  }

  /**
   * User-defined types come first: the first writes are those of the
   * user-defined types in order, and a table is written only after every
   * user-defined type was.
   */
  lemma UdtsBeforeTables(ks: Keyspace, cfg: Config)
    ensures var r := RunSpec(Elements(ks), cfg);
      && |r.writes| <= |ks.userDefinedTypes| + |ks.tables|
      && (forall i :: 0 <= i < |r.writes| && i < |ks.userDefinedTypes| ==>
            Artifact(UdtElement(ks.userDefinedTypes[i]), cfg) == Some(r.writes[i]))
      && (forall i :: |ks.userDefinedTypes| <= i < |r.writes| ==>
            Artifact(TableElement(ks.tables[i - |ks.userDefinedTypes|]), cfg) == Some(r.writes[i]))
  {
    RunShape(Elements(ks), cfg);
    ElementsAt(ks);
  }

  /**
   * With a non-empty output directory, every path a run writes is the path
   * the source writes that element's file to.
   */
  lemma RunPathsAsWritten(elements: seq<Element>, cfg: Config)
    requires Normalize(cfg.outputDir.GetOr("")) != ""
    ensures var r := RunSpec(elements, cfg);
      && |r.writes| <= |elements|
      && forall i :: 0 <= i < |r.writes| ==>
        r.writes[i].path == OutFile(cfg.outputDir, cfg.outputPackage, cfg.naming, elements[i].name).path
  {
    RunShape(elements, cfg);
    forall i | 0 <= i < |RunSpec(elements, cfg).writes|
      ensures RunSpec(elements, cfg).writes[i].path
           == OutFile(cfg.outputDir, cfg.outputPackage, cfg.naming, elements[i].name).path
    {
      ArtifactPathAsWritten(elements[i], cfg);
    }
  }

  lemma ElementsAt(ks: Keyspace)
    ensures |Elements(ks)| == |ks.userDefinedTypes| + |ks.tables|
    ensures forall i :: 0 <= i < |ks.userDefinedTypes| ==> Elements(ks)[i] == UdtElement(ks.userDefinedTypes[i])
    ensures forall i :: |ks.userDefinedTypes| <= i < |Elements(ks)| ==>
              Elements(ks)[i] == TableElement(ks.tables[i - |ks.userDefinedTypes|])
  {
  }

  /** The element at `k` is written after a prefix that completed. */
  lemma RunExtendWritten(ps: seq<Processed>, k: nat, writes: seq<Write>, w: Write)
    requires k < |ps|
    requires RunOver(ps[..k]) == RunResult(writes, Completed)
    requires ps[k].artifact == Some(w)
    ensures RunOver(ps[..k + 1]) == RunResult(writes + [w], Completed)
  {
    assert ps[..k + 1][..k] == ps[..k];
  }

  /** The element at `k`, after a prefix that completed, has no file and ends the run. */
  lemma RunExtendFailed(ps: seq<Processed>, k: nat, writes: seq<Write>)
    requires k < |ps|
    requires RunOver(ps[..k]) == RunResult(writes, Completed)
    requires ps[k].artifact.None?
    ensures RunOver(ps) == RunResult(writes, Aborted(ps[k].name))
  {
    assert ps[..k + 1][..k] == ps[..k];
    AbortStops(ps, k + 1);
  }

  lemma WritesAppend(files: map<string, FileSpec>, writes: seq<Write>, w: Write)
    ensures Paths(writes + [w]) == Paths(writes) + [w.path]
    ensures Apply(files, writes + [w]) == Apply(files, writes)[w.path := w.file]
  {
    assert (writes + [w])[..|writes|] == writes;
  }

  /**
   * Every file written holds one class named after its element, in the
   * output package, under the base name of that class plus ".kt".
   */
  lemma ArtifactNaming(e: Element, cfg: Config)
    requires Artifact(e, cfg).Some?
    ensures var w := Artifact(e, cfg).value;
      && w.file.packageName == cfg.outputPackage.GetOr("")
      && w.file.name == w.file.typeSpec.name == cfg.naming.toCamelCase(e.name)
      && w.path == IntendedOutFile(cfg.outputDir, cfg.outputPackage, cfg.naming, e.name).path
      && FileName(cfg.naming, e.name) == w.file.typeSpec.name + ".kt"
  {
  }

  /**
   * A user-defined type's class has one property per pair of the zipped
   * field names and types, so as many as the shorter list, each tagged with
   * its field's name and typed by its field's translated type.
   */
  lemma UdtPropertyCount(u: UdtDef, cfg: Config)
    requires Artifact(UdtElement(u), cfg).Some?
    ensures var spec := Artifact(UdtElement(u), cfg).value.file.typeSpec;
      && |spec.properties| == |spec.primaryConstructor|
         == (if |u.fieldNames| <= |u.fieldTypes| then |u.fieldNames| else |u.fieldTypes|)
      && forall i :: 0 <= i < |spec.properties| ==>
           && spec.properties[i].annotations == [CqlName(u.fieldNames[i])]
           && Some(spec.properties[i].propertyType) == MapType(u.fieldTypes[i], cfg.outputPackage, cfg.naming)
  {
    var e := UdtElement(u);
    MembersShape(e.fields, cfg.outputPackage, cfg.naming);
  }

  /** The written files as a state that the run changes. */
  class OutputFiles {
    /** The content at each path. */
    var files: map<string, FileSpec>
    /** Every path written, in order. */
    var written: seq<string>

    constructor (files: map<string, FileSpec>)
      ensures this.files == files && written == []
    {
      this.files := files;
      written := [];
    }

    /** Writes one file, replacing any file already at its path. */
    method WriteFile(w: Write)
      modifies this
      ensures files == old(files)[w.path := w.file]
      ensures written == old(written) + [w.path]
    {
      files := files[w.path := w.file];
      written := written + [w.path];
    }
  }

  /**
   * The work done for one element: build its class; on success, describe
   * the file holding it and the path it goes to.
   */
  method BuildArtifact(e: Element, cfg: Config) returns (w: Option<Write>)
    ensures w == Artifact(e, cfg)
  {
    var spec := BuildEntity(e.name, e.fields, cfg.keyspace, cfg.outputPackage, cfg.naming);
    if spec.None? {
      return None;
    }
    var fileSpec := FileSpec(cfg.outputPackage.GetOr(""), TypeName(cfg.naming, e.name), spec.value);
    var outFile := IntendedOutFile(cfg.outputDir, cfg.outputPackage, cfg.naming, e.name);
    w := Some(Write(outFile.path, fileSpec));
  }

  /**
   * Processes the element at position `k` of a run whose earlier elements
   * all succeeded: build it and, on success, write its file.
   */
  method Step(ghost ps: seq<Processed>, k: nat, e: Element, cfg: Config, out: OutputFiles,
              ghost files0: map<string, FileSpec>, ghost written0: seq<string>, ghost writes: seq<Write>)
    returns (w: Option<Write>)
    requires k < |ps| && ps[k] == Process(e, cfg)
    requires RunOver(ps[..k]) == RunResult(writes, Completed)
    requires out.written == written0 + Paths(writes) && out.files == Apply(files0, writes)
    modifies out
    ensures w.None? ==> RunOver(ps) == RunResult(writes, Aborted(e.name))
    ensures w.None? ==> out.written == old(out.written) && out.files == old(out.files)
    ensures w.Some? ==> RunOver(ps[..k + 1]) == RunResult(writes + [w.value], Completed)
    ensures w.Some? ==> out.written == written0 + Paths(writes + [w.value])
    ensures w.Some? ==> out.files == Apply(files0, writes + [w.value])
  {
    w := BuildArtifact(e, cfg);
    if w.None? {
      RunExtendFailed(ps, k, writes);
      return;
    }
    RunExtendWritten(ps, k, writes, w.value);
    WritesAppend(files0, writes, w.value);
    out.WriteFile(w.value);
  }

  /**
   * The run: the user-defined types, then the tables, each built and, on
   * success, written; the first failure ends the run.
   */
  method Run(ks: Keyspace, cfg: Config, out: OutputFiles) returns (outcome: Outcome)
    modifies out
    ensures outcome == RunSpec(Elements(ks), cfg).outcome
    ensures out.written == old(out.written) + Paths(RunSpec(Elements(ks), cfg).writes)
    ensures out.files == Apply(old(out.files), RunSpec(Elements(ks), cfg).writes)
  {
    ghost var ps := ProcessAll(Elements(ks), cfg);
    ElementsAt(ks);
    outcome := RunLoops(ks.userDefinedTypes, ks.tables, cfg, out, ps);
  }

  /** The two loops of the run, over `ps`, the processed user-defined types followed by the processed tables. */
  method RunLoops(udts: seq<UdtDef>, tables: seq<TableDef>, cfg: Config, out: OutputFiles, ghost ps: seq<Processed>)
    returns (outcome: Outcome)
    requires |ps| == |udts| + |tables|
    requires forall i :: 0 <= i < |udts| ==> ps[i] == Process(UdtElement(udts[i]), cfg)
    requires forall j :: 0 <= j < |tables| ==> ps[|udts| + j] == Process(TableElement(tables[j]), cfg)
    modifies out
    ensures outcome == RunOver(ps).outcome
    ensures out.written == old(out.written) + Paths(RunOver(ps).writes)
    ensures out.files == Apply(old(out.files), RunOver(ps).writes)
  {
    ghost var writes: seq<Write> := [];
    var i := 0;
    while i < |udts|
      invariant 0 <= i <= |udts|
      invariant RunOver(ps[..i]) == RunResult(writes, Completed)
      invariant out.written == old(out.written) + Paths(writes)
      invariant out.files == Apply(old(out.files), writes)
    {
      var w := Step(ps, i, UdtElement(udts[i]), cfg, out, old(out.files), old(out.written), writes);
      if w.None? {
        return Aborted(udts[i].name);
      }
      writes := writes + [w.value];
      i := i + 1;
    }
    var j := 0;
    assert ps[..|udts| + j] == ps[..i];
    while j < |tables|
      invariant 0 <= j <= |tables|
      invariant RunOver(ps[..|udts| + j]) == RunResult(writes, Completed)
      invariant out.written == old(out.written) + Paths(writes)
      invariant out.files == Apply(old(out.files), writes)
    {
      var w := Step(ps, |udts| + j, TableElement(tables[j]), cfg, out, old(out.files), old(out.written), writes);
      if w.None? {
        return Aborted(tables[j].name);
      }
      writes := writes + [w.value];
      j := j + 1;
    }
    assert ps[..|udts| + j] == ps;
    outcome := Completed;
  }
}
