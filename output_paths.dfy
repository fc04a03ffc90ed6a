/**
 * Where the generated files go: the package directory is the output
 * directory joined with the package name, its dots turned into '/', and
 * each element's file is its class name with ".kt" under that directory.
 */
module OutputPaths {
  import opened Wrappers
  import opened CaseChanger
  import opened JavaFile

  /** `s.replace(".", "/")`. */
  function ReplaceDots(s: string): (r: string)
    ensures |r| == |s|
    ensures forall i :: 0 <= i < |s| ==> r[i] == if s[i] == '.' then '/' else s[i]
  {
    if s == [] then [] else [if s[0] == '.' then '/' else s[0]] + ReplaceDots(s[1..])
  }

  /** The base name of an element's file: its class name and ".kt". */
  function FileName(naming: Naming, name: string): string {
    TypeName(naming, name) + ".kt"
  }

  /** The output directory: `--dir` when given, otherwise `File("")`. */
  function OutFileDir(outputDir: Option<string>): File {
    if outputDir.Some? then FromPath(outputDir.value) else FromPath("")
  }

  /** The package directory, as written: `File(outFileDir, package.replace(".", "/"))`. */
  function OutPackageDir(outputDir: Option<string>, outputPackage: Option<string>): File {
    Child(OutFileDir(outputDir), ReplaceDots(outputPackage.GetOr("")))
  }

  /** The file of one element, as written: `File(outPackageDir, className + ".kt")`. */
  function OutFile(outputDir: Option<string>, outputPackage: Option<string>, naming: Naming, name: string): File {
    Child(OutPackageDir(outputDir, outputPackage), FileName(naming, name))
  }

  /** As written, with neither `--dir` nor a package the package directory is the root itself. */
  lemma NoDirNoPackageIsRoot()
    ensures OutPackageDir(None, None) == File("/")
  {
  }

  /**
   * As written, leaving out `--dir` puts every file under the root
   * directory: the empty `File("")` parent resolves against "/".
   */
  lemma NoDirIsAbsolute(outputPackage: Option<string>, naming: Naming, name: string)
    ensures |OutFile(None, outputPackage, naming, name).path| > 0
    ensures OutFile(None, outputPackage, naming, name).path[0] == '/'
  {
    ChildOfRootIsAbsolute(OutFileDir(None), ReplaceDots(outputPackage.GetOr("")));
    ChildOfRootIsAbsolute(OutPackageDir(None, outputPackage), FileName(naming, name));
  }

  /**
   * As written and without `--dir`, the package directory lands directly
   * under the root.
   */
  lemma NoDirLayout(outputPackage: string, naming: Naming, name: string)
    requires WellFormedPackage(outputPackage) && outputPackage != ""
    requires forall i :: 0 <= i < |naming.toCamelCase(name)| ==> naming.toCamelCase(name)[i] != '/'
    ensures OutFile(None, Some(outputPackage), naming, name).path
         == "/" + ReplaceDots(outputPackage) + "/" + naming.toCamelCase(name) + ".kt"
  {
    var rd := ReplaceDots(outputPackage);
    var file := FileName(naming, name);
    PackagePathIsNormal(outputPackage);
    FileNameIsNormal(naming, name);
    assert OutFileDir(None) == File("");
    assert OutPackageDir(None, Some(outputPackage)) == File("/" + rd);
    ChildAppends(File("/" + rd), file);
  }

  /** One instance: package "de.smiles", class "Foo" and no `--dir` give "/de/smiles/Foo.kt". */
  lemma NoDirExample(naming: Naming)
    requires naming.toCamelCase("foo") == "Foo"
    ensures OutFile(None, Some("de.smiles"), naming, "foo").path == "/de/smiles/Foo.kt"
  {
    var className := naming.toCamelCase("foo");
    DeSmiles();
    assert forall i :: 0 <= i < |className| ==> className[i] != '/';
    NoDirLayout("de.smiles", naming, "foo");
    ExamplePath(ReplaceDots("de.smiles"), className);
  }

  /** The example's path, spelled out from its parts. */
  lemma ExamplePath(packagePath: string, className: string)
    requires packagePath == "de/smiles" && className == "Foo"
    ensures "/" + packagePath + "/" + className + ".kt" == "/de/smiles/Foo.kt"
  {
  }

  /** The example's package is well formed, and its path is "de/smiles". */
  lemma DeSmiles()
    ensures WellFormedPackage("de.smiles") && ReplaceDots("de.smiles") == "de/smiles"
  {
    var p := "de.smiles";
    assert forall i :: 0 <= i < |p| ==> p[i] != '/';
  }

  /**
   * Joining as intended: an empty directory is the working directory, so the
   * child stays relative.  A non-empty parent joins as `java.io.File` does.
   */
  function ChildOfWorkingDir(parent: File, child: string): File {
    if parent.path == "" then File(Normalize(child)) else Child(parent, child)
  }

  function IntendedPackageDir(outputDir: Option<string>, outputPackage: Option<string>): File {
    ChildOfWorkingDir(OutFileDir(outputDir), ReplaceDots(outputPackage.GetOr("")))
  }

  /** The file of one element, with both joins done as intended. */
  function IntendedOutFile(outputDir: Option<string>, outputPackage: Option<string>, naming: Naming, name: string): File {
    ChildOfWorkingDir(IntendedPackageDir(outputDir, outputPackage), FileName(naming, name))
  }

  /** Whenever the output directory is not empty, the intended paths are the paths as written. */
  lemma IntendedAgreesWithDir(outputDir: Option<string>, outputPackage: Option<string>, naming: Naming, name: string)
    requires Normalize(outputDir.GetOr("")) != ""
    ensures IntendedOutFile(outputDir, outputPackage, naming, name) == OutFile(outputDir, outputPackage, naming, name)
  {
  }

  /** A package name whose dotted segments are all non-empty and which contains no '/'. */
  predicate WellFormedPackage(p: string) {
    && (forall i :: 0 <= i < |p| ==> p[i] != '/')
    && (|p| > 0 ==> p[0] != '.' && p[|p| - 1] != '.')
    && (forall i :: 0 <= i < |p| - 1 ==> !(p[i] == '.' && p[i + 1] == '.'))
  }

  lemma PackagePathIsNormal(p: string)
    requires WellFormedPackage(p)
    ensures IsNormal(ReplaceDots(p))
    ensures |p| > 0 ==> ReplaceDots(p)[0] != '/'
  {
  }

  lemma FileNameIsNormal(naming: Naming, name: string)
    requires forall i :: 0 <= i < |naming.toCamelCase(name)| ==> naming.toCamelCase(name)[i] != '/'
    ensures var file := FileName(naming, name); IsNormal(file) && file != "" && file[0] != '/'
  {
    var file := FileName(naming, name);
    assert forall i :: 0 <= i < |file| ==> file[i] != '/';
  }

  /** The directory part of a path: nothing, the root, or a normalized directory and '/'. */
  function DirPrefix(dir: string): string {
    if dir == "" then "" else if dir == "/" then "/" else dir + "/"
  }

  /** Two intended joins of normalized, relative pieces under a normalized directory. */
  lemma JoinTwice(dir: string, packagePath: string, file: string)
    requires IsNormal(dir) && IsNormal(packagePath) && IsNormal(file)
    requires file != "" && file[0] != '/'
    requires packagePath != "" ==> packagePath[0] != '/'
    ensures ChildOfWorkingDir(ChildOfWorkingDir(File(dir), packagePath), file).path
         == DirPrefix(dir) + (if packagePath == "" then "" else packagePath + "/") + file
  {
    var pkgDir := ChildOfWorkingDir(File(dir), packagePath);
    if packagePath == "" {
      JoinEmpty(dir);
      JoinUnder(dir, file);
    } else {
      JoinUnder(dir, packagePath);
      JoinNonEmpty(pkgDir, DirPrefix(dir), packagePath, file);
    }
  }

  lemma JoinEmpty(dir: string)
    requires IsNormal(dir)
    ensures ChildOfWorkingDir(File(dir), "") == File(dir)
  {
    assert Normalize("") == "";
  }

  lemma JoinNonEmpty(pkgDir: File, prefix: string, packagePath: string, file: string)
    requires pkgDir.path == prefix + packagePath
    requires packagePath != "" && packagePath[0] != '/'
    requires IsNormal(file) && file != "" && file[0] != '/'
    ensures ChildOfWorkingDir(pkgDir, file).path == prefix + (packagePath + "/") + file
  {
    assert pkgDir.path != "";
    assert pkgDir.path != "/" by {
      if prefix == "" {
        assert pkgDir.path[0] == packagePath[0];
      } else {
        assert |pkgDir.path| >= 2;
      }
    }
    ChildAppends(pkgDir, file);
  }

  /** One intended join of a normalized, relative, non-empty piece under a normalized directory. */
  lemma JoinUnder(dir: string, child: string)
    requires IsNormal(dir) && IsNormal(child) && child != "" && child[0] != '/'
    ensures ChildOfWorkingDir(File(dir), child).path == DirPrefix(dir) + child
  {
    assert Normalize(child) == child;
  }

  /**
   * The intended layout: the output directory, then the package with every
   * '.' replaced by '/', then the class name with ".kt".
   */
  lemma IntendedLayout(outputDir: Option<string>, outputPackage: Option<string>, naming: Naming, name: string)
    requires WellFormedPackage(outputPackage.GetOr(""))
    requires forall i :: 0 <= i < |naming.toCamelCase(name)| ==> naming.toCamelCase(name)[i] != '/'
    ensures IntendedOutFile(outputDir, outputPackage, naming, name).path
         == DirPrefix(Normalize(outputDir.GetOr("")))
          + (if outputPackage.GetOr("") == "" then "" else ReplaceDots(outputPackage.GetOr("")) + "/")
          + FileName(naming, name)
  {
    var dir := Normalize(outputDir.GetOr(""));
    var packagePath := ReplaceDots(outputPackage.GetOr(""));
    var file := FileName(naming, name);
    PackagePathIsNormal(outputPackage.GetOr(""));
    FileNameIsNormal(naming, name);
    assert OutFileDir(outputDir) == File(dir);
    JoinTwice(dir, packagePath, file);
  }

  /**
   * With both joins done as intended, leaving out `--dir` keeps every file
   * relative to the working directory.
   */
  lemma IntendedNoDirIsRelative(outputPackage: Option<string>, naming: Naming, name: string)
    requires WellFormedPackage(outputPackage.GetOr(""))
    requires |naming.toCamelCase(name)| > 0 ==> naming.toCamelCase(name)[0] != '/'
    ensures |IntendedOutFile(None, outputPackage, naming, name).path| > 0
    ensures IntendedOutFile(None, outputPackage, naming, name).path[0] != '/'
  {
    PackagePathIsNormal(outputPackage.GetOr(""));
  }
}
