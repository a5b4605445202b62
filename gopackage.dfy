/** A Go package as a node of the dependency graph: it knows how to build or
    install itself, lists the source files and in-project packages it
    depends on, and remembers that list once it has computed it.

    The Go toolchain, the file system and package resolution are outside
    this model; the `Context` datatype holds them as oracles. */
module Dependency {
  import opened Wrappers

  /** An error reported by one of the collaborators. */
  datatype Error = Error(message: string)

  /** The fields of a resolved `go/build` package that the node reads. */
  datatype BuildPackage = BuildPackage(
    name: string,
    dir: string,
    importPath: string,
    pkgObj: string,
    imports: seq<string>,
    goFiles: seq<string>,
    cgoFiles: seq<string>,
    cFiles: seq<string>,
    cxxFiles: seq<string>,
    mFiles: seq<string>,
    hFiles: seq<string>,
    fFiles: seq<string>,
    sFiles: seq<string>,
    swigFiles: seq<string>,
    swigCXXFiles: seq<string>,
    sysoFiles: seq<string>,
    testGoFiles: seq<string>,
    xTestGoFiles: seq<string>)

  /** The collaborators the node consults. */
  datatype Context = Context(
    buildArgs: (BuildPackage, string) -> seq<string>,              // flags from the package and the git commit
    goExec: seq<string> -> Option<Error>,                          // runs the go tool with these arguments
    touch: string -> Option<Error>,                                // sets a file's modification time to now
    installPath: BuildPackage -> string,                           // where `go install` puts the artifact
    importPackage: (string, string) -> Result<BuildPackage, Error>, // (import path, source dir) to a package
    importPathToDir: string -> string,                             // an import path's directory
    join: (string, string) -> string,                              // joins a directory and a file name
    stat: string -> Result<int, Error>)                            // a file's modification time

  /** The modification time reported when a file cannot be examined. */
  const ZeroTime: int := 0

  /** The pseudo-import that enables cgo; it names no package. */
  const CgoPseudoImport: string := "C"

  /** A node this package depends on: another package of the same project,
      or one of its own files. */
  datatype Dependency =
    | PackageDep(projectImportPath: string, path: string, pkg: BuildPackage)
    | FileDep(projectImportPath: string, path: string)

  /** The external calls an operation made, in order, and its result. */
  datatype Call = GoExec(args: seq<string>) | Touch(path: string)
  datatype Outcome = Outcome(calls: seq<Call>, err: Option<Error>)

  /** Runs the go tool with `args`; only when that succeeds, stamps
      `target` as fresh. The error is the go tool's, or else the stamp's. */
  predicate ExecThenTouch(ctx: Context, r: Outcome, args: seq<string>, target: string) {
    && 1 <= |r.calls| <= 2
    && r.calls[0] == GoExec(args)
    && (|r.calls| == 2 <==> ctx.goExec(args).None?)
    && (|r.calls| == 2 ==> r.calls[1] == Touch(target) && r.err == ctx.touch(target))
    && (|r.calls| == 1 ==> r.err == ctx.goExec(args))
  }

  /** The source files of a package in the order the node lists them; test
      files are not among them. */
  function SourceFiles(p: BuildPackage): seq<string> {
    p.goFiles + p.cgoFiles + p.cFiles + p.cxxFiles + p.mFiles + p.hFiles
      + p.fFiles + p.sFiles + p.swigFiles + p.swigCXXFiles + p.sysoFiles
  }

  class GoPackage {
    const pkg: BuildPackage
    const ctx: Context
    const path: string
    const gitCommit: string
    const projectImportPath: string

    /** The memoised dependency list; empty until computed. A Go nil slice
        and an empty one are the same here: the stored slice is nil exactly
        when it is empty. */
    var dependencies: seq<Dependency>

    constructor (pkg: BuildPackage, ctx: Context, path: string, gitCommit: string, projectImportPath: string)
      ensures this.pkg == pkg && this.ctx == ctx && this.path == path
      ensures this.gitCommit == gitCommit && this.projectImportPath == projectImportPath
      ensures dependencies == []
    {
      this.pkg := pkg;
      this.ctx := ctx;
      this.path := path;
      this.gitCommit := gitCommit;
      this.projectImportPath := projectImportPath;
      dependencies := [];
    }

    /** The node's name is the path of its artifact. */
    function Name(): (n: string)
      ensures n == path
    {
      path
    }

    /** A package is always buildable. */
    function Buildable(): (b: bool)
      ensures b
    {
      true
    }

    /** As `go/build` decides: a package named main is a command. */
    predicate IsCommand() {
      pkg.name == "main"
    }

    /** `go install` of the package, then a stamp on its install path. */
    function Install(): (r: Outcome)
      ensures ExecThenTouch(ctx, r, ["install"] + ctx.buildArgs(pkg, gitCommit) + [pkg.importPath], ctx.installPath(pkg))
    {
      var args := ["install"] + ctx.buildArgs(pkg, gitCommit) + [pkg.importPath];
      match ctx.goExec(args)
      case Some(e) => Outcome([GoExec(args)], Some(e))
      case None =>
        var target := ctx.installPath(pkg);
        Outcome([GoExec(args), Touch(target)], ctx.touch(target))
    }

    /** A command is built to its own name and then stamped; any other
        package is installed. */
    function Build(): (r: Outcome)
      ensures !IsCommand() ==> r == Install()
      ensures IsCommand() ==>
                ExecThenTouch(ctx, r, ["build"] + ctx.buildArgs(pkg, gitCommit) + ["-o", Name()] + [pkg.importPath], Name())
    {
      if !IsCommand() then Install()
      else
        var args := ["build"] + ctx.buildArgs(pkg, gitCommit) + ["-o", Name()] + [pkg.importPath];
        match ctx.goExec(args)
        case Some(e) => Outcome([GoExec(args)], Some(e))
        case None => Outcome([GoExec(args), Touch(Name())], ctx.touch(Name()))
    }

    /** The modification time of the artifact, or the zero time when it
        cannot be examined. */
    function ModTime(): (t: int)
      ensures ctx.stat(path).Failure? ==> t == ZeroTime
      ensures ctx.stat(path).Success? ==> t == ctx.stat(path).value
    {
      match ctx.stat(path)
      case Failure(_) => ZeroTime
      case Success(mtime) => mtime
    }

    /** The file nodes for the package's source files. */
    function FileDeps(): seq<Dependency> {
      var files := SourceFiles(pkg);
      seq(|files|, i requires 0 <= i < |files| => FileDep(projectImportPath, ctx.join(pkg.dir, files[i])))
    }

    /** Lists the source files in category order (Go, cgo, C, C++,
        Objective-C, headers, Fortran, assembly, SWIG, SWIG C++, syso), each
        joined onto the package directory. */
    method Files() returns (deps: seq<Dependency>)
      ensures deps == FileDeps()
      ensures |deps| == |pkg.goFiles| + |pkg.cgoFiles| + |pkg.cFiles| + |pkg.cxxFiles| + |pkg.mFiles|
                        + |pkg.hFiles| + |pkg.fFiles| + |pkg.sFiles| + |pkg.swigFiles| + |pkg.swigCXXFiles|
                        + |pkg.sysoFiles|
      ensures forall i :: 0 <= i < |deps| ==> deps[i].FileDep? && deps[i].projectImportPath == projectImportPath
    {
      var files := pkg.goFiles;
      files := files + pkg.cgoFiles;
      files := files + pkg.cFiles;
      files := files + pkg.cxxFiles;
      files := files + pkg.mFiles;
      files := files + pkg.hFiles;
      files := files + pkg.fFiles;
      files := files + pkg.sFiles;
      files := files + pkg.swigFiles;
      files := files + pkg.swigCXXFiles;
      files := files + pkg.sysoFiles;
      var gofiles := new Dependency[|files|](_ => FileDep("", ""));
      for i := 0 to |files|
        invariant forall k :: 0 <= k < i ==> gofiles[k] == FileDep(projectImportPath, ctx.join(pkg.dir, files[k]))
      {
        gofiles[i] := FileDep(projectImportPath, ctx.join(pkg.dir, files[i]));
      }
      deps := gofiles[..];
    }

    /** The directory of the project; only packages below it are tracked. */
    function ProjectDir(): string {
      ctx.importPathToDir(projectImportPath)
    }

    /** An import the node keeps: not the cgo pseudo-import, resolvable, and
        resolved to a directory inside the project. */
    predicate InProject(imp: string) {
      && imp != CgoPseudoImport
      && ctx.importPackage(imp, pkg.dir).Success?
      && ProjectDir() <= ctx.importPackage(imp, pkg.dir).value.dir
    }

    /** The imports the node keeps, in import order. */
    function KeptImports(imports: seq<string>): (ks: seq<string>)
      ensures forall k :: k in ks ==> InProject(k)
    {
      if imports == [] then []
      else (if InProject(imports[0]) then [imports[0]] else []) + KeptImports(imports[1..])
    }

    /** The package node of a kept import, named by its object file. */
    function Node(imp: string): Dependency
      requires InProject(imp)
    {
      var p := ctx.importPackage(imp, pkg.dir).value;
      PackageDep(projectImportPath, p.pkgObj, p)
    }

    /** The package nodes of the kept imports, one for one. */
    function Nodes(ks: seq<string>): seq<Dependency>
      requires forall k :: k in ks ==> InProject(k)
    {
      seq(|ks|, i requires 0 <= i < |ks| => Node(ks[i]))
    }

    /** The error of the first import other than the cgo pseudo-import that
        does not resolve, if there is one. */
    function FirstImportError(imports: seq<string>): (e: Option<Error>)
      ensures e.None? <==>
                forall imp :: imp in imports && imp != CgoPseudoImport ==> ctx.importPackage(imp, pkg.dir).Success?
    {
      if imports == [] then None
      else
        var rest := FirstImportError(imports[1..]);
        assert forall x :: x in imports[1..] ==> x in imports;
        assert forall x :: x in imports ==> x == imports[0] || x in imports[1..];
        if imports[0] != CgoPseudoImport && ctx.importPackage(imports[0], pkg.dir).Failure? then
          Some(ctx.importPackage(imports[0], pkg.dir).error)
        else rest
    }

    /** The error `FirstImportError` reports is that of an import before which
        every import is the cgo pseudo-import or resolves. */
    lemma {:induction false} FirstImportErrorIsFirst(imports: seq<string>)
      requires FirstImportError(imports).Some?
      ensures exists n :: 0 <= n < |imports| && imports[n] != CgoPseudoImport
                && ctx.importPackage(imports[n], pkg.dir) == Failure(FirstImportError(imports).value)
                && forall j :: 0 <= j < n ==> imports[j] == CgoPseudoImport || ctx.importPackage(imports[j], pkg.dir).Success?
    {
      if imports[0] != CgoPseudoImport && ctx.importPackage(imports[0], pkg.dir).Failure? {
        assert 0 < |imports|;
      } else {
        FirstImportErrorIsFirst(imports[1..]);
        var n :| 0 <= n < |imports[1..]| && imports[1..][n] != CgoPseudoImport
                && ctx.importPackage(imports[1..][n], pkg.dir) == Failure(FirstImportError(imports[1..]).value)
                && forall j :: 0 <= j < n ==> imports[1..][j] == CgoPseudoImport || ctx.importPackage(imports[1..][j], pkg.dir).Success?;
        forall j | 0 <= j < n + 1
          ensures imports[j] == CgoPseudoImport || ctx.importPackage(imports[j], pkg.dir).Success?
        {
          if j > 0 {
            assert imports[j] == imports[1..][j - 1];
          }
        }
        assert imports[n + 1] == imports[1..][n];
      }
    }

    /** A node in front of the nodes of a list of kept imports. */
    lemma NodesCons(k: string, ks: seq<string>)
      requires InProject(k) && forall x :: x in ks ==> InProject(x)
      ensures forall x :: x in [k] + ks ==> InProject(x)
      ensures Nodes([k] + ks) == [Node(k)] + Nodes(ks)
    {
      assert forall x :: x in [k] + ks ==> x == k || x in ks;
      assert forall i :: 1 <= i < |ks| + 1 ==> ([k] + ks)[i] == ks[i - 1];
    }

    /** Resolves `imports` in order: skips the cgo pseudo-import, stops at
        the first import that cannot be resolved, and keeps the packages whose
        directory starts with the project directory. */
    function ResolveImports(imports: seq<string>): (r: Result<seq<Dependency>, Error>)
      ensures r.Success? <==>
                forall imp :: imp in imports && imp != CgoPseudoImport ==> ctx.importPackage(imp, pkg.dir).Success?
      ensures r.Failure? ==>
                exists imp :: imp in imports && imp != CgoPseudoImport && ctx.importPackage(imp, pkg.dir) == Failure(r.error)
      ensures r.Success? ==> |r.value| <= |imports|
      ensures r.Success? ==> forall d :: d in r.value ==>
                && d.PackageDep?
                && d.projectImportPath == projectImportPath
                && d.path == d.pkg.pkgObj
                && ProjectDir() <= d.pkg.dir
                && exists imp :: imp in imports && imp != CgoPseudoImport && ctx.importPackage(imp, pkg.dir) == Success(d.pkg)
    {
      if imports == [] then Success([])
      else
        var imp := imports[0];
        var rest := ResolveImports(imports[1..]);
        assert forall x :: x in imports[1..] ==> x in imports;
        if imp == CgoPseudoImport then rest
        else
          match ctx.importPackage(imp, pkg.dir)
          case Failure(e) => Failure(e)
          case Success(p) =>
            if rest.Failure? then rest
            else if ProjectDir() <= p.dir then
              Success([PackageDep(projectImportPath, p.pkgObj, p)] + rest.value)
            else rest
    }

    /** `ResolveImports` fails with the error of the first import that does
        not resolve, and otherwise yields the node of every kept import, in
        import order. */
    lemma {:induction false} ResolveImportsInOrder(imports: seq<string>)
      ensures var r := ResolveImports(imports);
        && (r.Failure? <==> FirstImportError(imports).Some?)
        && (r.Failure? ==> r.error == FirstImportError(imports).value)
        && (r.Success? ==> r.value == Nodes(KeptImports(imports)))
    {
      if imports != [] {
        ResolveImportsInOrder(imports[1..]);
        var imp := imports[0];
        var rest := ResolveImports(imports[1..]);
        if imp == CgoPseudoImport {
          assert KeptImports(imports) == KeptImports(imports[1..]);
          assert FirstImportError(imports) == FirstImportError(imports[1..]);
          assert ResolveImports(imports) == rest;
        } else if ctx.importPackage(imp, pkg.dir).Failure? {
          assert ResolveImports(imports) == Failure(ctx.importPackage(imp, pkg.dir).error);
        } else if InProject(imp) {
          assert FirstImportError(imports) == FirstImportError(imports[1..]);
          if rest.Success? {
            assert KeptImports(imports) == [imp] + KeptImports(imports[1..]);
            NodesCons(imp, KeptImports(imports[1..]));
          }
        } else {
          assert KeptImports(imports) == KeptImports(imports[1..]);
          assert FirstImportError(imports) == FirstImportError(imports[1..]);
          assert ResolveImports(imports) == rest;
        }
      }
    }

    /** One step of `ResolveImports`, at the `k`-th import. */
    lemma ResolveAt(imports: seq<string>, k: nat)
      requires k < |imports|
      ensures var imp := imports[k];
        var rest := ResolveImports(imports[k + 1..]);
        ResolveImports(imports[k..]) ==
          if imp == CgoPseudoImport then rest
          else match ctx.importPackage(imp, pkg.dir)
            case Failure(e) => Failure(e)
            case Success(p) =>
              if rest.Failure? then rest
              else if ProjectDir() <= p.dir then Success([PackageDep(projectImportPath, p.pkgObj, p)] + rest.value)
              else rest
    {
      assert imports[k..][0] == imports[k] && imports[k..][1..] == imports[k + 1..];
    }

    /** The in-project packages the package imports, in import order. */
    method Packages() returns (r: Result<seq<Dependency>, Error>)
      ensures r == ResolveImports(pkg.imports)
    {
      var pkgs: seq<Dependency> := [];
      var imports := pkg.imports;
      assert imports[0..] == imports;
      if ResolveImports(imports).Success? {
        assert pkgs + ResolveImports(imports).value == ResolveImports(imports).value;
      }
      for k := 0 to |imports|
        invariant ResolveImports(imports) ==
                  match ResolveImports(imports[k..])
                  case Success(later) => Success(pkgs + later)
                  case Failure(e) => Failure(e)
      {
        var i := imports[k];
        ResolveAt(imports, k);
        if i == CgoPseudoImport {
          continue;
        }
        var p := ctx.importPackage(i, pkg.dir);
        if p.Failure? {
          return Failure(p.error);
        }
        var base := ctx.importPathToDir(projectImportPath);
        if !(base <= p.value.dir) {
          continue;
        }
        if ResolveImports(imports[k + 1..]).Success? {
          assert pkgs + ([PackageDep(projectImportPath, p.value.pkgObj, p.value)] + ResolveImports(imports[k + 1..]).value)
              == (pkgs + [PackageDep(projectImportPath, p.value.pkgObj, p.value)]) + ResolveImports(imports[k + 1..]).value;
        }
        pkgs := pkgs + [PackageDep(projectImportPath, p.value.pkgObj, p.value)];
      }
      assert imports[|imports|..] == [];
      assert pkgs + [] == pkgs;
      return Success(pkgs);
    }

    /** The packages and then the files the package depends on, computed on
        the first call that yields a non-empty list and remembered from then
        on. An error leaves nothing remembered. */
    method Dependencies() returns (r: Result<seq<Dependency>, Error>)
      modifies this
      ensures old(dependencies) != [] ==> r == Success(old(dependencies)) && dependencies == old(dependencies)
      ensures old(dependencies) == [] && ResolveImports(pkg.imports).Failure? ==>
                r == Failure(ResolveImports(pkg.imports).error) && dependencies == []
      ensures old(dependencies) == [] && ResolveImports(pkg.imports).Success? ==>
                dependencies == ResolveImports(pkg.imports).value + FileDeps() && r == Success(dependencies)
    {
      if dependencies != [] {
        return Success(dependencies);
      }
      var pkgs := Packages();
      if pkgs.Failure? {
        return Failure(pkgs.error);
      }
      dependencies := pkgs.value;
      var files := Files();
      dependencies := dependencies + files;
      return Success(dependencies);
    }
  }

  /** Asking twice gives the same answer, whether or not the first call
      stored its result. */
  method DependenciesIsIdempotent(node: GoPackage) returns (first: Result<seq<Dependency>, Error>, second: Result<seq<Dependency>, Error>)
    modifies node
    ensures first == second
    ensures first.Success? && first.value != [] ==> node.dependencies == first.value
  {
    first := node.Dependencies();
    second := node.Dependencies();
  }
}
