/**
 * The value-level parts of `host_conda_build_dir` and `build_recipe`: where the
 * output root is, which host paths are mounted where, the command run, and what
 * is printed afterwards.
 */
module Recipe {
  import opened Wrappers
  import opened Text
  import opened Paths
  import opened Engine
  import opened Protocol

  /** The exceptions `host_conda_build_dir` lets escape. */
  datatype Error =
    | CalledProcessError(returncode: int)  // `conda build --output` exited non-zero
    | IndexError                           // it printed nothing, so `splitlines()[0]` has no line

  /** How the `conda build <recipe> --output` subprocess ended. */
  datatype ToolRun = ToolRun(returncode: int, stdout: string)

  /** The argument vector of the output query. */
  function CondaOutputArgv(recipe: string): seq<string> {
    ["conda", "build", recipe, "--output"]
  }

  /**
   * The host output root from the output query: the grandparent of the first
   * line printed.
   */
  function OutputRoot(run: ToolRun): (r: Result<string, Error>)
    ensures run.returncode != 0 ==> r == Failure(CalledProcessError(run.returncode))
    ensures run.returncode == 0 && run.stdout == "" ==> r == Failure(IndexError)
    ensures r.Success? <==> run.returncode == 0 && run.stdout != ""
    ensures r.Success? ==> r.value <= run.stdout[..LineEnd(run.stdout)]
    ensures r.Success? && IsAbs(run.stdout) ==> IsAbs(r.value)
  {
    if run.returncode != 0 then Failure(CalledProcessError(run.returncode))
    else
      var lines := SplitLines(run.stdout);
      if |lines| == 0 then Failure(IndexError)
      else Success(Dirname(Dirname(lines[0])))
  }

  /** `host_conda_build_dir(recipe)`, with the subprocess passed in as a function of its argument vector. */
  function HostCondaBuildDir(recipe: string, conda: seq<string> -> ToolRun): Result<string, Error> {
    OutputRoot(conda(CondaOutputArgv(recipe)))
  }

  /** A path all of whose components are names without line boundaries. */
  predicate PrintableNames(cs: seq<string>) {
    AllNames(cs) && forall k :: 0 <= k < |cs| ==> NoLineBreak(cs[k])
  }

  lemma DirNoLineBreak(cs: seq<string>)
    requires PrintableNames(cs)
    ensures NoLineBreak(Dir(cs))
  {
    if cs != [] {
      assert IsName(cs[0]) && NoLineBreak(cs[0]);
      assert PrintableNames(cs[1..]) by {
        assert forall k :: 0 <= k < |cs[1..]| ==> cs[1..][k] == cs[k + 1];
      }
      DirNoLineBreak(cs[1..]);
      var head := "/" + cs[0];
      assert NoLineBreak(head) by {
        assert forall k :: 0 <= k < |head| ==> head[k] == if k == 0 then '/' else cs[0][k - 1];
      }
      var rest := Rooted(cs[1..]);
      assert NoLineBreak(rest) by {
        if cs[1..] == [] { assert rest == ""; }
      }
      assert forall k :: 0 <= k < |head + rest| ==> (head + rest)[k] == if k < |head| then head[k] else rest[k - |head|];
    }
  }

  /**
   * When the tool prints an artifact path `<root>/<platform>/<package>` as its
   * first line, the output root is `<root>`.
   */
  lemma OutputRootOfArtifact(root: seq<string>, platform: string, pkg: string, more: string)
    requires PrintableNames(root + [platform, pkg])
    ensures OutputRoot(ToolRun(0, Dir(root + [platform, pkg]) + "\n" + more)) == Success(Dir(root))
  {
    var cs := root + [platform, pkg];
    var path := Dir(cs);
    assert cs[|root|] == platform && cs[|root| + 1] == pkg;
    assert AllNames(root) by {
      assert forall k :: 0 <= k < |root| ==> root[k] == cs[k];
    }
    DirNoLineBreak(cs);
    SplitAfterLine(path, more);
    GrandparentOfDir(root, platform, pkg);
  }

  lemma ExampleRoot()
    ensures Dir(["a", "b", "c"]) == "/a/b/c"
  {
    var cs := ["a", "b", "c"];
    assert cs[1..] == ["b", "c"] && cs[1..][1..] == ["c"] && cs[1..][1..][1..] == [];
    assert Rooted(["c"]) == "/c";
    assert Rooted(["b", "c"]) == "/b" + "/c";
  }

  lemma ExampleArtifact()
    ensures Dir(["a", "b", "c", "platform", "pkg.tar"]) == "/a/b/c/platform/pkg.tar"
  {
    ExampleRoot();
    var abc: seq<string> := ["a", "b", "c"];
    var abcp := abc + ["platform"];
    RootedSnoc(abc, "platform");
    var t1 := "/a/b/c" + "/" + "platform";
    assert t1 == "/a/b/c/platform";
    RootedSnoc(abcp, "pkg.tar");
    var t2 := "/a/b/c/platform" + "/" + "pkg.tar";
    assert t2 == "/a/b/c/platform/pkg.tar";
    assert abcp + ["pkg.tar"] == ["a", "b", "c", "platform", "pkg.tar"];
  }

  lemma ExampleOutput()
    ensures Dir(["a", "b", "c"] + ["platform", "pkg.tar"]) + "\n" + "" == "/a/b/c/platform/pkg.tar\n"
  {
    assert ["a", "b", "c"] + ["platform", "pkg.tar"] == ["a", "b", "c", "platform", "pkg.tar"];
    ExampleArtifact();
    var t := "/a/b/c/platform/pkg.tar" + "\n" + "";
    assert t == "/a/b/c/platform/pkg.tar\n";
  }

  lemma ExamplePrintable()
    ensures PrintableNames(["a", "b", "c"] + ["platform", "pkg.tar"])
  {
    var cs := ["a", "b", "c"] + ["platform", "pkg.tar"];
    assert cs == ["a", "b", "c", "platform", "pkg.tar"];
  }

  /** A worked example: `/a/b/c/platform/pkg.tar` gives `/a/b/c`. */
  lemma OutputRootExample()
    ensures OutputRoot(ToolRun(0, "/a/b/c/platform/pkg.tar\n")) == Success("/a/b/c")
  {
    ExamplePrintable();
    OutputRootOfArtifact(["a", "b", "c"], "platform", "pkg.tar", "");
    ExampleOutput();
    ExampleRoot();
  }

  /** The command `build_recipe` runs in the container. */
  function Command(containerRecipe: string): (cmd: string)
    ensures |cmd| >= |"conda build "|
    ensures cmd[..|"conda build "|] == "conda build "
    ensures cmd[|"conda build "|..] == containerRecipe
  {
    "conda build " + containerRecipe
  }

  /** The container path the recipe is bound to at line 114. */
  const RecipeMountPoint := "/tmp"

  /**
   * The bind map as `build_recipe` writes it: the recipe read-only at the
   * literal `/tmp`, the output root read-write at the container's conda-bld;
   * when both host paths are one, the later entry wins.
   */
  function RecipeBindsAsWritten(recipe: string, hostOut: string, condaBld: string): (m: Binds)
    ensures m.Keys == {recipe, hostOut}
    ensures m[hostOut] == Bind(condaBld, ReadWrite)
    ensures recipe != hostOut ==> m[recipe] == Bind(RecipeMountPoint, ReadOnly)
    ensures |m| == if recipe == hostOut then 1 else 2
  {
    map[recipe := Bind(RecipeMountPoint, ReadOnly), hostOut := Bind(condaBld, ReadWrite)]
  }

  /**
   * As written, a `container_recipe` other than `/tmp` (and other than the
   * conda-bld directory) is not mounted at all, so the command is pointed at a
   * directory that does not hold the recipe.
   */
  lemma AsWrittenMissesCommandTarget(recipe: string, hostOut: string, containerRecipe: string, condaBld: string)
    requires containerRecipe != RecipeMountPoint && containerRecipe != condaBld
    ensures var m := RecipeBindsAsWritten(recipe, hostOut, condaBld);
      forall h :: h in m ==> m[h].bind != Command(containerRecipe)[|"conda build "|..]
  {
  }

  /** The bind map with the recipe mounted where the command looks for it. */
  function MountBinds(recipe: string, hostOut: string, containerRecipe: string, condaBld: string): (m: Binds)
    ensures m.Keys == {recipe, hostOut}
    ensures m[hostOut] == Bind(condaBld, ReadWrite)
    ensures recipe != hostOut ==> m[recipe] == Bind(containerRecipe, ReadOnly)
    ensures |m| == if recipe == hostOut then 1 else 2
  {
    map[recipe := Bind(containerRecipe, ReadOnly), hostOut := Bind(condaBld, ReadWrite)]
  }

  /** The command's recipe directory is the read-only mount of the host recipe. */
  lemma MountsCommandTarget(recipe: string, hostOut: string, containerRecipe: string, condaBld: string)
    requires recipe != hostOut
    ensures var m := MountBinds(recipe, hostOut, containerRecipe, condaBld);
      m[recipe] == Bind(Command(containerRecipe)[|"conda build "|..], ReadOnly)
  {
  }

  /** For the default `container_recipe`, `/tmp`, the two maps are the same. */
  lemma CorrectedAgreesOnDefault(recipe: string, hostOut: string, condaBld: string)
    ensures MountBinds(recipe, hostOut, RecipeMountPoint, condaBld) == RecipeBindsAsWritten(recipe, hostOut, condaBld)
  {
  }

  /**
   * Every host path mounted is absolute, provided the current directory is and
   * the tool prints an absolute artifact path.
   */
  lemma MountSourcesAbsolute(cwd: string, recipe: string, run: ToolRun, containerRecipe: string, condaBld: string)
    requires IsAbs(cwd) && IsAbs(run.stdout) && OutputRoot(run).Success?
    ensures var m := MountBinds(Abspath(cwd, recipe), OutputRoot(run).value, containerRecipe, condaBld);
      forall h :: h in m ==> IsAbs(h)
  {
  }

  /** What `build_recipe` prints: the bind map, then the run's stderr and stdout. */
  datatype Printed = PrettyBinds(binds: Binds) | Line(text: string)

  /** The map is always shown; stderr then stdout only when the status is not 0. */
  function Report(binds: Binds, res: RunResult): (out: seq<Printed>)
    ensures |out| >= 1 && out[0] == PrettyBinds(binds)
    ensures |out| > 1 <==> res.status != 0
    ensures res.status != 0 ==> out[1..] == [Line(res.stderr), Line(res.stdout)]
  {
    [PrettyBinds(binds)] + if res.status != 0 then [Line(res.stderr), Line(res.stdout)] else []
  }
}
