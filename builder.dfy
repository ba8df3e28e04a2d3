/**
 * `RecipeBuilder` itself: its settings, fixed at construction, and the one
 * piece of state it changes, the `_build` memo, together with the engine it
 * drives.  Each method is tied to the value-level model of what it does.
 */
module Builder {
  import opened Wrappers
  import opened Engine
  import Text
  import Paths
  import Identity
  import Template
  import Dockerfile
  import Protocol
  import Recipe

  class RecipeBuilder {
    const tag: string
    const image: string
    const userInfo: Identity.UserInfo
    const containerRecipe: string
    /** The container-side conda-bld directory, its template already resolved. */
    const containerCondaBld: string
    const docker: DockerClient
    /** `_build`: the log of the last image build, `None` until one has run. */
    var build: Option<string>

    constructor (tag: string, image: string, userInfo: Identity.UserInfo, containerRecipe: string,
                 containerCondaBld: string, docker: DockerClient)
      ensures this.tag == tag && this.image == image && this.userInfo == userInfo
      ensures this.containerRecipe == containerRecipe && this.containerCondaBld == containerCondaBld
      ensures this.docker == docker && build == None
    {
      this.tag := tag;
      this.image := image;
      this.userInfo := userInfo;
      this.containerRecipe := containerRecipe;
      this.containerCondaBld := containerCondaBld;
      this.docker := docker;
      build := None;
    }

    /**
     * `RecipeBuilder(tag, container_recipe=..., container_conda_bld=..., image=...)`
     * for the identity `userInfo`: the conda-bld template is resolved once; when
     * it cannot be, construction raises and no builder exists.
     */
    static method Create(tag: string, containerRecipe: string, condaBldTemplate: string, image: string,
                         userInfo: Identity.UserInfo, docker: DockerClient)
      returns (r: Result<RecipeBuilder, Template.FormatError>)
      ensures var f := Template.Format(condaBldTemplate, userInfo);
        (f.Failure? <==> r.Failure?) && (f.Failure? ==> r.error == f.error)
      ensures r.Success? ==>
        var b := r.value;
        fresh(b) && b.tag == tag && b.image == image && b.userInfo == userInfo
        && b.containerRecipe == containerRecipe && b.docker == docker && b.build == None
        && b.containerCondaBld == Template.Format(condaBldTemplate, userInfo).value
    {
      var resolved := Template.Format(condaBldTemplate, userInfo);
      if resolved.Failure? {
        return Failure(resolved.error);
      }
      var b := new RecipeBuilder(tag, image, userInfo, containerRecipe, resolved.value, docker);
      return Success(b);
    }

    /** The settings a run depends on: the tag, the build file and the uid. */
    function Config(): Protocol.Config {
      Protocol.Config(tag, Dockerfile.DockerfileText(image, userInfo, containerCondaBld), userInfo.uid)
    }

    /**
     * `_build_container`: one build request for the synthesised build file,
     * removing intermediate containers and tagging the image; the joined log is
     * both stored and returned.
     */
    method BuildContainer() returns (log: string)
      modifies this`build, docker`calls
      ensures docker.calls == old(docker.calls) + [Call.Build(Config().dockerfile, true, tag)]
      ensures log == Text.Concat(docker.replies.buildLog) && build == Some(log)
    {
      var dockerfile := Dockerfile.DockerfileText(image, userInfo, containerCondaBld);
      var response := docker.Build(dockerfile, true, tag);
      build := Some(Text.Concat(response));
      log := build.value;
    }

    /**
     * The container part of `run_docker_cmd`: a container from the tag, as the
     * user's uid, with host networking; then start, wait and the two log fetches.
     */
    method RunContainer(cmd: string, binds: Option<Binds>) returns (res: Protocol.RunResult)
      modifies docker`calls
      ensures docker.calls == old(docker.calls) + Protocol.RunCalls(Config(), cmd, binds, docker.replies.containerId)
      ensures res == Protocol.RunResult(docker.replies.status, docker.replies.stdoutLog, docker.replies.stderrLog)
    {
      ghost var before := docker.calls;
      var cid := docker.CreateContainer(tag, userInfo.uid, cmd, HostConfig(binds, "host"));
      docker.Start(cid);
      var status := docker.Wait(cid);
      var stdout := docker.Logs(cid, true, false);
      var stderr := docker.Logs(cid, false, true);
      res := Protocol.RunResult(status, stdout, stderr);
      assert docker.calls == before + Protocol.RunCalls(Config(), cmd, binds, cid);
    }

    /**
     * `run_docker_cmd(cmd, binds)`: the build when the memo is falsy, then one
     * container run; state and trace are exactly what `Protocol.Run` describes.
     */
    method RunDockerCmd(cmd: string, binds: Option<Binds>) returns (res: Protocol.RunResult)
      modifies this`build, docker`calls
      ensures var o := Protocol.Run(old(build), Config(), docker.replies, cmd, binds);
        res == o.result && build == o.memo && docker.calls == old(docker.calls) + o.calls
    {
      ghost var before := docker.calls;
      ghost var builds := if Protocol.Built(build) then [] else [Protocol.BuildCall(Config())];
      if !Protocol.Built(build) {
        var _ := BuildContainer();
      }
      ghost var mid := docker.calls;
      assert mid == before + builds;
      res := RunContainer(cmd, binds);
      assert docker.calls == before + (builds + Protocol.RunCalls(Config(), cmd, binds, docker.replies.containerId));
    }

    /**
     * `build_recipe(recipe)` from the working directory `cwd`, with the output
     * query answered by `conda`: when the output root cannot be found, the run
     * fails before anything is printed or requested; otherwise the recipe is
     * mounted read-only at `/tmp` and the output root read-write at the
     * conda-bld directory, `conda build <containerRecipe>` runs, and what is
     * printed is returned.
     */
    method BuildRecipe(recipe: string, cwd: string, conda: seq<string> -> Recipe.ToolRun)
      returns (r: Result<seq<Recipe.Printed>, Recipe.Error>)
      modifies this`build, docker`calls
      ensures var abs := Paths.Abspath(cwd, recipe);
        var out := Recipe.HostCondaBuildDir(abs, conda);
        out.Failure? ==> r == Failure(out.error) && build == old(build) && docker.calls == old(docker.calls)
      ensures var abs := Paths.Abspath(cwd, recipe);
        var out := Recipe.HostCondaBuildDir(abs, conda);
        out.Success? ==>
          var binds := Recipe.RecipeBindsAsWritten(abs, out.value, containerCondaBld);
          var o := Protocol.Run(old(build), Config(), docker.replies, Recipe.Command(containerRecipe), Some(binds));
          r == Success(Recipe.Report(binds, o.result)) && build == o.memo && docker.calls == old(docker.calls) + o.calls
    {
      var abs := Paths.Abspath(cwd, recipe);
      var out := Recipe.HostCondaBuildDir(abs, conda);
      if out.Failure? {
        return Failure(out.error);
      }
      var binds := Recipe.RecipeBindsAsWritten(abs, out.value, containerCondaBld);
      var res := RunDockerCmd(Recipe.Command(containerRecipe), Some(binds));
      return Success(Recipe.Report(binds, res));
    }
  }
}
