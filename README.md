# RecipeBuilder: building conda recipes in a Docker container

`conda_build_with_docker.py` builds a conda recipe inside a Docker container.
The container runs as the invoking user, so the packages it writes into the host's
conda-bld directory belong to that user. `RecipeBuilder` works in these steps:

- It resolves a container-side conda-bld template against the user's identity
  (uid, gid, group name, user name).
- Once, and lazily, it builds an image from a small build file. The build file
  starts from a base image, recreates the user and group, creates the conda-bld
  directory, and is tagged with the builder's tag. The build log is memoised in
  `_build`.
- It asks `conda build <recipe> --output` where packages land and takes the
  grandparent of the first line printed as the host output root.
- It mounts the recipe read-only and the output root read-write, runs
  `conda build <container recipe>` in a fresh container with host networking,
  and prints stderr then stdout when the exit status is not 0.

The model is in Dafny. The parts that only compute are functions and lemmas:

- template resolution, `str.format` restricted to the four identity keys (`Template`);
- the build-file text (`Dockerfile`);
- `str.splitlines`, `' '.join` (with its inverse split, used to read the user command back word by word) and decimal `str(int)` (`Text`);
- `posixpath.dirname`, `join`, `normpath` and `abspath` (`Paths`);
- the mount map, the command and the report (`Recipe`);
- what a run does to the memo and the engine trace, and what follows over a
  series of runs (`Protocol`).

The parts that change state are imperative: the builder is a class with its
`_build` memo (`Builder.RecipeBuilder`), and it drives a Docker client that
appends every request to a trace and answers from a script (`Engine.DockerClient`).

Inputs stand in for the outside world:

- the identity record replaces the `pwd`/`grp`/`os.getuid` lookups;
- a function from argument vector to exit code and stdout replaces the
  `conda build --output` subprocess;
- the current directory is a parameter of `abspath`;
- the engine's answers are the client's scripted replies.

## Model

| member | source | states |
|---|---|---|
| Identity.FieldNamed | conda_build_with_docker.py:53-57 | the four keys of `user_info` name the four identity fields, and every other name names none |
| Template.ParseUnparse | conda_build_with_docker.py:59 | reading a template written from literal characters and placeholders gives those pieces back |
| Template.UnparseParse | conda_build_with_docker.py:59 | a template that formats has exactly one reading, and writing it back gives the template |
| Template.FormatBraceFree | conda_build_with_docker.py:59 | a template with no braces formats to itself |
| Template.FormatOnePlaceholder | conda_build_with_docker.py:59 | one `{username}`, `{groupname}`, `{uid}` or `{gid}` between brace-free text is replaced by that field's value (uid and gid in decimal) |
| Template.FormatDefaultCondaBld | conda_build_with_docker.py:40-59 | the default `/home/{username}/conda-bld` resolves to `/home/<username>/conda-bld` |
| Builder.RecipeBuilder.constructor | conda_build_with_docker.py:49-61 | the settings are stored as given and `_build` starts as `None` |
| Builder.RecipeBuilder.Create | conda_build_with_docker.py:49-61 | construction fails exactly when formatting the conda-bld template fails, with that error; otherwise the builder holds the formatted template and `_build` is `None` |
| Text.NatToString | conda_build_with_docker.py:71 | `str(n)` is a non-empty digit string with no leading zero |
| Text.ParseNatToString | conda_build_with_docker.py:71 | reading the decimal text of a number back gives the number |
| Text.ToStringOfParseNat | conda_build_with_docker.py:71 | a canonical decimal text is the text of the number it reads as |
| Dockerfile.DockerfileLines | conda_build_with_docker.py:69-73 | the build file's lines are, in order, an empty line, `FROM <image>`, `RUN <user command>`, `RUN mkdir -p <conda-bld>` (each indented eight spaces) and a closing line of indentation |
| Dockerfile.UserCommandIds | conda_build_with_docker.py:71 | the user command has eleven words, `groupadd -g <gid> <groupname> && useradd -u <uid> -g <gid> <username>`, whose gid and uid words read back as exactly the record's gid and uid |
| Text.ConcatEmpty | conda_build_with_docker.py:76 | the joined build log is empty exactly when every chunk is empty |
| Text.ConcatAppend | conda_build_with_docker.py:76 | joining two runs of chunks is joining each and concatenating |
| Engine.DockerClient.constructor | conda_build_with_docker.py:60 | a new client has an empty trace and the given replies |
| Engine.DockerClient.Build | conda_build_with_docker.py:75 | the build request is appended to the trace and the build log is returned |
| Builder.RecipeBuilder.BuildContainer | conda_build_with_docker.py:69-77 | one build request with the synthesised build file, `rm=True` and the builder's tag; the joined log is stored in `_build` and returned |
| Text.SplitLines | conda_build_with_docker.py:88 | there are no lines exactly when the text is empty, and the first line is the text up to the first line boundary |
| Text.SplitTerminated | conda_build_with_docker.py:88 | lines each ended by a newline split back into those lines, followed by the lines of what comes after |
| Paths.Dirname | conda_build_with_docker.py:83-84 | the result is a prefix of the path, empty exactly when the path has no slash, and absolute when the path is |
| Paths.DirnameOfDir | conda_build_with_docker.py:83-84 | the dirname of `<dir>/<name>` is `<dir>` |
| Paths.GrandparentOfDir | conda_build_with_docker.py:83-84 | dirname twice of `<root>/<a>/<b>` is `<root>` |
| Recipe.OutputRoot | conda_build_with_docker.py:83-90 | a non-zero exit raises CalledProcessError, empty output raises IndexError, and otherwise the result is a prefix of the first output line, absolute when that line is |
| Recipe.OutputRootOfArtifact | conda_build_with_docker.py:83-90 | when the first line printed is `<root>/<platform>/<package>`, the output root is `<root>` |
| Recipe.OutputRootExample | conda_build_with_docker.py:83-90 | `/a/b/c/platform/pkg.tar` gives `/a/b/c` |
| Paths.Normpath | conda_build_with_docker.py:111 | the normal form is never empty and is absolute exactly when the path is |
| Paths.NormpathIdempotent | conda_build_with_docker.py:111 | normalising twice is normalising once |
| Paths.NormpathOfDir | conda_build_with_docker.py:111 | a directory of plain names is already normal |
| Paths.Abspath | conda_build_with_docker.py:111 | the result is absolute when the current directory is, and an absolute path is only normalised |
| Paths.AbspathIdempotent | conda_build_with_docker.py:111 | making an absolute result absolute again changes nothing |
| Paths.AbspathRelative | conda_build_with_docker.py:111 | a relative path of plain names resolves to the current directory extended by those names |
| Engine.DockerClient.CreateContainer | conda_build_with_docker.py:98-103 | the create request is appended to the trace and the scripted container id is returned |
| Engine.DockerClient.Start | conda_build_with_docker.py:104 | the start request is appended to the trace |
| Engine.DockerClient.Wait | conda_build_with_docker.py:105 | the wait request is appended to the trace and the scripted status is returned |
| Engine.DockerClient.Logs | conda_build_with_docker.py:106-107 | the logs request is appended and the selected streams are returned |
| Protocol.Run | conda_build_with_docker.py:96-108 | the result is the status, stdout and stderr the engine gave; with a non-empty memo nothing is built and the memo is kept; otherwise one build comes first and its joined log becomes the memo; then create, start, wait, stdout and stderr requests in that order |
| Protocol.BuildsUntilLogged | conda_build_with_docker.py:76-97 | over any series of runs, the builds are none when the memo is already set, and otherwise one per run up to and including the first run whose build log is not empty |
| Protocol.AtMostOneBuild | conda_build_with_docker.py:76-97 | once a build has left a non-empty log, any number of further runs builds no more |
| Protocol.MemoKept | conda_build_with_docker.py:76-97 | a non-empty memo survives any series of runs unchanged |
| Protocol.ContainerRequests | conda_build_with_docker.py:98-107 | without its builds, the trace of a series of runs is, run by run, a container from the tag as the user's uid with host networking, its start, wait, stdout-only and stderr-only log requests |
| Builder.RecipeBuilder.RunContainer | conda_build_with_docker.py:98-108 | the five container requests in order, and the status, stdout and stderr the engine answered |
| Builder.RecipeBuilder.RunDockerCmd | conda_build_with_docker.py:92-108 | the new memo, the requests appended and the result are exactly those of `Protocol.Run` on the old memo |
| Recipe.RecipeBindsAsWritten | conda_build_with_docker.py:112-121 | the map's keys are the recipe and the output root; the output root is bound read-write at the conda-bld directory; a distinct recipe is bound read-only at `/tmp`; equal host paths leave one entry, the read-write one |
| Recipe.AsWrittenMissesCommandTarget | conda_build_with_docker.py:112-124 | with a container recipe other than `/tmp` and the conda-bld directory, no mount of the written map lands where the command looks for the recipe |
| Recipe.MountBinds | conda_build_with_docker.py:112-121 | as the written map, but a distinct recipe is bound read-only at the container recipe directory |
| Recipe.MountsCommandTarget | conda_build_with_docker.py:112-124 | the directory the command builds is the read-only mount of the host recipe |
| Recipe.CorrectedAgreesOnDefault | conda_build_with_docker.py:39-121 | for the default container recipe `/tmp` the corrected map is the written one |
| Recipe.MountSourcesAbsolute | conda_build_with_docker.py:111-121 | every mounted host path is absolute when the current directory and the printed artifact path are |
| Recipe.Command | conda_build_with_docker.py:124 | the command is exactly `conda build ` followed by the container recipe directory: the first twelve characters are that prefix and the rest is the directory |
| Recipe.Report | conda_build_with_docker.py:122-129 | the map is always printed first; stderr then stdout follow exactly when the status is not 0 |
| Builder.RecipeBuilder.BuildRecipe | conda_build_with_docker.py:110-129 | when the output root cannot be found, the error is returned and neither the memo nor the trace changes; otherwise the map as written (recipe read-only at `/tmp`, output root read-write at the conda-bld directory), the command `conda build <container recipe>` and the report are those of `Recipe`, and memo and trace change as `Protocol.Run` says |

## Left out

- The Docker engine (lines 30, 60, 75, 98-107) is a scripted stand-in that records requests. The socket, `base_url`, connection errors, and `create_host_config` as a separate call are not modelled: the host configuration is part of the create request.
- The `conda build --output` subprocess (lines 85-88) is a function parameter from argument vector to exit code and stdout. Process spawning, `universal_newlines` decoding and missing executables are not modelled.
- `os.getuid`, `pwd.getpwuid` and `grp.getgrgid` (lines 51-57) are not modelled: the identity record is an input, and ids are non-negative.
- `os.path.abspath` (line 111) takes the current directory as a parameter, because it is ambient process state.
- UTF-8 encoding of the build file, `BytesIO`, and decoding of log chunks (lines 74, 76, 106-107) are not modelled: text is `seq<char>` throughout.
- `pprint` and `print` layout (lines 122, 128-129) are not modelled: the report is a sequence of printed items, not formatted text.
- `str.format` is modelled only for the four keys of `user_info` and the `{{`/`}}` escapes. Attribute and index fields, conversions and format specs all read as a failure, though real `str.format` accepts some of them (e.g. `{uid:5}`).
- The argparse entry point (lines 131-152) is command-line plumbing and is not modelled.
- Errors raised by the engine during a build or a run are not modelled, and neither is what they would leave in `_build`.

## Findings

| source | as written | input that shows it | evidently intended | confidence | as-written member | corrected member |
|---|---|---|---|---|---|---|
| conda_build_with_docker.py:114 | the recipe is always mounted at `/tmp`, while line 124 runs `conda build <container_recipe>` | `container_recipe='/recipe'` (e.g. `--container-recipe /recipe`): nothing is mounted at `/recipe`, so the command does not find the recipe | mount the recipe at `container_recipe`, as the `--container-recipe` help text says | not executed | Recipe.AsWrittenMissesCommandTarget | Recipe.MountsCommandTarget |
