/**
 * The build file `_build_container` hands to the engine: the base image, a
 * `groupadd`/`useradd` step recreating the invoking user, and the creation of
 * the container-side conda-bld directory.
 */
module Dockerfile {
  import opened Wrappers
  import opened Text
  import opened Identity

  /** The indentation inside the triple-quoted template: eight spaces. */
  const Indent := "        "

  /** The shell command that recreates the invoking user and group in the image. */
  function UserCommand(info: UserInfo): string {
    JoinWith(UserWords(info), ' ')
  }

  /**
   * The words of the user command, in order; joined by single spaces they read
   * `groupadd -g <gid> <groupname> && useradd -u <uid> -g <gid> <username>`.
   */
  function UserWords(info: UserInfo): seq<string> {
    ["groupadd", "-g", NatToString(info.gid), info.groupname, "&&",
     "useradd", "-u", NatToString(info.uid), "-g", NatToString(info.gid), info.username]
  }

  // ---------------------------------------------------------------------------
  // The same file as a typed sequence of directives
  // ---------------------------------------------------------------------------

  datatype Directive = From(image: string) | Run(command: string)

  function DirectiveLine(d: Directive): string {
    match d
    case From(image) => "FROM " + image
    case Run(command) => "RUN " + command
  }

  /** The three directives, in the order the build file gives them. */
  function Directives(image: string, info: UserInfo, condaBld: string): seq<Directive> {
    [From(image), Run(UserCommand(info)), Run("mkdir -p " + condaBld)]
  }

  function IndentedLines(ds: seq<Directive>): (lines: seq<string>)
    ensures |lines| == |ds|
  {
    seq(|ds|, i requires 0 <= i < |ds| => Indent + DirectiveLine(ds[i]))
  }

  lemma IndentedThree(ds: seq<Directive>)
    requires |ds| == 3
    ensures IndentedLines(ds) == [Indent + DirectiveLine(ds[0]), Indent + DirectiveLine(ds[1]), Indent + DirectiveLine(ds[2])]
  {
  }

  /** The layout of the template: an empty first line, one indented line per directive, a last line of indentation. */
  function Render(ds: seq<Directive>): string {
    Terminated([""] + IndentedLines(ds)) + Indent
  }

  /**
   * The build file `_build_container` writes: the template's three directive
   * lines each indented and ended by a newline, after its opening newline and
   * before its closing indentation, i.e.
   * "\n" + Indent + "FROM <image>\n" + Indent + "RUN <user command>\n" + Indent + "RUN mkdir -p <conda-bld>\n" + Indent.
   */
  function DockerfileText(image: string, info: UserInfo, condaBld: string): string {
    Render(Directives(image, info, condaBld))
  }

  lemma NoLineBreakAppend(a: string, b: string)
    requires NoLineBreak(a) && NoLineBreak(b)
    ensures NoLineBreak(a + b)
  {
    assert forall k :: 0 <= k < |a + b| ==> (a + b)[k] == if k < |a| then a[k] else b[k - |a|];
  }

  lemma DigitsNoLineBreak(n: nat)
    ensures NoLineBreak(NatToString(n)) && ' ' !in NatToString(n)
  {
  }

  lemma UserCommandNoLineBreak(info: UserInfo)
    requires NoLineBreak(info.groupname) && NoLineBreak(info.username)
    ensures NoLineBreak(UserCommand(info))
  {
    var w := UserWords(info);
    DigitsNoLineBreak(info.gid);
    DigitsNoLineBreak(info.uid);
    assert forall k :: 0 <= k < |w| ==> NoLineBreak(w[k]);
    JoinNoLineBreak(w, ' ');
  }

  lemma FromLineNoLineBreak(image: string)
    requires NoLineBreak(image)
    ensures NoLineBreak(Indent + "FROM " + image)
  {
    assert NoLineBreak(Indent + "FROM ");
    NoLineBreakAppend(Indent + "FROM ", image);
  }

  lemma UserLineNoLineBreak(info: UserInfo)
    requires NoLineBreak(info.groupname) && NoLineBreak(info.username)
    ensures NoLineBreak(Indent + "RUN " + UserCommand(info))
  {
    assert NoLineBreak(Indent + "RUN ");
    UserCommandNoLineBreak(info);
    NoLineBreakAppend(Indent + "RUN ", UserCommand(info));
  }

  lemma MkdirLineNoLineBreak(condaBld: string)
    requires NoLineBreak(condaBld)
    ensures NoLineBreak(Indent + "RUN mkdir -p " + condaBld)
  {
    assert NoLineBreak(Indent + "RUN mkdir -p ");
    NoLineBreakAppend(Indent + "RUN mkdir -p ", condaBld);
  }

  lemma MkdirLineText(condaBld: string)
    ensures Indent + DirectiveLine(Run("mkdir -p " + condaBld)) == Indent + "RUN mkdir -p " + condaBld
  {
    assert "RUN " + ("mkdir -p " + condaBld) == "RUN mkdir -p " + condaBld;
  }

  /** The three directive lines, each indented, as they read in the template. */
  lemma DirectiveLinesText(image: string, info: UserInfo, condaBld: string)
    ensures IndentedLines(Directives(image, info, condaBld)) ==
      [Indent + "FROM " + image, Indent + "RUN " + UserCommand(info), Indent + "RUN mkdir -p " + condaBld]
  {
    var ds := Directives(image, info, condaBld);
    IndentedThree(ds);
    assert Indent + DirectiveLine(ds[0]) == Indent + "FROM " + image;
    assert Indent + DirectiveLine(ds[1]) == Indent + "RUN " + UserCommand(info);
    MkdirLineText(condaBld);
  }

  /**
   * Read line by line, the build file is: an empty line, then FROM the base
   * image, then the group and user creation, then the mkdir of the conda-bld
   * directory, each indented, then the closing indentation - provided no value
   * substituted into it contains a line boundary.
   */
  lemma DockerfileLines(image: string, info: UserInfo, condaBld: string)
    requires NoLineBreak(image) && NoLineBreak(info.groupname) && NoLineBreak(info.username) && NoLineBreak(condaBld)
    ensures SplitLines(DockerfileText(image, info, condaBld)) ==
      ["", Indent + "FROM " + image, Indent + "RUN " + UserCommand(info), Indent + "RUN mkdir -p " + condaBld, Indent]
  {
    var ds := Directives(image, info, condaBld);
    var l1, l2, l3 := Indent + "FROM " + image, Indent + "RUN " + UserCommand(info), Indent + "RUN mkdir -p " + condaBld;
    FromLineNoLineBreak(image);
    UserLineNoLineBreak(info);
    MkdirLineNoLineBreak(condaBld);
    DirectiveLinesText(image, info, condaBld);
    var lines := ["", l1, l2, l3];
    assert [""] + IndentedLines(ds) == lines;
    SplitIndent();
    SplitTerminated(lines, Indent);
  }

  lemma SplitIndent()
    ensures SplitLines(Indent) == [Indent]
  {
    assert NoLineBreak(Indent);
    SplitSingleLine(Indent);
  }

  // ---------------------------------------------------------------------------
  // The ids in the user line
  // ---------------------------------------------------------------------------

  /**
   * Split at spaces, the user command names the group and the user in the
   * fields `groupadd` and `useradd` read, and the numbers in them read back as
   * exactly the identity's gid and uid - provided the names contain no space.
   */
  lemma UserCommandIds(info: UserInfo)
    requires ' ' !in info.groupname && ' ' !in info.username
    ensures var w := SplitOn(UserCommand(info), ' ');
      && |w| == 11 && w[0] == "groupadd" && w[5] == "useradd"
      && w[1] == "-g" && ParseNat(w[2]) == Some(info.gid) && w[3] == info.groupname
      && w[6] == "-u" && ParseNat(w[7]) == Some(info.uid)
      && w[8] == "-g" && ParseNat(w[9]) == Some(info.gid) && w[10] == info.username
  {
    DigitsNoLineBreak(info.gid);
    DigitsNoLineBreak(info.uid);
    SplitJoin(UserWords(info), ' ');
    ParseNatToString(info.gid);
    ParseNatToString(info.uid);
  }
}
