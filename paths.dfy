/**
 * The subset of Python's `posixpath` the builder uses: `isabs`, `join` (two
 * arguments), `normpath`, `abspath` and `dirname`, on '/'-separated text.
 */
module Paths {
  import opened Text

  /** `posixpath.isabs`. */
  predicate IsAbs(p: string) {
    |p| > 0 && p[0] == '/'
  }

  predicate AllSlashes(s: string) {
    forall k :: 0 <= k < |s| ==> s[k] == '/'
  }

  // ---------------------------------------------------------------------------
  // dirname
  // ---------------------------------------------------------------------------

  /** `p.rfind('/') + 1`: the length of the head that ends at the last slash. */
  function HeadLength(p: string): (i: nat)
    ensures i <= |p|
    ensures i > 0 ==> p[i - 1] == '/'
    ensures '/' !in p[i..]
  {
    if p == [] then 0
    else if p[|p| - 1] == '/' then |p|
    else
      var i := HeadLength(p[..|p| - 1]);
      assert p[i..] == p[..|p| - 1][i..] + [p[|p| - 1]];
      i
  }

  /** `s.rstrip('/')`. */
  function StripTrailingSlashes(s: string): (r: string)
    ensures r <= s
    ensures r == [] || r[|r| - 1] != '/'
    ensures AllSlashes(s[|r|..])
  {
    if s != [] && s[|s| - 1] == '/' then
      var r := StripTrailingSlashes(s[..|s| - 1]);
      assert s[|r|..] == s[..|s| - 1][|r|..] + ['/'];
      r
    else s
  }

  /**
   * `posixpath.dirname`: everything up to the last slash, without the trailing
   * slashes unless the head consists of slashes only.
   */
  function Dirname(p: string): (r: string)
    ensures r <= p
    ensures r == [] <==> '/' !in p
    ensures IsAbs(p) ==> IsAbs(r)
  {
    var head := p[..HeadLength(p)];
    if head != [] && !AllSlashes(head) then StripTrailingSlashes(head) else head
  }

  // ---------------------------------------------------------------------------
  // Paths built from components
  // ---------------------------------------------------------------------------

  /** A path component: non-empty and slash-free. */
  predicate IsName(c: string) {
    c != [] && '/' !in c
  }

  /** A component `normpath` leaves in place in an absolute path. */
  predicate IsCleanName(c: string) {
    IsName(c) && c != "." && c != ".."
  }

  predicate AllNames(cs: seq<string>) {
    forall k :: 0 <= k < |cs| ==> IsName(cs[k])
  }

  predicate AllCleanNames(cs: seq<string>) {
    forall k :: 0 <= k < |cs| ==> IsCleanName(cs[k])
  }

  /** "/c1/c2/.../cn"; the empty text when there are no components. */
  function Rooted(cs: seq<string>): string {
    if cs == [] then "" else "/" + cs[0] + Rooted(cs[1..])
  }

  /** The canonical text of the absolute directory with components `cs`. */
  function Dir(cs: seq<string>): string {
    if cs == [] then "/" else Rooted(cs)
  }

  lemma {:induction false} RootedAppend(a: seq<string>, b: seq<string>)
    ensures Rooted(a + b) == Rooted(a) + Rooted(b)
  {
    if a == [] {
      assert a + b == b;
    } else {
      assert (a + b)[0] == a[0] && (a + b)[1..] == a[1..] + b;
      RootedAppend(a[1..], b);
    }
  }

  lemma RootedSnoc(cs: seq<string>, c: string)
    ensures Rooted(cs + [c]) == Rooted(cs) + "/" + c
  {
    RootedAppend(cs, [c]);
    assert Rooted([c]) == "/" + c + Rooted([]);
  }

  /** A path of names is "/" followed by the names joined by slashes. */
  lemma {:induction false} RootedJoin(cs: seq<string>)
    requires cs != []
    ensures Rooted(cs) == "/" + JoinWith(cs, '/')
  {
    if |cs| > 1 {
      RootedJoin(cs[1..]);
    }
  }

  lemma RootedLastChar(cs: seq<string>)
    requires cs != [] && AllNames(cs)
    ensures |Rooted(cs)| > 1 && Rooted(cs)[|Rooted(cs)| - 1] != '/'
    ensures Rooted(cs)[0] == '/' && Rooted(cs)[1] != '/'
  {
    var init, last := cs[..|cs| - 1], cs[|cs| - 1];
    assert cs == init + [last];
    RootedSnoc(init, last);
    assert IsName(last);
    assert last[|last| - 1] in last;
    assert cs[0][0] in cs[0];
  }

  lemma {:induction false} HeadLengthAfterSlash(a: string, b: string)
    requires a != [] && a[|a| - 1] == '/' && '/' !in b
    ensures HeadLength(a + b) == |a|
    decreases |b|
  {
    if b == [] {
      assert a + b == a;
    } else {
      var s := a + b;
      assert s[|s| - 1] == b[|b| - 1] && b[|b| - 1] in b;
      assert s[..|s| - 1] == a + b[..|b| - 1];
      assert '/' !in b[..|b| - 1] by {
        assert forall x :: x in b[..|b| - 1] ==> x in b;
      }
      HeadLengthAfterSlash(a, b[..|b| - 1]);
    }
  }

  /** The parent of a directory path is the path without its last component. */
  lemma DirnameOfDir(cs: seq<string>, c: string)
    requires AllNames(cs) && IsName(c)
    ensures Dirname(Dir(cs + [c])) == Dir(cs)
  {
    var p := Dir(cs + [c]);
    RootedSnoc(cs, c);
    assert p == (Rooted(cs) + "/") + c;
    HeadLengthAfterSlash(Rooted(cs) + "/", c);
    var head := p[..HeadLength(p)];
    assert head == Rooted(cs) + "/";
    if cs == [] {
      assert head == "/";
    } else {
      RootedLastChar(cs);
      assert head[1] != '/';
      var r := Rooted(cs);
      assert head[..|head| - 1] == r;
      assert StripTrailingSlashes(head) == StripTrailingSlashes(r);
    }
  }

  /** Two `dirname`s strip the last two components. */
  lemma GrandparentOfDir(root: seq<string>, a: string, b: string)
    requires AllNames(root) && IsName(a) && IsName(b)
    ensures Dirname(Dirname(Dir(root + [a, b]))) == Dir(root)
  {
    assert root + [a, b] == (root + [a]) + [b];
    assert AllNames(root + [a]) by {
      assert forall k :: 0 <= k < |root| ==> (root + [a])[k] == root[k];
    }
    DirnameOfDir(root + [a], b);
    DirnameOfDir(root, a);
  }

  // ---------------------------------------------------------------------------
  // join, normpath, abspath
  // ---------------------------------------------------------------------------

  /** `posixpath.join(a, b)`. */
  function Join(a: string, b: string): (r: string)
    ensures IsAbs(b) ==> r == b
    ensures IsAbs(a) ==> IsAbs(r)
    ensures |b| <= |r| && r[|r| - |b|..] == b
  {
    if IsAbs(b) then b
    else if a == [] || a[|a| - 1] == '/' then a + b
    else a + "/" + b
  }

  /** The components `normpath` keeps: no empty or "." ones, ".." only leading a relative path. */
  predicate NormalForm(cs: seq<string>, rooted: bool) {
    && (forall k :: 0 <= k < |cs| ==> IsName(cs[k]) && cs[k] != ".")
    && (forall k :: 0 <= k < |cs| && cs[k] == ".." ==> !rooted && forall j :: 0 <= j < k ==> cs[j] == "..")
  }

  /** One step of `normpath`'s loop over the components. */
  function NormStep(acc: seq<string>, comp: string, rooted: bool): seq<string> {
    if comp == "" || comp == "." then acc
    else if comp != ".." || (!rooted && acc == []) || (acc != [] && acc[|acc| - 1] == "..") then acc + [comp]
    else if acc != [] then acc[..|acc| - 1]
    else acc
  }

  lemma NormStepNormal(acc: seq<string>, comp: string, rooted: bool)
    requires NormalForm(acc, rooted) && '/' !in comp
    ensures NormalForm(NormStep(acc, comp, rooted), rooted)
  {
    if comp != "" && comp != "." && comp == ".." && acc != [] && acc[|acc| - 1] == ".." {
      assert forall j :: 0 <= j < |acc| ==> acc[j] == "..";
      var r := acc + [comp];
      assert forall k :: 0 <= k < |r| ==> r[k] == "..";
    }
  }

  function NormComps(comps: seq<string>, rooted: bool, acc: seq<string>): seq<string>
    decreases |comps|
  {
    if comps == [] then acc else NormComps(comps[1..], rooted, NormStep(acc, comps[0], rooted))
  }

  lemma {:induction false} NormCompsNormal(comps: seq<string>, rooted: bool, acc: seq<string>)
    requires NormalForm(acc, rooted)
    requires forall k :: 0 <= k < |comps| ==> '/' !in comps[k]
    ensures NormalForm(NormComps(comps, rooted, acc), rooted)
    decreases |comps|
  {
    if comps != [] {
      NormStepNormal(acc, comps[0], rooted);
      NormCompsNormal(comps[1..], rooted, NormStep(acc, comps[0], rooted));
    }
  }

  /** Components already in normal form pass through `normpath`'s loop unchanged. */
  lemma {:induction false} NormCompsOfNormal(comps: seq<string>, rooted: bool, acc: seq<string>)
    requires NormalForm(acc + comps, rooted)
    ensures NormComps(comps, rooted, acc) == acc + comps
    decreases |comps|
  {
    if comps == [] {
      assert acc + comps == acc;
    } else {
      var all := acc + comps;
      assert all[|acc|] == comps[0];
      assert NormStep(acc, comps[0], rooted) == acc + [comps[0]] by {
        if comps[0] == ".." && acc != [] {
          assert all[|acc| - 1] == acc[|acc| - 1];
        }
      }
      assert (acc + [comps[0]]) + comps[1..] == all;
      NormCompsOfNormal(comps[1..], rooted, acc + [comps[0]]);
    }
  }

  /** The leading slashes `normpath` keeps: two exactly when there are exactly two, else one. */
  function LeadingSlashes(p: string): string {
    if !IsAbs(p) then ""
    else if |p| >= 2 && p[1] == '/' && !(|p| >= 3 && p[2] == '/') then "//"
    else "/"
  }

  /** `posixpath.normpath`. */
  function Normpath(p: string): (r: string)
    ensures r != ""
    ensures IsAbs(r) <==> IsAbs(p)
  {
    if p == "" then "."
    else
      NormalCompsNormal(p);
      NormalFormNoSlash(NormalComps(p), IsAbs(p));
      var body := JoinWith(NormalComps(p), '/');
      var r := LeadingSlashes(p) + body;
      if r == "" then "." else r
  }

  /** Text of the components `normpath` keeps. */
  function NormalComps(p: string): seq<string> {
    NormComps(SplitOn(p, '/'), IsAbs(p), [])
  }

  lemma NormalCompsNormal(p: string)
    ensures NormalForm(NormalComps(p), IsAbs(p))
  {
    NormCompsNormal(SplitOn(p, '/'), IsAbs(p), []);
  }

  lemma NormalFormNoSlash(cs: seq<string>, rooted: bool)
    requires NormalForm(cs, rooted)
    ensures cs != [] ==> |JoinWith(cs, '/')| > 0 && JoinWith(cs, '/')[0] != '/'
  {
    if cs != [] {
      assert IsName(cs[0]);
      assert cs[0][0] in cs[0];
    }
  }

  lemma SplitAfterSlash(s: string)
    requires s != [] && s[0] == '/'
    ensures SplitOn(s, '/') == [""] + SplitOn(s[1..], '/')
  {
  }

  predicate IsSlashPrefix(slashes: string) {
    slashes == "" || slashes == "/" || slashes == "//"
  }

  /** `normpath` finds again the slash prefix of a text it built. */
  lemma LeadingSlashesOfNormalText(slashes: string, cs: seq<string>)
    requires IsSlashPrefix(slashes) && NormalForm(cs, slashes != "")
    ensures LeadingSlashes(slashes + JoinWith(cs, '/')) == slashes
  {
    NormalFormNoSlash(cs, slashes != "");
  }

  /** `normpath` finds again the components of a text it built. */
  lemma NormalCompsOfNormalText(slashes: string, cs: seq<string>)
    requires IsSlashPrefix(slashes) && NormalForm(cs, slashes != "")
    requires slashes != "" || cs != []
    ensures NormalComps(slashes + JoinWith(cs, '/')) == cs
  {
    var body := JoinWith(cs, '/');
    var r := slashes + body;
    var rooted := slashes != "";
    var parts := if cs == [] then [""] else cs;
    assert SplitOn(body, '/') == parts by {
      if cs != [] { SplitJoin(cs, '/'); }
    }
    assert [] + cs == cs;
    NormCompsOfNormal(cs, rooted, []);
    assert NormComps(parts, rooted, []) == cs;
    if slashes == "/" {
      SplitAfterSlash(r);
      assert r[1..] == body;
    } else if slashes == "//" {
      SplitAfterSlash(r);
      SplitAfterSlash(r[1..]);
      assert r[1..][1..] == body;
      var once := [""] + parts;
      assert SplitOn(r, '/') == [""] + once;
      assert NormComps([""] + once, true, []) == NormComps(once, true, []);
      assert NormComps(once, true, []) == NormComps(parts, true, []);
    } else {
      assert r == body;
    }
  }

  /** A text `normpath` could have produced comes back from it unchanged. */
  lemma NormpathOfNormalText(slashes: string, cs: seq<string>)
    requires IsSlashPrefix(slashes) && NormalForm(cs, slashes != "")
    requires slashes != "" || cs != []
    ensures Normpath(slashes + JoinWith(cs, '/')) == slashes + JoinWith(cs, '/')
  {
    var r := slashes + JoinWith(cs, '/');
    LeadingSlashesOfNormalText(slashes, cs);
    NormalCompsOfNormalText(slashes, cs);
    NormalFormNoSlash(cs, slashes != "");
    assert IsAbs(r) == (slashes != "");
  }

  /** `normpath` is idempotent. */
  lemma NormpathIdempotent(p: string)
    ensures Normpath(Normpath(p)) == Normpath(p)
  {
    var slashes, cs := LeadingSlashes(p), NormalComps(p);
    if p == "" || slashes + JoinWith(cs, '/') == "" {
      assert Normpath(p) == ".";
      assert SplitOn(".", '/') == ["."];
      assert NormComps(["."], false, []) == [];
    } else {
      NormalCompsNormal(p);
      assert Normpath(p) == slashes + JoinWith(cs, '/');
      NormpathOfNormalText(slashes, cs);
    }
  }

  lemma CleanNamesNormal(cs: seq<string>)
    requires AllCleanNames(cs)
    ensures NormalForm(cs, true)
  {
  }

  /** `normpath` leaves the canonical text of a directory alone. */
  lemma NormpathOfDir(cs: seq<string>)
    requires AllCleanNames(cs)
    ensures Normpath(Dir(cs)) == Dir(cs)
  {
    CleanNamesNormal(cs);
    if cs == [] {
      assert Dir(cs) == "/" + JoinWith(cs, '/');
    } else {
      RootedJoin(cs);
    }
    NormpathOfNormalText("/", cs);
  }

  /**
   * `posixpath.abspath`, with the current directory passed in: a relative path
   * is joined to `cwd`, and the result is normalised.
   */
  function Abspath(cwd: string, p: string): (r: string)
    ensures IsAbs(cwd) ==> IsAbs(r)
    ensures IsAbs(p) ==> r == Normpath(p)
  {
    Normpath(if IsAbs(p) then p else Join(cwd, p))
  }

  /** An absolute result is left alone by a second `abspath`. */
  lemma AbspathIdempotent(cwd: string, p: string)
    requires IsAbs(cwd)
    ensures Abspath(cwd, Abspath(cwd, p)) == Abspath(cwd, p)
  {
    NormpathIdempotent(if IsAbs(p) then p else Join(cwd, p));
  }

  lemma AllCleanNamesAppend(a: seq<string>, b: seq<string>)
    requires AllCleanNames(a) && AllCleanNames(b)
    ensures AllCleanNames(a + b)
  {
    assert forall k :: 0 <= k < |a + b| ==> (a + b)[k] == if k < |a| then a[k] else b[k - |a|];
  }

  lemma RelativeJoin(rel: seq<string>)
    requires AllCleanNames(rel) && rel != []
    ensures !IsAbs(JoinWith(rel, '/')) && Rooted(rel) == "/" + JoinWith(rel, '/')
  {
    assert IsName(rel[0]) && rel[0][0] in rel[0];
    NormalFormNoSlash(rel, true);
    RootedJoin(rel);
  }

  lemma JoinBelowNonRoot(cwd: seq<string>, j: string)
    requires cwd != [] && AllNames(cwd) && !IsAbs(j)
    ensures Join(Dir(cwd), j) == Rooted(cwd) + ("/" + j)
  {
    RootedLastChar(cwd);
    assert Rooted(cwd) + "/" + j == Rooted(cwd) + ("/" + j);
  }

  /** Joining the names of `rel` to the directory `cwd` gives the directory `cwd + rel`. */
  lemma JoinBelowDir(cwd: seq<string>, rel: seq<string>)
    requires AllCleanNames(cwd) && AllCleanNames(rel) && rel != []
    ensures !IsAbs(JoinWith(rel, '/'))
    ensures Join(Dir(cwd), JoinWith(rel, '/')) == Dir(cwd + rel)
  {
    var j := JoinWith(rel, '/');
    RelativeJoin(rel);
    RootedAppend(cwd, rel);
    if cwd == [] {
      assert Join(Dir(cwd), j) == "/" + j;
      assert cwd + rel == rel;
    } else {
      JoinBelowNonRoot(cwd, j);
    }
  }

  /** A relative path of clean names is resolved below the current directory. */
  lemma AbspathRelative(cwd: seq<string>, rel: seq<string>)
    requires AllCleanNames(cwd) && AllCleanNames(rel) && rel != []
    ensures Abspath(Dir(cwd), JoinWith(rel, '/')) == Dir(cwd + rel)
  {
    JoinBelowDir(cwd, rel);
    AllCleanNamesAppend(cwd, rel);
    NormpathOfDir(cwd + rel);
  }
}
