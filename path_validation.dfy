/** `utils/path_validation.py`: the containment guard every file-touching tool
    call goes through, together with the POSIX `os.path` operations it is built
    from (`join`, `abspath`, `normpath`, `basename`). */
module PathValidation {
  import opened Wrappers
  import opened Strings

  const Slash: char := '/'

  /** `posixpath.isabs` */
  predicate IsAbs(p: string) {
    p != [] && p[0] == Slash
  }

  /** `posixpath.join(a, b)`: an absolute `b` replaces `a`; otherwise one
      separator is put between them unless `a` is empty or already ends in one. */
  function PathJoin(a: string, b: string): (r: string)
    ensures IsAbs(b) ==> r == b
    ensures !IsAbs(b) ==> StartsWith(r, a) && EndsWith(r, b)
    ensures !IsAbs(b) ==> |r| == |a| + |b| + (if a == [] || a[|a| - 1] == Slash then 0 else 1)
    ensures !IsAbs(b) && |r| > |a| + |b| ==> r[|a|] == Slash
    ensures IsAbs(a) ==> IsAbs(r)
  {
    if IsAbs(b) then b
    else if a == [] || a[|a| - 1] == Slash then a + b
    else a + [Slash] + b
  }

  /** A path component that survives normalisation. */
  predicate IsName(c: string) {
    c != "" && c != "." && c != ".." && Slash !in c
  }

  predicate AllNames(names: seq<string>) {
    forall k :: 0 <= k < |names| ==> IsName(names[k])
  }

  /** The component loop of `posixpath.normpath` on an absolute path: empty
      components and `.` vanish, `..` drops the last kept name (and nothing at
      the root), anything else is kept. */
  function Collapse(stack: seq<string>, comps: seq<string>): seq<string>
    decreases |comps|
  {
    if comps == [] then stack else Collapse(Step(stack, comps[0]), comps[1..])
  }

  /** One round of the `normpath` loop. */
  function Step(stack: seq<string>, c: string): seq<string> {
    if c == "" || c == "." then stack
    else if c == ".." then (if stack == [] then [] else stack[..|stack| - 1])
    else stack + [c]
  }

  /** The leading separators `normpath` keeps: POSIX gives exactly two leading
      slashes a meaning of their own, any other number collapses to one. */
  function Leading(p: string): string {
    if StartsWith(p, "//") && !StartsWith(p, "///") then "//" else "/"
  }

  /** `"/".join(names)` */
  function Render(names: seq<string>): string {
    JoinWith([Slash], names)
  }

  /** The names `normpath` keeps for an absolute path. */
  function Parts(p: string): seq<string> {
    Collapse([], SplitOn(p, [Slash]))
  }

  /** `posixpath.normpath` of an absolute path. */
  function NormPath(p: string): (r: string)
    requires IsAbs(p)
    ensures IsAbs(r)
  {
    Leading(p) + Render(Parts(p))
  }

  /** The path `abspath` normalises: `p` itself when absolute, else `p` under
      the current directory. */
  function Absolute(cwd: string, p: string): (r: string)
    requires IsAbs(cwd)
    ensures IsAbs(r)
  {
    if IsAbs(p) then p else PathJoin(cwd, p)
  }

  /** `posixpath.abspath(p)`, with `os.getcwd()` passed in as `cwd`. */
  function AbsPath(cwd: string, p: string): (r: string)
    requires IsAbs(cwd)
    ensures IsAbs(r)
  {
    NormPath(Absolute(cwd, p))
  }

  /** The message of the `ValueError` that `validate_path` raises. */
  function OutsideError(path: string): string {
    "Path " + path + " is outside working directory"
  }

  /** `validate_path(path, working_dir)`: join, normalise, and accept only a
      result that has the normalised working directory as a string prefix.
      The raised `ValueError` is the `Failure` carrying its message. */
  function ValidatePath(path: string, workingDir: string, cwd: string): (r: Result<string, string>)
    requires IsAbs(cwd)
    ensures r.Success? ==> IsAbs(r.value) && StartsWith(r.value, AbsPath(cwd, workingDir))
    ensures r.Failure? ==> r.error == OutsideError(path)
  {
    var fullPath := AbsPath(cwd, PathJoin(workingDir, path));
    var safeDir := AbsPath(cwd, workingDir);
    if !StartsWith(fullPath, safeDir) then Failure(OutsideError(path))
    else Success(fullPath)
  }

  /** `posixpath.basename(p)`: what follows the last separator. */
  function Basename(p: string): (r: string)
    ensures EndsWith(p, r) && Slash !in r
    ensures |r| < |p| ==> p[|p| - |r| - 1] == Slash
  {
    match FindLast(p, [Slash])
    case None =>
      assert forall k :: 0 <= k < |p| ==> p[k] != Slash by {
        forall k | 0 <= k < |p| ensures p[k] != Slash {
          OccursAtChar(p, Slash, k);
        }
      }
      p
    case Some(i) =>
      OccursAtChar(p, Slash, i);
      assert forall k :: i < k < |p| ==> p[k] != Slash by {
        forall k | i < k < |p| ensures p[k] != Slash {
          OccursAtChar(p, Slash, k);
        }
      }
      p[i + 1..]
  }

  // ----- normalisation -----

  lemma {:induction false} CollapseAppend(stack: seq<string>, xs: seq<string>, ys: seq<string>)
    ensures Collapse(stack, xs + ys) == Collapse(Collapse(stack, xs), ys)
    decreases |xs|
  {
    if xs != [] {
      assert (xs + ys)[0] == xs[0];
      assert (xs + ys)[1..] == xs[1..] + ys;
      CollapseAppend(Step(stack, xs[0]), xs[1..], ys);
    } else {
      assert xs + ys == ys;
    }
  }

  /** Names pass through `Collapse` unchanged and in order. */
  lemma {:induction false} CollapseOfNames(stack: seq<string>, names: seq<string>)
    requires AllNames(names)
    ensures Collapse(stack, names) == stack + names
    decreases |names|
  {
    if names != [] {
      CollapseOfNames(stack + [names[0]], names[1..]);
      assert stack + [names[0]] + names[1..] == stack + names;
    }
  }

  /** What `Collapse` keeps of separator-free components are names. */
  lemma {:induction false} CollapseKeepsNames(stack: seq<string>, comps: seq<string>)
    requires AllNames(stack)
    requires forall k :: 0 <= k < |comps| ==> Slash !in comps[k]
    ensures AllNames(Collapse(stack, comps))
    decreases |comps|
  {
    if comps != [] {
      var next := Step(stack, comps[0]);
      assert AllNames(next);
      CollapseKeepsNames(next, comps[1..]);
    }
  }

  lemma PartsAreNames(p: string)
    ensures AllNames(Parts(p))
  {
    SplitPiecesFree(p, Slash);
    CollapseKeepsNames([], SplitOn(p, [Slash]));
  }

  lemma CollapseSkips(stack: seq<string>, c: string)
    requires c == "" || c == "."
    ensures Collapse(stack, [c]) == stack
  {
    assert [c][1..] == [];
  }

  /** Splitting the join of `y` and a relative `p` splits `y`, then `p`, up to
      empty components. */
  lemma CollapseJoin(stack: seq<string>, y: string, p: string)
    requires !IsAbs(p)
    ensures Collapse(stack, SplitOn(PathJoin(y, p), [Slash]))
         == Collapse(Collapse(stack, SplitOn(y, [Slash])), SplitOn(p, [Slash]))
  {
    var sy := SplitOn(y, [Slash]);
    var sp := SplitOn(p, [Slash]);
    if y == [] {
      assert sy == [""];
      CollapseSkips(stack, "");
    } else if y[|y| - 1] == Slash {
      var y' := y[..|y| - 1];
      assert PathJoin(y, p) == y' + [Slash] + p;
      SplitConcat(y', Slash, p);
      assert y == y' + [Slash] + "";
      SplitConcat(y', Slash, "");
      assert SplitOn("", [Slash]) == [""];
      CollapseAppend(stack, SplitOn(y', [Slash]), sp);
      CollapseAppend(stack, SplitOn(y', [Slash]), [""]);
      CollapseSkips(Collapse(stack, SplitOn(y', [Slash])), "");
    } else {
      assert PathJoin(y, p) == y + [Slash] + p;
      SplitConcat(y, Slash, p);
      CollapseAppend(stack, sy, sp);
    }
  }

  /** Joining a relative path does not change the leading separators. */
  lemma LeadingJoin(x: string, p: string)
    requires IsAbs(x) && !IsAbs(p)
    ensures Leading(PathJoin(x, p)) == Leading(x)
  {
    var r := PathJoin(x, p);
    if |x| >= 3 {
      assert r[..3] == x[..3];
    } else if x[|x| - 1] == Slash {
      assert r == x + p;
      if p != [] {
        assert r[|x|] == p[0];
      }
    } else {
      assert |x| == 2 && r[..3] == x + [Slash];
    }
  }

  /** The normalised join of the working directory and a relative path is the
      working directory's leading separators and names, with the path's
      components collapsed onto those names. */
  lemma JoinRelative(cwd: string, workingDir: string, path: string)
    requires IsAbs(cwd) && !IsAbs(path)
    ensures var a := Absolute(cwd, workingDir);
      var full := Absolute(cwd, PathJoin(workingDir, path));
      && Leading(full) == Leading(a)
      && Parts(full) == Collapse(Parts(a), SplitOn(path, [Slash]))
  {
    var joined := PathJoin(workingDir, path);
    if IsAbs(workingDir) {
      LeadingJoin(workingDir, path);
      CollapseJoin([], workingDir, path);
    } else {
      assert !IsAbs(joined);
      LeadingJoin(cwd, joined);
      LeadingJoin(cwd, workingDir);
      CollapseJoin([], cwd, joined);
      CollapseJoin(Collapse([], SplitOn(cwd, [Slash])), workingDir, path);
      CollapseJoin([], cwd, workingDir);
    }
  }

  /** Rendered names start with the first name. */
  lemma RenderStart(names: seq<string>)
    requires names != [] && names[0] != ""
    ensures Render(names) != [] && Render(names)[0] == names[0][0]
  {
  }

  /** Rendered names end with the last name. */
  lemma RenderEnd(names: seq<string>)
    requires names != []
    ensures EndsWith(Render(names), names[|names| - 1])
  {
    var init := names[..|names| - 1];
    JoinSnoc([Slash], init, names[|names| - 1]);
    assert init + [names[|names| - 1]] == names;
  }

  /** A leading separator splits off one empty piece. */
  lemma SplitAfterSlash(body: string)
    ensures SplitOn([Slash] + body, [Slash]) == [""] + SplitOn(body, [Slash])
  {
    var s := [Slash] + body;
    assert s[..1] == [Slash];
    assert s[1..] == body;
  }

  /** How a normal path splits: one or two leading empty pieces, then its names. */
  lemma SplitNormal(lead: string, names: seq<string>)
    requires lead == "/" || lead == "//"
    requires AllNames(names)
    ensures SplitOn(lead + Render(names), [Slash])
         == (if lead == "/" then [""] else ["", ""]) + (if names == [] then [""] else names)
  {
    var body := Render(names);
    if names == [] {
      assert body == "";
      assert SplitOn(body, [Slash]) == [""];
    } else {
      SplitJoin(names, Slash);
    }
    SplitAfterSlash(body);
    if lead == "/" {
      assert lead + body == [Slash] + body;
    } else {
      SplitAfterSlash([Slash] + body);
      assert lead + body == [Slash] + ([Slash] + body);
    }
  }

  /** A path made of one or two leading separators and names is its own
      normal form. */
  lemma NormalForm(lead: string, names: seq<string>)
    requires lead == "/" || lead == "//"
    requires AllNames(names)
    ensures Leading(lead + Render(names)) == lead
    ensures Parts(lead + Render(names)) == names
    ensures NormPath(lead + Render(names)) == lead + Render(names)
  {
    var p := lead + Render(names);
    if names != [] {
      RenderStart(names);
      assert p[|lead|] == names[0][0] != Slash;
    }
    SplitNormal(lead, names);
    var pieces := if names == [] then [""] else names;
    var skipped: seq<string> := if lead == "/" then [""] else ["", ""];
    CollapseAppend([], skipped, pieces);
    if lead == "/" {
      CollapseSkips([], "");
    } else {
      CollapseAppend([], [""], [""]);
      CollapseSkips([], "");
    }
    if names == [] {
      CollapseSkips([], "");
    } else {
      CollapseOfNames([], names);
    }
  }

  /** `normpath` is idempotent. */
  lemma NormPathIdempotent(p: string)
    requires IsAbs(p)
    ensures NormPath(NormPath(p)) == NormPath(p)
  {
    PartsAreNames(p);
    NormalForm(Leading(p), Parts(p));
  }

  /** A normalised path has no `.` or `..` component and ends in a separator
      only when it is the root itself. */
  lemma NormPathIsNormal(p: string)
    requires IsAbs(p)
    ensures var r := NormPath(p);
      && (forall k :: 0 <= k < |SplitOn(r, [Slash])| ==>
            SplitOn(r, [Slash])[k] != "." && SplitOn(r, [Slash])[k] != "..")
      && (EndsWith(r, "/") ==> r == "/" || r == "//")
  {
    var names := Parts(p);
    PartsAreNames(p);
    SplitNormal(Leading(p), names);
    if names != [] {
      RenderEnd(names);
      var last := names[|names| - 1];
      assert last[|last| - 1] != Slash;
    }
  }

  // ----- the guard -----

  /** The root `validate_path` compares against, split into its leading
      separators and its names. */
  lemma RootShape(cwd: string, workingDir: string)
    requires IsAbs(cwd)
    ensures var a := Absolute(cwd, workingDir);
      AbsPath(cwd, workingDir) == Leading(a) + Render(Parts(a)) && AllNames(Parts(a))
  {
    PartsAreNames(Absolute(cwd, workingDir));
  }

  /** For a relative `path`: the candidate is the root's names with the path's
      components collapsed onto them. */
  lemma {:induction false} ValidateRelative(path: string, workingDir: string, cwd: string)
    requires IsAbs(cwd) && !IsAbs(path)
    ensures var a := Absolute(cwd, workingDir);
      var full := Leading(a) + Render(Collapse(Parts(a), SplitOn(path, [Slash])));
      ValidatePath(path, workingDir, cwd)
        == if StartsWith(full, AbsPath(cwd, workingDir)) then Success(full) else Failure(OutsideError(path))
  {
    JoinRelative(cwd, workingDir, path);
  }

  /** An empty path and `"."` resolve to the working directory itself and are
      accepted. */
  lemma EmptyOrDotIsRoot(path: string, workingDir: string, cwd: string)
    requires IsAbs(cwd)
    requires path == "" || path == "."
    ensures ValidatePath(path, workingDir, cwd) == Success(AbsPath(cwd, workingDir))
  {
    ValidateRelative(path, workingDir, cwd);
    var a := Absolute(cwd, workingDir);
    if path == "" {
      assert SplitOn(path, [Slash]) == [""];
    } else {
      SplitAbsent(path, Slash);
    }
    CollapseSkips(Parts(a), path);
  }

  /** An absolute `path` ignores the working directory in the join: it is
      accepted exactly when its normal form lies under the root. */
  lemma AbsoluteIgnoresWorkingDir(path: string, workingDir: string, cwd: string)
    requires IsAbs(cwd) && IsAbs(path)
    ensures ValidatePath(path, workingDir, cwd)
         == if StartsWith(NormPath(path), AbsPath(cwd, workingDir)) then Success(NormPath(path))
            else Failure(OutsideError(path))
  {
  }

  /** Validation is idempotent: an accepted path validates to itself. */
  lemma ValidateIdempotent(path: string, workingDir: string, cwd: string)
    requires IsAbs(cwd)
    requires ValidatePath(path, workingDir, cwd).Success?
    ensures var v := ValidatePath(path, workingDir, cwd).value;
      ValidatePath(v, workingDir, cwd) == Success(v)
  {
    var joined := Absolute(cwd, PathJoin(workingDir, path));
    NormPathIdempotent(joined);
  }

  /** Joining a name onto a path that does not end in a separator inserts
      one. */
  lemma JoinOnto(root: string, name: string)
    requires root != [] && root[|root| - 1] != Slash && IsName(name)
    ensures PathJoin(root, name) == root + [Slash] + name
  {
    assert name[0] in name;
  }

  /** Rendering a non-empty list of names ends with a character that is not
      a separator. */
  lemma RenderEndsInName(names: seq<string>)
    requires names != [] && IsName(names[|names| - 1])
    ensures var r := Render(names); r != [] && r[|r| - 1] != Slash
  {
    RenderEnd(names);
    var last := names[|names| - 1];
    assert last[|last| - 1] in last;
  }

  /** Joining a name onto a normal path appends it to the path's names. */
  lemma JoinName(lead: string, names: seq<string>, name: string)
    requires lead == "/" || lead == "//"
    requires AllNames(names) && IsName(name)
    ensures PathJoin(lead + Render(names), name) == lead + Render(names + [name])
  {
    if names != [] {
      JoinAfterNames(lead, names, name);
    } else {
      JoinOntoRoot(lead, name);
      assert names + [name] == [name];
      assert lead + Render(names) == lead;
    }
  }

  /** Joining a name onto the root itself: the root already ends in a
      separator, so none is added. */
  lemma JoinOntoRoot(lead: string, name: string)
    requires lead == "/" || lead == "//"
    requires IsName(name)
    ensures PathJoin(lead, name) == lead + Render([name])
  {
    assert name[0] in name;
  }

  /** `JoinName` when there is at least one name already. */
  lemma JoinAfterNames(lead: string, names: seq<string>, name: string)
    requires lead == "/" || lead == "//"
    requires names != [] && IsName(names[|names| - 1]) && IsName(name)
    ensures PathJoin(lead + Render(names), name) == lead + Render(names + [name])
  {
    JoinSnoc([Slash], names, name);
    RenderEndsInName(names);
    JoinOntoLead(lead, Render(names), name);
  }

  /** `JoinOnto` for a path written as its leading separators and the rest. */
  lemma JoinOntoLead(lead: string, body: string, name: string)
    requires lead == "/" || lead == "//"
    requires body != [] && body[|body| - 1] != Slash && IsName(name)
    ensures PathJoin(lead + body, name) == lead + (body + [Slash] + name)
  {
    JoinOnto(lead + body, name);
    assert lead + body + [Slash] + name == lead + (body + [Slash] + name);
  }

  /** A single name under the working directory is accepted, as that name
      joined onto the root. */
  lemma ChildAccepted(name: string, workingDir: string, cwd: string)
    requires IsAbs(cwd) && IsName(name)
    ensures ValidatePath(name, workingDir, cwd) == Success(PathJoin(AbsPath(cwd, workingDir), name))
  {
    var a := Absolute(cwd, workingDir);
    var names := Parts(a);
    RootShape(cwd, workingDir);
    ValidateRelative(name, workingDir, cwd);
    SplitAbsent(name, Slash);
    CollapseOfNames(names, [name]);
    JoinName(Leading(a), names, name);
  }

  /** Rendering respects prefixes of name lists. */
  lemma {:induction false} RenderAppend(xs: seq<string>, ys: seq<string>)
    ensures Render(xs + ys)
         == if xs == [] then Render(ys) else if ys == [] then Render(xs) else Render(xs) + [Slash] + Render(ys)
    decreases |xs|
  {
    if |xs| > 1 {
      RenderAppend(xs[1..], ys);
      assert (xs + ys)[1..] == xs[1..] + ys;
    } else if |xs| == 1 {
      assert (xs + ys)[0] == xs[0];
      assert (xs + ys)[1..] == ys;
      assert xs + [] == xs;
    } else {
      assert xs + ys == ys;
    }
  }

  /** Keeping every name of the root keeps the rendered root as a prefix. */
  lemma RenderExtends(lead: string, names: seq<string>, resolved: seq<string>)
    requires names <= resolved
    ensures StartsWith(lead + Render(resolved), lead + Render(names))
  {
    var added := resolved[|names|..];
    assert names + added == resolved;
    RenderAppend(names, added);
    var x, y := Render(resolved), Render(names);
    assert x[..|y|] == y;
    assert (lead + x)[..|lead + y|] == lead + y;
  }

  /** Dropping names of the root makes the rendered path too short to have
      the rendered root as a prefix. */
  lemma RenderShrinks(lead: string, names: seq<string>, resolved: seq<string>)
    requires AllNames(names) && resolved <= names && resolved != names
    ensures !StartsWith(lead + Render(resolved), lead + Render(names))
  {
    var dropped := names[|resolved|..];
    assert resolved + dropped == names;
    RenderAppend(resolved, dropped);
    assert IsName(dropped[0]) by {
      assert dropped[0] == names[|resolved|];
    }
    RenderStart(dropped);
    assert |Render(resolved)| < |Render(names)|;
  }

  /** A path that stays inside the root, name by name, is accepted. */
  lemma InsideAccepted(path: string, workingDir: string, cwd: string)
    requires IsAbs(cwd) && !IsAbs(path)
    requires var names := Parts(Absolute(cwd, workingDir));
      names <= Collapse(names, SplitOn(path, [Slash]))
    ensures ValidatePath(path, workingDir, cwd).Success?
  {
    var a := Absolute(cwd, workingDir);
    RootShape(cwd, workingDir);
    ValidateRelative(path, workingDir, cwd);
    RenderExtends(Leading(a), Parts(a), Collapse(Parts(a), SplitOn(path, [Slash])));
  }

  /** A path that climbs above the root, name by name, is rejected. */
  lemma UpwardEscapeRejected(path: string, workingDir: string, cwd: string)
    requires IsAbs(cwd) && !IsAbs(path)
    requires var names := Parts(Absolute(cwd, workingDir));
      var resolved := Collapse(names, SplitOn(path, [Slash]));
      resolved <= names && resolved != names
    ensures ValidatePath(path, workingDir, cwd) == Failure(OutsideError(path))
  {
    var a := Absolute(cwd, workingDir);
    RootShape(cwd, workingDir);
    ValidateRelative(path, workingDir, cwd);
    RenderShrinks(Leading(a), Parts(a), Collapse(Parts(a), SplitOn(path, [Slash])));
  }

  /** `"/" + name` is a normal path with that one name. */
  lemma RootName(name: string)
    requires IsName(name)
    ensures Leading([Slash] + name) == "/" && Parts([Slash] + name) == [name]
  {
    NormalForm("/", [name]);
    assert "/" + Render([name]) == [Slash] + name;
  }

  /** Containment is a string-prefix test, not a name-by-name one: a sibling
      of the root whose name extends the root's name is accepted, although it
      lies outside the root (`/work2` for the root `/work`). */
  lemma SiblingAccepted(root: string, sibling: string, cwd: string)
    requires IsAbs(cwd) && IsName(root) && IsName(sibling) && StartsWith(sibling, root)
    ensures ValidatePath("../" + sibling, [Slash] + root, cwd) == Success([Slash] + sibling)
  {
    RootName(root);
    SplitAbsent("..", Slash);
    SplitAbsent(sibling, Slash);
    SplitConcat("..", Slash, sibling);
    assert "../" + sibling == ".." + [Slash] + sibling;
    var comps := SplitOn("../" + sibling, [Slash]);
    assert comps == ["..", sibling];
    assert Collapse([root], comps) == [sibling] by {
      assert Step([root], "..") == [];
      CollapseOfNames([], [sibling]);
    }
    ValidateRelative("../" + sibling, [Slash] + root, cwd);
    assert Render([sibling]) == sibling;
  }

  /** The components of the traversal path used below. */
  lemma TraversalSplit()
    ensures SplitOn("../../etc/passwd", [Slash]) == ["..", "..", "etc", "passwd"]
  {
    var comps: seq<string> := ["..", "..", "etc", "passwd"];
    assert comps[1..] == ["..", "etc", "passwd"] && comps[1..][1..] == ["etc", "passwd"];
    assert comps[1..][1..][1..] == ["passwd"];
    assert JoinWith([Slash], ["etc", "passwd"]) == "etc/passwd";
    assert JoinWith([Slash], comps[1..]) == "../etc/passwd";
    assert JoinWith([Slash], comps) == "../../etc/passwd";
    assert forall k :: 0 <= k < |comps| ==> Slash !in comps[k];
    SplitJoin(comps, Slash);
  }

  /** Two climbs from `/work` end at the root, then descend into `etc/passwd`. */
  lemma TraversalCollapse()
    ensures Collapse(["work"], ["..", "..", "etc", "passwd"]) == ["etc", "passwd"]
  {
    var comps: seq<string> := ["..", "..", "etc", "passwd"];
    assert Step(["work"], "..") == [];
    assert Step([], "..") == [];
    assert comps[1..][1..] == ["etc", "passwd"];
    CollapseOfNames([], ["etc", "passwd"]);
  }

  /** A climb out of the root is rejected, before any file is touched. */
  lemma TraversalRejected(cwd: string)
    requires IsAbs(cwd)
    ensures ValidatePath("../../etc/passwd", "/work", cwd) == Failure(OutsideError("../../etc/passwd"))
  {
    var path := "../../etc/passwd";
    var names: seq<string> := ["etc", "passwd"];
    RootName("work");
    assert "/work" == [Slash] + "work";
    TraversalSplit();
    TraversalCollapse();
    ValidateRelative(path, "/work", cwd);
    assert Absolute(cwd, "/work") == "/work";
    RenderStart(names);
    assert AbsPath(cwd, "/work") == "/work" by {
      assert Render(["work"]) == "work";
    }
    var full := "/" + Render(names);
    assert full[1] == 'e';
    assert !StartsWith(full, "/work");
  }
}
