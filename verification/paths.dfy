/** The path guard of `FileManager._resolve_path` (and the identical working-directory check of
  * `SandboxExecutor.run_command`): a user path is joined onto the workspace root, resolved, and
  * accepted when the resolved path's STRING starts with the root's string.
  *
  * Paths are lists of components; symbolic links are not modelled, so resolution is lexical. */
module Paths {
  import opened Text

  /** An absolute path as its components: `/tmp/ws/s1` is ["tmp", "ws", "s1"] and `/` is []. */
  type Path = seq<string>

  /** A component as `resolve()` can produce it. */
  predicate PlainSegment(s: string)
  {
    s != [] && s != "." && s != ".." && '/' !in s
  }

  predicate PlainPath(p: Path)
  {
    forall i :: 0 <= i < |p| ==> PlainSegment(p[i])
  }

  function RenderSegs(p: Path): string
  {
    if p == [] then "" else "/" + p[0] + RenderSegs(p[1..])
  }

  /** `str(path)` of an absolute path. */
  function Render(p: Path): string
  {
    if p == [] then "/" else RenderSegs(p)
  }

  /** `s.split('/')`. */
  function Split(s: string): (r: seq<string>)
    ensures |r| >= 1
    ensures forall i :: 0 <= i < |r| ==> '/' !in r[i]
  {
    if s == [] then [""]
    else if s[0] == '/' then [""] + Split(s[1..])
    else
      var rest := Split(s[1..]);
      [[s[0]] + rest[0]] + rest[1..]
  }

  lemma JoinWithHead(x: string, parts: seq<string>, sep: string)
    requires parts != []
    ensures JoinWith([x + parts[0]] + parts[1..], sep) == x + JoinWith(parts, sep)
  {
    var q := [x + parts[0]] + parts[1..];
    assert q[1..] == parts[1..];
  }

  /** Joining the parts of `s` with '/' gives `s` back. */
  lemma {:induction false} SplitJoin(s: string)
    ensures JoinWith(Split(s), "/") == s
  {
    if s != [] {
      SplitJoin(s[1..]);
      var rest := Split(s[1..]);
      if s[0] == '/' {
        assert ([""] + rest)[1..] == rest;
      } else {
        JoinWithHead([s[0]], rest, "/");
      }
      assert s == [s[0]] + s[1..];
    }
  }

  /** pathlib's parsing: empty and "." components are dropped, ".." is kept for `resolve()`. */
  function DropTrivial(parts: seq<string>): (r: seq<string>)
    ensures forall i :: 0 <= i < |r| ==> r[i] != "" && r[i] != "." && r[i] in parts
  {
    if parts == [] then []
    else if parts[0] == "" || parts[0] == "." then DropTrivial(parts[1..])
    else [parts[0]] + DropTrivial(parts[1..])
  }

  function Components(s: string): (r: seq<string>)
    ensures forall i :: 0 <= i < |r| ==> r[i] != "" && r[i] != "." && '/' !in r[i]
  {
    DropTrivial(Split(s))
  }

  predicate IsAbsolute(s: string)
  {
    s != [] && s[0] == '/'
  }

  /** `Path(root) / s`: an absolute `s` replaces the root altogether. */
  function Join(root: Path, s: string): seq<string>
  {
    if IsAbsolute(s) then Components(s) else root + Components(s)
  }

  /** One step of lexical resolution. */
  function Step(acc: Path, seg: string): Path
  {
    if seg == "" || seg == "." then acc
    else if seg == ".." then (if acc == [] then [] else acc[..|acc| - 1])
    else acc + [seg]
  }

  /** `resolve()` without symbolic links: ".." drops the last component and stays put at `/`. */
  function Normalize(segs: seq<string>): Path
  {
    if segs == [] then [] else Step(Normalize(segs[..|segs| - 1]), segs[|segs| - 1])
  }

  /** `_resolve_path` as written: the resolved path, or `None` for "Acesso negado". */
  function Resolve(root: Path, userPath: string): Option<Path>
  {
    var full := Normalize(Join(root, userPath));
    if Render(root) <= Render(full) then Some(full) else None
  }

  /** A resolved path that is not under `root` but whose string still starts with the root's string:
    * it agrees with `root` up to the last component, where the root's last component is a proper
    * prefix of its own (`/ws/s1` against `/ws/s12/x`). */
  predicate PrefixCollision(root: Path, n: Path)
  {
    0 < |root| <= |n| && n[..|root| - 1] == root[..|root| - 1] && root[|root| - 1] < n[|root| - 1]
  }

  // ---------------------------------------------------------------------------
  // Lemmas

  lemma {:induction false} NormalizePlain(segs: seq<string>)
    requires forall i :: 0 <= i < |segs| ==> '/' !in segs[i]
    ensures PlainPath(Normalize(segs))
    decreases |segs|
  {
    if segs != [] { NormalizePlain(segs[..|segs| - 1]); }
  }

  lemma {:induction false} NormalizeOfPlain(p: Path)
    requires PlainPath(p)
    ensures Normalize(p) == p
    decreases |p|
  {
    if p != [] {
      NormalizeOfPlain(p[..|p| - 1]);
      assert p[..|p| - 1] + [p[|p| - 1]] == p;
    }
  }

  lemma JoinHasNoSlash(root: Path, s: string)
    requires PlainPath(root)
    ensures forall i :: 0 <= i < |Join(root, s)| ==> '/' !in Join(root, s)[i]
  {
  }

  /** Every path the guard produces is made of plain components. */
  lemma ResolvedPlain(root: Path, s: string)
    requires PlainPath(root)
    ensures PlainPath(Normalize(Join(root, s)))
  {
    JoinHasNoSlash(root, s);
    NormalizePlain(Join(root, s));
  }

  lemma {:induction false} RenderSegsAppend(a: Path, b: Path)
    ensures RenderSegs(a + b) == RenderSegs(a) + RenderSegs(b)
    decreases |a|
  {
    if a == [] {
      assert a + b == b;
    } else {
      assert (a + b)[0] == a[0];
      assert (a + b)[1..] == a[1..] + b;
      RenderSegsAppend(a[1..], b);
      calc {
        RenderSegs(a + b);
        "/" + a[0] + RenderSegs(a[1..] + b);
        "/" + a[0] + (RenderSegs(a[1..]) + RenderSegs(b));
        ("/" + a[0] + RenderSegs(a[1..])) + RenderSegs(b);
      }
    }
  }

  lemma RenderSegsShape(p: Path)
    requires PlainPath(p)
    ensures p != [] ==> |RenderSegs(p)| >= 2 && RenderSegs(p)[0] == '/'
  {
  }

  /** Component-wise prefix of rendered strings: `a + A <= b + B` where `a`, `b` hold no '/' and
    * `A`, `B` are empty or start with '/'. */
  lemma SegmentPrefix(a: string, rest_a: string, b: string, rest_b: string)
    requires '/' !in a && '/' !in b
    requires rest_a == [] || rest_a[0] == '/'
    requires rest_b == [] || rest_b[0] == '/'
    ensures a + rest_a <= b + rest_b <==> (rest_a == [] && a <= b) || (a == b && rest_a <= rest_b)
  {
    var x, y := a + rest_a, b + rest_b;
    if x <= y {
      assert |b| < |x| ==> x[|b|] == y[|b|];
      if |a| <= |b| {
        assert a == x[..|a|] == y[..|a|] == b[..|a|];
      }
      if |a| == |b| {
        assert rest_a == x[|a|..];
        assert x[|a|..] == y[|a|..|x|];
        assert y[|a|..|x|] == rest_b[..|rest_a|];
      }
    }
  }

  lemma RenderSegsUnfold(p: Path)
    requires p != []
    ensures RenderSegs(p) == "/" + (p[0] + RenderSegs(p[1..]))
  {
  }

  lemma SlashPrefix(x: string, y: string)
    ensures "/" + x <= "/" + y <==> x <= y
  {
    if "/" + x <= "/" + y {
      assert x == ("/" + x)[1..] == ("/" + y)[1..|x| + 1] == y[..|x|];
    }
  }

  lemma CollisionStep(r: Path, n: Path)
    requires |r| > 1 && |n| > 0
    ensures PrefixCollision(r, n) <==> r[0] == n[0] && PrefixCollision(r[1..], n[1..])
  {
    if |r| <= |n| {
      assert n[..|r| - 1] == [n[0]] + n[1..][..|r| - 2];
      assert r[..|r| - 1] == [r[0]] + r[1..][..|r| - 2];
    }
  }

  lemma PrefixStep(r: Path, n: Path)
    requires |r| > 0 && |n| > 0
    ensures r <= n <==> r[0] == n[0] && r[1..] <= n[1..]
  {
    assert r == [r[0]] + r[1..] && n == [n[0]] + n[1..];
  }

  lemma {:induction false} RenderSegsPrefix(r: Path, n: Path)
    requires PlainPath(r) && PlainPath(n) && |r| > 0
    ensures RenderSegs(r) <= RenderSegs(n) <==> r <= n || PrefixCollision(r, n)
    decreases |r|
  {
    RenderSegsShape(r);
    if n != [] {
      var R, N := RenderSegs(r[1..]), RenderSegs(n[1..]);
      RenderSegsShape(r[1..]);
      RenderSegsShape(n[1..]);
      RenderSegsUnfold(r);
      RenderSegsUnfold(n);
      SlashPrefix(r[0] + R, n[0] + N);
      assert PlainSegment(r[0]) && PlainSegment(n[0]);
      SegmentPrefix(r[0], R, n[0], N);
      PrefixStep(r, n);
      if |r| == 1 {
        assert PrefixCollision(r, n) <==> r[0] < n[0];
      } else {
        RenderSegsPrefix(r[1..], n[1..]);
        CollisionStep(r, n);
      }
    }
  }

  /** What the string-prefix test accepts, for a root and a resolved path made of plain components:
    * exactly the paths at or under the root, plus those that collide with it on the last component. */
  lemma AcceptedIff(root: Path, n: Path)
    requires PlainPath(root) && PlainPath(n) && |root| > 0
    ensures Render(root) <= Render(n) <==> root <= n || PrefixCollision(root, n)
  {
    RenderSegsShape(root);
    RenderSegsPrefix(root, n);
  }

  /** The guard, stated on what it returns: the lexical resolution of the joined path, accepted exactly
    * when it lies at or under the root or collides with the root's last component. */
  lemma ResolveSpec(root: Path, s: string)
    requires PlainPath(root) && |root| > 0
    ensures var n := Normalize(Join(root, s));
            PlainPath(n)
            && (Resolve(root, s) == Some(n) <==> root <= n || PrefixCollision(root, n))
            && (Resolve(root, s) != Some(n) ==> Resolve(root, s) == None)
  {
    ResolvedPlain(root, s);
    AcceptedIff(root, Normalize(Join(root, s)));
  }

  /** Paths that stay under the root are always accepted, with the root as a prefix of the result. */
  lemma ResolveInside(root: Path, s: string, rel: seq<string>)
    requires PlainPath(root) && |root| > 0 && PlainPath(rel)
    requires Normalize(Join(root, s)) == root + rel
    ensures Resolve(root, s) == Some(root + rel)
  {
    ResolveSpec(root, s);
  }

  /** "." and "" resolve to the workspace root itself, which passes the test. */
  lemma ResolveDot(root: Path)
    requires PlainPath(root) && |root| > 0
    ensures Resolve(root, ".") == Some(root) && Resolve(root, "") == Some(root)
  {
    assert Components(".") == [];
    assert Components("") == [];
    assert root + [] == root;
    NormalizeOfPlain(root);
    ResolveSpec(root, ".");
    ResolveSpec(root, "");
  }

  /** A path whose resolution is a proper ancestor of the root (such as ".." or "/") is denied. */
  lemma ResolveAncestorDenied(root: Path, s: string)
    requires PlainPath(root) && |root| > 0
    requires Normalize(Join(root, s)) < root
    ensures Resolve(root, s) == None
  {
    ResolveSpec(root, s);
  }

  lemma NormalizeSnoc(p: seq<string>, seg: string)
    ensures Normalize(p + [seg]) == Step(Normalize(p), seg)
  {
    assert (p + [seg])[..|p|] == p;
  }

  lemma SplitTail()
    ensures Split("s12/x") == ["s12", "x"]
  {
    assert "x"[1..] == "";
    assert Split("") == [""];
    assert ['x'] + "" == "x";
    assert Split("x") == ["x"];
    assert "/x"[1..] == "x";
    assert Split("/x") == ["", "x"];
    assert "2/x"[1..] == "/x";
    assert ['2'] + "" == "2";
    assert Split("2/x") == ["2", "x"];
    assert "12/x"[1..] == "2/x";
    assert ['1'] + "2" == "12";
    assert Split("12/x") == ["12", "x"];
    assert "s12/x"[1..] == "12/x";
    assert ['s'] + "12" == "s12";
  }

  lemma SplitExample()
    ensures Components("../s12/x") == ["..", "s12", "x"]
  {
    SplitTail();
    assert "/s12/x"[1..] == "s12/x";
    assert Split("/s12/x") == ["", "s12", "x"];
    assert "./s12/x"[1..] == "/s12/x";
    assert ['.'] + "" == ".";
    assert Split("./s12/x") == [".", "s12", "x"];
    assert "../s12/x"[1..] == "./s12/x";
    assert ['.'] + "." == "..";
    assert Split("../s12/x") == ["..", "s12", "x"];
  }

  /** A resolved path that collides with the root's last component is accepted although it is not
    * under the root. */
  lemma ResolveCollides(root: Path, s: string, n: Path)
    requires PlainPath(root) && |root| > 0
    requires Normalize(Join(root, s)) == n && PrefixCollision(root, n)
    ensures Resolve(root, s) == Some(n) && !(root <= n)
  {
    ResolveSpec(root, s);
  }

  // The concrete escape below is assembled from small steps, one fact each.

  lemma SiblingRoot(root: Path)
    requires root == ["tmp", "manus-workspaces", "s1"]
    ensures PlainPath(root) && Normalize(root + [".."]) == ["tmp", "manus-workspaces"]
  {
    assert PlainSegment(root[0]) && PlainSegment(root[1]) && PlainSegment(root[2]);
    NormalizeOfPlain(root);
    NormalizeSnoc(root, "..");
  }

  lemma SiblingJoin(root: Path)
    requires root == ["tmp", "manus-workspaces", "s1"]
    ensures Join(root, "../s12/x") == root + [".."] + ["s12"] + ["x"]
  {
    SplitExample();
  }

  lemma SiblingSteps(root: Path)
    requires root == ["tmp", "manus-workspaces", "s1"]
    ensures Normalize(root + [".."] + ["s12"] + ["x"]) == ["tmp", "manus-workspaces", "s12", "x"]
  {
    SiblingRoot(root);
    NormalizeSnoc(root + [".."], "s12");
    NormalizeSnoc(root + [".."] + ["s12"], "x");
  }

  lemma SiblingNormalize(root: Path)
    requires root == ["tmp", "manus-workspaces", "s1"]
    ensures Normalize(Join(root, "../s12/x")) == ["tmp", "manus-workspaces", "s12", "x"]
  {
    SiblingJoin(root);
    SiblingSteps(root);
  }

  lemma SiblingCollision(root: Path)
    requires root == ["tmp", "manus-workspaces", "s1"]
    ensures PrefixCollision(root, ["tmp", "manus-workspaces", "s12", "x"])
  {
    var target := ["tmp", "manus-workspaces", "s12", "x"];
    assert "s1" < "s12";
    assert root[..2] == target[..2];
  }

  /** The sibling escape: with the root `/tmp/manus-workspaces/s1`, the path "../s12/x" resolves to
    * `/tmp/manus-workspaces/s12/x`, outside the workspace, and is accepted. */
  lemma SiblingEscapes(root: Path, s: string, n: Path)
    requires root == ["tmp", "manus-workspaces", "s1"] && s == "../s12/x"
    requires n == ["tmp", "manus-workspaces", "s12", "x"]
    ensures Resolve(root, s) == Some(n) && !(root <= n)
  {
    SiblingRoot(root);
    SiblingNormalize(root);
    SiblingCollision(root);
    ResolveCollides(root, s, n);
  }
}
