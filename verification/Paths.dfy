/** Lexical path resolution under a root: filepath's Clean, Join and Rel over "/"-separated
    strings, and SafeRelPath on top of them. */
module Paths {
  import opened Options

  predicate NoSlash(s: string) { '/' !in s }

  function Split(s: string): (r: seq<string>)
    ensures |r| >= 1 && forall x <- r :: NoSlash(x)
  {
    if s == "" then [""]
    else if s[0] == '/' then [""] + Split(s[1..])
    else
      var r := Split(s[1..]);
      assert r[0] in r;
      assert NoSlash([s[0]] + r[0]);
      [[s[0]] + r[0]] + r[1..]
  }

  function Join(segs: seq<string>): string {
    if segs == [] then "" else if |segs| == 1 then segs[0] else segs[0] + "/" + Join(segs[1..])
  }

  /** A file or directory name. */
  predicate IsName(s: string) {
    s != "" && s != "." && s != ".." && NoSlash(s)
  }

  predicate Names(segs: seq<string>) {
    forall x <- segs :: IsName(x)
  }

  lemma {:induction false} SplitSingle(s: string)
    requires NoSlash(s)
    ensures Split(s) == [s]
  {
    if s != "" {
      SplitSingle(s[1..]);
      assert [s[0]] + s[1..] == s;
    }
  }

  /** The first character's part in the segments. */
  function Cons(c: char, r: seq<string>): seq<string>
    requires r != []
  {
    if c == '/' then [""] + r else [[c] + r[0]] + r[1..]
  }

  lemma SplitCons(s: string)
    requires s != ""
    ensures Split(s) == Cons(s[0], Split(s[1..]))
  {
  }

  lemma ConsConcat(c: char, r: seq<string>, q: seq<string>)
    requires r != []
    ensures Cons(c, r + q) == Cons(c, r) + q
  {
    assert (r + q)[0] == r[0] && (r + q)[1..] == r[1..] + q;
    assert [""] + (r + q) == ([""] + r) + q;
  }

  lemma {:induction false} SplitConcat(a: string, b: string)
    ensures Split(a + "/" + b) == Split(a) + Split(b)
  {
    var s := a + "/" + b;
    SplitCons(s);
    if a == "" {
      assert s[1..] == b;
    } else {
      SplitConcat(a[1..], b);
      SplitCons(a);
      assert s[0] == a[0] && s[1..] == a[1..] + "/" + b;
      hide Split, Cons;
      ConsConcat(a[0], Split(a[1..]), Split(b));
    }
  }

  lemma {:induction false} SplitJoin(segs: seq<string>)
    requires segs != [] && forall x <- segs :: NoSlash(x)
    ensures Split(Join(segs)) == segs
  {
    SplitSingle(segs[0]);
    if |segs| > 1 {
      SplitJoin(segs[1..]);
      SplitConcat(segs[0], Join(segs[1..]));
      assert [segs[0]] + segs[1..] == segs;
    }
  }

  lemma {:induction false} JoinConcat(a: seq<string>, b: seq<string>)
    requires a != [] && b != []
    ensures Join(a + b) == Join(a) + "/" + Join(b)
  {
    if |a| == 1 {
      assert (a + b)[1..] == b;
    } else {
      JoinConcat(a[1..], b);
      assert (a + b)[1..] == a[1..] + b;
      assert a[0] + "/" + (Join(a[1..]) + "/" + Join(b)) == (a[0] + "/" + Join(a[1..])) + "/" + Join(b);
    }
  }

  // ---- Clean ----

  /** One segment onto the path so far; ".." takes one back, or is kept at the front of a relative
      path and dropped at the front of a rooted one. */
  function Push(rooted: bool, path: seq<string>, seg: string): seq<string> {
    if seg == "" || seg == "." then path
    else if seg != ".." then path + [seg]
    else if path != [] && path[|path| - 1] != ".." then path[..|path| - 1]
    else if rooted then path
    else path + [".."]
  }

  function Fold(rooted: bool, path: seq<string>, segs: seq<string>): seq<string>
    decreases |segs|
  {
    if segs == [] then path else Fold(rooted, Push(rooted, path, segs[0]), segs[1..])
  }

  function Render(rooted: bool, segs: seq<string>): string {
    if rooted then "/" + Join(segs) else if segs == [] then "." else Join(segs)
  }

  predicate Rooted(s: string) { s != "" && s[0] == '/' }

  function Clean(s: string): string {
    Render(Rooted(s), Fold(Rooted(s), [], Split(s)))
  }

  // ---- Rel ----

  function Ups(n: nat): seq<string> {
    seq(n, i => "..")
  }

  function RelSegs(base: seq<string>, target: seq<string>): seq<string> {
    if base != [] && target != [] && base[0] == target[0] then RelSegs(base[1..], target[1..])
    else Ups(|base|) + target
  }

  // ---- SafeRelPath ----

  datatype Located = Located(rel: string, abs: string)

  /** root: the segments of the absolute, clean audio root. */
  function SafeRelPath(root: seq<string>, location: string): Result<Located> {
    var cleaned := Clean(location);
    var full := Fold(true, [], Split("/" + Join(root) + "/" + cleaned));
    var rel := Render(false, RelSegs(root, full));
    if rel == ".." || "../" <= rel then Err
    else Ok(Located(if rel == "." then "" else rel, Render(true, full)))
  }

  /** Where a location leads, one segment at a time from the root: into a name, back with "..",
      never above "/".  An absolute location is walked on its own and then placed under the root. */
  function Walk(at: seq<string>, segs: seq<string>): seq<string>
    decreases |segs|
  {
    if segs == [] then at
    else if segs[0] == "" || segs[0] == "." then Walk(at, segs[1..])
    else if segs[0] == ".." then Walk(if at == [] then [] else at[..|at| - 1], segs[1..])
    else Walk(at + [segs[0]], segs[1..])
  }

  function Resolution(root: seq<string>, location: string): seq<string> {
    if Rooted(location) then root + Walk([], Split(location)) else Walk(root, Split(location))
  }

  /** Segments as Clean leaves them, but for leading "..". */
  predicate Solid(segs: seq<string>) {
    forall x <- segs :: x != "" && x != "." && NoSlash(x)
  }

  lemma {:induction false} FoldIsWalk(at: seq<string>, segs: seq<string>)
    requires Names(at) && forall x <- segs :: NoSlash(x)
    ensures Fold(true, at, segs) == Walk(at, segs) && Names(Walk(at, segs))
    decreases |segs|
  {
    if segs != [] {
      var next := Push(true, at, segs[0]);
      assert segs[0] in segs && (at != [] ==> IsName(at[|at| - 1]));
      assert Names(next);
      FoldIsWalk(next, segs[1..]);
    }
  }

  lemma {:induction false} WalkNames(at: seq<string>, segs: seq<string>)
    requires Names(segs)
    ensures Walk(at, segs) == at + segs
    decreases |segs|
  {
    if segs != [] {
      assert IsName(segs[0]);
      WalkNames(at + [segs[0]], segs[1..]);
      assert at + [segs[0]] + segs[1..] == at + segs;
    } else {
      assert at + segs == at;
    }
  }

  lemma {:induction false} FoldConcat(rooted: bool, path: seq<string>, a: seq<string>, b: seq<string>)
    ensures Fold(rooted, path, a + b) == Fold(rooted, Fold(rooted, path, a), b)
    decreases |a|
  {
    if a == [] {
      assert a + b == b;
    } else {
      FoldConcat(rooted, Push(rooted, path, a[0]), a[1..], b);
      assert (a + b)[1..] == a[1..] + b;
    }
  }

  lemma FoldSnoc(path: seq<string>, a: seq<string>, x: string)
    ensures Fold(true, path, a + [x]) == Push(true, Fold(true, path, a), x)
  {
    FoldConcat(true, path, a, [x]);
    assert [x][1..] == [];
  }

  /** Cleaning a segment first and walking it later comes to the same. */
  lemma PushLater(root: seq<string>, path: seq<string>, x: string)
    requires Solid(path)
    ensures Fold(true, root, Push(false, path, x)) == Push(true, Fold(true, root, path), x)
  {
    if x == "" || x == "." {
    } else if x == ".." && path != [] && path[|path| - 1] != ".." {
      var most, last := path[..|path| - 1], path[|path| - 1];
      assert path == most + [last] && last in path;
      FoldSnoc(root, most, last);
      var w := Fold(true, root, most);
      assert Push(true, w, last) == w + [last];
      assert (w + [last])[..|w|] == w;
    } else {
      FoldSnoc(root, path, x);
    }
  }

  lemma {:induction false} CleanThenWalk(root: seq<string>, path: seq<string>, segs: seq<string>)
    requires Solid(path) && forall x <- segs :: NoSlash(x)
    ensures Fold(true, root, Fold(false, path, segs)) == Fold(true, Fold(true, root, path), segs)
    ensures Solid(Fold(false, path, segs))
    decreases |segs|
  {
    if segs != [] {
      PushLater(root, path, segs[0]);
      assert Solid(Push(false, path, segs[0]));
      CleanThenWalk(root, Push(false, path, segs[0]), segs[1..]);
    }
  }

  lemma SplitFull(root: seq<string>, cleaned: string)
    requires Names(root)
    ensures Fold(true, [], Split("/" + Join(root) + "/" + cleaned)) == Fold(true, root, Split(cleaned))
  {
    var joined := Join(root);
    var inner, rest := Split(joined), Split(cleaned);
    SplitConcat("/" + joined, cleaned);
    assert "/" + joined == "" + "/" + joined;
    SplitConcat("", joined);
    SplitSingle("");
    FoldNames([], root);
    assert [] + root == root;
    hide Split, Join, Fold, Names;
    assert ([""] + inner) + rest == [""] + (inner + rest);
    SkipEmpty([], inner + rest);
    FoldConcat(true, [], inner, rest);
  }

  lemma SkipEmpty(path: seq<string>, segs: seq<string>)
    ensures Fold(true, path, [""] + segs) == Fold(true, path, segs)
  {
    assert ([""] + segs)[1..] == segs;
  }

  /** Joining the root with the cleaned location and cleaning again is the walk. */
  lemma FullIsResolution(root: seq<string>, location: string)
    requires Names(root)
    ensures Fold(true, [], Split("/" + Join(root) + "/" + Clean(location))) == Resolution(root, location)
    ensures Names(Resolution(root, location))
  {
    var segs := Split(location);
    SplitFull(root, Clean(location));
    if Rooted(location) {
      FoldIsWalk([], segs);
      var c := Walk([], segs);
      assert Clean(location) == "" + "/" + Join(c);
      SplitConcat("", Join(c));
      SkipEmpty(root, Split(Join(c)));
      FoldNames(root, c);
    } else {
      CleanThenWalk(root, [], segs);
      FoldIsWalk(root, segs);
      var c := Fold(false, [], segs);
      if c == [] {
        SplitSingle(".");
        assert Fold(true, root, ["."]) == root by { assert ["."][1..] == []; }
      } else {
        SplitJoin(c);
      }
    }
  }

  lemma FoldNames(root: seq<string>, c: seq<string>)
    requires Names(root) && Names(c)
    ensures Fold(true, root, Split(Join(c))) == root + c
  {
    if c == [] {
      SkipEmpty(root, []);
      assert [""] + [] == [""] && root + [] == root;
    } else {
      SplitJoin(c);
      FoldIsWalk(root, c);
      WalkNames(root, c);
    }
  }

  lemma {:induction false} RelIsRest(base: seq<string>, target: seq<string>)
    ensures base <= target ==> RelSegs(base, target) == target[|base|..]
    ensures !(base <= target) ==> RelSegs(base, target) != [] && RelSegs(base, target)[0] == ".."
  {
    if base != [] && target != [] && base[0] == target[0] {
      RelIsRest(base[1..], target[1..]);
      assert base == [base[0]] + base[1..] && target == [target[0]] + target[1..];
      assert base <= target <==> base[1..] <= target[1..];
    } else if base == [] {
      assert Ups(0) + target == target;
    }
  }

  /** A rendered relative path climbs exactly when its first segment is "..". */
  lemma ClimbsIff(segs: seq<string>)
    requires Solid(segs)
    ensures (Render(false, segs) == ".." || "../" <= Render(false, segs)) <==> (segs != [] && segs[0] == "..")
  {
    if segs != [] {
      var r := Join(segs);
      SplitJoin(segs);
      FirstSegment(r);
      hide Split;
      if segs[0] == ".." && |segs| > 1 {
        assert r == ".." + "/" + Join(segs[1..]);
        hide Join;
        assert r[..3] == "../";
      }
    }
  }

  lemma FirstSegment(r: string)
    ensures r == ".." || "../" <= r ==> Split(r)[0] == ".."
  {
    if r == ".." {
      SplitSingle("..");
    } else if "../" <= r {
      assert r == ".." + "/" + r[3..];
      SplitConcat("..", r[3..]);
      SplitSingle("..");
    }
    hide Split;
  }

  /** SafeRelPath accepts a location exactly when it leads to a place at or under the root; then
      the relative path is made of names only, the absolute path is the root followed by it. */
  lemma SafeRelPathExact(root: seq<string>, location: string)
    requires Names(root)
    ensures var to := Resolution(root, location);
            && Names(to)
            && (SafeRelPath(root, location).Ok? <==> root <= to)
            && (root <= to ==> SafeRelPath(root, location) == Ok(Located(Join(to[|root|..]), "/" + Join(to))))
  {
    var to := Resolution(root, location);
    FullIsResolution(root, location);
    RelIsRest(root, to);
    var rel := RelSegs(root, to);
    if root <= to {
      assert Names(rel) by { forall x | x in rel ensures IsName(x) { assert x in to; } }
      ClimbsIff(rel);
      if rel != [] {
        assert rel[0] in rel;
        NotDot(rel);
      }
    } else {
      Climbing(root, to);
      ClimbsIff(rel);
    }
  }

  lemma NotDot(segs: seq<string>)
    requires segs != [] && Names(segs)
    ensures Join(segs) != "." && Join(segs) != ""
  {
    SplitJoin(segs);
    SplitSingle(".");
    assert segs[0] in segs;
  }

  lemma {:induction false} Climbing(base: seq<string>, target: seq<string>)
    requires Names(base) && Names(target)
    ensures Solid(RelSegs(base, target))
  {
    if base != [] && target != [] && base[0] == target[0] {
      Climbing(base[1..], target[1..]);
    } else {
      forall x | x in Ups(|base|) + target ensures x != "" && x != "." && NoSlash(x) {
        if x !in target {
          assert x in Ups(|base|) && x == "..";
        }
      }
    }
  }

  /** Resolving the relative path again gives the same relative and absolute paths. */
  lemma SafeRelPathIdempotent(root: seq<string>, location: string)
    requires Names(root) && SafeRelPath(root, location).Ok?
    ensures SafeRelPath(root, SafeRelPath(root, location).value.rel) == SafeRelPath(root, location)
  {
    SafeRelPathExact(root, location);
    var to := Resolution(root, location);
    var rest := to[|root|..];
    assert root + rest == to;
    assert Names(rest) by { forall x | x in rest ensures IsName(x) { assert x in to; } }
    hide SafeRelPath, Resolution, Join, Names;
    NamesResolve(root, rest);
  }

  /** A path of names leads straight under the root, and is its own relative path. */
  lemma NamesResolve(root: seq<string>, rest: seq<string>)
    requires Names(root) && Names(rest)
    ensures Resolution(root, Join(rest)) == root + rest
    ensures SafeRelPath(root, Join(rest)) == Ok(Located(Join(rest), "/" + Join(root + rest)))
  {
    if rest == [] {
      assert Walk(root, [""]) == Walk(root, [""][1..]) == root;
      assert root + [] == root;
    } else {
      SplitJoin(rest);
      NotRooted(rest);
      WalkNames(root, rest);
    }
    SafeRelPathExact(root, Join(rest));
    assert (root + rest)[|root|..] == rest;
  }

  lemma NotRooted(segs: seq<string>)
    requires segs != [] && Names(segs)
    ensures !Rooted(Join(segs))
  {
    assert IsName(segs[0]) && segs[0][0] in segs[0];
    assert Join(segs)[0] == segs[0][0];
  }

  // ---- Locations spelled out ----

  lemma {:induction false} WalkConcat(at: seq<string>, a: seq<string>, b: seq<string>)
    ensures Walk(at, a + b) == Walk(Walk(at, a), b)
    decreases |a|
  {
    if a == [] {
      assert a + b == b;
    } else {
      assert (a + b)[1..] == a[1..] + b;
      var next := if a[0] == "" || a[0] == "." then at
                  else if a[0] == ".." then (if at == [] then [] else at[..|at| - 1])
                  else at + [a[0]];
      WalkConcat(next, a[1..], b);
    }
  }

  lemma WalkBack(at: seq<string>, x: string)
    requires IsName(x)
    ensures Walk(at, [x, ".."]) == at && Walk(at, ["."]) == at && Walk(at, [""]) == at
    ensures Walk([], [".."]) == []
  {
    assert [x, ".."][1..] == [".."] && [".."][1..] == [] && ["."][1..] == [] && [""][1..] == [];
    assert (at + [x])[..|at|] == at;
    assert Walk(at + [x], [".."]) == Walk(at, []);
  }

  lemma DetourWalk(root: seq<string>, p: seq<string>, x: string, q: seq<string>, detour: seq<string>)
    requires Names(p) && Names(q) && IsName(x)
    requires detour == [x, ".."] || detour == ["."] || detour == [""]
    ensures Walk(root, p + detour + q) == root + (p + q)
  {
    WalkBack(root + p, x);
    hide Walk;
    WalkConcat(root, p + detour, q);
    WalkConcat(root, p, detour);
    WalkNames(root, p);
    WalkNames(root + p, q);
    assert root + p + q == root + (p + q);
  }

  lemma Spelled(p: seq<string>, x: string, q: seq<string>, detour: seq<string>)
    requires Names(p) && Names(q) && IsName(x) && p != []
    requires detour == [x, ".."] || detour == ["."] || detour == [""]
    ensures var segs := p + detour + q;
            Split(Join(segs)) == segs && !Rooted(Join(segs))
  {
    var segs := p + detour + q;
    forall s | s in segs ensures NoSlash(s) {
      assert s in p || s in detour || s in q;
    }
    SplitJoin(segs);
    assert segs[0] in p && segs[0][0] in segs[0];
    assert Join(segs)[0] == segs[0][0];
  }

  /** Going into a name and back, staying where one is, and doubling a separator lead nowhere else: a
      location with any of them after a name is the location without. */
  lemma DetoursVanish(root: seq<string>, p: seq<string>, x: string, q: seq<string>, detour: seq<string>)
    requires Names(root) && Names(p) && Names(q) && IsName(x) && p != []
    requires detour == [x, ".."] || detour == ["."] || detour == [""]
    ensures SafeRelPath(root, Join(p + detour + q)) == Ok(Located(Join(p + q), "/" + Join(root + (p + q))))
  {
    hide SafeRelPath, Walk, Join, Split, Names, IsName, Rooted;
    Spelled(p, x, q, detour);
    DetourWalk(root, p, x, q, detour);
    SafeRelPathExact(root, Join(p + detour + q));
    hide Resolution;
    assert (root + (p + q))[|root|..] == p + q;
  }

  /** Climbing above the root is refused; an absolute location is placed under the root, where it
      cannot be left by climbing. */
  lemma OutAndAbsolute(root: seq<string>, p: seq<string>)
    requires Names(root) && root != [] && Names(p) && p != []
    ensures SafeRelPath(root, "..") == Err
    ensures SafeRelPath(root, "/" + Join(p)) == Ok(Located(Join(p), "/" + Join(root + p)))
    ensures SafeRelPath(root, "/..") == Ok(Located("", "/" + Join(root)))
  {
    SplitSingle("..");
    assert [".."][1..] == [];
    assert Walk(root, [".."]) == root[..|root| - 1];
    SafeRelPathExact(root, "..");
    AbsoluteIs(root, "/" + Join(p), Split(Join(p)), Join(p));
    SplitJoin(p);
    WalkNames([], p);
    assert [] + p == p && (root + p)[|root|..] == p;
    SafeRelPathExact(root, "/" + Join(p));
    AbsoluteIs(root, "/..", [".."], "..");
    WalkBack([], "x");
    assert root + [] == root && root[|root|..] == [];
    SafeRelPathExact(root, "/..");
    hide SafeRelPath, Walk;
  }

  lemma AbsoluteIs(root: seq<string>, location: string, segs: seq<string>, rest: string)
    requires location == "/" + rest && segs == Split(rest)
    ensures Resolution(root, location) == root + Walk([], segs)
  {
    assert location == "" + "/" + rest;
    SplitConcat("", rest);
    SplitSingle("");
    assert ([""] + segs)[1..] == segs;
  }
}
