/** Directory scopes of a token: which paths it authorizes, and which it may browse through.
    Glob matching is a parameter: any relation between patterns and paths. */
module Auth {
  import opened Paths

  type Glob = (string, string) -> bool

  /** Entries searched in order; an entry also covers everything below it. */
  predicate Covers(glob: Glob, d: string, dir: string) {
    d == "*" || d == dir || d + "/" <= dir || glob(d, dir)
  }

  predicate HasDir(glob: Glob, dirs: seq<string>, dir: string) {
    dirs == [] || exists i :: 0 <= i < |dirs| && Covers(glob, dirs[i], dir)
  }

  predicate IsAncestorOfAllowedDir(dirs: seq<string>, dir: string) {
    if dir == "" then dirs != [] else exists i :: 0 <= i < |dirs| && dir + "/" <= dirs[i]
  }

  predicate CanBrowse(glob: Glob, dirs: seq<string>, dir: string) {
    HasDir(glob, dirs, dir) || IsAncestorOfAllowedDir(dirs, dir)
  }

  /** An empty scope is unrestricted; an entry grants itself, what its string is continued by past a
      separator, and whatever it matches as a pattern, and "*" grants everything; nothing else is
      granted. */
  lemma HasDirIff(glob: Glob, dirs: seq<string>, dir: string)
    ensures HasDir(glob, dirs, dir) <==>
              dirs == [] || "*" in dirs || dir in dirs || exists d :: d in dirs && (d + "/" <= dir || glob(d, dir))
  {
    if HasDir(glob, dirs, dir) && dirs != [] {
      var i :| 0 <= i < |dirs| && Covers(glob, dirs[i], dir);
      assert dirs[i] in dirs;
    }
    if d :| d in dirs && (d == "*" || d == dir || d + "/" <= dir || glob(d, dir)) {
      var i :| 0 <= i < |dirs| && dirs[i] == d;
      assert Covers(glob, dirs[i], dir);
    }
  }

  /** A directory may be browsed when it is granted, when it is the root, or when an entry's string
      continues it past a separator; patterns and "*" make no ancestors of their own. */
  lemma CanBrowseIff(glob: Glob, dirs: seq<string>, dir: string)
    ensures CanBrowse(glob, dirs, dir) <==>
              HasDir(glob, dirs, dir) || dir == "" || exists d :: d in dirs && dir + "/" <= d
  {
    if d :| d in dirs && dir + "/" <= d {
      var i :| 0 <= i < |dirs| && dirs[i] == d;
      assert dir + "/" <= dirs[i];
    }
    if IsAncestorOfAllowedDir(dirs, dir) && dir != "" {
      var i :| 0 <= i < |dirs| && dir + "/" <= dirs[i];
      assert dirs[i] in dirs;
    }
  }

  // ---- String prefixes are segment prefixes ----

  lemma {:induction false} JoinSplit(s: string)
    ensures Join(Split(s)) == s
  {
    if s != "" {
      JoinSplit(s[1..]);
      SplitCons(s);
      var r := Split(s[1..]);
      if s[0] == '/' {
        assert ([""] + r)[1..] == r;
        assert s == "/" + s[1..];
      } else {
        var c := [s[0]];
        assert s == c + s[1..];
        if |r| > 1 {
          assert c + (r[0] + "/" + Join(r[1..])) == (c + r[0]) + "/" + Join(r[1..]);
        }
      }
    }
  }

  lemma BelowSegments(p: seq<string>, rest: string)
    requires Names(p) && p != []
    ensures p < Split(Join(p) + "/" + rest)
  {
    SplitJoin(p);
    SplitConcat(Join(p), rest);
    assert |Split(rest)| >= 1;
    hide Split, Join, Names;
  }

  lemma SegmentsBelow(p: seq<string>, d: string)
    requires p != [] && p < Split(d)
    ensures Join(p) + "/" <= d
  {
    var rest := Split(d)[|p|..];
    assert Split(d) == p + rest;
    hide Split, Join;
    JoinConcat(p, rest);
    JoinSplit(d);
    assert d == Join(p) + "/" + Join(rest);
  }

  /** Below: a string continues a clean path's past a separator exactly when its segments do. */
  lemma BelowIff(p: seq<string>, d: string)
    requires Names(p) && p != []
    ensures Join(p) + "/" <= d <==> p < Split(d)
  {
    hide Split, Join, Names;
    if Join(p) + "/" <= d {
      var rest := d[|Join(p)| + 1..];
      assert d == Join(p) + "/" + rest;
      BelowSegments(p, rest);
    }
    if p < Split(d) {
      SegmentsBelow(p, d);
    }
  }

  /** An entry, "*" apart, that is written as a clean, non-empty path. */
  predicate CleanPath(d: string) {
    Names(Split(d))
  }

  /** Globbing adds nothing to equality: no entry but "*" holds a pattern. */
  ghost predicate GlobFree(glob: Glob, dirs: seq<string>) {
    forall i, dir :: 0 <= i < |dirs| && glob(dirs[i], dir) ==> dirs[i] == "*" || dirs[i] == dir
  }

  /** What HasDir means in segments: unrestricted, or at or below a clean entry; an empty entry
      stands for the root alone. */
  ghost predicate AtOrBelow(dirs: seq<string>, p: seq<string>) {
    || dirs == []
    || "*" in dirs
    || ("" in dirs && p == [])
    || exists i :: 0 <= i < |dirs| && CleanPath(dirs[i]) && Split(dirs[i]) <= p
  }

  lemma CleanBelow(d: string, p: seq<string>)
    requires CleanPath(d) && Names(p)
    ensures d == Join(p) || d + "/" <= Join(p) <==> Split(d) <= p
  {
    JoinSplit(d);
    BelowIff(Split(d), Join(p));
    if p == [] {
      SplitSingle("");
      assert Join(p) == "" && |d + "/"| > 0 && d != "" by { EmptyUnclean(); }
    } else {
      SplitJoin(p);
    }
    hide Join, Split, Names;
    assert Split(d) <= p <==> Split(d) == p || Split(d) < p;
  }

  lemma EmptyUnclean()
    ensures !CleanPath("")
  {
    SplitSingle("");
    assert "" in Split("");
  }

  lemma CoversMeans(glob: Glob, dirs: seq<string>, i: nat, p: seq<string>)
    requires GlobFree(glob, dirs) && i < |dirs| && Names(p) && dirs[i] != "*"
    ensures Covers(glob, dirs[i], Join(p)) <==> (dirs[i] == "" && p == []) || (CleanPath(dirs[i]) && Split(dirs[i]) <= p)
  {
    var d := dirs[i];
    assert p == [] ==> Join(p) == "";
    if p != [] {
      SplitJoin(p);
      NotDot(p);
      assert CleanPath(Join(p));
    }
    EmptyUnclean();
    hide Split, Join, Names, CleanPath;
    if CleanPath(d) {
      CleanBelow(d, p);
    } else if d + "/" <= Join(p) {
      Within(d, p);
    }
  }

  /** Whatever a clean path continues past a separator is clean. */
  lemma Within(d: string, p: seq<string>)
    requires Names(p) && d + "/" <= Join(p)
    ensures CleanPath(d)
  {
    var rest := Join(p)[|d| + 1..];
    assert Join(p) == d + "/" + rest;
    SplitConcat(d, rest);
    if p == [] {
      assert false;
    }
    SplitJoin(p);
    forall x | x in Split(d) ensures IsName(x) { assert x in Split(d) + Split(rest); }
  }

  lemma HasDirMeans(glob: Glob, dirs: seq<string>, p: seq<string>)
    requires GlobFree(glob, dirs) && Names(p)
    ensures HasDir(glob, dirs, Join(p)) <==> AtOrBelow(dirs, p)
  {
    hide Split, Join, Names, CleanPath;
    if dirs != [] && "*" !in dirs {
      forall i | 0 <= i < |dirs|
        ensures Covers(glob, dirs[i], Join(p)) <==> (dirs[i] == "" && p == []) || (CleanPath(dirs[i]) && Split(dirs[i]) <= p)
      {
        CoversMeans(glob, dirs, i, p);
      }
      hide Covers, GlobFree;
    } else if "*" in dirs {
      var i :| 0 <= i < |dirs| && dirs[i] == "*";
      assert Covers(glob, dirs[i], Join(p));
    }
  }

  // ---- Browsing clean scopes is connected and has no dead ends ----

  /** Every entry is a clean path or "*", and none is a pattern. */
  ghost predicate PlainScope(glob: Glob, dirs: seq<string>) {
    GlobFree(glob, dirs) && forall d <- dirs :: d == "*" || CleanPath(d)
  }

  lemma EntryAbove(glob: Glob, dirs: seq<string>, p: seq<string>) returns (i: nat)
    requires GlobFree(glob, dirs) && Names(p) && HasDir(glob, dirs, Join(p)) && dirs != [] && "*" !in dirs
    requires "" !in dirs || p != []
    ensures i < |dirs| && CleanPath(dirs[i]) && Split(dirs[i]) <= p
  {
    HasDirMeans(glob, dirs, p);
    hide HasDir, Join, CleanPath;
    i :| 0 <= i < |dirs| && CleanPath(dirs[i]) && Split(dirs[i]) <= p;
  }

  /** HasDir is closed under going down, unless an empty entry authorizes the root alone. */
  lemma ClosedDownward(glob: Glob, dirs: seq<string>, p: seq<string>, more: seq<string>)
    requires GlobFree(glob, dirs) && ("" !in dirs || p != [])
    requires Names(p) && Names(more) && HasDir(glob, dirs, Join(p))
    ensures HasDir(glob, dirs, Join(p + more))
  {
    assert Names(p + more);
    hide HasDir, Join, Split, Names, CleanPath;
    HasDirMeans(glob, dirs, p + more);
    if dirs != [] && "*" !in dirs {
      var i := EntryAbove(glob, dirs, p);
      assert Split(dirs[i]) <= p + more;
    }
  }

  /** Every authorized path is reached from the root through directories that may be browsed. */
  lemma ReachedFromRoot(glob: Glob, dirs: seq<string>, p: seq<string>, k: nat)
    requires GlobFree(glob, dirs) && Names(p) && HasDir(glob, dirs, Join(p)) && k <= |p|
    ensures CanBrowse(glob, dirs, Join(p[..k]))
  {
    assert Names(p[..k]);
    hide HasDir, Join, Split, Names, CleanPath, IsAncestorOfAllowedDir;
    HasDirMeans(glob, dirs, p[..k]);
    if p == [] {
      assert p[..k] == p;
    } else if dirs != [] && "*" !in dirs {
      var i := EntryAbove(glob, dirs, p);
      if k >= |Split(dirs[i])| {
        assert Split(dirs[i]) <= p[..k];
      } else {
        assert p[..k] < Split(dirs[i]);
        AncestorIff(dirs, p[..k]);
      }
    }
  }

  /** A directory on the way to an entry: a proper prefix of its segments. */
  lemma AncestorIff(dirs: seq<string>, p: seq<string>)
    requires Names(p)
    ensures IsAncestorOfAllowedDir(dirs, Join(p)) <==> exists i :: 0 <= i < |dirs| && p < Split(dirs[i])
  {
    if p == [] {
      if dirs != [] {
        assert p < Split(dirs[0]);
      }
    } else {
      NotDot(p);
      forall i | 0 <= i < |dirs| ensures Join(p) + "/" <= dirs[i] <==> p < Split(dirs[i]) {
        BelowIff(p, dirs[i]);
      }
    }
    hide Split, Join, Names;
  }

  // ---- Exactly which scopes have dead ends ----

  /** Something strictly below is authorized. */
  ghost predicate LeadsOn(glob: Glob, dirs: seq<string>, p: seq<string>) {
    exists q :: Names(q) && p < q && HasDir(glob, dirs, Join(q))
  }

  /** A directory that may be browsed but is not authorized has an authorized one strictly below. */
  ghost predicate NoDeadEnds(glob: Glob, dirs: seq<string>) {
    forall p :: Names(p) && CanBrowse(glob, dirs, Join(p)) ==> HasDir(glob, dirs, Join(p)) || LeadsOn(glob, dirs, p)
  }

  /** The longest path of names leading towards an entry's segments. */
  function Approach(segs: seq<string>): (p: seq<string>)
    ensures Names(p) && (segs != [] ==> p < segs)
  {
    if |segs| <= 1 || !IsName(segs[0]) then []
    else
      assert segs == [segs[0]] + segs[1..];
      [segs[0]] + Approach(segs[1..])
  }

  lemma {:induction false} ApproachLongest(segs: seq<string>, p: seq<string>)
    requires Names(p) && p < segs
    ensures p <= Approach(segs)
  {
    if p != [] {
      assert IsName(p[0]) && p[1..] < segs[1..];
      ApproachLongest(segs[1..], p[1..]);
      assert p == [p[0]] + p[1..];
    }
  }

  /** A clean entry lies above or below the path, or is the path. */
  ghost predicate Met(dirs: seq<string>, p: seq<string>) {
    exists i :: 0 <= i < |dirs| && CleanPath(dirs[i]) && (Split(dirs[i]) <= p || p <= Split(dirs[i]))
  }

  /** What a token's issuer can check: the root has somewhere to lead, and so has the approach to
      each entry that is not written cleanly. */
  ghost predicate WellScoped(dirs: seq<string>) {
    || dirs == [] || "*" in dirs
    || (&& ("" in dirs || Met(dirs, []))
        && forall d <- dirs :: CleanPath(d) || Approach(Split(d)) == [] || Met(dirs, Approach(Split(d))))
  }

  lemma OnwardIff(glob: Glob, dirs: seq<string>, p: seq<string>)
    requires GlobFree(glob, dirs) && Names(p) && dirs != [] && "*" !in dirs
    ensures HasDir(glob, dirs, Join(p)) || LeadsOn(glob, dirs, p) <==> ("" in dirs && p == []) || Met(dirs, p)
  {
    HasDirMeans(glob, dirs, p);
    if LeadsOn(glob, dirs, p) {
      var q :| Names(q) && p < q && HasDir(glob, dirs, Join(q));
      HasDirMeans(glob, dirs, q);
      var i :| 0 <= i < |dirs| && CleanPath(dirs[i]) && Split(dirs[i]) <= q;
      assert Split(dirs[i]) <= p || p <= Split(dirs[i]);
    }
    if Met(dirs, p) {
      var i :| 0 <= i < |dirs| && CleanPath(dirs[i]) && (Split(dirs[i]) <= p || p <= Split(dirs[i]));
      var e := Split(dirs[i]);
      HasDirMeans(glob, dirs, e);
      assert e <= p || p < e;
    }
    hide HasDir, Split, Join, GlobFree;
  }

  /** Meeting an entry carries over to everything on the way there. */
  lemma MetUp(dirs: seq<string>, p: seq<string>, q: seq<string>)
    requires p <= q && Met(dirs, q)
    ensures Met(dirs, p)
  {
    var i :| 0 <= i < |dirs| && CleanPath(dirs[i]) && (Split(dirs[i]) <= q || q <= Split(dirs[i]));
    assert Split(dirs[i]) <= p || p <= Split(dirs[i]);
  }

  /** Any scope without patterns, however its entries are written, has no dead ends exactly when it
      is well scoped. */
  lemma NoDeadEndsIff(glob: Glob, dirs: seq<string>)
    requires GlobFree(glob, dirs)
    ensures NoDeadEnds(glob, dirs) <==> WellScoped(dirs)
  {
    hide HasDir, Split, Join, GlobFree, Met, LeadsOn;
    if dirs == [] || "*" in dirs {
      forall p | Names(p) ensures HasDir(glob, dirs, Join(p)) {
        HasDirMeans(glob, dirs, p);
      }
    } else if WellScoped(dirs) {
      forall p | Names(p) && CanBrowse(glob, dirs, Join(p)) ensures HasDir(glob, dirs, Join(p)) || LeadsOn(glob, dirs, p) {
        if p != [] {
          BrowsableMeets(glob, dirs, p);
        }
        OnwardIff(glob, dirs, p);
      }
    } else if NoDeadEnds(glob, dirs) {
      RootBrowsable(glob, dirs);
      OnwardIff(glob, dirs, []);
      forall d | d in dirs && Approach(Split(d)) != [] ensures Met(dirs, Approach(Split(d))) {
        AncestorIff(dirs, Approach(Split(d)));
        OnwardIff(glob, dirs, Approach(Split(d)));
      }
    }
  }

  lemma RootBrowsable(glob: Glob, dirs: seq<string>)
    ensures Names([]) && CanBrowse(glob, dirs, Join([]))
  {
  }

  lemma BrowsableMeets(glob: Glob, dirs: seq<string>, p: seq<string>)
    requires GlobFree(glob, dirs) && Names(p) && dirs != [] && "*" !in dirs
    requires WellScoped(dirs) && CanBrowse(glob, dirs, Join(p)) && p != []
    ensures Met(dirs, p)
  {
    if HasDir(glob, dirs, Join(p)) {
      HasDirMeans(glob, dirs, p);
    } else {
      AncestorIff(dirs, p);
      var i :| 0 <= i < |dirs| && p < Split(dirs[i]);
      if !CleanPath(dirs[i]) {
        ApproachLongest(Split(dirs[i]), p);
        MetUp(dirs, p, Approach(Split(dirs[i])));
      }
    }
  }

  /** In a scope of clean entries, a directory that may be browsed but is not authorized has an
      authorized entry strictly below it. */
  lemma NoDeadEnd(glob: Glob, dirs: seq<string>, p: seq<string>)
    requires PlainScope(glob, dirs) && Names(p)
    requires CanBrowse(glob, dirs, Join(p)) && !HasDir(glob, dirs, Join(p))
    ensures exists i :: 0 <= i < |dirs| && CleanPath(dirs[i]) && p < Split(dirs[i]) && HasDir(glob, dirs, dirs[i])
  {
    AncestorIff(dirs, p);
    var i :| 0 <= i < |dirs| && p < Split(dirs[i]);
    HasDirMeans(glob, dirs, p);
    assert dirs[i] in dirs && dirs[i] != "*";
    assert Covers(glob, dirs[i], dirs[i]);
    hide Covers, Split, Join, AtOrBelow;
  }

  /** A single entry has no dead ends exactly when it is empty, "*", or a clean path. */
  lemma OneEntryIff(glob: Glob, d: string)
    requires GlobFree(glob, [d])
    ensures NoDeadEnds(glob, [d]) <==> d == "" || d == "*" || CleanPath(d)
  {
    NoDeadEndsIff(glob, [d]);
    if CleanPath(d) {
      assert [] <= Split([d][0]);
    }
    if d == "" {
      SplitSingle("");
    }
    hide NoDeadEnds, Split;
  }

  /** So a clean path with a slash put after it, which can be browsed to, is a dead end; and it
      authorizes nothing at all. */
  lemma TrailingSlashIsDeadEnd(glob: Glob, e: seq<string>, p: seq<string>)
    requires Names(e) && e != [] && GlobFree(glob, [Join(e) + "/"]) && Names(p)
    ensures var scope := [Join(e) + "/"];
            CanBrowse(glob, scope, Join(e)) && !NoDeadEnds(glob, scope) && !HasDir(glob, scope, Join(p))
  {
    var d := Join(e) + "/";
    assert d == Join(e) + "/" + "";
    SplitConcat(Join(e), "");
    SplitSingle("");
    assert Split(d)[|Split(d)| - 1] == "";
    assert "" in Split(d) && !IsName("");
    assert !CleanPath(d) && d[|d| - 1] == '/';
    OneEntryIff(glob, d);
    HasDirMeans(glob, [d], p);
    assert Join(e) + "/" <= [d][0];
    hide NoDeadEnds, Split, HasDir;
  }
}
