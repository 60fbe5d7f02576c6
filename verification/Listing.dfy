/** Browsing and queueing agree: what ListDirectory offers as a file, QueueTrack accepts. */
module Listing {
  import opened Options
  import opened Paths
  import opened Auth

  /** A directory entry; a file's size, if the file can be looked at. */
  datatype Entry = Entry(name: string, isDir: bool, size: Option<nat>)

  datatype Listed = Listed(name: string, isDir: bool, path: string, size: nat)

  /** What is found at the path asked for. */
  datatype Found = Missing | AFile | ADirectory(entries: Option<seq<Entry>>)  // None: it cannot be read

  datatype Refusal = InvalidArgument | NotFound | PermissionDenied | Internal

  datatype Answer = Entries(list: seq<Listed>) | Refused(why: Refusal)

  /** path.Join of a directory's relative path and an entry's name. */
  function JoinEntry(rel: string, name: string): string {
    Clean(if rel == "" then name else rel + "/" + name)
  }

  predicate Visible(glob: Glob, dirs: seq<string>, rel: string, e: Entry) {
    if e.isDir then CanBrowse(glob, dirs, JoinEntry(rel, e.name))
    else HasDir(glob, dirs, JoinEntry(rel, e.name)) && e.size.Some?
  }

  function Show(rel: string, e: Entry): Listed {
    Listed(e.name, e.isDir, JoinEntry(rel, e.name), if e.isDir || e.size.None? then 0 else e.size.value)
  }

  function Filtered(glob: Glob, dirs: seq<string>, rel: string, es: seq<Entry>): seq<Listed> {
    if es == [] then [] else
    var most, e := es[..|es| - 1], es[|es| - 1];
    Filtered(glob, dirs, rel, most) + if Visible(glob, dirs, rel, e) then [Show(rel, e)] else []
  }

  /** A token's listing of a directory, given by the segments of its path below the root: exactly the
      directories it may browse and the files it is authorized for whose info could be read, in the
      order found, each with its name, its own path from the root, and its size. */
  ghost predicate Lists(glob: Glob, dirs: seq<string>, t: seq<string>, es: seq<Entry>, ks: seq<nat>, list: seq<Listed>) {
    && |ks| == |list| && (forall i, j :: 0 <= i < j < |ks| ==> ks[i] < ks[j])
    && (forall j :: 0 <= j < |ks| ==>
          ks[j] < |es| && var e := es[ks[j]];
          && list[j].name == e.name && list[j].isDir == e.isDir && list[j].path == Join(t + [e.name])
          && (if e.isDir then list[j].size == 0 else e.size == Some(list[j].size)))
    && (forall i :: 0 <= i < |es| ==>
          (i in ks <==> if es[i].isDir then CanBrowse(glob, dirs, Join(t + [es[i].name]))
                        else HasDir(glob, dirs, Join(t + [es[i].name])) && es[i].size.Some?))
  }

  /** Refuses, in this order, a path outside the root, a missing one, a file, one the token may not
      browse, and a directory that cannot be read. */
  method ListDirectory(glob: Glob, dirs: seq<string>, root: seq<string>, requested: string, found: Found)
    returns (answer: Answer)
    ensures var at := SafeRelPath(root, requested);
            && (at.Err? ==> answer == Refused(InvalidArgument))
            && (at.Ok? && found.Missing? ==> answer == Refused(NotFound))
            && (at.Ok? && found.AFile? ==> answer == Refused(InvalidArgument))
            && (at.Ok? && found.ADirectory? ==>
                  if !CanBrowse(glob, dirs, at.value.rel) then answer == Refused(PermissionDenied)
                  else if found.entries.None? then answer == Refused(Internal)
                  else answer == Entries(Filtered(glob, dirs, at.value.rel, found.entries.value)))
    ensures answer.Entries? && Names(root) && (forall e <- found.entries.value :: IsName(e.name)) ==>
              exists ks :: Lists(glob, dirs, Under(root, requested), found.entries.value, ks, answer.list)
  {
    var at := SafeRelPath(root, requested);
    if at.Err? {
      return Refused(InvalidArgument);
    }
    var rel := at.value.rel;
    if found.Missing? {
      return Refused(NotFound);
    }
    if !found.ADirectory? {
      return Refused(InvalidArgument);
    }
    if !CanBrowse(glob, dirs, rel) {
      return Refused(PermissionDenied);
    }
    if found.entries.None? {
      return Refused(Internal);
    }
    var es := found.entries.value;
    var list := [];
    for i := 0 to |es|
      invariant list == Filtered(glob, dirs, rel, es[..i])
    {
      assert es[..i + 1][..i] == es[..i];
      var entryRel := JoinEntry(rel, es[i].name);
      if es[i].isDir {
        if !CanBrowse(glob, dirs, entryRel) {
          continue;
        }
      } else if !HasDir(glob, dirs, entryRel) {
        continue;
      }
      var size := 0;
      if !es[i].isDir {
        if es[i].size.None? {
          continue;
        }
        size := es[i].size.value;
      }
      list := list + [Listed(es[i].name, es[i].isDir, entryRel, size)];
    }
    assert es[..|es|] == es;
    if Names(root) && forall e <- es :: IsName(e.name) {
      UnderIsRel(root, requested);
      var ks := FilteredLists(glob, dirs, Under(root, requested), es);
    }
    return Entries(list);
  }

  lemma {:induction false} FilteredLists(glob: Glob, dirs: seq<string>, t: seq<string>, es: seq<Entry>) returns (ks: seq<nat>)
    requires Names(t) && forall e <- es :: IsName(e.name)
    ensures Lists(glob, dirs, t, es, ks, Filtered(glob, dirs, Join(t), es))
  {
    hide HasDir, CanBrowse, Join, Names, JoinEntry;
    if es == [] {
      ks := [];
    } else {
      var before, e := es[..|es| - 1], es[|es| - 1];
      assert e in es && forall x <- before :: x in es;
      var ks' := FilteredLists(glob, dirs, t, before);
      EntryPath(t, e.name);
      assert before + [e] == es;
      var list, path := Filtered(glob, dirs, Join(t), before), Join(t + [e.name]);
      var listed := Filtered(glob, dirs, Join(t), es);
      if Visible(glob, dirs, Join(t), e) {
        ks := ks' + [|before|];
        assert listed == list + [Show(Join(t), e)];
        ListsOne(glob, dirs, t, before, ks', list, e, Show(Join(t), e));
      } else {
        ks := ks';
        assert listed == list;
        ListsNone(glob, dirs, t, before, ks', list, e);
      }
    }
  }

  lemma ListsNone(glob: Glob, dirs: seq<string>, t: seq<string>, es: seq<Entry>, ks: seq<nat>, list: seq<Listed>, e: Entry)
    requires Lists(glob, dirs, t, es, ks, list)
    requires !(if e.isDir then CanBrowse(glob, dirs, Join(t + [e.name])) else HasDir(glob, dirs, Join(t + [e.name])) && e.size.Some?)
    ensures Lists(glob, dirs, t, es + [e], ks, list)
  {
    hide HasDir, CanBrowse, Join;
  }

  lemma ListsOne(glob: Glob, dirs: seq<string>, t: seq<string>, es: seq<Entry>, ks: seq<nat>, list: seq<Listed>, e: Entry, x: Listed)
    requires Lists(glob, dirs, t, es, ks, list)
    requires if e.isDir then CanBrowse(glob, dirs, Join(t + [e.name])) else HasDir(glob, dirs, Join(t + [e.name])) && e.size.Some?
    requires x.name == e.name && x.isDir == e.isDir && x.path == Join(t + [e.name])
    requires if e.isDir then x.size == 0 else e.size == Some(x.size)
    ensures Lists(glob, dirs, t, es + [e], ks + [|es|], list + [x])
  {
    hide HasDir, CanBrowse, Join;
  }

  // ---- Queueing ----

  /** QueueTrack's check of a local file, before anything is queued. */
  function CheckLocal(glob: Glob, dirs: seq<string>, root: seq<string>, location: string): Option<Refusal> {
    var at := SafeRelPath(root, location);
    if at.Err? then Some(InvalidArgument)
    else if !HasDir(glob, dirs, at.value.rel) then Some(PermissionDenied)
    else None
  }

  /** A local file may be queued exactly when its location leads to the root or below and the token is
      authorized there; otherwise it is refused for the one reason or the other. */
  lemma MayQueueIff(glob: Glob, dirs: seq<string>, root: seq<string>, location: string)
    requires Names(root)
    ensures var to := Resolution(root, location);
            CheckLocal(glob, dirs, root, location) ==
              if !(root <= to) then Some(InvalidArgument)
              else if HasDir(glob, dirs, Join(to[|root|..])) then None else Some(PermissionDenied)
  {
    SafeRelPathExact(root, location);
    hide SafeRelPath, Resolution, HasDir, Join;
  }

  lemma EntryPath(t: seq<string>, name: string)
    requires Names(t) && IsName(name)
    ensures JoinEntry(Join(t), name) == Join(t + [name])
  {
    var p := t + [name];
    assert Names(p) && p[|p| - 1] == name;
    if t == [] {
      assert p == [name];
    } else {
      NotDot(t);
      JoinConcat(t, [name]);
    }
    NotRooted(p);
    SplitJoin(p);
    FoldRelative([], p);
    assert [] + p == p;
    NotDot(p);
  }

  lemma {:induction false} FoldRelative(path: seq<string>, segs: seq<string>)
    requires Names(segs)
    ensures Fold(false, path, segs) == path + segs
    decreases |segs|
  {
    if segs != [] {
      assert IsName(segs[0]);
      FoldRelative(path + [segs[0]], segs[1..]);
      assert path + [segs[0]] + segs[1..] == path + segs;
    } else {
      assert path + segs == path;
    }
  }

  lemma {:induction false} FilteredFrom(glob: Glob, dirs: seq<string>, rel: string, es: seq<Entry>, x: Listed)
    ensures x in Filtered(glob, dirs, rel, es) <==> exists e :: e in es && Visible(glob, dirs, rel, e) && x == Show(rel, e)
  {
    if es != [] {
      var most, last := es[..|es| - 1], es[|es| - 1];
      FilteredFrom(glob, dirs, rel, most, x);
      assert forall e :: e in es <==> e in most || e == last;
      hide Visible, Show;
    }
  }

  /** The path of an entry resolves to itself, in the directory it was listed in. */
  lemma EntryResolves(root: seq<string>, requested: string, name: string)
    requires Names(root) && SafeRelPath(root, requested).Ok? && IsName(name)
    ensures var path := JoinEntry(SafeRelPath(root, requested).value.rel, name);
            SafeRelPath(root, path) == Ok(Located(path, "/" + Join(root + Under(root, requested) + [name])))
  {
    var t := Under(root, requested);
    UnderIsRel(root, requested);
    hide SafeRelPath, Resolution, Under, JoinEntry, Join, Clean;
    EntryPath(t, name);
    NamesResolve(root, t + [name]);
    assert root + (t + [name]) == root + t + [name];
  }

  /** For any tree, token and requested path: a listed file, used as a local-file location, resolves
      to itself under the root and passes QueueTrack's check for the same token; and a listed
      directory may be listed in turn. */
  lemma ListedIsUsable(glob: Glob, dirs: seq<string>, root: seq<string>, requested: string, es: seq<Entry>, x: Listed)
    requires Names(root) && SafeRelPath(root, requested).Ok? && forall e <- es :: IsName(e.name)
    requires x in Filtered(glob, dirs, SafeRelPath(root, requested).value.rel, es)
    ensures SafeRelPath(root, x.path) == Ok(Located(x.path, "/" + Join(root + Under(root, requested) + [x.name])))
    ensures !x.isDir ==> CheckLocal(glob, dirs, root, x.path) == None
    ensures x.isDir ==> CanBrowse(glob, dirs, SafeRelPath(root, x.path).value.rel)
  {
    hide SafeRelPath, Resolution, HasDir, CanBrowse, Join, Clean, Under, JoinEntry, Filtered;
    var rel := SafeRelPath(root, requested).value.rel;
    FilteredFrom(glob, dirs, rel, es, x);
    var e :| e in es && Visible(glob, dirs, rel, e) && x == Show(rel, e);
    EntryResolves(root, requested, e.name);
  }

  /** The segments of a request below the root. */
  function Under(root: seq<string>, requested: string): seq<string> {
    var to := Resolution(root, requested);
    if |root| <= |to| then to[|root|..] else []
  }

  lemma UnderIsRel(root: seq<string>, requested: string)
    requires Names(root) && SafeRelPath(root, requested).Ok?
    ensures var t := Under(root, requested);
            && Names(t)
            && SafeRelPath(root, requested) == Ok(Located(Join(t), "/" + Join(root + t)))
  {
    SafeRelPathExact(root, requested);
    var to := Resolution(root, requested);
    assert root + to[|root|..] == to;
    forall s | s in to[|root|..] ensures IsName(s) {
      assert s in to;
    }
  }
}
