/** One entry of the transcode cache under concurrent GetOrTranscode calls: look, join the
    single flight, look again, write the temporary file, rename it into place.

    Assumed of the surroundings: singleflight runs at most one flight for a key at a time and gives
    its result to everyone who joined it; ffmpeg starts its output file over and leaves it complete
    when it succeeds; rename is atomic; nobody else touches the entry's files.  Every piece of I/O
    may fail: looking at the entry, so that one that is there is missed, and removing the temporary
    file, included. */
module Cache {
  import opened Options

  datatype File = Partial | Complete

  datatype Pc =
    | Looking               // the first stat
    | Joining               // about to enter the single flight
    | Waiting               // joined someone else's flight
    | LookingAgain | MakingDir | StartingWrite | Writing | Renaming | CleaningUp  // leading the flight
    | Landing(ok: bool)     // the flight's function has returned
    | Returned(ok: bool)

  /** callers: every call made so far, by number; leader: who holds the flight, if anyone does. */
  datatype State = State(
    entry: Option<File>,
    tmp: Option<File>,
    leader: Option<nat>,
    callers: map<nat, Pc>,
    published: nat,          // history: how often the file was renamed into place,
    transcodes: nat,         //   how often ffmpeg was started,
    misses: nat,             //   how often a flight's own look missed an entry that was there,
    stray: bool,             //   whether removing the temporary file ever failed,
    faults: nat)             //   and how often making the directory, ffmpeg or the rename did

  /** ok: what the step's I/O comes to. */
  datatype Label = Call(c: nat) | Go(c: nat, ok: bool)

  predicate Leads(pc: Pc) {
    pc.LookingAgain? || pc.MakingDir? || pc.StartingWrite? || pc.Writing? || pc.Renaming? || pc.CleaningUp? || pc.Landing?
  }

  function Move(s: State, c: nat, pc: Pc): State {
    s.(callers := s.callers[c := pc])
  }

  function Step(s: State, l: Label): State {
    match l
    case Call(c) => if c in s.callers then s else Move(s, c, Looking)
    case Go(c, ok) =>
      if c !in s.callers then s else
      match s.callers[c]
      case Looking => Move(s, c, if s.entry.Some? && ok then Returned(true) else Joining)
      case Joining => if s.leader.None? then Move(s, c, LookingAgain).(leader := Some(c)) else Move(s, c, Waiting)
      case Waiting => s
      case LookingAgain =>
        if s.entry.Some? && ok then Move(s, c, Landing(true))
        else Move(s, c, MakingDir).(misses := s.misses + if s.entry.Some? then 1 else 0)
      case MakingDir => if ok then Move(s, c, StartingWrite) else Move(s, c, Landing(false)).(faults := s.faults + 1)
      case StartingWrite => Move(s, c, Writing).(tmp := Some(Partial), transcodes := s.transcodes + 1)
      case Writing =>
        if ok then Move(s, c, Renaming).(tmp := Some(Complete)) else Move(s, c, CleaningUp).(faults := s.faults + 1)
      case Renaming =>
        if ok then Move(s, c, Landing(true)).(entry := s.tmp, tmp := None, published := s.published + 1)
        else Move(s, c, CleaningUp).(faults := s.faults + 1)
      case CleaningUp =>
        Move(s, c, Landing(false)).(tmp := if ok then None else s.tmp, stray := s.stray || !ok)
      case Landing(r) =>
        s.(leader := None,
           callers := map x | x in s.callers :: if x == c || s.callers[x].Waiting? then Returned(r) else s.callers[x])
      case Returned(_) => s
  }

  /** From a cache that has no such entry. */
  function Run(ls: seq<Label>): State {
    if ls == [] then State(None, None, None, map[], 0, 0, 0, false, 0)
    else Step(Run(ls[..|ls| - 1]), ls[|ls| - 1])
  }

  /** A flight that may yet publish, past its own look. */
  function ToPublish(s: State): nat {
    if s.leader.Some? && s.leader.value in s.callers
       && !s.callers[s.leader.value].LookingAgain? && !s.callers[s.leader.value].Landing? then 1 else 0
  }

  /** A flight that may yet start ffmpeg, past its own look. */
  function ToStart(s: State): nat {
    if s.leader.Some? && s.leader.value in s.callers
       && (s.callers[s.leader.value].MakingDir? || s.callers[s.leader.value].StartingWrite?) then 1 else 0
  }

  ghost predicate Inv(s: State) {
    && (forall c <- s.callers :: Leads(s.callers[c]) ==> s.leader == Some(c))
    && (s.leader.Some? ==> s.leader.value in s.callers && Leads(s.callers[s.leader.value]))
    && (s.leader.None? && s.tmp.Some? ==> s.stray)
    && (s.leader.Some? ==>
          var pc := s.callers[s.leader.value];
          && (!pc.LookingAgain? && !pc.Landing? && s.entry.Some? ==> s.misses > 0)
          && (pc.Renaming? ==> s.tmp == Some(Complete))
          && (pc.LookingAgain? || pc.MakingDir? || pc.StartingWrite? || pc.Landing? ==> s.tmp.None? || s.stray)
          && (pc == Landing(true) ==> s.entry.Some?))
    && (s.entry.Some? ==> s.entry == Some(Complete))
    && (s.published > 0 <==> s.entry.Some?)
    && s.published + ToPublish(s) <= 1 + s.misses
    && (forall c <- s.callers :: s.callers[c] == Returned(true) ==> s.entry.Some?)
    && (forall c <- s.callers :: FailedCall(s.callers[c]) ==> s.faults > 0)
    && (forall c <- s.callers :: s.callers[c].Waiting? ==> s.leader.Some?)
  }

  predicate FailedCall(pc: Pc) {
    pc.CleaningUp? || pc == Landing(false) || pc == Returned(false)
  }

  lemma LeadStep(s: State, c: nat, ok: bool)
    requires Inv(s) && c in s.callers && Leads(s.callers[c]) && !s.callers[c].Landing?
    ensures Inv(Step(s, Go(c, ok)))
  {
    assert s.leader == Some(c);
    match s.callers[c]
    case Renaming =>
    case LookingAgain =>
    case _ =>
  }

  lemma LandStep(s: State, c: nat, ok: bool)
    requires Inv(s) && c in s.callers && s.callers[c].Landing?
    ensures Inv(Step(s, Go(c, ok)))
  {
    assert s.leader == Some(c);
  }

  lemma InvStep(s: State, l: Label)
    requires Inv(s)
    ensures Inv(Step(s, l))
  {
    if l.Go? && l.c in s.callers && Leads(s.callers[l.c]) {
      if s.callers[l.c].Landing? {
        LandStep(s, l.c, l.ok);
      } else {
        LeadStep(s, l.c, l.ok);
      }
      hide Step, Inv;
    } else {
      IdleStep(s, l);
      hide Step, Inv;
    }
  }

  lemma JoinStep(s: State, c: nat, ok: bool)
    requires Inv(s) && c in s.callers && s.callers[c].Joining?
    ensures Inv(Step(s, Go(c, ok)))
  {
  }

  lemma IdleStep(s: State, l: Label)
    requires Inv(s) && !(l.Go? && l.c in s.callers && Leads(s.callers[l.c]))
    ensures Inv(Step(s, l))
  {
    if l.Go? && l.c in s.callers && s.callers[l.c].Joining? {
      JoinStep(s, l.c, l.ok);
      hide Step, Inv;
    } else {
      var s' := Step(s, l);
      var pc := if l.c in s'.callers then s'.callers[l.c] else Looking;
      assert s' == s || (s' == s.(callers := s.callers[l.c := pc]) && !Leads(pc) && !FailedCall(pc) && !pc.Waiting?);
      assert pc == Returned(true) && s' != s ==> s.entry.Some?;
      hide Step;
    }
  }

  lemma {:induction false} InvRun(ls: seq<Label>)
    ensures Inv(Run(ls))
  {
    if ls != [] {
      InvRun(ls[..|ls| - 1]);
      InvStep(Run(ls[..|ls| - 1]), ls[|ls| - 1]);
    }
    hide Step, Inv;
  }

  /** A caller that finds the file returns at once; otherwise it leads the flight, or joins the one
      that is up; and a leader that finds the file after all transcodes nothing. */
  lemma LooksFirst(s: State, c: nat, ok: bool)
    requires c in s.callers
    ensures var s', pc := Step(s, Go(c, ok)), s.callers[c];
            && c in s'.callers
            && (pc.Looking? ==> s'.callers[c] == if s.entry.Some? && ok then Returned(true) else Joining)
            && (pc.Joining? && s.leader.None? ==> s'.leader == Some(c) && s'.callers[c].LookingAgain?)
            && (pc.Joining? && s.leader.Some? ==> s'.leader == s.leader && s'.callers[c].Waiting?)
            && (pc.LookingAgain? ==> s'.callers[c] == if s.entry.Some? && ok then Landing(true) else MakingDir)
            && (pc.Looking? || pc.Joining? || pc.LookingAgain? ==>
                  s'.entry == s.entry && s'.tmp == s.tmp && s'.transcodes == s.transcodes)
  {
  }

  /** When a flight lands, its leader and everyone who joined it return its result, and the next
      caller may lead. */
  lemma LandingShares(s: State, c: nat, r: bool, ok: bool)
    requires c in s.callers && s.callers[c] == Landing(r)
    ensures var s' := Step(s, Go(c, ok));
            && s'.leader.None? && s'.entry == s.entry && s'.callers.Keys == s.callers.Keys
            && s'.callers[c] == Returned(r)
            && forall x <- s.callers :: x != c ==>
                 s'.callers[x] == if s.callers[x].Waiting? then Returned(r) else s.callers[x]
  {
  }

  /** However many calls interleave: the entry's file is never partial, and is published at most
      once, but for looks that missed it; no two calls write the temporary file at once; a call that
      succeeds finds the file complete, and one fails only after some directory, ffmpeg run or rename
      did; nobody waits when no flight is up, and then no temporary file is left behind, unless
      removing one failed. */
  lemma OneTranscodePerEntry(ls: seq<Label>, a: nat, b: nat)
    ensures var s := Run(ls);
            && s.published <= 1 + s.misses && s.entry != Some(Partial)
            && (a in s.callers && b in s.callers && s.callers[a].Writing? && s.callers[b].Writing? ==> a == b)
            && (a in s.callers && s.callers[a] == Returned(true) ==> s.entry == Some(Complete))
            && (a in s.callers && s.callers[a] == Returned(false) ==> s.faults > 0)
            && (a in s.callers && s.callers[a].Waiting? ==> s.leader.Some?)
            && (s.leader.None? && s.tmp.Some? ==> s.stray)
  {
    InvRun(ls);
  }

  /** A published entry stays complete; and no later call renames or starts ffmpeg again, but for a
      flight whose own look missed the entry, once for each. */
  lemma {:induction false} PublishedStays(ls: seq<Label>, more: seq<Label>)
    requires Run(ls).entry.Some?
    ensures var s, s' := Run(ls), Run(ls + more);
            && s'.entry == Some(Complete) && s'.misses >= s.misses
            && s'.published + ToPublish(s') <= s.published + ToPublish(s) + s'.misses - s.misses
            && s'.transcodes + ToStart(s') <= s.transcodes + ToStart(s) + s'.misses - s.misses
            && (s'.misses == 0 ==> s'.published == 1 && s'.transcodes == s.transcodes)
  {
    InvRun(ls);
    InvRun(ls + more);
    if more == [] {
      assert ls + more == ls;
    } else {
      var all, most := ls + more, more[..|more| - 1];
      assert all[..|all| - 1] == ls + most;
      PublishedStays(ls, most);
      InvRun(ls + most);
      EntryStays(Run(ls + most), all[|all| - 1]);
      hide Step;
    }
    if Run(ls).misses == 0 {
      NoneToStart(Run(ls));
    }
    GrowsOnly(ls, more);
    hide Step, Run, ToPublish, ToStart;
  }

  lemma NoneToStart(s: State)
    requires Inv(s) && s.entry.Some? && s.misses == 0
    ensures ToStart(s) == 0 && ToPublish(s) == 0
  {
  }

  lemma {:induction false} GrowsOnly(ls: seq<Label>, more: seq<Label>)
    ensures Run(ls + more).published >= Run(ls).published && Run(ls + more).transcodes >= Run(ls).transcodes
  {
    if more == [] {
      assert ls + more == ls;
    } else {
      var all := ls + more;
      assert all[..|all| - 1] == ls + more[..|more| - 1];
      GrowsOnly(ls, more[..|more| - 1]);
      GrowsStep(Run(ls + more[..|more| - 1]), all[|all| - 1]);
    }
    hide Step;
  }

  lemma GrowsStep(s: State, l: Label)
    ensures Step(s, l).published >= s.published && Step(s, l).transcodes >= s.transcodes
  {
  }

  lemma EntryStays(s: State, l: Label)
    requires Inv(s) && s.entry.Some?
    ensures var s' := Step(s, l);
            && s'.entry.Some? && s'.misses >= s.misses
            && s'.published + ToPublish(s') <= s.published + ToPublish(s) + s'.misses - s.misses
            && s'.transcodes + ToStart(s') <= s.transcodes + ToStart(s) + s'.misses - s.misses
  {
  }

  /** The same entry, as the one call that holds it sees it. */
  class Entry {
    var file: Option<File>
    var tmp: Option<File>

    constructor ()
      ensures file.None? && tmp.None?
    {
      file, tmp := None, None;
    }

    /** A whole call with nobody else around, given how its two looks, directory, ffmpeg run, rename
        and removal fare; an earlier call may have left a temporary file. */
    method GetOrTranscode(lookOk: bool, againOk: bool, dirOk: bool, ffmpegOk: bool, renameOk: bool, removeOk: bool)
      returns (ok: bool)
      requires file != Some(Partial)
      modifies this
      ensures file != Some(Partial)
      ensures var found := old(file).Some? && (lookOk || againOk);
              && ok == (found || (dirOk && ffmpegOk && renameOk))
              && file == (if ok then Some(Complete) else old(file))
              && (found || !dirOk ==> tmp == old(tmp))
              && (!found && dirOk ==> (tmp.Some? <==> !ok && !removeOk))
    {
      if file.Some? && lookOk {
        assert file.value.Complete?;
        return true;
      }
      if file.Some? && againOk {
        assert file.value.Complete?;
        return true;
      }
      if !dirOk {
        return false;
      }
      tmp := Some(Partial);
      if !ffmpegOk {
        Remove(removeOk);
        return false;
      }
      tmp := Some(Complete);
      if !renameOk {
        Remove(removeOk);
        return false;
      }
      file, tmp := tmp, None;
      return true;
    }

    method Remove(ok: bool)
      modifies this`tmp
      ensures tmp == if ok then None else old(tmp)
    {
      if ok {
        tmp := None;
      }
    }
  }
}
