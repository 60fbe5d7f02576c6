/** A whole station: the outer loop of module RunLoop and, while a local item is on the air, the
    player of module Player, over one set of playback controls.  The two systems were studied on
    their own; here each run of the station is shown to be a run of both, and an Interrupt is
    followed across items, through the flag it may leave behind and the cancellation it may still
    owe.

    The silence clip and a live relay may stop at any moment, as a cancellation or a failure of
    theirs may come at any moment. */
module OnAir {
  import opened Options
  import opened Control
  import opened PlayQueue
  import opened Conservation
  import opened SkipWins
  import opened Ledger
  import P = Player
  import R = RunLoop

  datatype Track = Track(live: bool, duration: int, song: seq<P.Byte>)

  /** What every id stands for, and the station's settings. */
  datatype Setup = Setup(tracks: Id -> Track, silence: seq<P.Byte>, bps: int)

  datatype Station = Station(
    run: R.State,
    player: P.State,            // between items, its controls, clock and stop
    entry: P.State,             // history variables: the player as the last local item came on,
    script: seq<P.Label>,       //   its steps since,
    taken: seq<Id>,             //   the items ended by the skip flag,
    fell: seq<Id>)              //   and those ended with no skip, seek or pause found

  datatype Label = Outer(o: R.Label) | Inner(i: P.Label)

  ghost predicate Valid(u: Setup) { 0 < u.bps }

  /** The local item being played, or about to be announced as over. */
  predicate Local(u: Setup, s: Station) {
    (s.run.pc.Playing? || s.run.pc.Stopping?) && !u.tracks(s.run.pc.id).live
  }

  function Cfg(u: Setup, s: Station): P.Config {
    P.Config(if Local(u, s) then u.tracks(s.run.pc.id).song else [], u.silence, u.bps)
  }

  /** SetCurrent, and playLocalItem's entry. */
  function PutOn(u: Setup, id: Id, p: P.State): P.State {
    var t := u.tracks(id);
    var q := p.(ctrl := NewTrack(p.ctrl, Some(Item(t.live, t.duration)), p.now));
    if t.live then q else q.(pc := P.Opening(P.Song), offset := 0, sent := 0)
  }

  predicate Takes(s: Station, i: P.Label) {
    s.run.pc.Playing? && i.Player? && (s.player.pc.AskSkip? || s.player.pc.HoldSkip?) && s.player.ctrl.skip
  }

  predicate Falls(s: Station, i: P.Label) {
    s.run.pc.Playing? && i.Player? && s.player.pc.AskPaused? && !s.player.ctrl.paused
  }

  /** A step of the outer loop; while a local item plays, it waits for playLocalItem to return. */
  function OuterStep(u: Setup, s: Station, early: bool, completed: bool, low: bool): Station {
    var s' := s.(run := R.Step(s.run, R.Player(early, completed, low)));
    match s.run.pc
    case Starting(id) =>
      var p := PutOn(u, id, s.player);
      if u.tracks(id).live then s'.(player := p) else s'.(player := p, entry := p, script := [])
    case Playing(id) =>
      if u.tracks(id).live then s'
      else if s.player.pc.Finished? then s.(run := R.Step(s.run, R.Player(early, s.player.pc.completed, low)))
      else s
    case Stopping(_, _) => s'.(player := s.player.(ctrl := NewTrack(s.player.ctrl, None, s.player.now)))
    case _ => s'
  }

  function InnerStep(u: Setup, s: Station, i: P.Label): Station
    requires Valid(u)
  {
    s.(player := P.Step(Cfg(u, s), s.player, i), script := s.script + [i],
       taken := if Takes(s, i) then s.taken + [s.run.pc.id] else s.taken,
       fell := if Falls(s, i) then s.fell + [s.run.pc.id] else s.fell)
  }

  function Step(u: Setup, s: Station, l: Label): Station
    requires Valid(u)
  {
    match l
    case Inner(i) => if i.Stop? then s else InnerStep(u, s, i)
    case Outer(Player(early, completed, low)) => OuterStep(u, s, early, completed, low)
    case Outer(Stop) => InnerStep(u, s, P.Stop).(run := R.Step(s.run, R.Stop))
    case Outer(o) => s.(run := R.Step(s.run, o))
  }

  function Run(u: Setup, s: Station, ls: seq<Label>): Station
    requires Valid(u)
  {
    if ls == [] then s else Step(u, Run(u, s, ls[..|ls| - 1]), ls[|ls| - 1])
  }

  lemma RunSnoc(u: Setup, s: Station, ls: seq<Label>, l: Label)
    requires Valid(u)
    ensures Run(u, s, ls + [l]) == Step(u, Run(u, s, ls), l)
  {
    hide Step;
    assert (ls + [l])[..|ls + [l]| - 1] == ls;
  }

  lemma {:induction false} RunConcat(u: Setup, s: Station, a: seq<Label>, b: seq<Label>)
    requires Valid(u)
    ensures Run(u, s, a + b) == Run(u, Run(u, s, a), b)
  {
    hide Step;
    if b == [] {
      assert a + b == a;
    } else {
      var b' := b[..|b| - 1];
      RunConcat(u, s, a, b');
      assert (a + b)[..|a + b| - 1] == a + b';
    }
  }

  /** A station just registered. */
  ghost predicate Fresh(s: Station) {
    && R.Fresh(s.run) && P.Sane(s.player) && s.player.pc.Finished? && s.player.stopped == s.run.stopped
    && s.player.ctrl.current == None && !s.player.ctrl.skip && s.taken == [] && s.fell == []
  }

  // ---- Both systems at once ----

  /** The outer loop's step within a step of the station, if it takes one. */
  function OuterPart(u: Setup, s: Station, l: Label): seq<R.Label> {
    match l
    case Inner(_) => []
    case Outer(Player(early, completed, low)) =>
      if s.run.pc.Playing? && Local(u, s) then
        if s.player.pc.Finished? then [R.Player(early, s.player.pc.completed, low)] else []
      else [l.o]
    case Outer(o) => [o]
  }

  function Outers(u: Setup, s: Station, ls: seq<Label>): seq<R.Label>
    requires Valid(u)
  {
    if ls == [] then []
    else Outers(u, s, ls[..|ls| - 1]) + OuterPart(u, Run(u, s, ls[..|ls| - 1]), ls[|ls| - 1])
  }

  lemma OuterPartStep(u: Setup, s: Station, l: Label)
    requires Valid(u)
    ensures var o := OuterPart(u, s, l);
            && |o| <= 1
            && Step(u, s, l).run == if o == [] then s.run else R.Step(s.run, o[0])
  {
    hide R.Step, P.Step;
  }

  /** The outer loop of a station makes a run of its own system, whatever happens inside the items:
      all that holds of those runs, from the grammar of the events to the ledger of the items,
      holds of the station. */
  lemma {:induction false} RunsTheLoop(u: Setup, s: Station, ls: seq<Label>)
    requires Valid(u)
    ensures Run(u, s, ls).run == R.Run(s.run, Outers(u, s, ls))
  {
    if ls != [] {
      var before, l := ls[..|ls| - 1], ls[|ls| - 1];
      RunsTheLoop(u, s, before);
      var s1, outers := Run(u, s, before), Outers(u, s, before);
      OuterPartStep(u, s1, l);
      var o := OuterPart(u, s1, l);
      if o == [] {
        assert outers + o == outers;
      } else {
        assert (outers + o)[..|outers + o| - 1] == outers;
      }
    }
    hide Step, R.Step;
  }

  /** A local item on the air is a run of the player from its entry; the current item is the one on
      the air; and between items the player is at rest. */
  ghost predicate Inv(u: Setup, s: Station)
    requires Valid(u)
  {
    && P.Sane(s.player)
    && s.player.stopped == s.run.stopped
    && (Local(u, s) ==>
          P.Entry(s.entry) && s.entry.ctrl.seek.None?
          && s.entry.ctrl.current == Some(Item(false, u.tracks(s.run.pc.id).duration)))
    && (Local(u, s) ==> s.player == P.Run(Cfg(u, s), s.entry, s.script))
    && (Local(u, s) && s.run.pc.Stopping? ==> s.player.pc == P.Finished(s.run.pc.completed))
    && (!Local(u, s) ==> s.player.pc.Finished?)
    && s.player.ctrl.current == (
         if s.run.pc.Playing? || s.run.pc.Stopping? then
           Some(Item(u.tracks(s.run.pc.id).live, u.tracks(s.run.pc.id).duration))
         else None)
  }

  lemma InnerInv(u: Setup, s: Station, i: P.Label)
    requires Valid(u) && Inv(u, s) && !i.Stop?
    ensures Inv(u, InnerStep(u, s, i))
  {
    P.SaneStep(Cfg(u, s), s.player, i);
    KeepsItem(Cfg(u, s), s.player, i);
    P.RunSnoc(Cfg(u, s), s.entry, s.script, i);
    hide P.Step, P.Run, P.Sane, P.Entry;
  }

  /** No step of the player or of a call changes the current item, or wakes a player at rest. */
  lemma KeepsItem(cfg: P.Config, p: P.State, i: P.Label)
    requires P.Valid(cfg)
    ensures P.Step(cfg, p, i).ctrl.current == p.ctrl.current
    ensures p.pc.Finished? ==> P.Step(cfg, p, i).pc == p.pc
    ensures P.Step(cfg, p, i).stopped == (p.stopped || i.Stop?)
  {
    if i.Player? {
      PlayerKeeps(cfg, p, i.n, i.end, i.ok);
    }
    hide P.PlayerStep;
  }

  lemma PlayerKeeps(cfg: P.Config, p: P.State, n: nat, end: P.End, ok: bool)
    requires P.Valid(cfg)
    ensures var p' := P.PlayerStep(cfg, p, n, end, ok);
            p'.ctrl.current == p.ctrl.current && p'.stopped == p.stopped && (p.pc.Finished? ==> p' == p)
  {
    hide P.Due, P.IsDue, P.ReadCount, P.ReadEnd;
    match p.pc
    case AskSkip =>
    case HoldSkip =>
    case _ =>
  }

  lemma StopInv(u: Setup, s: Station)
    requires Valid(u) && Inv(u, s)
    ensures Inv(u, Step(u, s, Outer(R.Stop)))
  {
    P.SaneStep(Cfg(u, s), s.player, P.Stop);
    P.RunSnoc(Cfg(u, s), s.entry, s.script, P.Stop);
    hide P.Run, P.Sane, P.Entry;
  }

  /** Where the outer loop goes, as far as the item on the air is concerned. */
  lemma NextPc(r: R.State, early: bool, completed: bool, low: bool)
    ensures var r' := R.Step(r, R.Player(early, completed, low));
            && r'.stopped == r.stopped
            && (r.pc.Starting? ==> r'.pc == R.Playing(r.pc.id))
            && (r.pc.Playing? ==> r'.pc == R.Stopping(r.pc.id, completed))
            && (!r.pc.Starting? && !r.pc.Playing? ==> !r'.pc.Playing? && !r'.pc.Stopping?)
  {
    hide R.LastN, R.IsBroken, R.News;
    match r.pc
    case Starting(_) =>
    case Playing(_) =>
    case _ =>
  }

  lemma BeginInv(u: Setup, s: Station, early: bool, completed: bool, low: bool)
    requires Valid(u) && Inv(u, s) && s.run.pc.Starting?
    ensures Inv(u, OuterStep(u, s, early, completed, low))
  {
    NextPc(s.run, early, completed, low);
    var id := s.run.pc.id;
    var cfg := P.Config(u.tracks(id).song, u.silence, u.bps);
    assert P.Run(cfg, PutOn(u, id, s.player), []) == PutOn(u, id, s.player);
    hide R.Step, P.Run;
  }

  lemma OuterInv(u: Setup, s: Station, early: bool, completed: bool, low: bool)
    requires Valid(u) && Inv(u, s)
    ensures Inv(u, OuterStep(u, s, early, completed, low))
  {
    if s.run.pc.Starting? {
      BeginInv(u, s, early, completed, low);
    } else {
      NextPc(s.run, early, completed, low);
      NextPc(s.run, early, s.player.pc.Finished? && s.player.pc.completed, low);
      hide R.Step, P.Run, P.Entry;
      match s.run.pc
      case Playing(_) => hide P.Sane;
      case Stopping(_, _) =>
      case _ => hide P.Sane;
    }
  }

  lemma QueueInv(u: Setup, s: Station, o: R.Label)
    requires Valid(u) && Inv(u, s) && !o.Player? && !o.Stop?
    ensures Inv(u, Step(u, s, Outer(o)))
  {
    assert R.Step(s.run, o).pc == s.run.pc && R.Step(s.run, o).stopped == s.run.stopped;
    hide R.Step, P.Run, P.Sane, P.Entry;
  }

  lemma InvStep(u: Setup, s: Station, l: Label)
    requires Valid(u) && Inv(u, s)
    ensures Inv(u, Step(u, s, l))
  {
    match l
    case Inner(i) => if !i.Stop? { InnerInv(u, s, i); }
    case Outer(Player(early, completed, low)) => OuterInv(u, s, early, completed, low);
    case Outer(Stop) => StopInv(u, s);
    case Outer(o) => QueueInv(u, s, o);
  }

  lemma {:induction false} InvRun(u: Setup, s: Station, ls: seq<Label>)
    requires Valid(u) && Fresh(s)
    ensures Inv(u, Run(u, s, ls))
  {
    if ls != [] {
      InvRun(u, s, ls[..|ls| - 1]);
      InvStep(u, Run(u, s, ls[..|ls| - 1]), ls[|ls| - 1]);
    }
    hide Step;
  }

  /** Every TRACK_ENDED of a local item tells the truth: as it is about to be published, the item's
      run is one of the player's, its bytes are conserved, "completed" means that it was heard to
      its end, and without seeks that all of it was heard, once and in order. */
  lemma TrackEndTellsTheTruth(u: Setup, s: Station, ls: seq<Label>)
    requires Valid(u) && Fresh(s)
    requires var s' := Run(u, s, ls); s'.run.pc.Stopping? && Local(u, s')
    ensures var s' := Run(u, s, ls);
            var song, log := u.tracks(s'.run.pc.id).song, P.Log(Cfg(u, s'), s'.entry, s'.script);
            && P.Entry(s'.entry)
            && P.Run(Cfg(u, s'), s'.entry, s'.script).pc == P.Finished(s'.run.pc.completed)
            && TapeOk(song, log)
            && (s'.run.pc.completed ==> Head(log) >= |song|)
            && ((forall i <- s'.script :: !Seeks(i)) ==>
                  Audio(log) <= song && (s'.run.pc.completed ==> Audio(log) == song))
            && (u.tracks(s'.run.pc.id).duration == DurationSeconds(|song|, u.bps) > 0 ==>
                  JumpsInside(song, log) && 0 <= Head(log) <= |song|)
  {
    InvRun(u, s, ls);
    hide Run;
    var s' := Run(u, s, ls);
    BytesConserved(Cfg(u, s'), s'.entry, s'.script);
    if forall i <- s'.script :: !Seeks(i) {
      PausingLosesNothing(Cfg(u, s'), s'.entry, s'.script);
    }
    var duration := u.tracks(s'.run.pc.id).duration;
    if duration == DurationSeconds(|Cfg(u, s').song|, u.bps) > 0 {
      SeeksInside(Cfg(u, s'), duration, s'.entry, s'.script);
      HeadInside(Cfg(u, s').song, P.Log(Cfg(u, s'), s'.entry, s'.script));
    }
    hide P.Run, P.Log, TapeOk, Audio, Head;
  }

  // ---- One Interrupt, one flag ----

  predicate Interrupts(l: Label) {
    l.Inner? && (l.i.Call? || l.i.Lock?) && l.i.op.Interrupt?
  }

  function InterruptCount(ls: seq<Label>): nat {
    if ls == [] then 0 else InterruptCount(ls[..|ls| - 1]) + if Interrupts(ls[|ls| - 1]) then 1 else 0
  }

  function FlagUp(s: Station): nat { if s.player.ctrl.skip then 1 else 0 }

  lemma FlagOfPlayer(cfg: P.Config, p: P.State, i: P.Label)
    requires P.Valid(cfg)
    ensures var p' := P.Step(cfg, p, i);
            && (i.Player? ==> p'.ctrl.skip == (p.ctrl.skip && !p.pc.AskSkip? && !p.pc.HoldSkip?))
            && (!i.Player? ==> p'.ctrl.skip == (p.ctrl.skip || Interrupts(Inner(i))))
  {
    hide P.Due, P.IsDue, P.ReadCount, P.ReadEnd;
  }

  lemma FlagStep(u: Setup, s: Station, l: Label)
    requires Valid(u)
    requires !s.run.pc.Playing? ==> s.player.pc.Finished?
    ensures var s' := Step(u, s, l);
            |s'.taken| + FlagUp(s') <= |s.taken| + FlagUp(s) + if Interrupts(l) then 1 else 0
    ensures !Interrupts(l) && |Step(u, s, l).taken| == |s.taken| ==> FlagUp(Step(u, s, l)) == FlagUp(s)
  {
    match l
    case Inner(i) => FlagInner(u, s, i);
    case Outer(Stop) => FlagInner(u, s, P.Stop);
    case Outer(Player(early, completed, low)) => FlagOuter(u, s, early, completed, low);
    case Outer(_) =>
    hide InnerStep, OuterStep, R.Step;
  }

  lemma FlagInner(u: Setup, s: Station, i: P.Label)
    requires Valid(u)
    requires !s.run.pc.Playing? ==> s.player.pc.Finished?
    ensures var s' := InnerStep(u, s, i);
            && |s'.taken| + FlagUp(s') <= |s.taken| + FlagUp(s) + (if Interrupts(Inner(i)) then 1 else 0)
            && (!Interrupts(Inner(i)) && |s'.taken| == |s.taken| ==> FlagUp(s') == FlagUp(s))
  {
    FlagOfPlayer(Cfg(u, s), s.player, i);
    hide P.Step;
  }

  lemma FlagOuter(u: Setup, s: Station, early: bool, completed: bool, low: bool)
    ensures var s' := OuterStep(u, s, early, completed, low);
            s'.taken == s.taken && FlagUp(s') == FlagUp(s)
  {
    hide R.Step;
  }

  /** Each flag is taken by at most one item: the items that took one, and the flag itself if it is
      up, are never more than the Interrupts made.  A flag that nobody took stays up, across any
      number of items. */
  lemma {:induction false} OneFlagEach(u: Setup, s: Station, ls: seq<Label>)
    requires Valid(u) && Fresh(s)
    ensures var s' := Run(u, s, ls);
            && |s'.taken| + FlagUp(s') <= InterruptCount(ls)
            && (ls != [] && !Interrupts(ls[|ls| - 1]) && |s'.taken| == |Run(u, s, ls[..|ls| - 1]).taken| ==>
                  FlagUp(s') == FlagUp(Run(u, s, ls[..|ls| - 1])))
  {
    if ls != [] {
      var before := ls[..|ls| - 1];
      OneFlagEach(u, s, before);
      InvRun(u, s, before);
      AtRest(u, Run(u, s, before));
      FlagStep(u, Run(u, s, before), ls[|ls| - 1]);
    }
    hide Step, Inv, Interrupts, FlagUp;
  }

  lemma AtRest(u: Setup, s: Station)
    requires Valid(u) && Inv(u, s)
    ensures !s.run.pc.Playing? ==> s.player.pc.Finished?
  {
  }

  // ---- Why an item was interrupted ----

  lemma WhyFinished(cfg: P.Config, p: P.State, i: P.Label)
    requires P.Valid(cfg) && p.pc != P.Finished(false) && P.Step(cfg, p, i).pc == P.Finished(false)
    ensures i.Player?
    ensures p.stopped || ((p.pc.AskSkip? || p.pc.HoldSkip?) && p.ctrl.skip) || (p.pc.AskPaused? && !p.ctrl.paused)
  {
    hide P.Due, P.IsDue, P.ReadCount, P.ReadEnd;
  }

  predicate Accounted(s: Station, id: Id) {
    s.run.stopped || id in s.taken || id in s.fell
  }

  /** Each local item interrupted so far, announced or not. */
  ghost predicate WhyInv(u: Setup, s: Station) {
    && (Local(u, s) && s.player.pc == P.Finished(false) ==> Accounted(s, s.run.pc.id))
    && forall id :: R.Ended(id, false) in s.run.events && !u.tracks(id).live ==> Accounted(s, id)
  }

  lemma WhyInner(u: Setup, s: Station, i: P.Label)
    requires Valid(u) && Inv(u, s) && WhyInv(u, s)
    ensures WhyInv(u, InnerStep(u, s, i))
  {
    var p' := P.Step(Cfg(u, s), s.player, i);
    if Local(u, s) && p'.pc == P.Finished(false) && s.player.pc != P.Finished(false) {
      WhyFinished(Cfg(u, s), s.player, i);
      assert s.run.pc.Playing? by {
        if s.run.pc.Stopping? { KeepsItem(Cfg(u, s), s.player, i); }
      }
    }
    hide P.Step, P.Run, P.Entry, P.Sane;
  }

  /** A track's end is published as the loop announces it, and not otherwise. */
  lemma NewEnds(r: R.State, early: bool, completed: bool, low: bool, id: Id, c: bool)
    requires var r' := R.Step(r, R.Player(early, completed, low));
             R.Ended(id, c) in r'.events && R.Ended(id, c) !in r.events
    ensures r.pc == R.Stopping(id, c)
  {
    var r' := R.Step(r, R.Player(early, completed, low));
    assert r'.events == r.events + R.News(r, low);
    assert R.Ended(id, c) in R.News(r, low);
    hide R.Step, R.IsBroken;
  }

  lemma WhyOuter(u: Setup, s: Station, early: bool, completed: bool, low: bool)
    requires Valid(u) && Inv(u, s) && WhyInv(u, s)
    ensures WhyInv(u, OuterStep(u, s, early, completed, low))
  {
    var s' := OuterStep(u, s, early, completed, low);
    NextPc(s.run, early, completed, low);
    NextPc(s.run, early, s.player.pc.Finished? && s.player.pc.completed, low);
    forall id | R.Ended(id, false) in s'.run.events && !u.tracks(id).live ensures Accounted(s', id) {
      if R.Ended(id, false) !in s.run.events {
        if s.run.pc.Playing? && !u.tracks(s.run.pc.id).live {
          NewEnds(s.run, early, s.player.pc.completed, low, id, false);
        } else {
          NewEnds(s.run, early, completed, low, id, false);
        }
      }
    }
    hide R.Step, P.Run, P.Entry, P.Sane;
  }

  lemma WhyQueue(u: Setup, s: Station, o: R.Label)
    requires Valid(u) && WhyInv(u, s) && !o.Player?
    ensures WhyInv(u, s.(run := R.Step(s.run, o)))
  {
    var r' := R.Step(s.run, o);
    assert r'.pc == s.run.pc && r'.events == s.run.events && (s.run.stopped ==> r'.stopped);
    hide R.Step;
  }

  lemma WhyStep(u: Setup, s: Station, l: Label)
    requires Valid(u) && Inv(u, s) && WhyInv(u, s)
    ensures WhyInv(u, Step(u, s, l))
  {
    match l
    case Inner(i) => if !i.Stop? { WhyInner(u, s, i); }
    case Outer(Player(early, completed, low)) => WhyOuter(u, s, early, completed, low);
    case Outer(Stop) =>
      WhyInner(u, s, P.Stop);
      WhyQueue(u, InnerStep(u, s, P.Stop), R.Stop);
    case Outer(o) => WhyQueue(u, s, o);
    hide WhyInv, InnerStep, OuterStep, R.Step;
  }

  lemma {:induction false} WhyRun(u: Setup, s: Station, ls: seq<Label>)
    requires Valid(u) && Fresh(s)
    ensures WhyInv(u, Run(u, s, ls))
  {
    if ls != [] {
      WhyRun(u, s, ls[..|ls| - 1]);
      InvRun(u, s, ls[..|ls| - 1]);
      WhyStep(u, Run(u, s, ls[..|ls| - 1]), ls[|ls| - 1]);
    }
    hide Step, Inv;
  }

  /** While the station is not stopped, every local item announced as interrupted either took a skip,
      or was cut with no skip, seek or pause to be found: no other ending exists. */
  lemma WhyInterrupted(u: Setup, s: Station, ls: seq<Label>, id: Id)
    requires Valid(u) && Fresh(s) && !u.tracks(id).live && !Run(u, s, ls).run.stopped
    requires R.Ended(id, false) in Run(u, s, ls).run.events
    ensures id in Run(u, s, ls).taken || id in Run(u, s, ls).fell
  {
    WhyRun(u, s, ls);
    hide Run;
  }

  // ---- A flag left over from before ----

  /** An item that came on with the flag up: in its first stream, or on its way to the skip. */
  predicate Straight(p: P.State) {
    p.pc.Finished? || (p.ctrl.skip && (p.pc == P.Opening(P.Song) || InSong(p.pc) || p.pc.AskStop? || p.pc.AskSkip?))
  }

  predicate OnlySound(es: seq<P.Out>) {
    forall e <- es :: e.Sound?
  }

  lemma StraightStep(cfg: P.Config, p: P.State, i: P.Label)
    requires P.Valid(cfg) && Straight(p)
    ensures Straight(P.Step(cfg, p, i)) && OnlySound(P.Output(cfg, p, i))
  {
    hide P.Due, P.IsDue, P.ReadEnd;
  }

  lemma {:induction false} StraightRun(cfg: P.Config, p: P.State, ls: seq<P.Label>)
    requires P.Valid(cfg) && Straight(p)
    ensures Straight(P.Run(cfg, p, ls)) && OnlySound(P.Log(cfg, p, ls))
  {
    if ls != [] {
      StraightRun(cfg, p, ls[..|ls| - 1]);
      StraightStep(cfg, P.Run(cfg, p, ls[..|ls| - 1]), ls[|ls| - 1]);
    }
    hide P.Step, P.Output, Straight;
  }

  lemma SoundNoJump(es: seq<P.Out>)
    requires OnlySound(es)
    ensures NoJump(es)
  {
    forall k | 0 <= k < |es| ensures !es[k].Jump? { assert es[k] in es; }
  }

  /** An item that comes on with the flag still up plays straight from its start: whatever Pauses and
      Seeks are made, none takes effect, and nothing but a prefix of the file is heard, all of it if
      the item completes; the first time its stream is cut, it is over. */
  lemma LeftoverSkip(cfg: P.Config, p: P.State, ls: seq<P.Label>)
    requires P.Valid(cfg) && P.Entry(p) && p.ctrl.skip
    ensures Straight(P.Run(cfg, p, ls)) && OnlySound(P.Log(cfg, p, ls))
    ensures Audio(P.Log(cfg, p, ls)) <= cfg.song
    ensures P.Run(cfg, p, ls).pc == P.Finished(true) ==> Audio(P.Log(cfg, p, ls)) == cfg.song
  {
    var log := P.Log(cfg, p, ls);
    StraightRun(cfg, p, ls);
    BytesConserved(cfg, p, ls);
    SoundNoJump(log);
    assert log[0..] == log && log[..0] == [];
    hide P.Run, P.Log, TapeOk, OnlySound, NoJump, Straight;
    Contiguous(cfg.song, log, 0);
    assert Audio(log[..0]) == [] && Head(log[..0]) == 0;
    hide Audio, Head;
    assert Audio(log) == cfg.song[0..Head(log)];
  }

  // ---- A cancellation that comes late ----

  /** The item is bound to end as interrupted, or has: not more than n outputs of it in all. */
  ghost predicate EndsInterrupted(u: Setup, s: Station, id: Id, n: nat)
    requires Valid(u)
  {
    || R.Ended(id, false) in s.run.events
    || (s.run.pc == R.Stopping(id, false) && |P.Log(Cfg(u, s), s.entry, s.script)| <= n)
    || (s.run.pc == R.Playing(id) && Doomed(s.player) && !Completing(s.player.pc)
        && |P.Log(Cfg(u, s), s.entry, s.script)| + ChunksLeft(s.player.pc) <= n)
  }

  lemma EndsInner(u: Setup, s: Station, i: P.Label, id: Id, n: nat)
    requires Valid(u) && Inv(u, s) && EndsInterrupted(u, s, id, n) && !u.tracks(id).live
    ensures EndsInterrupted(u, InnerStep(u, s, i), id, n)
  {
    if R.Ended(id, false) !in s.run.events {
      P.RunSnoc(Cfg(u, s), s.entry, s.script, i);
      if s.run.pc.Playing? {
        DoomedStep(Cfg(u, s), s.player, i);
      } else {
        RestIsSilent(Cfg(u, s), s.player, i);
      }
    }
    hide P.Step, P.Log, P.Run, P.Sane, P.Output, Doomed, Completing;
  }

  lemma RestIsSilent(cfg: P.Config, p: P.State, i: P.Label)
    requires P.Valid(cfg) && p.pc.Finished?
    ensures P.Output(cfg, p, i) == []
  {
  }

  lemma EndsOuter(u: Setup, s: Station, early: bool, completed: bool, low: bool, id: Id, n: nat)
    requires Valid(u) && Inv(u, s) && EndsInterrupted(u, s, id, n) && !u.tracks(id).live
    ensures EndsInterrupted(u, OuterStep(u, s, early, completed, low), id, n)
  {
    NextPc(s.run, early, completed, low);
    NextPc(s.run, early, false, low);
    NextEvents(s.run, early, completed, low);
    hide R.Step, P.Log, P.Run, P.Sane, Doomed;
    if s.run.pc.Playing? && s.player.pc.Finished? {
      assert R.Ended(id, false) !in s.run.events ==> s.player.pc == P.Finished(false);
      NextEvents(s.run, early, s.player.pc.completed, low);
    }
  }

  lemma NextEvents(r: R.State, early: bool, completed: bool, low: bool)
    ensures var r' := R.Step(r, R.Player(early, completed, low));
            && (forall e <- r.events :: e in r'.events)
            && (r.pc.Stopping? ==> R.Ended(r.pc.id, r.pc.completed) in r'.events)
  {
    var r' := R.Step(r, R.Player(early, completed, low));
    assert r'.events == r.events + R.News(r, low);
    assert r.pc.Stopping? ==> R.News(r, low)[0] == R.Ended(r.pc.id, r.pc.completed);
    hide R.Step, R.News;
  }

  lemma EndsQueue(u: Setup, s: Station, o: R.Label, id: Id, n: nat)
    requires Valid(u) && EndsInterrupted(u, s, id, n) && !o.Player? && !o.Stop?
    ensures EndsInterrupted(u, Step(u, s, Outer(o)), id, n)
  {
    assert R.Step(s.run, o).pc == s.run.pc && R.Step(s.run, o).events == s.run.events;
    hide R.Step, P.Log, Doomed, Completing;
  }

  lemma EndsStep(u: Setup, s: Station, l: Label, id: Id, n: nat)
    requires Valid(u) && Inv(u, s) && EndsInterrupted(u, s, id, n) && !u.tracks(id).live
    ensures EndsInterrupted(u, Step(u, s, l), id, n)
  {
    match l
    case Inner(i) => if !i.Stop? { EndsInner(u, s, i, id, n); }
    case Outer(Player(early, completed, low)) => EndsOuter(u, s, early, completed, low, id, n);
    case Outer(Stop) =>
      EndsInner(u, s, P.Stop, id, n);
      hide P.Step, P.Log, Doomed, Completing;
    case Outer(o) => EndsQueue(u, s, o, id, n);
  }

  lemma {:induction false} EndsRun(u: Setup, s: Station, ls: seq<Label>, id: Id, n: nat)
    requires Valid(u) && Inv(u, s) && EndsInterrupted(u, s, id, n) && !u.tracks(id).live
    ensures Inv(u, Run(u, s, ls)) && EndsInterrupted(u, Run(u, s, ls), id, n)
  {
    if ls != [] {
      EndsRun(u, s, ls[..|ls| - 1], id, n);
      InvStep(u, Run(u, s, ls[..|ls| - 1]), ls[|ls| - 1]);
      EndsStep(u, Run(u, s, ls[..|ls| - 1]), ls[|ls| - 1], id, n);
    }
    hide Step, Inv, EndsInterrupted;
  }

  // An item is announced as over only once.

  lemma {:induction false} EndsOnce(es: seq<R.Event>, id: Id, c: bool)
    requires R.Ended(id, c) in es
    ensures Occurs(EndedIds(es), id) >= 1
    ensures R.Ended(id, !c) in es ==> Occurs(EndedIds(es), id) >= 2
  {
    var before, e := es[..|es| - 1], es[|es| - 1];
    assert es == before + [e];
    PublishedIds(before, e, id);
    if R.Ended(id, c) in before {
      EndsOnce(before, id, c);
    } else if R.Ended(id, !c) in before {
      EndsOnce(before, id, !c);
    }
    hide Occurs, EndedIds;
  }

  lemma NotBoth(u: Setup, s: Station, ls: seq<Label>, id: Id)
    requires Valid(u) && Fresh(s)
    ensures var r := Run(u, s, ls).run;
            && !(R.Ended(id, false) in r.events && R.Ended(id, true) in r.events)
            && ((r.pc.Playing? || r.pc.Stopping?) && r.pc.id == id ==>
                  R.Ended(id, false) !in r.events && R.Ended(id, true) !in r.events)
  {
    RunsTheLoop(u, s, ls);
    BalancedRun(s.run, Outers(u, s, ls), id);
    var r := Run(u, s, ls).run;
    hide Run, R.Run, Outers, EndedIds, StartedIds, R.Errors;
    OccursOne(id, id);
    if R.Ended(id, false) in r.events {
      EndsOnce(r.events, id, false);
    }
    if R.Ended(id, true) in r.events {
      EndsOnce(r.events, id, true);
    }
    hide Occurs;
  }

  /** An Interrupt that finds a local item's stream in flight ends that item; and with the flag up,
      whichever item it was meant for, so does the next cancellation of any local item's stream: the
      late half of the Interrupt, or any Pause or Seek.  Whatever the station does from then on, the
      item sends at most one more chunk, and is announced as interrupted if at all. */
  lemma CutEndsItem(u: Setup, s: Station, before: seq<Label>, i: P.Label, after: seq<Label>)
    requires Valid(u) && Fresh(s)
    requires var s1 := Run(u, s, before);
             && s1.run.pc.Playing? && Local(u, s1) && s1.player.inFlight && !Completing(s1.player.pc)
             && Cuts(s1.player, i) && (i == P.Call(Interrupt) || s1.player.ctrl.skip)
    ensures var s1 := Run(u, s, before);
            var s2 := Run(u, s, before + [Inner(i)] + after);
            && R.Ended(s1.run.pc.id, false) !in s1.run.events
            && EndsInterrupted(u, s2, s1.run.pc.id, |P.Log(Cfg(u, s1), s1.entry, s1.script)| + 1)
            && R.Ended(s1.run.pc.id, true) !in s2.run.events
  {
    hide Step, Run, Inv, EndsInterrupted, Cuts, Completing;
    InvRun(u, s, before);
    var s1 := Run(u, s, before);
    var id, n := s1.run.pc.id, |P.Log(Cfg(u, s1), s1.entry, s1.script)| + 1;
    InvStep(u, s1, Inner(i));
    CutBegins(u, s1, i);
    EndsRun(u, Step(u, s1, Inner(i)), after, id, n);
    RunSnoc(u, s, before, Inner(i));
    RunConcat(u, s, before + [Inner(i)], after);
    NotBoth(u, s, before, id);
    NotBoth(u, s, before + [Inner(i)] + after, id);
    EndsNotCompleted(u, Run(u, s, before + [Inner(i)] + after), id, n);
  }

  lemma CutBegins(u: Setup, s: Station, i: P.Label)
    requires Valid(u) && Inv(u, s) && s.run.pc.Playing? && Local(u, s) && s.player.inFlight && !Completing(s.player.pc)
    requires Cuts(s.player, i) && (i == P.Call(Interrupt) || s.player.ctrl.skip)
    ensures EndsInterrupted(u, Step(u, s, Inner(i)), s.run.pc.id, |P.Log(Cfg(u, s), s.entry, s.script)| + 1)
  {
    assert P.Sane(s.player) && s.player == P.Run(Cfg(u, s), s.entry, s.script);
    var s', log := Step(u, s, Inner(i)), P.Log(Cfg(u, s), s.entry, s.script);
    hide Inv, P.Step, P.Run, P.Log, P.Output, P.Sane, Doomed, Completing, ChunksLeft;
    CutDooms(Cfg(u, s), s.player, i);
    P.RunSnoc(Cfg(u, s), s.entry, s.script, i);
    assert s'.run == s.run && s'.entry == s.entry && s'.script == s.script + [i] && Cfg(u, s') == Cfg(u, s);
    assert s'.player == P.Step(Cfg(u, s), s.player, i) && s.run.pc == R.Playing(s.run.pc.id);
    hide Step, Cfg;
    assert log + [] == log;
  }

  lemma EndsNotCompleted(u: Setup, s: Station, id: Id, n: nat)
    requires Valid(u) && EndsInterrupted(u, s, id, n)
    requires !(R.Ended(id, false) in s.run.events && R.Ended(id, true) in s.run.events)
    requires (s.run.pc.Playing? || s.run.pc.Stopping?) && s.run.pc.id == id ==> R.Ended(id, true) !in s.run.events
    ensures R.Ended(id, true) !in s.run.events
  {
  }

  lemma CutDooms(cfg: P.Config, p: P.State, i: P.Label)
    requires P.Valid(cfg) && P.Sane(p) && p.inFlight && Cuts(p, i) && !Completing(p.pc) && (i == P.Call(Interrupt) || p.ctrl.skip)
    ensures var p' := P.Step(cfg, p, i);
            Doomed(p') && !Completing(p'.pc) && P.Output(cfg, p, i) == [] && ChunksLeft(p'.pc) <= 1
  {
    hide P.PlayerStep;
  }
}
