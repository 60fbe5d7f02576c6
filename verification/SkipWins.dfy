/** When a skip wins.  Interrupt shares one cancellation signal with Pause and Seek, and sets its
    flag in one step and cancels the stream in another; this module says from which states each
    half ends the item, how fast, and where it can be lost. */
module SkipWins {
  import opened Control
  import opened Player
  import opened Conservation

  /** The skip is set and the player is certain to look at it before anything else. */
  predicate Doomed(s: State) {
    || s.pc.Finished?
    || (s.ctrl.skip && (s.pc.AskStop? || s.pc.AskSkip? || s.pc.HoldSkip? || s.pc.Closing?))
    || (s.ctrl.skip && Streaming(s.pc) && s.cancelled)
  }

  /** Player steps left until a doomed item is over. */
  function Rank(pc: Pc): nat {
    match pc
    case Finished(_) => 0
    case AskSkip => 1
    case HoldSkip => 1
    case AskStop => 2
    case Closing(_, _) => 3
    case Checking(_, _) => 4
    case Pacing(_, _) => 5
    case Reading(_) => 6
    case Ending(_, _) => 7
    case PollSeek(_) => 8
    case _ => 9
  }

  /** Chunks a doomed item may still send. */
  function ChunksLeft(pc: Pc): nat {
    if Rank(pc) >= 6 then 1 else 0
  }

  function PlayerSteps(ls: seq<Label>): nat {
    if ls == [] then 0 else PlayerSteps(ls[..|ls| - 1]) + if ls[|ls| - 1].Player? then 1 else 0
  }

  /** The end of the file was already acted on: the item is completing, skip or no skip. */
  predicate Completing(pc: Pc) {
    pc == Ending(Song, Eof) || pc == Closing(Song, true) || pc == Finished(true)
  }

  lemma DoomedStep(cfg: Config, s: State, l: Label)
    requires Valid(cfg) && Sane(s) && Doomed(s)
    ensures var s' := Step(cfg, s, l);
            && Doomed(s')
            && |Output(cfg, s, l)| + ChunksLeft(s'.pc) <= ChunksLeft(s.pc)
            && Rank(s'.pc) <= Rank(s.pc)
            && (l.Player? && !s.pc.Finished? ==> Rank(s'.pc) < Rank(s.pc))
            && (!Completing(s.pc) ==> !Completing(s'.pc))
  {
    hide Due, TakeSeek;
  }

  lemma {:induction false} DoomedRun(cfg: Config, s: State, ls: seq<Label>)
    requires Valid(cfg) && Sane(s) && Doomed(s)
    ensures var s' := Run(cfg, s, ls);
            && Doomed(s')
            && |Log(cfg, s, ls)| + ChunksLeft(s'.pc) <= ChunksLeft(s.pc)
            && (s'.pc.Finished? || Rank(s'.pc) + PlayerSteps(ls) <= Rank(s.pc))
            && (!Completing(s.pc) ==> !Completing(s'.pc))
  {
    if ls != [] {
      DoomedRun(cfg, s, ls[..|ls| - 1]);
      SaneRun(cfg, s, ls[..|ls| - 1]);
      DoomedStep(cfg, Run(cfg, s, ls[..|ls| - 1]), ls[|ls| - 1]);
    }
    hide Step, Output, Doomed, Completing;
  }

  /** The step cancels the stream in flight: a whole call that does so, or the late half of one. */
  predicate Cuts(s: State, l: Label) {
    l.Cancel? || (l.Call? && Cancels(s.ctrl, l.op))
  }

  /** A stream of the item in flight, be it the file or the silence of a pause, that is cut by an
      Interrupt, or by anything at all while a skip is pending (the late half of an Interrupt, or a
      Pause or a Seek), ends the item within nine steps of the player and at most one more chunk,
      whatever calls follow; and as interrupted, unless the end of the file had been acted on. */
  lemma SkipWins(cfg: Config, s: State, l: Label, ls: seq<Label>)
    requires Valid(cfg) && Sane(s) && s.inFlight && Cuts(s, l) && (l == Call(Interrupt) || s.ctrl.skip)
    ensures var s1 := Step(cfg, s, l);
            var s2 := Run(cfg, s1, ls);
            && |Log(cfg, s1, ls)| <= 1
            && (PlayerSteps(ls) >= 9 ==> s2.pc.Finished?)
            && (!Completing(s.pc) ==> s2.pc != Finished(true))
  {
    SaneStep(cfg, s, l);
    assert Doomed(Step(cfg, s, l)) && Step(cfg, s, l).pc == s.pc;
    hide Step, Run, Log, Completing, Sane;
    DoomedRun(cfg, Step(cfg, s, l), ls);
  }

  // ---- Which items can still complete ----

  /** The last read of the stream failed. */
  predicate Failing(pc: Pc) {
    (pc.Pacing? || pc.Checking? || pc.Ending?) && pc.end.Failed?
  }

  /** The stream of the file is sure to return before its end. */
  predicate Cut(s: State) {
    s.pc == Closing(Song, false) || (InSong(s.pc) && !Completing(s.pc) && (s.cancelled || Failing(s.pc)))
  }

  /** The player is sure to look at the skip before it gets to the end of the file. */
  predicate WillLook(s: State) {
    || Cut(s) || s.pc.AskStop? || s.pc.AskSkip? || s.pc.HoldSkip? || s.pc.HoldStop? || (s.pc.Opening? && s.pc.clip.Hold?)
    || (Streaming(s.pc) && !InSong(s.pc))
  }

  /** Program points with no stream of the file in flight, past the last look at the skip. */
  predicate Gap(pc: Pc) {
    (pc.Opening? && pc.clip.Song?) || pc.AskSeek? || pc.AskPaused? || pc.HoldTest? || pc.HoldSeek? || pc.HoldLeft?
  }

  /** The item is over, or is sure to end as interrupted. */
  predicate Stuck(s: State) {
    s.pc == Finished(false) || (s.stopped && !Completing(s.pc)) || (s.ctrl.skip && WillLook(s))
  }

  lemma StuckStep(cfg: Config, s: State, l: Label)
    requires Valid(cfg) && Sane(s) && Stuck(s)
    ensures Stuck(Step(cfg, s, l))
  {
    hide Due;
  }

  lemma {:induction false} StuckRun(cfg: Config, s: State, ls: seq<Label>)
    requires Valid(cfg) && Sane(s) && Stuck(s)
    ensures Stuck(Run(cfg, s, ls))
  {
    if ls != [] {
      StuckRun(cfg, s, ls[..|ls| - 1]);
      SaneRun(cfg, s, ls[..|ls| - 1]);
      StuckStep(cfg, Run(cfg, s, ls[..|ls| - 1]), ls[|ls| - 1]);
    }
    hide Step, Stuck;
  }

  // ---- When the ending is decided ----

  /** Player steps left once the station is being stopped. */
  function StopRank(pc: Pc): nat {
    match pc
    case Finished(_) => 0
    case HoldLeft => 1
    case AskStop => 1
    case HoldStop => 2
    case HoldTest => 3
    case HoldSeek => 4
    case AskPaused => 4
    case HoldSkip => 5
    case Closing(_, _) => 6
    case Checking(_, _) => 7
    case Pacing(_, _) => 8
    case Reading(_) => 9
    case Ending(_, _) => 10
    case Opening(_) => 10
    case PollSeek(_) => 11
    case AskSeek => 11
    case PollPaused(_) => 12
    case AskSkip => 12
  }

  lemma StoppingStep(cfg: Config, s: State)
    requires Valid(cfg) && s.stopped && !Completing(s.pc) && !s.pc.Finished?
    ensures var s' := Step(cfg, s, Player(0, More, false));
            s'.stopped && !Completing(s'.pc) && StopRank(s'.pc) < StopRank(s.pc)
  {
    hide Due;
  }

  lemma {:induction false} StopsSoon(cfg: Config, s: State) returns (ls: seq<Label>)
    requires Valid(cfg) && s.stopped && !Completing(s.pc)
    ensures Run(cfg, s, ls).pc == Finished(false)
    decreases StopRank(s.pc)
  {
    if s.pc.Finished? {
      ls := [];
    } else {
      var go := Player(0, More, false);
      StoppingStep(cfg, s);
      RunSnoc(cfg, s, [], go);
      assert Run(cfg, s, []) == s && [] + [go] == [go];
      hide Run, Step, Log;
      var rest := StopsSoon(cfg, Step(cfg, s, go));
      RunConcat(cfg, s, [go], rest);
      ls := [go] + rest;
    }
  }

  lemma {:induction false} CompletingRun(cfg: Config, s: State, ls: seq<Label>)
    requires Valid(cfg) && Completing(s.pc)
    ensures Completing(Run(cfg, s, ls).pc)
  {
    if ls != [] {
      CompletingRun(cfg, s, ls[..|ls| - 1]);
      hide Due, TakeSeek;
    }
  }

  /** How much was heard does not decide how an item ends: it can still end as interrupted exactly
      until the player acts on the end of the file. */
  lemma InterruptibleIff(cfg: Config, s: State)
    requires Valid(cfg)
    ensures (exists ls :: Run(cfg, s, ls).pc == Finished(false)) <==> !Completing(s.pc)
  {
    if Completing(s.pc) {
      forall ls ensures Run(cfg, s, ls).pc != Finished(false) {
        CompletingRun(cfg, s, ls);
      }
    } else {
      RunSnoc(cfg, s, [], Stop);
      assert Run(cfg, s, []) == s && [] + [Label.Stop] == [Label.Stop];
      var rest := StopsSoon(cfg, Step(cfg, s, Stop));
      hide Run, Log, Step;
      RunConcat(cfg, s, [Label.Stop], rest);
    }
  }

  lemma {:induction false} AudioConcat(a: seq<Out>, b: seq<Out>)
    ensures Audio(a + b) == Audio(a) + Audio(b)
  {
    if b == [] {
      assert a + b == a;
    } else {
      var before, x := b[..|b| - 1], if b[|b| - 1].Sound? then b[|b| - 1].bytes else [];
      AudioConcat(a, before);
      assert (a + b)[..|a + b| - 1] == a + before && (a + b)[|a + b| - 1] == b[|b| - 1];
      assert Audio(a + b) == Audio(a + before) + x && Audio(b) == Audio(before) + x;
      hide Audio;
      assert (Audio(a) + Audio(before)) + x == Audio(a) + (Audio(before) + x);
    }
  }

  /** An undisturbed file streams to its end: there is a run of player and clock steps alone that
      sends exactly the rest of the file and completes. */
  lemma {:induction false} PlaysOut(cfg: Config, s: State) returns (ls: seq<Label>)
    requires Valid(cfg) && Sane(s) && s.pc == Reading(Song) && !Done(s)
    ensures Run(cfg, s, ls).pc == Finished(true)
    ensures Audio(Log(cfg, s, ls)) == Rest(cfg, s)
    ensures Undisturbed(ls)
    decreases |cfg.song| - Reached(s)
  {
    hide Run, Log, Step, Audio, Undisturbed;
    if Reached(s) >= |cfg.song| {
      ls := LastRead(cfg, s);
    } else {
      var lap := OneChunk(cfg, s);
      var s' := Run(cfg, s, lap);
      var rest := PlaysOut(cfg, s');
      ls := lap + rest;
      UndisturbedConcat(lap, rest);
      RunConcat(cfg, s, lap, rest);
      AudioConcat(Log(cfg, s, lap), Log(cfg, s', rest));
      Join(cfg.song, Reached(s), Reached(s'), |cfg.song|);
    }
  }

  /** The part of the file not yet heard. */
  function Rest(cfg: Config, s: State): seq<Byte>
    requires Sane(s)
  {
    cfg.song[Min(Reached(s), |cfg.song|)..|cfg.song|]
  }

  /** Steps of the player and the clock only. */
  predicate Undisturbed(ls: seq<Label>) {
    forall l <- ls :: l.Player? || l.Tick?
  }

  lemma UndisturbedConcat(a: seq<Label>, b: seq<Label>)
    requires Undisturbed(a) && Undisturbed(b)
    ensures Undisturbed(a + b)
  {
  }

  lemma LastRead(cfg: Config, s: State) returns (ls: seq<Label>)
    requires Valid(cfg) && Sane(s) && s.pc == Reading(Song) && !Done(s) && Reached(s) >= |cfg.song|
    ensures Run(cfg, s, ls).pc == Finished(true) && Audio(Log(cfg, s, ls)) == Rest(cfg, s) && Undisturbed(ls)
  {
    hide Run, Log, Step, Output;
    var eof, go := Player(0, Eof, true), Player(0, More, true);
    ls := [eof, go, go, go, go];
    LastSteps(cfg, s);
    RunFive(cfg, s, eof, go, go, go, go);
  }

  lemma LastSteps(cfg: Config, s: State)
    requires Valid(cfg) && Sane(s) && s.pc == Reading(Song) && !Done(s) && Reached(s) >= |cfg.song|
    ensures var eof, go := Player(0, Eof, true), Player(0, More, true);
            var s1 := Step(cfg, s, eof);
            var s2 := Step(cfg, s1, go);
            var s3 := Step(cfg, s2, go);
            var s4 := Step(cfg, s3, go);
            && Step(cfg, s4, go).pc == Finished(true)
            && Output(cfg, s, eof) == Output(cfg, s1, go) == Output(cfg, s2, go) == []
            && Output(cfg, s3, go) == Output(cfg, s4, go) == []
  {
    var eof, go := Player(0, Eof, true), Player(0, More, true);
    var s1 := Step(cfg, s, eof);
    assert s1.pc == Checking(Song, Eof) && !Done(s1);
    hide Due, ReadCount, ReadEnd;
    var s2 := Step(cfg, s1, go);
    assert s2.pc == Ending(Song, Eof);
    var s3 := Step(cfg, s2, go);
    assert s3.pc == Closing(Song, true);
  }

  lemma OneChunk(cfg: Config, s: State) returns (ls: seq<Label>)
    requires Valid(cfg) && Sane(s) && s.pc == Reading(Song) && !Done(s) && Reached(s) < |cfg.song|
    ensures Undisturbed(ls)
    ensures var s' := Run(cfg, s, ls);
            && s'.pc == Reading(Song) && !Done(s') && Sane(s') && Reached(s) < Reached(s') <= |cfg.song|
            && Audio(Log(cfg, s, ls)) == cfg.song[Reached(s)..Reached(s')]
  {
    var m := ReadCount(cfg, s, Song, ChunkSize(cfg));
    var later;
    ls, later := ChunkSteps(cfg, s, m);
    assert m > 0;
    var heard := cfg.song[Reached(s)..Reached(s) + m];
    hide Run, Log, Step, Output, ReadCount, Due;
    AudioOne(Reached(s), heard);
  }

  lemma AudioOne(at: int, bytes: seq<Byte>)
    ensures Audio([Sound(at, bytes)]) == bytes
  {
    assert [Sound(at, bytes)][..0] == [];
    assert Audio([]) + bytes == bytes;
  }

  lemma ChunkSteps(cfg: Config, s: State, m: int) returns (ls: seq<Label>, later: int)
    requires Valid(cfg) && Sane(s) && s.pc == Reading(Song) && !Done(s) && Reached(s) < |cfg.song|
    requires m == ReadCount(cfg, s, Song, ChunkSize(cfg))
    ensures m > 0 && Reached(s) + m <= |cfg.song|
    ensures Undisturbed(ls)
    ensures later >= s.now && Run(cfg, s, ls) == s.(sent := s.sent + m, total := s.total + m, now := later)
    ensures Log(cfg, s, ls) == [Sound(Reached(s), cfg.song[Reached(s)..Reached(s) + m])]
  {
    var go := Player(0, More, true);
    DuePositive(cfg, s.sent + m);
    var read, wait := Player(ChunkSize(cfg), More, true), Tick(Due(cfg, s.sent + m));
    ls := [read, wait, go, go, go];
    later := s.now + wait.dt;
    var heard := Sound(Reached(s), cfg.song[Reached(s)..Reached(s) + m]);
    var s1 := ReadOnce(cfg, s, m);
    WaitAndLoop(cfg, s1);
    RunFive(cfg, s, read, wait, go, go, go);
    hide Run, Log, Step, Output, Due, ReadCount, ChunkSize;
    assert Run(cfg, s, ls) == s1.(pc := Reading(Song), now := s1.now + wait.dt);
    assert s1.(pc := Reading(Song), now := s1.now + wait.dt)
        == s.(sent := s.sent + m, total := s.total + m, now := s.now + wait.dt);
    assert Log(cfg, s, ls) == [heard] + [] + [] + [] + [] == [heard];
  }

  lemma ReadOnce(cfg: Config, s: State, m: int) returns (s1: State)
    requires Valid(cfg) && Sane(s) && s.pc == Reading(Song) && !Done(s) && Reached(s) < |cfg.song|
    requires m == ReadCount(cfg, s, Song, ChunkSize(cfg))
    ensures m > 0 && Reached(s) + m <= |cfg.song|
    ensures s1 == s.(pc := Pacing(Song, More), sent := s.sent + m, total := s.total + m)
    ensures var read := Player(ChunkSize(cfg), More, true);
            s1 == Step(cfg, s, read) && Output(cfg, s, read) == [Sound(Reached(s), cfg.song[Reached(s)..Reached(s) + m])]
  {
    s1 := Step(cfg, s, Player(ChunkSize(cfg), More, true));
  }

  /** Wait until the chunk is due, then around the loop to the next read. */
  lemma WaitAndLoop(cfg: Config, s: State)
    requires Valid(cfg) && s.pc == Pacing(Song, More) && !Done(s) && s.start <= s.now && Due(cfg, s.sent) >= 0
    ensures var go := Player(0, More, true);
            var wait := Tick(Due(cfg, s.sent));
            var s2 := Step(cfg, s, wait);
            var s3 := Step(cfg, s2, go);
            var s4 := Step(cfg, s3, go);
            && Step(cfg, s4, go) == s.(pc := Reading(Song), now := s.now + wait.dt)
            && Output(cfg, s, wait) == Output(cfg, s2, go) == Output(cfg, s3, go) == Output(cfg, s4, go) == []
  {
    hide Due;
    var go := Player(0, More, true);
    var s2 := Step(cfg, s, Tick(Due(cfg, s.sent)));
    assert IsDue(cfg, s2);
    var s3 := Step(cfg, s2, go);
    assert s3 == s2.(pc := Checking(Song, More));
    var s4 := Step(cfg, s3, go);
    assert s4 == s2.(pc := Ending(Song, More));
  }

  lemma DuePositive(cfg: Config, n: int)
    requires Valid(cfg) && n >= 0
    ensures Due(cfg, n) >= 0
  {
  }

  // ---- A way to the end of the file ----

  /** Player steps at most until the file is being read, or is over. */
  function Far(s: State): nat {
    match s.pc
    case Finished(_) => 0
    case Reading(clip) => if clip.Hold? then 14 else if s.cancelled then 13 else 0
    case Ending(clip, e) => if clip.Hold? then 15 else if e.Eof? then 2 else if e.Failed? then 10 else if s.cancelled then 14 else 2
    case Checking(clip, _) => if clip.Hold? then 12 else if Cut(s) then 11 else 3
    case Pacing(clip, _) => if clip.Hold? then 13 else if Cut(s) then 12 else 4
    case Closing(clip, completed) => if clip.Hold? then 10 else if completed then 1 else 9
    case Opening(clip) => if clip.Hold? then 15 else 5
    case AskStop => 8
    case AskSkip => 7
    case AskSeek => 6
    case AskPaused => 8
    case HoldLeft => 6
    case HoldTest => 7
    case HoldSeek => 8
    case HoldSkip => 9
    case PollPaused(_) => 11
    case PollSeek(_) => 16
    case HoldStop => 16
  }

  predicate Arrived(s: State) {
    s.pc == Finished(true) || (s.pc == Reading(Song) && !Done(s))
  }

  /** What keeps the item going past this point: a call, or time for what was sent to be due. */
  function Nudge(cfg: Config, s: State): Label
    requires Valid(cfg) && 0 <= s.sent
  {
    match s.pc
    case AskSeek => Lock(Seek(0))
    case AskPaused => Lock(Pause)
    case HoldTest => Lock(Resume)
    case PollPaused(_) => Lock(Resume)
    case _ => DuePositive(cfg, s.sent); Tick(Due(cfg, s.sent))
  }

  ghost predicate Open(s: State) {
    Sane(s) && Seekable(s.ctrl) && !Stuck(s)
  }

  lemma NudgeOpen(cfg: Config, s: State)
    requires Valid(cfg) && Open(s)
    ensures var s' := Step(cfg, s, Nudge(cfg, s));
            && Open(s') && s'.pc == s.pc && Far(s') == Far(s) && s'.cancelled == s.cancelled && s'.stopped == s.stopped
            && (s.pc.AskSeek? ==> s'.ctrl.seek.Some?) && (s.pc.AskPaused? ==> s'.ctrl.paused)
            && (s.pc.HoldTest? || s.pc.PollPaused? ==> !s'.ctrl.paused)
            && (s.pc.Pacing? ==> IsDue(cfg, s'))
  {
    SaneStep(cfg, s, Nudge(cfg, s));
    DuePositive(cfg, s.sent);
    hide Due, Sane;
  }

  lemma OpenStep(cfg: Config, s: State)
    requires Valid(cfg) && Open(s) && !Arrived(s)
    requires (s.pc.AskSeek? ==> s.ctrl.seek.Some?) && (s.pc.AskPaused? ==> s.ctrl.paused)
    requires s.pc.HoldTest? || s.pc.PollPaused? ==> !s.ctrl.paused
    requires s.pc.Pacing? ==> IsDue(cfg, s)
    ensures var s' := Step(cfg, s, Player(0, More, true));
            Open(s') && Far(s') < Far(s)
  {
    SaneStep(cfg, s, Player(0, More, true));
    hide Sane, Due;
  }

  lemma {:induction false} GetsThere(cfg: Config, s: State) returns (ls: seq<Label>)
    requires Valid(cfg) && Open(s)
    ensures Run(cfg, s, ls).pc == Finished(true)
    decreases Far(s)
  {
    if s.pc == Finished(true) {
      ls := [];
    } else if Arrived(s) {
      ls := PlaysOut(cfg, s);
    } else {
      var nudge, go := Nudge(cfg, s), Player(0, More, true);
      var s1 := Step(cfg, s, nudge);
      NudgeOpen(cfg, s);
      assert !Arrived(s1);
      OpenStep(cfg, s1);
      RunTwo(cfg, s, nudge, go);
      hide Run, Step, Log, Open, Far;
      var rest := GetsThere(cfg, Step(cfg, s1, go));
      RunConcat(cfg, s, [nudge, go], rest);
      ls := [nudge, go] + rest;
    }
  }

  /** No run from here completes the item. */
  ghost predicate CannotComplete(cfg: Config, s: State)
    requires Valid(cfg)
  {
    forall ls :: Run(cfg, s, ls).pc != Finished(true)
  }

  /** An item can no longer complete exactly when it was interrupted, the station is stopped before
      the end of the file was acted on, or a skip is pending that the player is sure to look at. */
  lemma CompletableIff(cfg: Config, s: State)
    requires Valid(cfg) && Sane(s) && Seekable(s.ctrl)
    ensures CannotComplete(cfg, s) <==> Stuck(s)
  {
    if Stuck(s) {
      hide Stuck;
      forall ls ensures Run(cfg, s, ls).pc != Finished(true) {
        StuckRun(cfg, s, ls);
        StuckEnd(Run(cfg, s, ls));
      }
    } else {
      var ls := GetsThere(cfg, s);
    }
  }

  lemma StuckEnd(s: State)
    requires Stuck(s)
    ensures s.pc != Finished(true)
  {
  }

  /** When a skip sticks, so that the item cannot complete whatever calls follow: a whole Interrupt,
      exactly when it does not find the player in the gap; its critical section alone, exactly when
      the player is sure to look at the flag anyway; its cancellation, whenever that comes while
      the flag is still up, again exactly when the player is not in the gap. */
  lemma SkipSticksIff(cfg: Config, s: State)
    requires Valid(cfg) && Sane(s) && Seekable(s.ctrl) && !s.stopped && !Completing(s.pc)
    ensures CannotComplete(cfg, Step(cfg, s, Call(Interrupt))) <==> !Gap(s.pc)
    ensures CannotComplete(cfg, Step(cfg, s, Lock(Interrupt))) <==> WillLook(s) || s.pc.Finished?
    ensures s.ctrl.skip ==> (CannotComplete(cfg, Step(cfg, s, Cancel)) <==> !Gap(s.pc))
  {
    StuckAfter(cfg, s);
    OthersSane(cfg, s, Call(Interrupt));
    OthersSane(cfg, s, Lock(Interrupt));
    OthersSane(cfg, s, Cancel);
    hide Run, Step, Stuck, CannotComplete;
    CompletableIff(cfg, Step(cfg, s, Call(Interrupt)));
    CompletableIff(cfg, Step(cfg, s, Lock(Interrupt)));
    CompletableIff(cfg, Step(cfg, s, Cancel));
  }

  lemma OthersSane(cfg: Config, s: State, l: Label)
    requires Valid(cfg) && Sane(s) && !l.Player?
    ensures Sane(Step(cfg, s, l)) && Step(cfg, s, l).ctrl.current == s.ctrl.current
  {
    SaneStep(cfg, s, l);
    hide Sane, PlayerStep;
  }

  lemma StuckAfter(cfg: Config, s: State)
    requires Valid(cfg) && Sane(s) && !s.stopped && !Completing(s.pc)
    ensures Stuck(Step(cfg, s, Call(Interrupt))) <==> !Gap(s.pc)
    ensures Stuck(Step(cfg, s, Lock(Interrupt))) <==> WillLook(s) || s.pc.Finished?
    ensures s.ctrl.skip ==> (Stuck(Step(cfg, s, Cancel)) <==> !Gap(s.pc))
  {
  }
}
