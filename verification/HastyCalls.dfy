/** Calls that do not wait for each other, and an item left to itself after any of them.  A Pause,
    Resume or Seek that lands before the player has acted on the call before it is not what the
    same calls are one at a time.  From every state this module says exactly whether the item can
    still complete by itself, and so when a Resume comes too soon, when a Pause is overlooked, and
    when an Interrupt is; also while one of these calls still owes its cancellation. */
module HastyCalls {
  import opened Control
  import opened Player
  import opened Conservation
  import opened TapeDeck
  import opened SkipWins

  /** The stream of the file is being cut, and the player has yet to ask why. */
  predicate Leaving(s: State) {
    s.pc.AskStop? || s.pc.AskSkip? || s.pc.AskSeek? || s.pc.AskPaused? || Cut(s)
  }

  /** A seek is waiting that the player will look at before it looks at the pause. */
  predicate SeekFirst(s: State) {
    s.ctrl.seek.Some? && !s.pc.AskPaused?
  }

  /** The item needs another call to get to its end, or cannot get there any more: it is stuck, its
      stream is being cut with no seek to go on from, or it is held by a pause. */
  predicate Waits(s: State) {
    Stuck(s) || (Leaving(s) && !SeekFirst(s)) || (s.ctrl.paused && OnHold(s.pc))
  }

  predicate Ordinary(l: Label) { l.Player? || l.Tick? }

  /** Left to itself the item does not complete. */
  ghost predicate Ends(cfg: Config, s: State)
    requires Valid(cfg)
  {
    forall ls :: Undisturbed(ls) ==> Run(cfg, s, ls).pc != Finished(true)
  }

  // ---- An item that waits goes on waiting ----

  lemma HeldStep(cfg: Config, s: State, l: Label)
    requires Valid(cfg) && s.ctrl.paused && OnHold(s.pc) && !Stuck(s) && Ordinary(l)
    ensures Waits(Step(cfg, s, l))
  {
    hide Due, IsDue;
  }

  lemma LeavingStep(cfg: Config, s: State, l: Label)
    requires Valid(cfg) && Leaving(s) && !SeekFirst(s) && !Stuck(s) && Ordinary(l)
    ensures Waits(Step(cfg, s, l))
  {
    hide Due, IsDue;
  }

  lemma WaitsStep(cfg: Config, s: State, l: Label)
    requires Valid(cfg) && Sane(s) && Waits(s) && Ordinary(l)
    ensures Waits(Step(cfg, s, l))
  {
    if Stuck(s) {
      StuckStep(cfg, s, l);
    } else if s.ctrl.paused && OnHold(s.pc) {
      HeldStep(cfg, s, l);
    } else {
      LeavingStep(cfg, s, l);
    }
    hide Step, Stuck;
  }

  lemma UndisturbedSnoc(ls: seq<Label>)
    requires Undisturbed(ls) && ls != []
    ensures Undisturbed(ls[..|ls| - 1]) && Ordinary(ls[|ls| - 1])
  {
    assert ls[|ls| - 1] in ls;
    forall l | l in ls[..|ls| - 1] ensures Ordinary(l) { assert l in ls; }
  }

  lemma {:induction false} WaitsRun(cfg: Config, s: State, ls: seq<Label>)
    requires Valid(cfg) && Sane(s) && Waits(s) && Undisturbed(ls)
    ensures Waits(Run(cfg, s, ls))
  {
    if ls != [] {
      UndisturbedSnoc(ls);
      WaitsRun(cfg, s, ls[..|ls| - 1]);
      SaneRun(cfg, s, ls[..|ls| - 1]);
      WaitsStep(cfg, Run(cfg, s, ls[..|ls| - 1]), ls[|ls| - 1]);
    }
    hide Step, Waits;
  }

  // ---- Any other plays on ----

  ghost predicate Onward(s: State) {
    Sane(s) && !Waits(s)
  }

  lemma OnwardStep(cfg: Config, s: State)
    requires Valid(cfg) && Onward(s) && !Arrived(s) && (s.pc.Pacing? ==> IsDue(cfg, s))
    ensures var s' := Step(cfg, s, Player(0, More, true));
            Onward(s') && Far(s') < Far(s)
  {
    SaneStep(cfg, s, Player(0, More, true));
    hide Sane, Due;
  }

  /** First let enough time pass for whatever was sent to be due. */
  lemma WaitOnward(cfg: Config, s: State)
    requires Valid(cfg) && Onward(s)
    ensures Due(cfg, s.sent) >= 0
    ensures var s' := Step(cfg, s, Tick(Due(cfg, s.sent)));
            Onward(s') && s' == s.(now := s'.now) && (s.pc.Pacing? ==> IsDue(cfg, s'))
  {
    DuePositive(cfg, s.sent);
    hide Due;
  }

  lemma PausedStep(cfg: Config, s: State, l: Label)
    requires Valid(cfg) && Ordinary(l)
    ensures Step(cfg, s, l).ctrl.paused == s.ctrl.paused
  {
    hide Due, IsDue, ReadCount, ReadEnd;
  }

  lemma {:induction false} PausedRun(cfg: Config, s: State, ls: seq<Label>)
    requires Valid(cfg) && Undisturbed(ls)
    ensures Run(cfg, s, ls).ctrl.paused == s.ctrl.paused
  {
    if ls != [] {
      UndisturbedSnoc(ls);
      PausedRun(cfg, s, ls[..|ls| - 1]);
      PausedStep(cfg, Run(cfg, s, ls[..|ls| - 1]), ls[|ls| - 1]);
    }
    hide Step;
  }

  lemma {:induction false} PlaysOn(cfg: Config, s: State) returns (ls: seq<Label>)
    requires Valid(cfg) && Onward(s)
    ensures Undisturbed(ls) && Run(cfg, s, ls).pc == Finished(true)
    ensures Run(cfg, s, ls).ctrl.paused == s.ctrl.paused
    decreases Far(s)
  {
    if s.pc == Finished(true) {
      ls := [];
    } else if Arrived(s) {
      ls := PlaysOut(cfg, s);
    } else {
      WaitOnward(cfg, s);
      var wait, go := Tick(Due(cfg, s.sent)), Player(0, More, true);
      var s1 := Step(cfg, s, wait);
      assert s1.pc == s.pc && Far(s1) == Far(s) && !Arrived(s1);
      OnwardStep(cfg, s1);
      RunTwo(cfg, s, wait, go);
      hide Run, Step, Log, Onward, Far, Due;
      var rest := PlaysOn(cfg, Step(cfg, s1, go));
      RunConcat(cfg, s, [wait, go], rest);
      ls := [wait, go] + rest;
    }
    PausedRun(cfg, s, ls);
  }

  /** From every state: left to itself, the item does not complete exactly when it waits. */
  lemma EndsIff(cfg: Config, s: State)
    requires Valid(cfg) && Sane(s)
    ensures Ends(cfg, s) <==> Waits(s)
  {
    if Waits(s) {
      hide Waits;
      forall ls | Undisturbed(ls) ensures Run(cfg, s, ls).pc != Finished(true) {
        WaitsRun(cfg, s, ls);
        WaitsEnd(Run(cfg, s, ls));
      }
    } else {
      var ls := PlaysOn(cfg, s);
    }
  }

  lemma WaitsEnd(s: State)
    requires Waits(s)
    ensures s.pc != Finished(true)
  {
  }

  // ---- A cancellation still owed ----

  /** Steps of the player and the clock, with nothing failing. */
  predicate Clean(ls: seq<Label>) {
    forall l <- ls :: Calm(l)
  }

  predicate Calm(l: Label) {
    Ordinary(l) && (l.Player? ==> l.ok && !l.end.Failed?)
  }

  /** The player will not look for a seek before the next time the file is read. */
  predicate Unasked(s: State) {
    (InSong(s.pc) && !Cut(s)) || (s.pc.Opening? && s.pc.clip.Song?) || s.pc.HoldTest? || s.pc.HoldLeft?
  }

  /** Somewhere on the way the item would not go on from a cancellation. */
  predicate Exposed(s: State) {
    !Completing(s.pc) && (Waits(s) || s.ctrl.seek.None? || s.ctrl.skip || !Unasked(s))
  }

  lemma CancelWaits(cfg: Config, s: State)
    requires Valid(cfg)
    ensures var s' := Step(cfg, s, Cancel);
            && (Waits(s) ==> Waits(s'))
            && (Exposed(s) && InSong(s.pc) && !Cut(s) && s.inFlight ==> Waits(s'))
            && (!Exposed(s) ==> !Waits(s'))
  {
    hide PlayerStep;
  }

  lemma ExposedStep(cfg: Config, s: State)
    requires Valid(cfg) && Onward(s) && Exposed(s) && !(InSong(s.pc) && !Cut(s)) && !Arrived(s)
    ensures Exposed(Step(cfg, s, Player(0, More, true)))
  {
    hide Due, IsDue;
  }

  /** A place for the cancellation from which the item does not go on. */
  lemma {:induction false} GetsCut(cfg: Config, s: State) returns (before: seq<Label>)
    requires Valid(cfg) && Onward(s) && Exposed(s)
    ensures Clean(before) && Waits(Step(cfg, Run(cfg, s, before), Cancel))
    decreases Far(s)
  {
    if InSong(s.pc) && !Cut(s) {
      CancelWaits(cfg, s);
      before := [];
    } else {
      WaitOnward(cfg, s);
      var wait, go := Tick(Due(cfg, s.sent)), Player(0, More, true);
      var s1 := Step(cfg, s, wait);
      assert s1.pc == s.pc && Far(s1) == Far(s) && !Arrived(s1) && Exposed(s1) && !(InSong(s1.pc) && !Cut(s1));
      OnwardStep(cfg, s1);
      ExposedStep(cfg, s1);
      RunTwo(cfg, s, wait, go);
      hide Run, Step, Log, Onward, Far, Due, Exposed, Waits;
      var rest := GetsCut(cfg, Step(cfg, s1, go));
      RunConcat(cfg, s, [wait, go], rest);
      before := [wait, go] + rest;
    }
  }

  lemma SafeStep(cfg: Config, s: State, l: Label)
    requires Valid(cfg) && Onward(s) && !Exposed(s) && Calm(l)
    ensures Onward(Step(cfg, s, l)) && !Exposed(Step(cfg, s, l))
  {
    SaneStep(cfg, s, l);
    hide Due, Sane;
    match s.pc
    case Pacing(_, _) =>
    case Checking(_, _) =>
    case Ending(_, _) =>
    case _ =>
  }

  lemma {:induction false} SafeRun(cfg: Config, s: State, ls: seq<Label>)
    requires Valid(cfg) && Onward(s) && !Exposed(s) && Clean(ls)
    ensures Onward(Run(cfg, s, ls)) && !Exposed(Run(cfg, s, ls))
  {
    if ls != [] {
      var before, l := ls[..|ls| - 1], ls[|ls| - 1];
      assert l in ls && forall x <- before :: x in ls;
      SafeRun(cfg, s, before);
      SafeStep(cfg, Run(cfg, s, before), l);
    }
    hide Step, Onward, Exposed;
  }

  /** Some place for the cancellation, on the way and although nothing fails, ends the item. */
  ghost predicate InDanger(cfg: Config, s: State)
    requires Valid(cfg)
  {
    exists before :: Clean(before) && Ends(cfg, Step(cfg, Run(cfg, s, before), Cancel))
  }

  /** Some place for it is harmless. */
  ghost predicate HasChance(cfg: Config, s: State)
    requires Valid(cfg)
  {
    exists before :: Undisturbed(before) && !Ends(cfg, Step(cfg, Run(cfg, s, before), Cancel))
  }

  lemma CancelSane(cfg: Config, s: State, ls: seq<Label>)
    requires Valid(cfg) && Sane(s)
    ensures Sane(Step(cfg, Run(cfg, s, ls), Cancel))
  {
    SaneRun(cfg, s, ls);
    SaneStep(cfg, Run(cfg, s, ls), Cancel);
    hide Step, Run, Sane;
  }

  /** From every state in which a cancellation is still owed, by whatever call: there is danger
      exactly when the end of the file was not acted on, save where the player is sure to be back
      in the file with a seek waiting and no skip; and there is a chance exactly when the item
      would complete without the cancellation. */
  lemma OwedIff(cfg: Config, s: State)
    requires Valid(cfg) && Sane(s)
    ensures InDanger(cfg, s) <==> Exposed(s)
    ensures HasChance(cfg, s) <==> !Waits(s)
  {
    DangerIff(cfg, s);
    ChanceIff(cfg, s);
  }

  lemma DangerIff(cfg: Config, s: State)
    requires Valid(cfg) && Sane(s)
    ensures InDanger(cfg, s) <==> Exposed(s)
  {
    if Exposed(s) {
      var before := [];
      if Waits(s) {
        CancelWaits(cfg, s);
      } else {
        before := GetsCut(cfg, s);
      }
      assert Waits(Step(cfg, Run(cfg, s, before), Cancel));
      hide Run, Step, Waits, Exposed, Ends, Sane;
      CancelSane(cfg, s, before);
      EndsIff(cfg, Step(cfg, Run(cfg, s, before), Cancel));
    } else {
      UnexposedOnward(s);
      hide Run, Step, Waits, Exposed, Ends, Onward, Sane;
      forall before | Clean(before) ensures !Ends(cfg, Step(cfg, Run(cfg, s, before), Cancel)) {
        SafeRun(cfg, s, before);
        CancelWaits(cfg, Run(cfg, s, before));
        CancelSane(cfg, s, before);
        EndsIff(cfg, Step(cfg, Run(cfg, s, before), Cancel));
      }
    }
  }

  lemma UnexposedOnward(s: State)
    requires Sane(s) && !Exposed(s)
    ensures Onward(s)
  {
  }

  lemma ChanceIff(cfg: Config, s: State)
    requires Valid(cfg) && Sane(s)
    ensures HasChance(cfg, s) <==> !Waits(s)
  {
    if Waits(s) {
      hide Run, Step, Waits, Ends, Sane, Exposed;
      forall before | Undisturbed(before) ensures Ends(cfg, Step(cfg, Run(cfg, s, before), Cancel)) {
        WaitsRun(cfg, s, before);
        CancelWaits(cfg, Run(cfg, s, before));
        CancelSane(cfg, s, before);
        EndsIff(cfg, Step(cfg, Run(cfg, s, before), Cancel));
      }
    } else {
      var before := PlaysOn(cfg, s);
      CancelWaits(cfg, Run(cfg, s, before));
      hide Run, Step, Ends, Sane;
      CancelSane(cfg, s, before);
      EndsIff(cfg, Step(cfg, Run(cfg, s, before), Cancel));
    }
  }

  /** A file that cannot be opened or read on ends its item, unless a pause or a seek is waiting; and
      reaching its end completes it.  A silence clip that fails is tried again. */
  lemma FailureEnds(cfg: Config, s: State, l: Label)
    requires Valid(cfg) && Sane(s) && l.Player? && ((s.pc.Opening? && !l.ok) || s.pc.Ending?)
    ensures var s', clip := Step(cfg, s, l), s.pc.clip;
            && (s.pc.Opening? || s.pc.end.Failed? ==> s'.pc == Closing(clip, false))
            && (s.pc == Ending(Song, Eof) ==> s'.pc == Closing(Song, true))
            && (s.pc.Ending? && s.pc.end.More? ==> s'.pc == Reading(clip))
            && (clip.Song? && s'.pc == Closing(Song, false) && !s.ctrl.paused && s.ctrl.seek.None? ==> Ends(cfg, s'))
            && Output(cfg, s, l) == []
  {
    SaneStep(cfg, s, l);
    EndsIff(cfg, Step(cfg, s, l));
    hide Ends, Due, IsDue;
  }

  // ---- The silence of a pause ----

  /** The silence clip plays while the item is held. */
  predicate PlaysSilence(s: State) {
    && s.ctrl.paused && s.ctrl.seek.None? && !s.cancelled && !s.stopped
    && (s.pc.PollPaused? || s.pc.PollSeek? || ((s.pc.Reading? || s.pc.Pacing? || s.pc.Checking? || s.pc.Ending?) && s.pc.clip.Hold?))
    && ((s.pc.Pacing? || s.pc.Checking? || s.pc.Ending? || s.pc.PollPaused? || s.pc.PollSeek?) ==> !s.pc.end.Failed?)
  }

  lemma SilenceStep(cfg: Config, s: State, l: Label)
    requires Valid(cfg) && PlaysSilence(s) && Calm(l)
    ensures PlaysSilence(Step(cfg, s, l))
    ensures l.Player? && s.pc == Ending(Hold, Eof) ==>
              var s' := Step(cfg, s, l); s'.pc == Reading(Hold) && s'.sent == 0 && s'.start == s.now
  {
    hide Due, IsDue, ReadCount;
  }

  /** While an item is held and nothing fails, the silence clip plays over and over, each time from its
      start; only a call ends it. */
  lemma {:induction false} SilenceGoesOn(cfg: Config, s: State, ls: seq<Label>)
    requires Valid(cfg) && PlaysSilence(s) && Clean(ls)
    ensures PlaysSilence(Run(cfg, s, ls))
  {
    if ls != [] {
      var before, l := ls[..|ls| - 1], ls[|ls| - 1];
      assert l in ls && forall x <- before :: x in ls;
      SilenceGoesOn(cfg, s, before);
      SilenceStep(cfg, Run(cfg, s, before), l);
    }
    hide Step, PlaysSilence;
  }

  // ---- The three calls ----

  /** When a Resume comes too soon, from any state with a pause to take back: with nothing else
      under way the item ends exactly when it is stuck anyway, or its stream is being cut with no
      seek that the player will look at.  While a cancellation is still owed, by the Pause or by any
      other call, it is in danger until the end of the file was acted on, unless a seek waits that
      the player takes up only in the file; and it has a chance exactly when it does not end. */
  lemma ResumeTooSoonIff(cfg: Config, s: State)
    requires Valid(cfg) && Sane(s) && s.ctrl.paused
    ensures var s1 := Step(cfg, s, Call(Resume));
            var tooSoon := Stuck(s) || (Leaving(s) && !SeekFirst(s));
            && (Ends(cfg, s1) <==> tooSoon)
            && (InDanger(cfg, s1) <==>
                  !Completing(s.pc) && (tooSoon || s.ctrl.seek.None? || s.ctrl.skip || !Unasked(s)))
            && (HasChance(cfg, s1) <==> !tooSoon)
  {
    var s1 := Step(cfg, s, Call(Resume));
    OthersSane(cfg, s, Call(Resume));
    EndsIff(cfg, s1);
    OwedIff(cfg, s1);
    assert s1 == s.(ctrl := s1.ctrl) && !s1.ctrl.paused && s1.ctrl.seek == s.ctrl.seek && s1.ctrl.skip == s.ctrl.skip;
    hide Step, Ends, InDanger, HasChance, Sane;
  }

  /** A Pause finds the file's stream in flight, or just cut. */
  predicate Catches(pc: Pc) {
    pc.AskStop? || pc.AskSkip? || pc.AskSeek? || pc.AskPaused? || (InSong(pc) && !Completing(pc))
  }

  /** When a Pause holds the item, from any state in which it reports that it did something: exactly
      when the item is stuck anyway, or the Pause finds the stream of the file or just after it with
      no seek waiting that the player looks at first, or finds an earlier hold not yet left.
      Otherwise the file plays to its end with the station paused.  Of its critical section alone,
      and of the cancellation then owed, the same is said by the states themselves. */
  lemma PauseHeldIff(cfg: Config, s: State)
    requires Valid(cfg) && Sane(s) && Accepted(s.ctrl, Pause)
    ensures var s1 := Step(cfg, s, Call(Pause));
            && (Ends(cfg, s1) <==>
                  || s.pc == Finished(false) || (!Completing(s.pc) && (s.stopped || (s.ctrl.skip && !Gap(s.pc))))
                  || (Catches(s.pc) && !SeekFirst(s)) || OnHold(s.pc))
            && (!Ends(cfg, s1) ==>
                  exists ls :: Undisturbed(ls) && Run(cfg, s1, ls).pc == Finished(true) && Run(cfg, s1, ls).ctrl.paused)
    ensures var s2 := Step(cfg, s, Lock(Pause));
            var held := Stuck(s) || (Leaving(s) && !SeekFirst(s)) || OnHold(s.pc);
            && (Ends(cfg, s2) <==> held)
            && (InDanger(cfg, s2) <==>
                  !Completing(s.pc) && (held || s.ctrl.seek.None? || s.ctrl.skip || !Unasked(s)))
            && (HasChance(cfg, s2) <==> !held)
  {
    WholePause(cfg, s);
    HalfPause(cfg, s);
  }

  lemma WholePause(cfg: Config, s: State)
    requires Valid(cfg) && Sane(s) && Accepted(s.ctrl, Pause)
    ensures var s1 := Step(cfg, s, Call(Pause));
            && (Ends(cfg, s1) <==>
                  || s.pc == Finished(false) || (!Completing(s.pc) && (s.stopped || (s.ctrl.skip && !Gap(s.pc))))
                  || (Catches(s.pc) && !SeekFirst(s)) || OnHold(s.pc))
            && (!Ends(cfg, s1) ==>
                  exists ls :: Undisturbed(ls) && Run(cfg, s1, ls).pc == Finished(true) && Run(cfg, s1, ls).ctrl.paused)
  {
    var s1 := Step(cfg, s, Call(Pause));
    OthersSane(cfg, s, Call(Pause));
    EndsIff(cfg, s1);
    assert s1.pc == s.pc && s1.ctrl.paused && s1.ctrl.seek == s.ctrl.seek && s1.ctrl.skip == s.ctrl.skip;
    assert s1.stopped == s.stopped && (s.inFlight ==> s1.cancelled) && s1.inFlight == s.inFlight;
    if !Waits(s1) {
      var ls := PlaysOn(cfg, s1);
    }
    hide Step, Ends, Run;
  }

  lemma HalfPause(cfg: Config, s: State)
    requires Valid(cfg) && Sane(s) && Accepted(s.ctrl, Pause)
    ensures var s2 := Step(cfg, s, Lock(Pause));
            var held := Stuck(s) || (Leaving(s) && !SeekFirst(s)) || OnHold(s.pc);
            && (Ends(cfg, s2) <==> held)
            && (InDanger(cfg, s2) <==>
                  !Completing(s.pc) && (held || s.ctrl.seek.None? || s.ctrl.skip || !Unasked(s)))
            && (HasChance(cfg, s2) <==> !held)
  {
    var s2 := Step(cfg, s, Lock(Pause));
    OthersSane(cfg, s, Lock(Pause));
    EndsIff(cfg, s2);
    OwedIff(cfg, s2);
    assert s2 == s.(ctrl := s2.ctrl) && s2.ctrl.paused && s2.ctrl.seek == s.ctrl.seek && s2.ctrl.skip == s.ctrl.skip;
    hide Step, Ends, InDanger, HasChance, Sane;
  }

  /** When an Interrupt ends the item with no further call: exactly when the end of the file was not
      acted on and the player is not in the gap, or in it where it still has the seek or the pause
      to ask for, which the Interrupt has cleared.  (From there another Pause or Seek can save the
      item; SkipSticksIff is about whatever calls may follow.)  Its critical section alone does so at
      those two points and wherever the player is sure to look at the flag. */
  lemma InterruptEndsIff(cfg: Config, s: State)
    requires Valid(cfg) && Sane(s)
    ensures Ends(cfg, Step(cfg, s, Call(Interrupt))) <==>
              !Completing(s.pc) && (s.stopped || !Gap(s.pc) || s.pc.AskSeek? || s.pc.AskPaused?)
    ensures var s2 := Step(cfg, s, Lock(Interrupt));
            var ends := !Completing(s.pc) && (s.stopped || WillLook(s) || s.pc.Finished? || s.pc.AskSeek? || s.pc.AskPaused?);
            && (Ends(cfg, s2) <==> ends)
            && (InDanger(cfg, s2) <==> !Completing(s.pc))
            && (HasChance(cfg, s2) <==> !ends)
  {
    WholeInterrupt(cfg, s);
    HalfInterrupt(cfg, s);
  }

  lemma WholeInterrupt(cfg: Config, s: State)
    requires Valid(cfg) && Sane(s)
    ensures Ends(cfg, Step(cfg, s, Call(Interrupt))) <==>
              !Completing(s.pc) && (s.stopped || !Gap(s.pc) || s.pc.AskSeek? || s.pc.AskPaused?)
  {
    var s1 := Step(cfg, s, Call(Interrupt));
    OthersSane(cfg, s, Call(Interrupt));
    EndsIff(cfg, s1);
    assert s1.pc == s.pc && !s1.ctrl.paused && s1.ctrl.seek.None? && s1.ctrl.skip;
    assert s1.stopped == s.stopped && (s.inFlight ==> s1.cancelled) && s1.inFlight == s.inFlight;
    hide Step, Ends;
  }

  lemma HalfInterrupt(cfg: Config, s: State)
    requires Valid(cfg) && Sane(s)
    ensures var s2 := Step(cfg, s, Lock(Interrupt));
            var ends := !Completing(s.pc) && (s.stopped || WillLook(s) || s.pc.Finished? || s.pc.AskSeek? || s.pc.AskPaused?);
            && (Ends(cfg, s2) <==> ends)
            && (InDanger(cfg, s2) <==> !Completing(s.pc))
            && (HasChance(cfg, s2) <==> !ends)
  {
    var s2 := Step(cfg, s, Lock(Interrupt));
    OthersSane(cfg, s, Lock(Interrupt));
    EndsIff(cfg, s2);
    OwedIff(cfg, s2);
    assert s2 == s.(ctrl := s2.ctrl) && !s2.ctrl.paused && s2.ctrl.seek.None? && s2.ctrl.skip;
    hide Step, Ends, InDanger, HasChance;
  }

  /** Two calls in a row to a settled player: pausing and resuming ends the track, and seeking and
      pausing plays it. */
  lemma HastyPairs(cfg: Config, s: State, k: int)
    requires Valid(cfg) && Sane(s) && Settled(s) && Seekable(s.ctrl) && InSong(s.pc) && !Completing(s.pc) && !s.stopped
    ensures Ends(cfg, Step(cfg, Step(cfg, s, Call(Pause)), Call(Resume)))
    ensures var s2 := Step(cfg, Step(cfg, s, Call(Seek(k))), Call(Pause));
            exists ls :: Undisturbed(ls) && Run(cfg, s2, ls).pc == Finished(true) && Run(cfg, s2, ls).ctrl.paused
  {
    var p, q := Step(cfg, s, Call(Pause)), Step(cfg, s, Call(Seek(k)));
    SaneStep(cfg, s, Call(Pause));
    SaneStep(cfg, s, Call(Seek(k)));
    ResumeTooSoonIff(cfg, p);
    WholePause(cfg, q);
    assert Leaving(p) && !SeekFirst(p);
    assert SeekFirst(q) && !OnHold(q.pc) && q.pc == s.pc && !q.ctrl.skip && !q.stopped;
    hide Run, Ends;
  }

  // ---- Where an Interrupt ends an item and leaves its flag up ----

  /** The flag is up, or the item ended by taking it; and it cannot end otherwise. */
  predicate FlagStays(s: State) {
    !s.stopped && (s.pc == Finished(false) ==> !s.ctrl.skip)
    && (s.pc.Finished? || (s.ctrl.skip && !s.pc.AskSeek? && !s.pc.AskPaused?))
  }

  lemma FlagStaysStep(cfg: Config, s: State, l: Label)
    requires Valid(cfg) && FlagStays(s) && Ordinary(l)
    ensures FlagStays(Step(cfg, s, l))
  {
    hide Due, IsDue, ReadEnd;
  }

  lemma {:induction false} FlagStaysRun(cfg: Config, s: State, ls: seq<Label>)
    requires Valid(cfg) && FlagStays(s) && Undisturbed(ls)
    ensures FlagStays(Run(cfg, s, ls))
  {
    if ls != [] {
      UndisturbedSnoc(ls);
      FlagStaysRun(cfg, s, ls[..|ls| - 1]);
      FlagStaysStep(cfg, Run(cfg, s, ls[..|ls| - 1]), ls[|ls| - 1]);
    }
    hide Step, FlagStays;
  }

  /** An Interrupt ends the item but leaves its flag up for another exactly when it finds the player
      at the seek or at the pause, past the skip: the player then falls through all three questions.
      So does its critical section alone. */
  lemma FlagLeftIff(cfg: Config, s: State, l: Label)
    requires Valid(cfg) && Sane(s) && !s.stopped && s.pc != Finished(false)
    requires l in {Call(Interrupt), Lock(Interrupt)}
    ensures var s1 := Step(cfg, s, l);
            (exists ls :: Undisturbed(ls) && Run(cfg, s1, ls).pc == Finished(false) && Run(cfg, s1, ls).ctrl.skip)
            <==> s.pc.AskSeek? || s.pc.AskPaused?
  {
    var s1 := Step(cfg, s, l);
    assert s1.pc == s.pc && !s1.ctrl.paused && s1.ctrl.seek.None? && s1.ctrl.skip && !s1.stopped;
    if s.pc.AskSeek? || s.pc.AskPaused? {
      var ls := FallsThrough(cfg, s1);
    } else {
      forall ls | Undisturbed(ls) ensures !(Run(cfg, s1, ls).pc == Finished(false) && Run(cfg, s1, ls).ctrl.skip) {
        FlagStaysRun(cfg, s1, ls);
      }
    }
  }

  lemma FallsThrough(cfg: Config, s: State) returns (ls: seq<Label>)
    requires Valid(cfg) && (s.pc.AskSeek? || s.pc.AskPaused?) && s.ctrl.seek.None? && !s.ctrl.paused
    ensures Undisturbed(ls) && Run(cfg, s, ls).pc == Finished(false)
    ensures Run(cfg, s, ls) == s.(pc := Finished(false))
    ensures forall l <- ls :: l.Player?
  {
    var go := Player(0, More, true);
    RunTwo(cfg, s, go, go);
    ls := [go, go];
  }
}
