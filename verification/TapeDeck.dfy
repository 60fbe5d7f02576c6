/** The tape deck a local item is meant to be: an offset and a pause button.  A run in which each
    control call finds a stream in flight and the previous call already acted on sends exactly
    what this deck sends, for every file, read size and interleaving of the calls' effects. */
module TapeDeck {
  import opened Options
  import opened Control
  import opened Player
  import opened Conservation
  import opened SkipWins

  datatype Deck = Deck(offset: int, paused: bool, ended: Option<bool>)

  datatype DeckEvent = Chunk(n: nat) | Press(op: Op) | EndOfTape | Halt | Fault

  /** The tape goes on for that many bytes. */
  predicate Fits(cfg: Config, d: Deck, n: nat) {
    0 <= d.offset <= |cfg.song| - n
  }

  function DeckStep(cfg: Config, duration: int, d: Deck, e: DeckEvent): Deck {
    if d.ended.Some? then d else
    match e
    case Chunk(n) => if d.paused || !Fits(cfg, d, n) then d else d.(offset := d.offset + n)
    case Press(Pause) => d.(paused := true)
    case Press(Resume) => d.(paused := false)
    case Press(Seek(k)) => d.(offset := ClampTo(duration, k) * cfg.bps)
    case Press(Interrupt) => d.(paused := false, ended := Some(false))
    case EndOfTape => if !d.paused && d.offset >= |cfg.song| then d.(ended := Some(true)) else d
    case Halt => d.(ended := Some(false))
    case Fault => d.(ended := Some(false))
  }

  function DeckOut(cfg: Config, duration: int, d: Deck, e: DeckEvent): seq<Out> {
    if d.ended.Some? then [] else
    match e
    case Chunk(n) =>
      if d.paused then [Hush(n)]
      else if Fits(cfg, d, n) then [Sound(d.offset, cfg.song[d.offset..d.offset + n])]
      else []
    case Press(Seek(k)) => [Jump(ClampTo(duration, k) * cfg.bps)]
    case _ => []
  }

  function DeckRun(cfg: Config, duration: int, es: seq<DeckEvent>): Deck {
    if es == [] then Deck(0, false, None)
    else DeckStep(cfg, duration, DeckRun(cfg, duration, es[..|es| - 1]), es[|es| - 1])
  }

  function DeckLog(cfg: Config, duration: int, es: seq<DeckEvent>): seq<Out> {
    if es == [] then []
    else DeckLog(cfg, duration, es[..|es| - 1]) + DeckOut(cfg, duration, DeckRun(cfg, duration, es[..|es| - 1]), es[|es| - 1])
  }

  /** The buttons pressed in a script, in order. */
  function Presses(es: seq<DeckEvent>): seq<Op> {
    if es == [] then [] else
    Presses(es[..|es| - 1]) + if es[|es| - 1].Press? then [es[|es| - 1].op] else []
  }

  // ---- Reading a deck script off a run ----

  /** The deck event at which a step of the run takes effect: calls when the player acts on them
      (at once, when they report having done nothing). */
  function Observed(cfg: Config, s: State, l: Label): seq<DeckEvent> {
    match l
    case Call(op) => if Accepted(s.ctrl, op) then [] else [Press(op)]
    case Player(n, _, _) =>
      if s.pc.Reading? then
        var m := ReadCount(cfg, s, s.pc.clip, n);
        if m > 0 then [Chunk(m)] else []
      else if (s.pc.AskStop? || s.pc.HoldLeft?) && s.stopped then [Halt]
      else if (s.pc.AskSkip? || s.pc.HoldSkip?) && s.ctrl.skip then [Press(Interrupt)]
      else if (s.pc.AskSeek? || s.pc.HoldSeek?) && s.ctrl.seek.Some? then [Press(Seek(s.ctrl.seek.value))]
      else if s.pc.AskPaused? then [if s.ctrl.paused then Press(Pause) else Fault]
      else if s.pc.HoldTest? && !s.ctrl.paused then [Press(Resume)]
      else if s.pc == Closing(Song, true) then [EndOfTape]
      else []
    case _ => []
  }

  function Script(cfg: Config, s: State, ls: seq<Label>): seq<DeckEvent>
    requires Valid(cfg)
  {
    if ls == [] then []
    else Script(cfg, s, ls[..|ls| - 1]) + Observed(cfg, Run(cfg, s, ls[..|ls| - 1]), ls[|ls| - 1])
  }

  /** A call as the deck's button: a seek by its clamped target. */
  function Button(duration: int, op: Op): Op {
    match op case Seek(k) => Seek(ClampTo(duration, k)) case _ => op
  }

  function Issued(duration: int, ls: seq<Label>): seq<Op> {
    if ls == [] then [] else
    Issued(duration, ls[..|ls| - 1]) + if ls[|ls| - 1].Call? then [Button(duration, ls[|ls| - 1].op)] else []
  }

  predicate OnHold(pc: Pc) {
    || pc.PollPaused? || pc.PollSeek? || pc.HoldTest? || pc.HoldStop? || pc.HoldSkip? || pc.HoldSeek?
    || ((pc.Opening? || pc.Reading? || pc.Pacing? || pc.Checking? || pc.Ending? || pc.Closing?) && pc.clip.Hold?)
  }

  /** A stream is in flight and every earlier call has been acted on. */
  predicate Settled(s: State) {
    s.inFlight && !s.ctrl.skip && s.ctrl.seek.None? && s.ctrl.paused == OnHold(s.pc)
  }

  /** Calls come one at a time and whole, each to a settled player. */
  ghost predicate Serial(cfg: Config, s: State, ls: seq<Label>)
    requires Valid(cfg)
  {
    ls == [] ||
    (Serial(cfg, s, ls[..|ls| - 1]) && Permitted(Run(cfg, s, ls[..|ls| - 1]), ls[|ls| - 1]))
  }

  predicate Permitted(s: State, l: Label) {
    !l.Lock? && !l.Cancel? && (l.Call? ==> Settled(s))
  }

  /** The item's own file opens and reads without error. */
  ghost predicate Healthy(cfg: Config, s: State, ls: seq<Label>)
    requires Valid(cfg)
  {
    ls == [] ||
    (Healthy(cfg, s, ls[..|ls| - 1]) && ReadsCleanly(Run(cfg, s, ls[..|ls| - 1]), ls[|ls| - 1]))
  }

  predicate ReadsCleanly(s: State, l: Label) {
    l.Player? ==> (s.pc == Opening(Song) ==> l.ok) && (s.pc == Reading(Song) ==> !l.end.Failed?)
  }

  /** The call issued but not yet acted on. */
  function Pending(s: State, d: Deck): seq<Op> {
    if s.ctrl.skip then [Interrupt]
    else if s.ctrl.seek.Some? then [Seek(s.ctrl.seek.value)]
    else if s.ctrl.paused != d.paused then [if s.ctrl.paused then Pause else Resume]
    else []
  }

  /** The player state stands for the deck's. */
  ghost predicate Matches(cfg: Config, duration: int, s: State, d: Deck) {
    && Sane(s)
    && s.ctrl.current == Some(Item(false, duration))
    && (SawEnd(s.pc) ==> Reached(s) >= |cfg.song|)
    && d.ended == (if s.pc.Finished? then Some(s.pc.completed) else None)
    && (!s.pc.Finished? ==> d.offset == Reached(s))
    && (!s.pc.Finished? && !s.pc.HoldLeft? ==> d.paused == OnHold(s.pc))
    && (s.pc.HoldLeft? ==> d.paused == s.ctrl.paused && (!s.stopped ==> !d.paused))
    && (s.ctrl.skip ==> s.ctrl.seek.None? && !s.ctrl.paused)
    && (s.ctrl.seek.Some? ==> s.ctrl.paused == d.paused && ClampTo(duration, s.ctrl.seek.value) == s.ctrl.seek.value)
    && (s.ctrl.skip ==> s.inFlight || s.pc.AskStop? || s.pc.AskSkip? || s.pc.HoldSkip? || s.pc.Finished?)
    && (s.ctrl.seek.Some? ==> s.inFlight || s.pc.AskStop? || s.pc.AskSkip? || s.pc.HoldSkip? || s.pc.AskSeek? || s.pc.HoldSeek? || s.pc.Finished?)
    && (s.pc.Opening? || s.pc.HoldStop? ==> s.ctrl.paused == d.paused)
  }

  /** Nothing ends the file's stream early but a pending call or a stop. */
  ghost predicate Explained(s: State, d: Deck) {
    && (InSong(s.pc) && s.cancelled ==> Pending(s, d) != [])
    && (s.pc == Closing(Song, false) || s.pc.AskStop? ==> Pending(s, d) != [] || s.stopped)
    && (s.pc.AskSkip? || s.pc.AskSeek? || s.pc.AskPaused? ==> Pending(s, d) != [])
    && ((s.pc.Pacing? || s.pc.Checking? || s.pc.Ending?) && s.pc.clip.Song? ==> !s.pc.end.Failed?)
  }

  function Next(cfg: Config, duration: int, d: Deck, es: seq<DeckEvent>): Deck {
    if es == [] then d else DeckStep(cfg, duration, d, es[0])
  }

  function NextOut(cfg: Config, duration: int, d: Deck, es: seq<DeckEvent>): seq<Out> {
    if es == [] then [] else DeckOut(cfg, duration, d, es[0])
  }

  /** One step of the run is what its script says of the deck: same output, matching states, and
      the call pressed is the one that was pending. */
  ghost predicate Simulated(cfg: Config, duration: int, s: State, d: Deck, l: Label)
    requires Valid(cfg)
  {
    var s', es := Step(cfg, s, l), Observed(cfg, s, l);
    var d' := Next(cfg, duration, d, es);
    && |es| <= 1
    && Matches(cfg, duration, s', d')
    && Output(cfg, s, l) == NextOut(cfg, duration, d, es)
    && (if es != [] && es[0].Press? then [es[0].op] else []) + Pending(s', d')
    == Pending(s, d) + (if l.Call? then [Button(duration, l.op)] else [])
    && (Explained(s, d) && ReadsCleanly(s, l) ==> Explained(s', d') && es != [Fault])
  }

  lemma CallSimulated(cfg: Config, duration: int, s: State, d: Deck, l: Label)
    requires Valid(cfg) && Matches(cfg, duration, s, d) && Permitted(s, l) && l.Call?
    ensures Simulated(cfg, duration, s, d, l)
  {
    SaneStep(cfg, s, l);
    hide PlayerStep, Due, ReadPos;
  }

  lemma ReadSimulated(cfg: Config, duration: int, s: State, d: Deck, l: Label)
    requires Valid(cfg) && Matches(cfg, duration, s, d) && l.Player? && s.pc.Reading?
    ensures Simulated(cfg, duration, s, d, l)
  {
    SaneStep(cfg, s, l);
    hide Due;
  }

  lemma ControlSimulated(cfg: Config, duration: int, s: State, d: Deck, l: Label)
    requires Valid(cfg) && Matches(cfg, duration, s, d) && l.Player? && !Streaming(s.pc) && !s.pc.Opening?
    ensures Simulated(cfg, duration, s, d, l)
  {
    SaneStep(cfg, s, l);
    hide Due;
  }

  lemma EdgeSimulated(cfg: Config, duration: int, s: State, d: Deck, l: Label)
    requires Valid(cfg) && Matches(cfg, duration, s, d) && l.Player? && (s.pc.Opening? || s.pc.Closing?)
    ensures Simulated(cfg, duration, s, d, l)
  {
    SaneStep(cfg, s, l);
  }

  lemma StreamExplained(cfg: Config, s: State, d: Deck, l: Label)
    requires Valid(cfg) && Sane(s) && l.Player? && Explained(s, d)
    requires Streaming(s.pc) && !s.pc.Reading? && !s.pc.Closing?
    ensures Explained(Step(cfg, s, l), d)
  {
    hide Due;
    assert Pending(Step(cfg, s, l), d) == Pending(s, d);
    hide Pending;
  }

  lemma StreamSimulated(cfg: Config, duration: int, s: State, d: Deck, l: Label)
    requires Valid(cfg) && Matches(cfg, duration, s, d) && l.Player?
    requires Streaming(s.pc) && !s.pc.Reading? && !s.pc.Closing?
    ensures Simulated(cfg, duration, s, d, l)
  {
    StreamKeeps(cfg, s, d, l);
    SaneStep(cfg, s, l);
    var s' := Step(cfg, s, l);
    if Explained(s, d) {
      StreamExplained(cfg, s, d, l);
    }
    hide Sane, Pending, Reached, Step, Explained, Observed, Output, DeckStep, DeckOut, SawEnd, OnHold;
  }

  lemma StreamKeeps(cfg: Config, s: State, d: Deck, l: Label)
    requires Valid(cfg) && Sane(s) && l.Player? && Streaming(s.pc) && !s.pc.Reading? && !s.pc.Closing?
    requires SawEnd(s.pc) ==> Reached(s) >= |cfg.song|
    ensures var s' := Step(cfg, s, l);
            && Observed(cfg, s, l) == [] && Output(cfg, s, l) == []
            && s'.ctrl == s.ctrl && Pending(s', d) == Pending(s, d)
            && Streaming(s'.pc) && s'.inFlight && s'.stopped == s.stopped
            && OnHold(s'.pc) == OnHold(s.pc) && Reached(s') == Reached(s)
            && (SawEnd(s'.pc) ==> Reached(s') >= |cfg.song|)
  {
    SilentOutput(cfg, s, l);
    hide Due, Reached;
  }

  lemma StepSimulated(cfg: Config, duration: int, s: State, d: Deck, l: Label)
    requires Valid(cfg) && Matches(cfg, duration, s, d) && Permitted(s, l)
    ensures Simulated(cfg, duration, s, d, l)
  {
    if l.Call? {
      CallSimulated(cfg, duration, s, d, l);
    } else if l.Player? {
      if s.pc.Reading? {
        ReadSimulated(cfg, duration, s, d, l);
      } else if s.pc.Opening? || s.pc.Closing? {
        EdgeSimulated(cfg, duration, s, d, l);
      } else if Streaming(s.pc) {
        StreamSimulated(cfg, duration, s, d, l);
      } else {
        ControlSimulated(cfg, duration, s, d, l);
      }
    } else {
      SaneStep(cfg, s, l);
      hide PlayerStep;
    }
  }

  lemma DeckSnoc(cfg: Config, duration: int, es: seq<DeckEvent>, more: seq<DeckEvent>)
    requires |more| <= 1
    ensures DeckRun(cfg, duration, es + more) == Next(cfg, duration, DeckRun(cfg, duration, es), more)
    ensures DeckLog(cfg, duration, es + more) == DeckLog(cfg, duration, es) + NextOut(cfg, duration, DeckRun(cfg, duration, es), more)
    ensures Presses(es + more) == Presses(es) + if more != [] && more[0].Press? then [more[0].op] else []
  {
    if more == [] {
      assert es + more == es;
    } else {
      assert (es + more)[..|es + more| - 1] == es && (es + more)[|es + more| - 1] == more[0];
    }
    hide DeckStep, DeckOut;
  }

  /** playLocalItem is entered with nothing paused, sought or skipped. */
  ghost predicate FreshItem(s: State, duration: int) {
    && Entry(s)
    && s.ctrl.current == Some(Item(false, duration))
    && !s.ctrl.paused && s.ctrl.seek.None? && !s.ctrl.skip
  }

  ghost predicate DeckLike(cfg: Config, duration: int, s: State, ls: seq<Label>)
    requires Valid(cfg)
  {
    var s', script := Run(cfg, s, ls), Script(cfg, s, ls);
    var d := DeckRun(cfg, duration, script);
    && Matches(cfg, duration, s', d)
    && Log(cfg, s, ls) == DeckLog(cfg, duration, script)
    && Presses(script) + Pending(s', d) == Issued(duration, ls)
    && (Healthy(cfg, s, ls) ==> Explained(s', d) && Fault !in script)
  }

  lemma Unfold(cfg: Config, duration: int, s: State, ls: seq<Label>)
    requires Valid(cfg) && ls != []
    ensures var before, l := ls[..|ls| - 1], ls[|ls| - 1];
            var s1 := Run(cfg, s, before);
            && Run(cfg, s, ls) == Step(cfg, s1, l)
            && Log(cfg, s, ls) == Log(cfg, s, before) + Output(cfg, s1, l)
            && Script(cfg, s, ls) == Script(cfg, s, before) + Observed(cfg, s1, l)
            && Issued(duration, ls) == Issued(duration, before) + (if l.Call? then [Button(duration, l.op)] else [])
            && (Serial(cfg, s, ls) ==> Serial(cfg, s, before) && Permitted(s1, l))
            && (Healthy(cfg, s, ls) ==> Healthy(cfg, s, before) && ReadsCleanly(s1, l))
  {
    hide Step, Output, Observed, Button, Permitted, ReadsCleanly;
  }

  lemma DeckLikeStep(cfg: Config, duration: int, s: State, ls: seq<Label>)
    requires Valid(cfg) && ls != [] && Serial(cfg, s, ls) && DeckLike(cfg, duration, s, ls[..|ls| - 1])
    ensures DeckLike(cfg, duration, s, ls)
  {
    hide Run, Log, Script, Issued, Serial, Healthy, Step, Output, Observed, Matches, Explained, Pending,
         ReadsCleanly, Button, DeckRun, DeckLog, DeckStep, DeckOut, Presses, Permitted, Next, NextOut, Valid;
    Unfold(cfg, duration, s, ls);
    var before, l := ls[..|ls| - 1], ls[|ls| - 1];
    var s1, script := Run(cfg, s, before), Script(cfg, s, before);
    var d := DeckRun(cfg, duration, script);
    StepSimulated(cfg, duration, s1, d, l);
    var more := Observed(cfg, s1, l);
    DeckSnoc(cfg, duration, script, more);
    var button := if l.Call? then [Button(duration, l.op)] else [];
    var pressed := if more != [] && more[0].Press? then [more[0].op] else [];
    var s', d' := Run(cfg, s, ls), DeckRun(cfg, duration, script + more);
    assert (Presses(script) + pressed) + Pending(s', d') == Presses(script) + (pressed + Pending(s', d'));
    assert Presses(script) + (Pending(s1, d) + button) == (Presses(script) + Pending(s1, d)) + button;
    if more != [] { assert more == [more[0]]; }
  }

  lemma {:induction false} DeckLikeRun(cfg: Config, duration: int, s: State, ls: seq<Label>)
    requires Valid(cfg) && FreshItem(s, duration) && Serial(cfg, s, ls)
    ensures DeckLike(cfg, duration, s, ls)
  {
    if ls != [] {
      DeckLikeRun(cfg, duration, s, ls[..|ls| - 1]);
      DeckLikeStep(cfg, duration, s, ls);
    }
  }

  // ---- What can end the item ----

  /** The script halts only in a run in which the station is stopped. */
  lemma {:induction false} HaltNeedsStop(cfg: Config, s: State, ls: seq<Label>)
    requires Valid(cfg) && !s.stopped && Stop !in ls
    ensures !Run(cfg, s, ls).stopped && Halt !in Script(cfg, s, ls)
  {
    if ls != [] {
      var before, l := ls[..|ls| - 1], ls[|ls| - 1];
      assert l in ls && forall x <- before :: x in ls;
      HaltNeedsStop(cfg, s, before);
      HaltStep(cfg, Run(cfg, s, before), l);
    }
    hide Step, Observed;
  }

  lemma HaltStep(cfg: Config, s: State, l: Label)
    requires Valid(cfg) && !s.stopped && l != Stop
    ensures !Step(cfg, s, l).stopped && Halt !in Observed(cfg, s, l)
  {
    hide Due, IsDue, ReadCount, ReadEnd;
  }

  /** A deck is cut short only by a halt, a fault or its stop button. */
  lemma {:induction false} DeckCutShort(cfg: Config, duration: int, es: seq<DeckEvent>)
    requires DeckRun(cfg, duration, es).ended == Some(false)
    ensures Halt in es || Fault in es || Interrupt in Presses(es)
  {
    var before, e := es[..|es| - 1], es[|es| - 1];
    if DeckRun(cfg, duration, before).ended == Some(false) {
      DeckCutShort(cfg, duration, before);
    } else {
      assert e in es;
    }
  }

  lemma {:induction false} IssuedByCall(duration: int, ls: seq<Label>)
    requires Interrupt in Issued(duration, ls)
    ensures Call(Interrupt) in ls
  {
    var l := ls[|ls| - 1];
    if !(l.Call? && Button(duration, l.op) == Interrupt) {
      IssuedByCall(duration, ls[..|ls| - 1]);
    }
  }

  /** For every file, chunking and script of calls delivered one at a time to a stream in flight,
      playLocalItem is a tape deck: some script of deck events has exactly the run's output and
      ending, and presses exactly the calls issued, in order, save at most one still pending.  The
      deck ends by itself only at the end of its tape, halts only if the station was stopped, and
      fails only if the file could not be read. */
  lemma PlaysLikeTapeDeck(cfg: Config, duration: int, s: State, ls: seq<Label>)
    requires Valid(cfg) && FreshItem(s, duration) && Serial(cfg, s, ls)
    ensures exists script: seq<DeckEvent>, pending: seq<Op> ::
      && DeckLog(cfg, duration, script) == Log(cfg, s, ls)
      && Presses(script) + pending == Issued(duration, ls) && |pending| <= 1
      && DeckRun(cfg, duration, script).ended
      == (if Run(cfg, s, ls).pc.Finished? then Some(Run(cfg, s, ls).pc.completed) else None)
      && (!s.stopped && Stop !in ls ==> Halt !in script)
      && (Healthy(cfg, s, ls) ==> Fault !in script)
  {
    hide Step, Output, Observed, Sane, Explained, DeckStep, DeckOut;
    DeckLikeRun(cfg, duration, s, ls);
    var s', script := Run(cfg, s, ls), Script(cfg, s, ls);
    var d := DeckRun(cfg, duration, script);
    var pending := Pending(s', d);
    assert |pending| <= 1;
    if !s.stopped && Stop !in ls {
      HaltNeedsStop(cfg, s, ls);
    }
    hide Run, Log, DeckRun, DeckLog, Presses, Script, Serial, Healthy, Pending, Explained, Issued, FreshItem;
    assert d.ended == if s'.pc.Finished? then Some(s'.pc.completed) else None;
    assert DeckLog(cfg, duration, script) == Log(cfg, s, ls) && Presses(script) + pending == Issued(duration, ls);
  }

  /** An item whose file can be read is interrupted only by an Interrupt or by stopping the station:
      however it is paused, resumed and sought, otherwise it does not end before its file does. */
  lemma NeverCutShort(cfg: Config, duration: int, s: State, ls: seq<Label>)
    requires Valid(cfg) && FreshItem(s, duration) && Serial(cfg, s, ls) && Healthy(cfg, s, ls)
    requires !s.stopped && Stop !in ls && Call(Interrupt) !in ls
    ensures Run(cfg, s, ls).pc != Finished(false)
  {
    PlaysLikeTapeDeck(cfg, duration, s, ls);
    hide *;
    var script, pending :|
      && Presses(script) + pending == Issued(duration, ls)
      && DeckRun(cfg, duration, script).ended
      == (if Run(cfg, s, ls).pc.Finished? then Some(Run(cfg, s, ls).pc.completed) else None)
      && Halt !in script && Fault !in script;
    if Run(cfg, s, ls).pc == Finished(false) {
      DeckCutShort(cfg, duration, script);
      assert Interrupt in Presses(script) + pending;
      IssuedByCall(duration, ls);
    }
  }

  // ---- How soon a call is acted on ----

  /** A call waits to be acted on, and the player cannot get back to the file before it is. */
  predicate Awaiting(s: State) {
    || s.pc.AskStop? || s.pc.AskSkip? || s.pc.AskSeek? || s.pc.AskPaused? || s.pc.Finished?
    || (InSong(s.pc) && (s.cancelled || s.pc.Closing?))
    || (OnHold(s.pc) && !s.pc.HoldStop? && !s.pc.Opening? && (!s.ctrl.paused || (s.ctrl.seek.Some? && !s.pc.HoldTest?)))
  }

  /** Chunks that can still be sent before the call is acted on. */
  function Budget(s: State): nat {
    if s.pc.Reading? || s.pc.Ending? then 1
    else if s.pc.PollSeek? && s.ctrl.seek.None? then 1
    else 0
  }

  lemma AwaitingStep(cfg: Config, s: State, l: Label)
    requires Valid(cfg) && Sane(s) && Awaiting(s) && !l.Call? && !l.Lock? && !l.Cancel?
    requires Observed(cfg, s, l) == [] || !Observed(cfg, s, l)[0].Press?
    ensures Awaiting(Step(cfg, s, l))
    ensures |Output(cfg, s, l)| + Budget(Step(cfg, s, l)) <= Budget(s)
  {
    hide Due, TakeSeek;
  }

  lemma {:induction false} AwaitingRun(cfg: Config, s: State, ls: seq<Label>)
    requires Valid(cfg) && Sane(s) && Awaiting(s)
    requires forall l <- ls :: !l.Call? && !l.Lock? && !l.Cancel?
    requires Presses(Script(cfg, s, ls)) == []
    ensures Awaiting(Run(cfg, s, ls))
    ensures |Log(cfg, s, ls)| + Budget(Run(cfg, s, ls)) <= Budget(s)
  {
    if ls != [] {
      var before, l := ls[..|ls| - 1], ls[|ls| - 1];
      var s1 := Run(cfg, s, before);
      assert forall x <- before :: x in ls;
      assert l in ls;
      ObservedOne(cfg, s1, l);
      DeckSnoc(cfg, 0, Script(cfg, s, before), Observed(cfg, s1, l));
      AwaitingRun(cfg, s, before);
      SaneRun(cfg, s, before);
      AwaitingStep(cfg, s1, l);
    }
    hide Step, Output, Observed, Awaiting;
  }

  lemma ObservedOne(cfg: Config, s: State, l: Label)
    ensures |Observed(cfg, s, l)| <= 1
  {
  }

  /** A call that does something, made to a settled player, is acted on before more than one
      further chunk goes out. */
  lemma ActedOnWithinOneChunk(cfg: Config, s: State, op: Op, ls: seq<Label>)
    requires Valid(cfg) && Sane(s) && Settled(s) && Accepted(s.ctrl, op)
    requires forall l <- ls :: !l.Call? && !l.Lock? && !l.Cancel?
    requires Presses(Script(cfg, Step(cfg, s, Call(op)), ls)) == []
    ensures |Log(cfg, Step(cfg, s, Call(op)), ls)| <= 1
  {
    SaneStep(cfg, s, Call(op));
    assert Awaiting(Step(cfg, s, Call(op)));
    AwaitingRun(cfg, Step(cfg, s, Call(op)), ls);
    hide *;
  }

  // ---- ... and in how many steps, when the call cut the file's stream ----

  /** The file's stream is being cut, or the player is asking why, or has asked. */
  predicate CutOff(s: State) {
    || s.pc.AskStop? || s.pc.AskSkip? || s.pc.AskSeek? || s.pc.AskPaused? || s.pc.Finished?
    || (InSong(s.pc) && (s.cancelled || s.pc.Closing?))
  }

  /** Player steps at most until the call is acted on, or the item is over. */
  function StepsLeft(pc: Pc): nat {
    match pc
    case Ending(_, _) => 9
    case Reading(_) => 8
    case Pacing(_, _) => 7
    case Checking(_, _) => 6
    case Closing(_, _) => 5
    case AskStop => 4
    case AskSkip => 3
    case AskSeek => 2
    case AskPaused => 1
    case _ => 0
  }

  lemma CutOffStep(cfg: Config, s: State, l: Label)
    requires Valid(cfg) && CutOff(s) && !l.Call? && !l.Lock? && !l.Cancel?
    requires Observed(cfg, s, l) == [] || !Observed(cfg, s, l)[0].Press?
    ensures var s' := Step(cfg, s, l);
            && CutOff(s') && StepsLeft(s'.pc) <= StepsLeft(s.pc)
            && (l.Player? && StepsLeft(s.pc) > 0 ==> StepsLeft(s'.pc) < StepsLeft(s.pc))
  {
    hide Due, TakeSeek;
  }

  lemma {:induction false} CutOffRun(cfg: Config, s: State, ls: seq<Label>)
    requires Valid(cfg) && CutOff(s)
    requires forall l <- ls :: !l.Call? && !l.Lock? && !l.Cancel?
    requires Presses(Script(cfg, s, ls)) == []
    ensures var s' := Run(cfg, s, ls);
            CutOff(s') && (StepsLeft(s'.pc) == 0 || StepsLeft(s'.pc) + PlayerSteps(ls) <= StepsLeft(s.pc))
  {
    if ls != [] {
      var before, l := ls[..|ls| - 1], ls[|ls| - 1];
      var s1 := Run(cfg, s, before);
      assert forall x <- before :: x in ls;
      assert l in ls;
      ObservedOne(cfg, s1, l);
      DeckSnoc(cfg, 0, Script(cfg, s, before), Observed(cfg, s1, l));
      CutOffRun(cfg, s, before);
      CutOffStep(cfg, s1, l);
    }
    hide Step, Output, Observed, CutOff, StepsLeft;
  }

  /** A call that cuts the file's stream of a settled player is acted on, or the item is over,
      within nine steps of the player. */
  lemma ActedOnWithinNineSteps(cfg: Config, s: State, op: Op, ls: seq<Label>)
    requires Valid(cfg) && Sane(s) && Settled(s) && InSong(s.pc) && Cancels(s.ctrl, op)
    requires (forall l <- ls :: !l.Call? && !l.Lock? && !l.Cancel?) && PlayerSteps(ls) >= 9
    ensures var s1 := Step(cfg, s, Call(op));
            Presses(Script(cfg, s1, ls)) != [] || Run(cfg, s1, ls).pc.Finished?
  {
    var s1 := Step(cfg, s, Call(op));
    assert CutOff(s1) && s1.pc == s.pc;
    if Presses(Script(cfg, s1, ls)) == [] {
      hide Run, Step, Script, Presses;
      CutOffRun(cfg, s1, ls);
      Arrives(Run(cfg, s1, ls));
    }
  }

  lemma Arrives(s: State)
    requires CutOff(s) && StepsLeft(s.pc) == 0
    ensures s.pc.Finished?
  {
  }
}
