/** The station's outer player loop, Run, against everything other goroutines do to its queue:
    a transition system over the queue, the items' readiness and the player's own events. */
module RunLoop {
  import opened Options
  import opened PlayQueue

  datatype Outcome = Playable | Broken

  datatype Event =
    | SilenceStarted
    | SilenceEnded
    | QueueUpdated(length: nat)
    | QueueLow(length: nat)
    | Started(id: Id)
    | Ended(id: Id, completed: bool)
    | Error(id: Id)

  datatype Pc =
    | Top | Popping | Silence
    | Popped(id: Id) | Readiness(id: Id) | Waiting(id: Id) | Woken(id: Id) | Judging(id: Id)
    | Starting(id: Id) | Playing(id: Id) | Stopping(id: Id, completed: bool) | Recording(id: Id, completed: bool)
    | Exited(left: Option<Id>)  // the item in hand when the station was stopped while waiting

  datatype State = State(
    pc: Pc,
    wasSilent: bool,
    stopped: bool,
    queue: seq<Id>,
    settled: map<Id, Outcome>,            // items whose prefetch is over
    events: seq<Event>,                   // published by the player, in order
    history: seq<(Id, bool)>,
    ever: seq<Id>,                        // history variables: every item ever queued,
    dropped: seq<Id>,                     //   those removed, skipped past or cleared,
    cut: set<Id>)                         //   and those whose wait for readiness was cut short

  datatype Label =
    | Player(early: bool, completed: bool, low: bool)  // early: the wait's stream ended by itself
    | Append(id: Id) | PushFront(id: Id) | Remove(id: Id) | SkipTo(id: Id) | Clear
    | Settle(id: Id, outcome: Outcome)
    | Stop

  const HISTORY_MAX: nat := 20

  function LastN<T>(s: seq<T>, n: nat): seq<T> {
    if |s| > n then s[|s| - n..] else s
  }

  /** An item whose prefetch is not over reads as playable: its error is still unset. */
  predicate IsBroken(s: State, id: Id) {
    id in s.settled && s.settled[id].Broken?
  }

  /** What a step of the player publishes. */
  function News(s: State, low: bool): seq<Event> {
    match s.pc
    case Popping => if s.queue == [] && !s.wasSilent then [SilenceStarted] else []
    case Popped(_) => [QueueUpdated(|s.queue|)] + if low then [QueueLow(|s.queue|)] else []
    case Readiness(id) => if id !in s.settled && !s.wasSilent then [SilenceStarted] else []
    case Judging(id) => if IsBroken(s, id) then [Error(id)] else if s.wasSilent then [SilenceEnded] else []
    case Starting(id) => [Started(id)]
    case Stopping(id, c) => [Ended(id, c)]
    case _ => []
  }

  /** The rest of the step. */
  function PlayerStep(s: State, early: bool, completed: bool): State {
    match s.pc
    case Top => s.(pc := if s.stopped then Exited(None) else Popping)
    case Popping =>
      if s.queue == [] then s.(pc := Silence, wasSilent := true)
      else s.(pc := Popped(s.queue[0]), queue := s.queue[1..])
    case Silence => s.(pc := Top)
    case Popped(id) => s.(pc := Readiness(id))
    case Readiness(id) =>
      if id in s.settled then s.(pc := Judging(id)) else s.(pc := Waiting(id), wasSilent := true)
    case Waiting(id) =>
      if id in s.settled || s.stopped then s.(pc := Woken(id))
      else if early then s.(pc := Woken(id), cut := s.cut + {id})
      else s
    case Woken(id) => s.(pc := if s.stopped then Exited(Some(id)) else Judging(id))
    case Judging(id) => if IsBroken(s, id) then s.(pc := Top) else s.(pc := Starting(id), wasSilent := false)
    case Starting(id) => s.(pc := Playing(id))
    case Playing(id) => s.(pc := Stopping(id, completed))
    case Stopping(id, c) => s.(pc := Recording(id, c))
    case Recording(id, c) => s.(pc := Top, history := LastN(s.history + [(id, c)], HISTORY_MAX))
    case Exited(_) => s
  }

  function Step(s: State, l: Label): State {
    match l
    case Player(early, completed, low) =>
      PlayerStep(s, early, completed).(events := s.events + News(s, low))
    case Append(id) => if id in s.ever then s else s.(queue := s.queue + [id], ever := s.ever + [id])
    case PushFront(id) => if id in s.ever then s else s.(queue := [id] + s.queue, ever := s.ever + [id])
    case Remove(id) =>
      if id in s.queue then s.(queue := Without(s.queue, id), dropped := s.dropped + [id]) else s
    case SkipTo(id) => s.(queue := StartingAt(s.queue, id), dropped := s.dropped + Ahead(s.queue, id))
    case Clear => s.(queue := [], dropped := s.dropped + s.queue)
    case Settle(id, outcome) => if id in s.settled then s else s.(settled := s.settled[id := outcome])
    case Stop => s.(stopped := true)
  }

  function Run(s: State, ls: seq<Label>): State {
    if ls == [] then s else Step(Run(s, ls[..|ls| - 1]), ls[|ls| - 1])
  }

  /** A new station, some items possibly settled already. */
  ghost predicate Fresh(s: State) {
    && s.pc == Top && !s.wasSilent && s.queue == [] && s.events == [] && s.history == []
    && s.ever == [] && s.dropped == [] && s.cut == {}
  }

  // ---- What the queue operations do ----

  /** A new item goes to the back, or to the front; clearing drops everything pending, in order; the
      first outcome of an item stays. */
  lemma AddEffects(s: State, id: Id, outcome: Outcome)
    requires id !in s.ever
    ensures Step(s, Append(id)) == s.(queue := s.queue + [id], ever := s.ever + [id])
    ensures Step(s, PushFront(id)) == s.(queue := [id] + s.queue, ever := s.ever + [id])
    ensures Step(s, Clear) == s.(queue := [], dropped := s.dropped + s.queue)
    ensures Step(s, Settle(id, outcome)) == if id in s.settled then s else s.(settled := s.settled[id := outcome])
    ensures Step(s, Stop) == s.(stopped := true)
  {
  }

  /** A pending id goes to the head and stays: exactly what was ahead of it is dropped. */
  lemma SkipToEffect(s: State, id: Id)
    ensures var s' := Step(s, SkipTo(id));
            var n := |s.queue| - |s'.queue|;
            && s' == s.(queue := s'.queue, dropped := s'.dropped)
            && (id in s.queue ==>
                  && s'.queue != [] && s'.queue[0] == id && 0 <= n && s'.queue == s.queue[n..]
                  && id !in s.queue[..n] && s'.dropped == s.dropped + s.queue[..n])
            && (id !in s.queue ==> s'.queue == s.queue && s'.dropped == s.dropped)
  {
  }

  /** A pending id is dropped, once, and nothing else moves. */
  lemma RemoveEffect(s: State, id: Id)
    ensures var s' := Step(s, Remove(id));
            && s' == s.(queue := s'.queue, dropped := s'.dropped)
            && (id in s.queue ==>
                  && s'.dropped == s.dropped + [id]
                  && exists i :: 0 <= i < |s.queue| && s.queue[i] == id && id !in s.queue[..i]
                                 && s'.queue == s.queue[..i] + s.queue[i + 1..])
            && (id !in s.queue ==> s'.queue == s.queue && s'.dropped == s.dropped)
  {
  }

  // ---- What the loop does ----

  /** The head of the loop leaves only when the station is stopped; an empty queue means silence, and
      otherwise the first item is taken and the new length told. */
  lemma TakesTheFirst(s: State, early: bool, completed: bool, low: bool)
    ensures var s' := Step(s, Player(early, completed, low));
            && (s.pc.Top? ==> s' == s.(pc := if s.stopped then Exited(None) else Popping))
            && (s.pc.Popping? && s.queue == [] ==>
                  s'.pc.Silence? && s'.queue == [] && (s.wasSilent || s'.events == s.events + [SilenceStarted]))
            && (s.pc.Popping? && s.queue != [] ==>
                  s'.pc == Popped(s.queue[0]) && s'.queue == s.queue[1..] && s'.events == s.events)
            && (s.pc.Popped? ==>
                  && s'.pc == Readiness(s.pc.id) && s'.queue == s.queue
                  && s'.events == s.events + [QueueUpdated(|s.queue|)] + if low then [Event.QueueLow(|s.queue|)] else [])
            && (s.pc.Silence? ==> s' == s.(pc := Top))
  {
    hide LastN, IsBroken;
    assert s.events + [] == s.events;
    if s.pc.Popped? {
      var e, l := [QueueUpdated(|s.queue|)], [Event.QueueLow(|s.queue|)];
      assert s.events + (e + l) == s.events + e + l && s.events + (e + []) == s.events + e + [];
    }
  }

  /** A settled item is judged; any other is waited for, in silence, until it is settled, the station
      is stopped, or the silence returns early. */
  lemma WaitsUntilReady(s: State, early: bool, completed: bool, low: bool)
    ensures var s' := Step(s, Player(early, completed, low));
            && (s.pc.Readiness? && s.pc.id in s.settled ==> s'.pc == Judging(s.pc.id) && s'.events == s.events)
            && (s.pc.Readiness? && s.pc.id !in s.settled ==>
                  s'.pc == Waiting(s.pc.id) && (s.wasSilent || s'.events == s.events + [SilenceStarted]))
            && (s.pc.Waiting? ==>
                  s'.events == s.events
                  && s'.pc == if s.pc.id in s.settled || s.stopped || early then Woken(s.pc.id) else s.pc)
            && (s.pc.Woken? ==>
                  s'.events == s.events && s'.pc == if s.stopped then Exited(Some(s.pc.id)) else Judging(s.pc.id))
  {
    hide LastN, IsBroken;
    assert s.events + [] == s.events;
  }

  /** An item whose prefetch failed is reported, and the loop goes on without it; any other ends the
      silence, if there is one, starts, and is recorded with the reason it ended for. */
  lemma JudgesByOutcome(s: State, early: bool, completed: bool, low: bool)
    ensures var s' := Step(s, Player(early, completed, low));
            var broken := s.pc.Judging? && s.pc.id in s.settled && s.settled[s.pc.id] == Broken;
            && (broken ==> s'.events == s.events + [Error(s.pc.id)] && s'.pc == Top && s'.wasSilent == s.wasSilent)
            && (s.pc.Judging? && !broken ==>
                  && s'.pc == Starting(s.pc.id) && !s'.wasSilent
                  && s'.events == s.events + if s.wasSilent then [SilenceEnded] else [])
            && (s.pc.Starting? ==> s'.pc == Playing(s.pc.id) && s'.events == s.events + [Started(s.pc.id)])
            && (s.pc.Playing? ==> s'.pc == Stopping(s.pc.id, completed) && s'.events == s.events)
            && (s.pc.Stopping? ==>
                  s'.pc == Recording(s.pc.id, s.pc.completed) && s'.events == s.events + [Ended(s.pc.id, s.pc.completed)])
            && (s.pc.Recording? ==> s'.pc == Top && s'.events == s.events)
  {
    hide LastN;
    assert s.events + [] == s.events;
  }

  // ---- The grammar of the player's events ----

  function Last(es: seq<Event>): Option<Event> {
    if es == [] then None else Some(es[|es| - 1])
  }

  /** A SILENCE_STARTED has not been followed by its SILENCE_ENDED. */
  predicate SilenceOpen(es: seq<Event>) {
    es != [] &&
    match es[|es| - 1]
    case SilenceStarted => true
    case SilenceEnded => false
    case _ => SilenceOpen(es[..|es| - 1])
  }

  /** Whether an event may come next. */
  predicate MayFollow(es: seq<Event>, e: Event) {
    && (Last(es) == Some(SilenceEnded) ==> e.Started?)
    && (Last(es).Some? && Last(es).value.Started? ==> e.Ended?)
    && match e
       case SilenceStarted => !SilenceOpen(es)
       case SilenceEnded => SilenceOpen(es)
       case Started(_) => !SilenceOpen(es)
       case Ended(id, _) => Last(es) == Some(Started(id))
       case _ => true
  }

  ghost predicate Grammatical(es: seq<Event>) {
    es == [] || (Grammatical(es[..|es| - 1]) && MayFollow(es[..|es| - 1], es[|es| - 1]))
  }

  lemma Appended(es: seq<Event>, e: Event)
    ensures var es' := es + [e];
            && (Grammatical(es) && MayFollow(es, e) ==> Grammatical(es'))
            && Last(es') == Some(e)
            && SilenceOpen(es') == (if e.SilenceStarted? then true else if e.SilenceEnded? then false else SilenceOpen(es))
            && Tracks(es') == (if e.Ended? then Tracks(es) + [(e.id, e.completed)] else Tracks(es))
            && Errors(es') == (if e.Error? then Errors(es) + [e.id] else Errors(es))
  {
    assert (es + [e])[..|es + [e]| - 1] == es;
  }

  /** The tracks that ended, in order. */
  function Tracks(es: seq<Event>): seq<(Id, bool)> {
    if es == [] then [] else
    var e := es[|es| - 1];
    Tracks(es[..|es| - 1]) + if e.Ended? then [(e.id, e.completed)] else []
  }

  function Errors(es: seq<Event>): seq<Id> {
    if es == [] then [] else
    var e := es[|es| - 1];
    Errors(es[..|es| - 1]) + if e.Error? then [e.id] else []
  }

  /** The tracks already in the history: all that ended but the one being recorded. */
  function Recorded(s: State): seq<(Id, bool)> {
    var t := Tracks(s.events);
    if s.pc.Recording? && t != [] then t[..|t| - 1] else t
  }

  lemma LastNSnoc<T>(s: seq<T>, x: T, n: nat)
    ensures LastN(LastN(s, n) + [x], n) == LastN(s + [x], n)
  {
  }

  /** The events so far fit the program point. */
  ghost predicate EventInv(s: State) {
    && Grammatical(s.events)
    && SilenceOpen(s.events) == s.wasSilent
    && (Last(s.events) == Some(SilenceEnded) ==> s.pc.Starting?)
    && (Last(s.events).Some? && Last(s.events).value.Started? ==>
          (s.pc.Playing? || s.pc.Stopping?) && s.pc.id == Last(s.events).value.id)
    && (s.pc.Playing? || s.pc.Stopping? ==> Last(s.events) == Some(Started(s.pc.id)))
    && (s.pc.Starting? ==> !s.wasSilent)
    && s.history == LastN(Recorded(s), HISTORY_MAX)
    && (s.pc.Recording? ==> Tracks(s.events) == Recorded(s) + [(s.pc.id, s.pc.completed)])
  }

  lemma EventStep(s: State, l: Label)
    requires EventInv(s)
    ensures EventInv(Step(s, l))
  {
    if l.Player? {
      PlayerEvents(s, l);
    } else {
      var s' := Step(s, l);
      assert s'.pc == s.pc && s'.events == s.events && s'.wasSilent == s.wasSilent && s'.history == s.history;
      hide Step, Grammatical, SilenceOpen, Tracks, LastN;
    }
  }

  lemma QuietStep(s: State, l: Label)
    requires l.Player? && News(s, l.low) == [] && !s.pc.Recording?
    ensures var s' := Step(s, l);
            && s'.events == s.events && s'.history == s.history
            && !s'.pc.Recording? && !s.pc.Starting? && !s.pc.Stopping?
            && (s.pc.Playing? ==> s'.pc == Stopping(s.pc.id, l.completed))
            && (s'.pc.Playing? || s'.pc.Stopping? ==> s.pc.Playing?)
  {
    hide LastN, IsBroken;
    assert s.events + [] == s.events;
  }

  lemma QuietSilence(s: State, l: Label)
    requires l.Player? && News(s, l.low) == [] && !s.pc.Starting?
    ensures Step(s, l).wasSilent == s.wasSilent
    ensures Step(s, l).pc.Starting? ==> !s.wasSilent
  {
    hide LastN, IsBroken;
  }

  lemma NoNews(s: State, l: Label)
    requires EventInv(s) && l.Player? && News(s, l.low) == [] && !s.pc.Recording?
    ensures EventInv(Step(s, l))
  {
    hide Step, News, Grammatical, SilenceOpen, Tracks, LastN;
    QuietStep(s, l);
    QuietSilence(s, l);
    var s' := Step(s, l);
    assert Recorded(s') == Recorded(s) == Tracks(s.events);
    hide Recorded, MayFollow;
  }

  lemma RecordNews(s: State, l: Label)
    requires EventInv(s) && l.Player? && s.pc.Recording?
    ensures EventInv(Step(s, l))
  {
    hide Grammatical, SilenceOpen, Tracks, LastN;
    assert s.events + [] == s.events;
    LastNSnoc(Recorded(s), (s.pc.id, s.pc.completed), HISTORY_MAX);
  }

  lemma PoppedStep(s: State, l: Label)
    requires l.Player? && s.pc.Popped?
    ensures var s', es := Step(s, l), s.events + [QueueUpdated(|s.queue|)];
            && s'.events == (if l.low then es + [QueueLow(|s.queue|)] else es)
            && s'.pc == Readiness(s.pc.id) && s'.wasSilent == s.wasSilent && s'.history == s.history
  {
    hide LastN, IsBroken;
    var e, low := [QueueUpdated(|s.queue|)], [QueueLow(|s.queue|)];
    assert e + [] == e && s.events + (e + low) == s.events + e + low;
  }

  lemma QueueNews(s: State, l: Label)
    requires EventInv(s) && l.Player? && s.pc.Popped?
    ensures EventInv(Step(s, l))
  {
    hide Step, News, Grammatical, SilenceOpen, Tracks, LastN;
    PoppedStep(s, l);
    var e, low := QueueUpdated(|s.queue|), QueueLow(|s.queue|);
    Appended(s.events, e);
    Appended(s.events + [e], low);
  }

  /** Publishing any event but a track's start or end, at a fitting program point. */
  lemma OneEvent(s: State, s': State, e: Event)
    requires EventInv(s) && MayFollow(s.events, e) && !e.Ended? && !e.Started?
    requires s'.events == s.events + [e] && s'.history == s.history && !s.pc.Recording?
    requires s'.pc.Starting? || (!s'.pc.Playing? && !s'.pc.Stopping? && !s'.pc.Recording? && !e.SilenceEnded?)
    requires s'.wasSilent == SilenceOpen(s.events + [e]) && (s'.pc.Starting? ==> !s'.wasSilent)
    ensures EventInv(s')
  {
    hide Grammatical, SilenceOpen, Tracks, LastN, MayFollow;
    Appended(s.events, e);
    assert Recorded(s') == Tracks(s'.events) == Tracks(s.events) == Recorded(s);
    hide Recorded;
  }

  lemma SilenceStep(s: State, l: Label)
    requires l.Player? && (s.pc.Popping? || s.pc.Readiness?) && News(s, l.low) != []
    ensures var s' := Step(s, l);
            && !s.wasSilent && s'.wasSilent && s'.history == s.history
            && s'.events == s.events + [SilenceStarted] && (s'.pc.Silence? || s'.pc.Waiting?)
  {
    hide LastN, IsBroken;
  }

  lemma SilenceNews(s: State, l: Label)
    requires EventInv(s) && l.Player? && (s.pc.Popping? || s.pc.Readiness?) && News(s, l.low) != []
    ensures EventInv(Step(s, l))
  {
    hide Step, News, Grammatical, SilenceOpen, Tracks, LastN, Recorded;
    SilenceStep(s, l);
    Appended(s.events, SilenceStarted);
    assert MayFollow(s.events, SilenceStarted);
    hide EventInv, MayFollow;
    OneEvent(s, Step(s, l), SilenceStarted);
  }

  lemma JudgeStep(s: State, l: Label)
    requires l.Player? && s.pc.Judging? && News(s, l.low) != []
    ensures var s', id := Step(s, l), s.pc.id;
            && s'.history == s.history
            && if IsBroken(s, id) then s'.events == s.events + [Error(id)] && s'.pc == Top && s'.wasSilent == s.wasSilent
               else s.wasSilent && s'.events == s.events + [SilenceEnded] && s'.pc == Starting(id) && !s'.wasSilent
  {
    hide LastN, IsBroken;
  }

  lemma JudgeNews(s: State, l: Label)
    requires EventInv(s) && l.Player? && s.pc.Judging? && News(s, l.low) != []
    ensures EventInv(Step(s, l))
  {
    var e := if IsBroken(s, s.pc.id) then Error(s.pc.id) else SilenceEnded;
    hide Step, News, Grammatical, SilenceOpen, Tracks, LastN, IsBroken, Recorded;
    JudgeStep(s, l);
    Appended(s.events, e);
    assert MayFollow(s.events, e);
    hide EventInv, MayFollow;
    OneEvent(s, Step(s, l), e);
  }

  lemma StartNews(s: State, l: Label)
    requires EventInv(s) && l.Player? && s.pc.Starting?
    ensures EventInv(Step(s, l))
  {
    hide Grammatical, SilenceOpen, Tracks, LastN, IsBroken;
    Appended(s.events, Started(s.pc.id));
  }

  lemma EndNews(s: State, l: Label)
    requires EventInv(s) && l.Player? && s.pc.Stopping?
    ensures EventInv(Step(s, l))
  {
    hide Grammatical, SilenceOpen, Tracks, LastN;
    var t, e := Tracks(s.events), Ended(s.pc.id, s.pc.completed);
    Appended(s.events, e);
    assert (t + [(e.id, e.completed)])[..|t + [(e.id, e.completed)]| - 1] == t;
  }

  lemma PlayerEvents(s: State, l: Label)
    requires EventInv(s) && l.Player?
    ensures EventInv(Step(s, l))
  {
    if s.pc.Recording? {
      RecordNews(s, l);
    } else if News(s, l.low) == [] {
      NoNews(s, l);
    } else if s.pc.Popped? {
      QueueNews(s, l);
    } else if s.pc.Stopping? {
      EndNews(s, l);
    } else if s.pc.Judging? {
      JudgeNews(s, l);
    } else if s.pc.Starting? {
      StartNews(s, l);
    } else {
      SilenceNews(s, l);
    }
    hide EventInv, Step;
  }

  lemma {:induction false} EventRun(s: State, ls: seq<Label>)
    requires Fresh(s)
    ensures EventInv(Run(s, ls))
  {
    if ls != [] {
      EventRun(s, ls[..|ls| - 1]);
      EventStep(Run(s, ls[..|ls| - 1]), ls[|ls| - 1]);
    }
    hide Step;
  }

  lemma {:induction false} GrammarAt(es: seq<Event>, i: nat)
    requires Grammatical(es) && i < |es|
    ensures Grammatical(es[..i]) && MayFollow(es[..i], es[i])
  {
    if i < |es| - 1 {
      GrammarAt(es[..|es| - 1], i);
      assert es[..|es| - 1][..i] == es[..i];
    }
  }

  function Count(es: seq<Event>, e: Event): nat {
    if es == [] then 0 else Count(es[..|es| - 1], e) + if es[|es| - 1] == e then 1 else 0
  }

  /** Silence starts and ends in strict alternation, starts first. */
  lemma {:induction false} SilenceAlternates(es: seq<Event>)
    requires Grammatical(es)
    ensures Count(es, SilenceStarted) == Count(es, SilenceEnded) + if SilenceOpen(es) then 1 else 0
  {
    if es != [] {
      SilenceAlternates(es[..|es| - 1]);
    }
  }

  /** Every run of the player publishes, in its own order: silence started and ended strictly in
      turn, a track right after each silence ends, no track inside a silence, and each track's end
      right after its start.  Stated at every position i of the events so far. */
  lemma EventGrammar(s: State, ls: seq<Label>, i: nat)
    requires Fresh(s) && i < |Run(s, ls).events|
    ensures var es := Run(s, ls).events;
            && Count(es[..i], SilenceStarted) - Count(es[..i], SilenceEnded)
            == (if es[i].SilenceStarted? || es[i].Started? then 0 else if es[i].SilenceEnded? then 1
                else if SilenceOpen(es[..i]) then 1 else 0)
            && (i > 0 && es[i - 1].SilenceEnded? ==> es[i].Started?)
            && (i > 0 && es[i - 1].Started? ==> es[i].Ended? && es[i].id == es[i - 1].id)
            && (es[i].Ended? ==> i > 0 && es[i - 1] == Started(es[i].id))
  {
    EventRun(s, ls);
    var es := Run(s, ls).events;
    GrammarAt(es, i);
    SilenceAlternates(es[..i]);
    hide Run, Grammatical, Count, SilenceOpen, EventInv;
  }

  /** The positions of the track ends among the events, in order: these and no others. */
  ghost predicate EndPositions(es: seq<Event>, ks: seq<nat>) {
    && (forall i, j :: 0 <= i < j < |ks| ==> ks[i] < ks[j])
    && (forall j :: 0 <= j < |ks| ==> ks[j] < |es|)
    && (forall i :: 0 <= i < |es| ==> (es[i].Ended? <==> i in ks))
  }

  /** What was recorded is what those events say. */
  ghost predicate Says(es: seq<Event>, ks: seq<nat>, tracks: seq<(Id, bool)>) {
    |tracks| == |ks| && forall j :: 0 <= j < |ks| ==> ks[j] < |es| && es[ks[j]] == Ended(tracks[j].0, tracks[j].1)
  }

  lemma MoreEvents(es: seq<Event>, ks: seq<nat>, tracks: seq<(Id, bool)>, e: Event)
    requires EndPositions(es, ks) && Says(es, ks, tracks)
    ensures !e.Ended? ==> EndPositions(es + [e], ks) && Says(es + [e], ks, tracks)
  {
  }

  lemma OneMoreEnd(es: seq<Event>, ks: seq<nat>, tracks: seq<(Id, bool)>, id: Id, c: bool)
    requires EndPositions(es, ks) && Says(es, ks, tracks)
    ensures EndPositions(es + [Ended(id, c)], ks + [|es|]) && Says(es + [Ended(id, c)], ks + [|es|], tracks + [(id, c)])
  {
  }

  lemma {:induction false} EndsOf(es: seq<Event>) returns (ks: seq<nat>)
    ensures EndPositions(es, ks) && Says(es, ks, Tracks(es))
  {
    if es == [] {
      ks := [];
    } else {
      var before, e := es[..|es| - 1], es[|es| - 1];
      var ks' := EndsOf(before);
      assert before + [e] == es;
      assert Tracks(es) == Tracks(before) + if e.Ended? then [(e.id, e.completed)] else [];
      hide EndPositions, Says, Tracks;
      if e.Ended? {
        OneMoreEnd(before, ks', Tracks(before), e.id, e.completed);
        assert e == Ended(e.id, e.completed);
        ks := ks' + [|before|];
      } else {
        MoreEvents(before, ks', Tracks(before), e);
        assert Tracks(before) + [] == Tracks(before);
        ks := ks';
      }
    }
  }

  lemma LastSays(es: seq<Event>, ks: seq<nat>, tracks: seq<(Id, bool)>)
    requires Says(es, ks, tracks)
    ensures var h := LastN(tracks, 20);
            |h| == (if |ks| < 20 then |ks| else 20) && Says(es, ks[|ks| - |h|..], h)
  {
  }

  /** At the head of the loop the history is the last twenty tracks that ended, or all of them if
      there were no more, in order and with their reasons. */
  lemma HistoryIsLastTwenty(s: State, ls: seq<Label>)
    requires Fresh(s) && Run(s, ls).pc.Top?
    ensures var es, h := Run(s, ls).events, Run(s, ls).history;
            && h == LastN(Tracks(es), HISTORY_MAX)
            && exists ks: seq<nat> ::
                 EndPositions(es, ks) && |h| == (if |ks| < 20 then |ks| else 20) && Says(es, ks[|ks| - |h|..], h)
  {
    EventRun(s, ls);
    var es := Run(s, ls).events;
    var ks := EndsOf(es);
    hide Run, Grammatical, Tracks, Says, EndPositions;
    assert Run(s, ls).history == LastN(Tracks(es), HISTORY_MAX);
    hide EventInv;
    LastSays(es, ks, Tracks(es));
    hide LastN;
  }

  // ---- Only settled items start ----

  /** An item past its readiness check is settled, or its wait was cut short by an interruption of
      the silence. */
  ghost predicate ReadyInv(s: State) {
    && ReadyAt(s)
    && forall e <- s.events :: e.Started? ==> IsReady(s, e.id)
  }

  predicate IsReady(s: State, id: Id) {
    id in s.settled || id in s.cut
  }

  lemma ReadyGrows(s: State, l: Label, id: Id)
    requires IsReady(s, id)
    ensures IsReady(Step(s, l), id)
  {
    hide Without, StartingAt, Ahead, LastN, IsBroken, News;
  }

  /** The item in hand, where it must have passed its readiness check. */
  predicate PastCheck(pc: Pc) {
    pc.Judging? || pc.Starting? || pc.Playing? || pc.Stopping? || pc.Recording?
  }

  ghost predicate ReadyAt(s: State) {
    && (s.pc.Woken? ==> IsReady(s, s.pc.id) || s.stopped)
    && (PastCheck(s.pc) ==> IsReady(s, s.pc.id))
  }

  lemma ReadyMove(s: State, l: Label)
    requires ReadyAt(s) && l.Player?
    ensures ReadyAt(Step(s, l))
  {
    hide LastN, IsBroken, News;
    match s.pc
    case Waiting(_) =>
    case Woken(_) =>
    case _ =>
  }

  lemma ReadyHeld(s: State, l: Label)
    requires ReadyAt(s) && !l.Player?
    ensures ReadyAt(Step(s, l))
  {
    hide Without, StartingAt, Ahead;
    var s' := Step(s, l);
    assert s'.pc == s.pc && (s.stopped ==> s'.stopped);
    hide Step;
    if PastCheck(s.pc) || (s.pc.Woken? && !s.stopped) {
      ReadyGrows(s, l, s.pc.id);
    }
  }

  lemma ReadyStep(s: State, l: Label)
    requires ReadyInv(s)
    ensures ReadyInv(Step(s, l))
  {
    if l.Player? {
      ReadyMove(s, l);
    } else {
      ReadyHeld(s, l);
    }
    var s' := Step(s, l);
    var news := if l.Player? then News(s, l.low) else [];
    assert s'.events == s.events + news;
    assert forall e <- news :: e.Started? ==> IsReady(s, e.id);
    hide Step, News, IsReady, ReadyAt;
    forall e | e in s'.events && e.Started? ensures IsReady(s', e.id) {
      assert IsReady(s, e.id);
      ReadyGrows(s, l, e.id);
    }
  }

  /** Every track that started was settled first, unless its wait was cut short. */
  lemma {:induction false} StartedWereReady(s: State, ls: seq<Label>)
    requires Fresh(s)
    ensures ReadyInv(Run(s, ls))
  {
    if ls != [] {
      StartedWereReady(s, ls[..|ls| - 1]);
      ReadyStep(Run(s, ls[..|ls| - 1]), ls[|ls| - 1]);
    }
    hide Step;
  }

  // ---- ... and only those whose prefetch worked ----

  predicate FitToPlay(s: State, id: Id) {
    id in s.cut || (id in s.settled && s.settled[id] == Playable)
  }

  predicate Failed(s: State, id: Id) {
    id in s.settled && s.settled[id] == Broken
  }

  predicate Chosen(pc: Pc) {
    pc.Starting? || pc.Playing? || pc.Stopping? || pc.Recording?
  }

  /** Each item is where its outcome sends it, silence is open while there is nothing to play, and
      the loop leaves only when stopped. */
  ghost predicate PlayAt(s: State) {
    && (Chosen(s.pc) ==> FitToPlay(s, s.pc.id))
    && (s.pc.Exited? ==> s.stopped)
    && (s.pc.Silence? || s.pc.Waiting? || s.pc.Woken? ==> s.wasSilent)
    && (Chosen(s.pc) ==> !s.wasSilent)
  }

  ghost predicate PlayInv(s: State) {
    && ReadyInv(s) && PlayAt(s)
    && forall e <- s.events :: (e.Started? ==> FitToPlay(s, e.id)) && (e.Error? ==> Failed(s, e.id))
  }

  lemma OutcomesStay(s: State, l: Label, id: Id)
    ensures FitToPlay(s, id) ==> FitToPlay(Step(s, l), id)
    ensures Failed(s, id) ==> Failed(Step(s, l), id)
  {
    hide Without, StartingAt, Ahead, LastN, IsBroken, News;
  }

  lemma PlayMove(s: State, l: Label)
    requires ReadyInv(s) && PlayAt(s) && l.Player?
    ensures PlayAt(Step(s, l))
  {
    hide LastN, News;
    match s.pc
    case Judging(_) =>
    case Waiting(_) =>
    case _ =>
  }

  lemma PlayHeld(s: State, l: Label)
    requires PlayAt(s) && !l.Player?
    ensures PlayAt(Step(s, l))
  {
    hide Without, StartingAt, Ahead;
    var s' := Step(s, l);
    assert s'.pc == s.pc && s'.wasSilent == s.wasSilent && (s.stopped ==> s'.stopped);
    if Chosen(s.pc) {
      OutcomesStay(s, l, s.pc.id);
    }
    hide Step, FitToPlay;
  }

  lemma PlayStep(s: State, l: Label)
    requires PlayInv(s)
    ensures PlayInv(Step(s, l))
  {
    ReadyStep(s, l);
    if l.Player? {
      PlayMove(s, l);
    } else {
      PlayHeld(s, l);
    }
    var s' := Step(s, l);
    var news := if l.Player? then News(s, l.low) else [];
    assert s'.events == s.events + news;
    assert forall e <- news :: (e.Started? ==> FitToPlay(s, e.id)) && (e.Error? ==> Failed(s, e.id));
    hide Step, News, FitToPlay, Failed, ReadyInv, PlayAt;
    forall e | e in s'.events ensures (e.Started? ==> FitToPlay(s', e.id)) && (e.Error? ==> Failed(s', e.id)) {
      if e.Started? || e.Error? {
        OutcomesStay(s, l, e.id);
      }
    }
  }

  lemma {:induction false} PlayRun(s: State, ls: seq<Label>)
    requires Fresh(s)
    ensures PlayInv(Run(s, ls))
  {
    if ls != [] {
      PlayRun(s, ls[..|ls| - 1]);
      PlayStep(Run(s, ls[..|ls| - 1]), ls[|ls| - 1]);
    }
    hide Step;
  }

  /** Over every run: a track that started had its prefetch succeed, unless its wait was cut short;
      an item reported as an error had it fail, and then never starts, unless it was cut short too. */
  lemma OnlyGoodItemsStart(s: State, ls: seq<Label>, id: Id)
    requires Fresh(s)
    ensures var s' := Run(s, ls);
            && (Started(id) in s'.events ==> id in s'.cut || (id in s'.settled && s'.settled[id] == Playable))
            && (Error(id) in s'.events ==> id in s'.settled && s'.settled[id] == Broken)
            && (Error(id) in s'.events && Started(id) in s'.events ==> id in s'.cut)
  {
    PlayRun(s, ls);
    hide Run;
  }

  /** Over every run: while the loop has nothing to play the listener is told of silence, while a
      track is on there is none, and the loop is left only when the station is stopped. */
  lemma SilenceIsTold(s: State, ls: seq<Label>)
    requires Fresh(s)
    ensures var s' := Run(s, ls);
            && (s'.pc.Silence? || s'.pc.Waiting? || s'.pc.Woken? ==> SilenceOpen(s'.events))
            && (Chosen(s'.pc) ==> !SilenceOpen(s'.events))
            && (s'.pc.Playing? ==> Last(s'.events) == Some(Started(s'.pc.id)))
            && (s'.pc.Exited? ==> s'.stopped)
  {
    PlayRun(s, ls);
    EventRun(s, ls);
    hide Run, SilenceOpen, Grammatical, Tracks, LastN;
  }

  /** A wait that is cut short does start its item before prefetch is over. */
  lemma CutWaitStartsUnready(s: State)
    requires s.pc.Waiting? && s.pc.id !in s.settled && !s.stopped
    ensures var go := Player(true, false, false);
            var s' := Step(Step(Step(Step(s, go), go), go), go);
            s'.pc == Playing(s.pc.id) && s.pc.id !in s'.settled
  {
  }
}
