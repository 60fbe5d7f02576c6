/** What one Interrupt can do to two items.  Runs of a whole station in which a single Interrupt,
    its critical section and its late cancellation, lets its own item complete and ends the next,
    or ends both. */
module OneInterrupt {
  import opened Options
  import opened Control
  import opened PlayQueue
  import Conservation
  import opened SkipWins
  import opened HastyCalls
  import opened OnAir
  import P = Player
  import R = RunLoop

  /** The two halves of an Interrupt, and nothing else but the player, the clock and the loop. */
  predicate Plain(l: Label) {
    match l
    case Inner(i) => i.Player? || i.Tick? || i.Cancel? || i == P.Lock(Interrupt)
    case Outer(o) => o.Player?
  }

  ghost predicate AllPlain(ls: seq<Label>) {
    forall l <- ls :: Plain(l)
  }

  function Inners(ps: seq<P.Label>): seq<Label> {
    if ps == [] then [] else Inners(ps[..|ps| - 1]) + [Inner(ps[|ps| - 1])]
  }

  /** Steps inside the item on the air. */
  lemma {:induction false} InnerRun(u: Setup, s: Station, ps: seq<P.Label>)
    requires Valid(u) && s.run.pc.Playing? && P.Stop !in ps
    ensures var s' := Run(u, s, Inners(ps));
            s'.run == s.run && s'.player == P.Run(Cfg(u, s), s.player, ps)
  {
    if ps != [] {
      var before, i := ps[..|ps| - 1], ps[|ps| - 1];
      assert P.Stop !in before && i in ps;
      InnerRun(u, s, before);
      RunSnoc(u, s, Inners(before), Inner(i));
    }
    hide P.Step;
  }

  function CancelCount(ls: seq<Label>): nat {
    if ls == [] then 0 else CancelCount(ls[..|ls| - 1]) + if ls[|ls| - 1] == Inner(P.Cancel) then 1 else 0
  }

  function Cancellations(ps: seq<P.Label>): nat {
    if ps == [] then 0 else Cancellations(ps[..|ps| - 1]) + if ps[|ps| - 1].Cancel? then 1 else 0
  }

  /** How much of an Interrupt is used: so many critical sections, and so many cancellations. */
  ghost predicate Uses(ls: seq<Label>, sections: nat, cancels: nat) {
    AllPlain(ls) && InterruptCount(ls) == sections && CancelCount(ls) == cancels
  }

  lemma {:induction false} InnersUse(ps: seq<P.Label>)
    requires forall i <- ps :: Plain(Inner(i)) && i != P.Lock(Interrupt)
    ensures Uses(Inners(ps), 0, Cancellations(ps))
  {
    if ps != [] {
      var before, i := ps[..|ps| - 1], ps[|ps| - 1];
      assert i in ps && forall x <- before :: x in ps;
      InnersUse(before);
      assert Inners(ps)[..|Inners(ps)| - 1] == Inners(before);
    }
  }

  const Go: Label := Outer(R.Player(false, false, false))

  function Gos(n: nat): seq<Label> {
    if n == 0 then [] else Gos(n - 1) + [Go]
  }

  lemma {:induction false} GosUse(n: nat)
    ensures Uses(Gos(n), 0, 0)
  {
    if n > 0 {
      GosUse(n - 1);
      assert Gos(n)[..|Gos(n)| - 1] == Gos(n - 1);
    }
  }

  lemma {:induction false} CountConcat(a: seq<Label>, b: seq<Label>)
    ensures InterruptCount(a + b) == InterruptCount(a) + InterruptCount(b)
    ensures CancelCount(a + b) == CancelCount(a) + CancelCount(b)
  {
    if b == [] {
      assert a + b == a;
    } else {
      var b' := b[..|b| - 1];
      CountConcat(a, b');
      assert (a + b)[..|a + b| - 1] == a + b';
    }
    hide Interrupts;
  }

  lemma UseBoth(a: seq<Label>, b: seq<Label>, n: nat, m: nat, x: nat, y: nat)
    requires Uses(a, n, m) && Uses(b, x, y)
    ensures Uses(a + b, n + x, m + y)
  {
    CountConcat(a, b);
  }

  lemma GoOn(u: Setup, s: Station, n: nat)
    requires Valid(u)
    ensures Run(u, s, Gos(n + 1)) == Step(u, Run(u, s, Gos(n)), Go)
  {
    hide Step;
    RunSnoc(u, s, Gos(n), Go);
  }

  lemma GoThree(u: Setup, s: Station)
    requires Valid(u)
    ensures Run(u, s, Gos(3)) == Step(u, Step(u, Step(u, s, Go), Go), Go)
  {
    assert Run(u, s, Gos(0)) == s;
    hide Run, Step;
    GoOn(u, s, 0);
    GoOn(u, s, 1);
    GoOn(u, s, 2);
  }

  lemma LeavesEvents(u: Setup, s: Station)
    requires Valid(u)
    ensures forall e <- s.run.events :: e in Run(u, s, Gos(3)).run.events
  {
    GoThree(u, s);
    GoEvents(u, s);
    GoEvents(u, Step(u, s, Go));
    GoEvents(u, Step(u, Step(u, s, Go), Go));
    hide Step, Run;
  }

  lemma GoEvents(u: Setup, s: Station)
    requires Valid(u)
    ensures forall e <- s.run.events :: e in Step(u, s, Go).run.events
  {
    NextEvents(s.run, false, false, false);
    NextEvents(s.run, false, s.player.pc.Finished? && s.player.pc.completed, false);
    hide R.Step;
  }

  /** What the outer loop's steps leave alone while nothing is on the air. */
  ghost predicate SamePlayer(s: Station, s': Station) {
    s'.player == s.player && s'.run.stopped == s.run.stopped && s'.run.settled == s.run.settled
    && (forall e <- s.run.events :: e in s'.run.events)
  }

  /** The item's return, its end, and its place in the history. */
  lemma Leaves(u: Setup, s: Station)
    requires Valid(u) && s.run.pc.Playing? && Local(u, s) && s.player.pc.Finished?
    ensures var s' := Run(u, s, Gos(3));
            && s'.run.pc == R.Top && s'.run.queue == s.run.queue && s'.run.settled == s.run.settled
            && s'.run.stopped == s.run.stopped
            && R.Ended(s.run.pc.id, s.player.pc.completed) in s'.run.events
            && s'.player == s.player.(ctrl := NewTrack(s.player.ctrl, None, s.player.now))
  {
    GoThree(u, s);
    hide R.LastN, R.IsBroken, Run;
    var s1 := Step(u, s, Go);
    assert s1.run.pc == R.Stopping(s.run.pc.id, s.player.pc.completed) && s1.player == s.player;
    NextEvents(s1.run, false, false, false);
    var s2 := Step(u, s1, Go);
    assert s2.run.pc == R.Recording(s.run.pc.id, s.player.pc.completed);
    NextEvents(s2.run, false, false, false);
  }

  /** The next item is taken from the queue. */
  lemma Takes3(u: Setup, s: Station, b: Id)
    requires Valid(u) && s.run.pc == R.Top && !s.run.stopped && s.run.queue != [] && s.run.queue[0] == b
    ensures var s' := Run(u, s, Gos(3));
            s'.run.pc == R.Readiness(b) && SamePlayer(s, s') && s'.run.queue == s.run.queue[1..]
  {
    GoThree(u, s);
    hide R.LastN, R.IsBroken, R.News, Run;
    var s1 := Step(u, s, Go);
    assert s1.run.pc == R.Popping && s1.run.queue == s.run.queue;
    NextEvents(s.run, false, false, false);
    var s2 := Step(u, s1, Go);
    assert s2.run.pc == R.Popped(b);
    NextEvents(s1.run, false, false, false);
    NextEvents(s2.run, false, false, false);
  }

  /** ... and comes on. */
  lemma ComesOn(u: Setup, s: Station, b: Id)
    requires Valid(u) && s.run.pc == R.Readiness(b) && b in s.run.settled && s.run.settled[b].Playable? && !u.tracks(b).live
    ensures var s' := Run(u, s, Gos(3));
            && s'.run.pc == R.Playing(b) && s'.player == PutOn(u, b, s.player) && s'.run.stopped == s.run.stopped
            && s'.run.queue == s.run.queue && s'.run.settled == s.run.settled
            && forall e <- s.run.events :: e in s'.run.events
  {
    GoThree(u, s);
    LeavesEvents(u, s);
    hide R.LastN, R.News, Run, PutOn;
    var s1 := Step(u, s, Go);
    assert s1.run.pc == R.Judging(b) && s1.player == s.player && s1.run.stopped == s.run.stopped;
    assert s1.run.settled == s.run.settled && s1.run.queue == s.run.queue;
    JudgedWell(u, s1, b);
    hide R.Step;
  }

  lemma JudgedWell(u: Setup, s: Station, b: Id)
    requires Valid(u) && s.run.pc == R.Judging(b) && b in s.run.settled && s.run.settled[b].Playable? && !u.tracks(b).live
    ensures var s2 := Step(u, Step(u, s, Go), Go);
            s2.run.pc == R.Playing(b) && s2.player == PutOn(u, b, s.player) && s2.run.stopped == s.run.stopped
            && s2.run.queue == s.run.queue && s2.run.settled == s.run.settled
  {
    hide R.LastN, R.News, PutOn;
    var s1 := Step(u, s, Go);
    assert s1.run.pc == R.Starting(b) && s1.player == s.player && s1.run.stopped == s.run.stopped;
    assert s1.run.queue == s.run.queue && s1.run.settled == s.run.settled;
    NextPc(s1.run, false, false, false);
    var s2 := Step(u, s1, Go);
    assert s2.run.queue == s1.run.queue && s2.run.settled == s1.run.settled;
    hide R.Step;
  }

  /** From one local item that has returned to the next, with the flag as it was. */
  lemma HandsOver(u: Setup, s: Station, b: Id) returns (ls: seq<Label>)
    requires Valid(u) && s.run.pc.Playing? && Local(u, s) && s.player.pc.Finished? && !s.run.stopped
    requires s.run.queue != [] && s.run.queue[0] == b
    requires b in s.run.settled && s.run.settled[b].Playable? && !u.tracks(b).live
    ensures Uses(ls, 0, 0)
    ensures var s' := Run(u, s, ls);
            && s'.run.pc == R.Playing(b) && s'.run.stopped == s.run.stopped
            && R.Ended(s.run.pc.id, s.player.pc.completed) in s'.run.events
            && s'.player == PutOn(u, b, s.player.(ctrl := NewTrack(s.player.ctrl, None, s.player.now)))
  {
    hide Run, Step, PutOn, NewTrack, Uses;
    GosUse(3);
    UseBoth(Gos(3), Gos(3), 0, 0, 0, 0);
    UseBoth(Gos(3) + Gos(3), Gos(3), 0, 0, 0, 0);
    ls := Gos(3) + Gos(3) + Gos(3);
    Leaves(u, s);
    var s3 := Run(u, s, Gos(3));
    Takes3(u, s3, b);
    RunConcat(u, s, Gos(3), Gos(3));
    var s6 := Run(u, s3, Gos(3));
    ComesOn(u, s6, b);
    RunConcat(u, s, Gos(3) + Gos(3), Gos(3));
  }

  lemma OpenAndCut(cfg: P.Config, p: P.State)
    requires P.Valid(cfg) && P.Sane(p) && p.pc == P.Opening(P.Song) && p.ctrl.skip
    ensures var p2 := P.Step(cfg, P.Step(cfg, p, P.Player(0, P.More, true)), P.Cancel);
            P.Sane(p2) && Doomed(p2) && !Completing(p2.pc)
  {
    var go := P.Player(0, P.More, true);
    var p1 := P.Step(cfg, p, go);
    P.SaneStep(cfg, p, go);
    assert p1.pc == P.Reading(P.Song) && p1.ctrl.skip;
    CutDooms(cfg, p1, P.Cancel);
    P.SaneStep(cfg, p1, P.Cancel);
  }

  /** An item that comes on with the flag up is over as soon as it is cancelled. */
  lemma CutAtOnce(cfg: P.Config, p: P.State) returns (ps: seq<P.Label>)
    requires P.Valid(cfg) && P.Sane(p) && p.pc == P.Opening(P.Song) && p.ctrl.skip
    ensures P.Run(cfg, p, ps).pc == P.Finished(false)
    ensures (forall i <- ps :: i.Player? || i.Cancel?) && Cancellations(ps) == 1
  {
    hide P.Run, P.Step, P.Log, P.Sane, Doomed, Completing, Repeat;
    var go := P.Player(0, P.More, true);
    OpenAndCut(cfg, p);
    Conservation.RunTwo(cfg, p, go, P.Cancel);
    var p2, nine := P.Run(cfg, p, [go, P.Cancel]), Repeat(go, 9);
    RepeatSteps(go, 9);
    DoomedRun(cfg, p2, nine);
    P.RunConcat(cfg, p, [go, P.Cancel], nine);
    NotCompleting(P.Run(cfg, p2, nine).pc);
    ps := [go, P.Cancel] + nine;
    RepeatCancels(go, 9, [go, P.Cancel]);
    assert [go, P.Cancel][..1] == [go] && [go][..0] == [];
    assert Cancellations([go]) == 0;
  }

  lemma {:induction false} RepeatCancels(i: P.Label, n: nat, ps: seq<P.Label>)
    requires i.Player?
    ensures Cancellations(ps + Repeat(i, n)) == Cancellations(ps)
  {
    if n == 0 {
      assert ps + Repeat(i, 0) == ps;
    } else {
      RepeatCancels(i, n - 1, ps);
      var all := ps + Repeat(i, n);
      assert all[..|all| - 1] == ps + Repeat(i, n - 1) && all[|all| - 1] == i;
    }
  }

  lemma NotCompleting(pc: P.Pc)
    ensures pc.Finished? && !Completing(pc) ==> pc == P.Finished(false)
  {
  }

  function Repeat(i: P.Label, n: nat): (ps: seq<P.Label>)
    ensures forall x <- ps :: x == i
  {
    if n == 0 then [] else Repeat(i, n - 1) + [i]
  }

  lemma {:induction false} RepeatSteps(i: P.Label, n: nat)
    requires i.Player?
    ensures PlayerSteps(Repeat(i, n)) == n
  {
    if n > 0 {
      RepeatSteps(i, n - 1);
      assert Repeat(i, n)[..|Repeat(i, n)| - 1] == Repeat(i, n - 1);
    }
  }

  /** The critical section of an Interrupt, and nothing else yet. */
  lemma Section(u: Setup, s: Station) returns (lock: seq<Label>)
    requires Valid(u) && Inv(u, s) && s.run.pc.Playing? && Local(u, s)
    ensures lock == [Inner(P.Lock(Interrupt))] && Uses(lock, 1, 0)
    ensures var s1 := Run(u, s, lock);
            && Inv(u, s1) && s1.run == s.run
            && s1.player == s.player.(ctrl := s.player.ctrl.(paused := false, seek := None, skip := true))
  {
    lock := [Inner(P.Lock(Interrupt))];
    assert Run(u, s, []) == s && [] + lock == lock;
    RunSnoc(u, s, [], lock[0]);
    InvStep(u, s, lock[0]);
    assert lock[..0] == [] && InterruptCount([]) == 0;
    hide Inv;
  }

  ghost predicate ReadyNext(u: Setup, s: Station, b: Id) {
    s.run.queue != [] && s.run.queue[0] == b && b in s.run.settled && s.run.settled[b].Playable? && !u.tracks(b).live
  }

  /** An Interrupt made while item a is read, whose cancellation is late: there is a run in which the
      player finishes a without ever seeing the flag, and the cancellation ends b, the next item,
      for which no skip was asked. */
  lemma LateInterruptEndsNextItem(u: Setup, s: Station, b: Id) returns (ls: seq<Label>)
    requires Valid(u) && Inv(u, s) && s.run.pc.Playing? && Local(u, s) && ReadyNext(u, s, b)
    requires s.player.pc == P.Reading(P.Song) && !P.Done(s.player)
    ensures Uses(ls, 1, 1) && |ls| > 0 && ls[0] == Inner(P.Lock(Interrupt))
    ensures R.Ended(s.run.pc.id, true) in Run(u, s, ls).run.events && R.Ended(b, false) in Run(u, s, ls).run.events
  {
    var lock := Section(u, s);
    var s1 := Run(u, s, lock);
    hide Run, Step, Uses, Inners, P.Run, P.Step, P.Log;
    var cfg := Cfg(u, s1);
    var play := PlaysOut(cfg, s1.player);
    StopFree(play);
    InnerRun(u, s1, play);
    InnersUse(play);
    FlagKept(cfg, s1.player, play);
    var rest := ThenEndsNext(u, s1, Inners(play), b);
    UseBoth(lock, Inners(play) + rest, 1, 0, 0, 1) by { UseBoth(Inners(play), rest, 0, 0, 0, 1); }
    RunConcat(u, s, lock, Inners(play) + rest);
    ls := lock + (Inners(play) + rest);
  }

  /** An Interrupt that finds the player at its question for a seek or a pause, past the skip: the
      item is over at once, without taking the flag, and the cancellation ends the next item too. */
  lemma InterruptEndsTwoItems(u: Setup, s: Station, b: Id) returns (ls: seq<Label>)
    requires Valid(u) && Inv(u, s) && s.run.pc.Playing? && Local(u, s) && ReadyNext(u, s, b)
    requires (s.player.pc.AskSeek? || s.player.pc.AskPaused?) && !s.player.stopped
    ensures Uses(ls, 1, 1) && |ls| > 0 && ls[0] == Inner(P.Lock(Interrupt))
    ensures R.Ended(s.run.pc.id, false) in Run(u, s, ls).run.events && R.Ended(b, false) in Run(u, s, ls).run.events
  {
    var lock := Section(u, s);
    var s1 := Run(u, s, lock);
    hide Run, Step, Uses, Inners, P.Run, P.Step, P.Log;
    var fall := FallsThrough(Cfg(u, s1), s1.player);
    StopFree(fall);
    InnerRun(u, s1, fall);
    InnersUse(fall);
    AtRestSane(s1.player);
    var rest := ThenEndsNext(u, s1, Inners(fall), b);
    UseBoth(lock, Inners(fall) + rest, 1, 0, 0, 1) by { UseBoth(Inners(fall), rest, 0, 0, 0, 1); }
    RunConcat(u, s, lock, Inners(fall) + rest);
    ls := lock + (Inners(fall) + rest);
  }

  lemma AtRestSane(p: P.State)
    requires P.Sane(p) && (p.pc.AskSeek? || p.pc.AskPaused?)
    ensures P.Sane(p.(pc := P.Finished(false)))
  {
  }

  /** However the first item came to return, with the flag up: the next is ended. */
  lemma ThenEndsNext(u: Setup, s: Station, before: seq<Label>, b: Id) returns (ls: seq<Label>)
    requires Valid(u) && ReadyNext(u, s, b)
    requires var s1 := Run(u, s, before);
             && s1.run == s.run && s1.run.pc.Playing? && Local(u, s1) && !s1.run.stopped
             && s1.player.pc.Finished? && s1.player.ctrl.skip && P.Sane(s1.player)
    ensures Uses(ls, 0, 1)
    ensures var s1, s2 := Run(u, s, before), Run(u, s, before + ls);
            R.Ended(s1.run.pc.id, s1.player.pc.completed) in s2.run.events && R.Ended(b, false) in s2.run.events
  {
    hide Run, Step, Uses, P.Sane;
    var s1 := Run(u, s, before);
    var over := HandsOver(u, s1, b);
    var s2 := Run(u, s1, over);
    BeginSane(u, s1, b, s2.player);
    var cut := CutsNext(u, s2, b);
    UseBoth(over, cut, 0, 0, 0, 1);
    RunConcat(u, s1, over, cut);
    ls := over + cut;
    RunConcat(u, s, before, ls);
  }

  lemma CutsNext(u: Setup, s: Station, b: Id) returns (ls: seq<Label>)
    requires Valid(u) && s.run.pc == R.Playing(b) && !u.tracks(b).live
    requires P.Sane(s.player) && s.player.pc == P.Opening(P.Song) && s.player.ctrl.skip
    ensures Uses(ls, 0, 1)
    ensures var s' := Run(u, s, ls);
            R.Ended(b, false) in s'.run.events && forall e <- s.run.events :: e in s'.run.events
  {
    hide Run, Step, P.Run, P.Step, P.Log, Uses, Inners;
    var ps := CutAtOnce(Cfg(u, s), s.player);
    InnersUse(ps);
    InnerRun(u, s, ps);
    var s1 := Run(u, s, Inners(ps));
    LeavesEvents(u, s1);
    GosUse(3);
    UseBoth(Inners(ps), Gos(3), 0, 1, 0, 0);
    RunConcat(u, s, Inners(ps), Gos(3));
    Leaves(u, s1);
    ls := Inners(ps) + Gos(3);
  }

  lemma BeginSane(u: Setup, s: Station, b: Id, p: P.State)
    requires P.Sane(s.player) && s.player.pc.Finished? && !u.tracks(b).live
    requires p == PutOn(u, b, s.player.(ctrl := NewTrack(s.player.ctrl, None, s.player.now)))
    ensures P.Sane(p) && p.pc == P.Opening(P.Song) && p.ctrl.skip == s.player.ctrl.skip
  {
  }

  lemma {:induction false} StopFree(ps: seq<P.Label>)
    requires Undisturbed(ps)
    ensures P.Stop !in ps && Cancellations(ps) == 0
    ensures forall i <- ps :: Plain(Inner(i)) && i != P.Lock(Interrupt)
  {
    if ps != [] {
      UndisturbedSnoc(ps);
      StopFree(ps[..|ps| - 1]);
    }
  }

  /** A player left to itself, in the first stream of an item it completes, never takes the flag. */
  lemma {:induction false} FlagKept(cfg: P.Config, p: P.State, ps: seq<P.Label>)
    requires P.Valid(cfg) && P.Sane(p) && Undisturbed(ps) && p.ctrl.skip && P.Run(cfg, p, ps).pc == P.Finished(true)
    ensures P.Run(cfg, p, ps).ctrl.skip && P.Sane(P.Run(cfg, p, ps)) && P.Run(cfg, p, ps).stopped == p.stopped
  {
    P.SaneRun(cfg, p, ps);
    FlagOrOver(cfg, p, ps);
  }

  lemma {:induction false} FlagOrOver(cfg: P.Config, p: P.State, ps: seq<P.Label>)
    requires P.Valid(cfg) && Undisturbed(ps) && p.ctrl.skip
    ensures var q := P.Run(cfg, p, ps);
            (q.ctrl.skip || q.pc == P.Finished(false)) && q.stopped == p.stopped
  {
    if ps != [] {
      var before, i := ps[..|ps| - 1], ps[|ps| - 1];
      assert i in ps && forall x <- before :: x in ps;
      FlagOrOver(cfg, p, before);
      var q := P.Run(cfg, p, before);
      FlagOfPlayer(cfg, q, i);
      KeepsItem(cfg, q, i);
      if i.Player? && (q.pc.AskSkip? || q.pc.HoldSkip?) && q.ctrl.skip {
        TakingEnds(cfg, q, i);
      }
    }
    hide P.Step;
  }

  lemma TakingEnds(cfg: P.Config, p: P.State, i: P.Label)
    requires P.Valid(cfg) && i.Player? && (p.pc.AskSkip? || p.pc.HoldSkip?) && p.ctrl.skip
    ensures P.Step(cfg, p, i).pc == P.Finished(false)
  {
  }

  // ---- ... from the start ----

  /** A station just registered gets two items, and reads the first. */
  lemma ReadsFirst(u: Setup, s: Station, a: Id, b: Id) returns (ls: seq<Label>)
    requires Valid(u) && Fresh(s) && !s.run.stopped && a != b && a !in s.run.settled && b !in s.run.settled
    requires !u.tracks(a).live && !u.tracks(b).live
    ensures InterruptCount(ls) == 0 && CancelCount(ls) == 0
    ensures var s' := Run(u, s, ls);
            && Inv(u, s') && s'.run.pc == R.Playing(a) && Local(u, s') && ReadyNext(u, s', b)
            && s'.player.pc == P.Reading(P.Song) && !P.Done(s'.player)
            && Seekable(s'.player.ctrl) && !s'.player.ctrl.paused && s'.player.ctrl.seek.None? && !s'.player.ctrl.skip
  {
    var load := Loads(u, s, a, b);
    var s4 := Run(u, s, load);
    hide Run, Step, Inv, PutOn, P.Step, P.Sane;
    GosUse(3);
    Takes3(u, s4, a);
    var s7 := Run(u, s4, Gos(3));
    ComesOn(u, s7, a);
    var s10 := Run(u, s7, Gos(3));
    var open := [Inner(P.Player(0, P.More, true))];
    Opens(u, s10, s.player, a);
    RunConcat(u, s, load, Gos(3));
    RunConcat(u, s, load + Gos(3), Gos(3));
    RunConcat(u, s, load + Gos(3) + Gos(3), open);
    ls := load + Gos(3) + Gos(3) + open;
    CountConcat(load, Gos(3));
    CountConcat(load + Gos(3), Gos(3));
    CountConcat(load + Gos(3) + Gos(3), open);
    assert open[..0] == [] && InterruptCount(open) == 0 && CancelCount(open) == 0;
    InvRun(u, s, ls);
  }

  lemma Loads(u: Setup, s: Station, a: Id, b: Id) returns (ls: seq<Label>)
    requires Valid(u) && Fresh(s) && a != b && a !in s.run.settled && b !in s.run.settled
    ensures InterruptCount(ls) == 0 && CancelCount(ls) == 0
    ensures var s' := Run(u, s, ls);
            && s'.player == s.player && s'.run.pc == R.Top && s'.run.stopped == s.run.stopped && s'.run.queue == [a, b]
            && a in s'.run.settled && s'.run.settled[a].Playable? && b in s'.run.settled && s'.run.settled[b].Playable?
  {
    var l1, l2, l3, l4 := Outer(R.Append(a)), Outer(R.Append(b)), Outer(R.Settle(a, R.Playable)), Outer(R.Settle(b, R.Playable));
    assert Run(u, s, []) == s && InterruptCount([]) == 0 && CancelCount([]) == 0;
    LoadSteps(u, s, a, b);
    hide Run, Step, InterruptCount, CancelCount;
    RunSnoc(u, s, [], l1);
    RunSnoc(u, s, [l1], l2);
    RunSnoc(u, s, [l1, l2], l3);
    RunSnoc(u, s, [l1, l2, l3], l4);
    assert [] + [l1] == [l1] && [l1] + [l2] == [l1, l2] && [l1, l2] + [l3] == [l1, l2, l3];
    ls := [l1, l2, l3] + [l4];
    OneQuiet([], l1);
    OneQuiet([l1], l2);
    OneQuiet([l1, l2], l3);
    OneQuiet([l1, l2, l3], l4);
  }

  lemma LoadSteps(u: Setup, s: Station, a: Id, b: Id)
    requires Valid(u) && Fresh(s) && a != b && a !in s.run.settled && b !in s.run.settled
    ensures var s1 := Step(u, Step(u, s, Outer(R.Append(a))), Outer(R.Append(b)));
            var s' := Step(u, Step(u, s1, Outer(R.Settle(a, R.Playable))), Outer(R.Settle(b, R.Playable)));
            && s'.player == s.player && s'.run.pc == R.Top && s'.run.stopped == s.run.stopped && s'.run.queue == [a, b]
            && a in s'.run.settled && s'.run.settled[a].Playable? && b in s'.run.settled && s'.run.settled[b].Playable?
  {
  }

  lemma OneQuiet(ls: seq<Label>, l: Label)
    requires !Interrupts(l) && l != Inner(P.Cancel)
    ensures InterruptCount(ls + [l]) == InterruptCount(ls) && CancelCount(ls + [l]) == CancelCount(ls)
  {
    assert (ls + [l])[..|ls + [l]| - 1] == ls;
  }

  lemma Opens(u: Setup, s: Station, p: P.State, a: Id)
    requires Valid(u) && s.run.pc == R.Playing(a) && !u.tracks(a).live && s.player == PutOn(u, a, p) && P.Sane(p) && p.pc.Finished?
    requires !p.ctrl.skip && !p.stopped
    ensures var s' := Run(u, s, [Inner(P.Player(0, P.More, true))]);
            && s'.run == s.run && s'.player.pc == P.Reading(P.Song) && !P.Done(s'.player)
            && Seekable(s'.player.ctrl) && !s'.player.ctrl.paused && s'.player.ctrl.seek.None? && !s'.player.ctrl.skip
  {
    var go := Inner(P.Player(0, P.More, true));
    assert Run(u, s, []) == s && [] + [go] == [go];
    RunSnoc(u, s, [], go);
  }

  /** From the start, for any two local items: with one Interrupt, its two halves apart, the first
      completes and the second is interrupted. */
  lemma LateFromStart(u: Setup, s: Station, a: Id, b: Id) returns (ls: seq<Label>)
    requires Valid(u) && Fresh(s) && !s.run.stopped && a != b && a !in s.run.settled && b !in s.run.settled
    requires !u.tracks(a).live && !u.tracks(b).live
    ensures InterruptCount(ls) == 1 && CancelCount(ls) == 1
    ensures R.Ended(a, true) in Run(u, s, ls).run.events && R.Ended(b, false) in Run(u, s, ls).run.events
  {
    var start := ReadsFirst(u, s, a, b);
    hide Run, Step, Inv, P.Done;
    var rest := LateInterruptEndsNextItem(u, Run(u, s, start), b);
    RunConcat(u, s, start, rest);
    CountConcat(start, rest);
    ls := start + rest;
  }

  /** A Pause brings the player to its question for the pause. */
  lemma ToThePause(cfg: P.Config, p: P.State) returns (ps: seq<P.Label>)
    requires P.Valid(cfg) && P.Sane(p) && p.pc == P.Reading(P.Song) && !P.Done(p) && Seekable(p.ctrl)
    requires !p.ctrl.paused && p.ctrl.seek.None? && !p.ctrl.skip
    ensures var p' := P.Run(cfg, p, ps);
            p'.pc.AskPaused? && p'.ctrl.paused && !p'.stopped
    ensures P.Stop !in ps && forall i <- ps :: i.Player? || i == P.Call(Pause)
  {
    hide P.Run, P.Step, P.Log;
    var go := P.Player(0, P.More, true);
    PausesAndReads(cfg, p);
    Conservation.RunTwo(cfg, p, P.Call(Pause), go);
    FiveQuestions(cfg, P.Step(cfg, P.Step(cfg, p, P.Call(Pause)), go));
    P.RunConcat(cfg, p, [P.Call(Pause), go], [go, go, go, go, go]);
    ps := [P.Call(Pause), go] + [go, go, go, go, go];
  }

  lemma PausesAndReads(cfg: P.Config, p: P.State)
    requires P.Valid(cfg) && P.Sane(p) && p.pc == P.Reading(P.Song) && !P.Done(p) && Seekable(p.ctrl)
    requires !p.ctrl.paused && p.ctrl.seek.None? && !p.ctrl.skip
    ensures var p2 := P.Step(cfg, P.Step(cfg, p, P.Call(Pause)), P.Player(0, P.More, true));
            && p2.pc == P.Checking(P.Song, P.More) && p2.cancelled && !p2.stopped
            && p2.ctrl.paused && p2.ctrl.seek.None? && !p2.ctrl.skip
  {
  }

  lemma FiveQuestions(cfg: P.Config, p: P.State)
    requires P.Valid(cfg) && p.pc == P.Checking(P.Song, P.More) && p.cancelled && !p.stopped
    requires p.ctrl.paused && p.ctrl.seek.None? && !p.ctrl.skip
    ensures var go := P.Player(0, P.More, true);
            var p' := P.Run(cfg, p, [go, go, go, go, go]);
            p'.pc.AskPaused? && p'.ctrl.paused && !p'.stopped
  {
    var go := P.Player(0, P.More, true);
    Conservation.RunFive(cfg, p, go, go, go, go, go);
    hide P.Run, P.Log;
  }

  lemma {:induction false} InnersQuiet(ps: seq<P.Label>)
    requires forall i <- ps :: i.Player? || i == P.Call(Pause)
    ensures InterruptCount(Inners(ps)) == 0 && CancelCount(Inners(ps)) == 0
  {
    if ps != [] {
      var before, i := ps[..|ps| - 1], ps[|ps| - 1];
      assert i in ps && forall x <- before :: x in ps;
      InnersQuiet(before);
      OneQuiet(Inners(before), Inner(i));
    }
  }

  /** From the start, for any two local items: a Pause of the first that would have held it, and one
      Interrupt, interrupt both. */
  lemma BothFromStart(u: Setup, s: Station, a: Id, b: Id) returns (ls: seq<Label>)
    requires Valid(u) && Fresh(s) && !s.run.stopped && a != b && a !in s.run.settled && b !in s.run.settled
    requires !u.tracks(a).live && !u.tracks(b).live
    ensures InterruptCount(ls) == 1 && CancelCount(ls) == 1
    ensures R.Ended(a, false) in Run(u, s, ls).run.events && R.Ended(b, false) in Run(u, s, ls).run.events
  {
    var start := ReadsFirst(u, s, a, b);
    var s1 := Run(u, s, start);
    var pause := ToThePause(Cfg(u, s1), s1.player);
    InnersQuiet(pause);
    InvRun(u, s, start + Inners(pause));
    hide Run, Step, Inv, P.Run, P.Done, Inners;
    InnerRun(u, s1, pause);
    RunConcat(u, s, start, Inners(pause));
    var rest := InterruptEndsTwoItems(u, Run(u, s, start + Inners(pause)), b);
    RunConcat(u, s, start + Inners(pause), rest);
    CountConcat(start, Inners(pause));
    CountConcat(start + Inners(pause), rest);
    ls := start + Inners(pause) + rest;
  }
}
