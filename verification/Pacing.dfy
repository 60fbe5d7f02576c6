/** Paced streaming: a streamFile call never runs ahead of real time by more than one chunk,
    however reads and scheduling delays fall and however many laps the silence clip takes. */
module Pacing {
  import opened Control
  import opened Player

  /** A chunk is on the wire, or the stream was cut before the chunk was due. */
  function Slack(cfg: Config, s: State): int {
    if s.pc.Pacing? || s.pc.Closing? then ChunkSize(cfg) else 0
  }

  /** What t nanoseconds allow, in bytes times a billion. */
  function Allowance(cfg: Config, t: int): int {
    cfg.bps * t
  }

  ghost predicate Paced(cfg: Config, s: State) {
    Streaming(s.pc) ==>
      && s.began <= s.start <= s.now
      && (s.total - s.sent) * NANOS <= Allowance(cfg, s.start - s.began + s.laps)
      && (s.sent - Slack(cfg, s)) * NANOS <= Allowance(cfg, s.now - s.start + 1)
  }

  lemma DueBound(cfg: Config, n: int, elapsed: int)
    requires Valid(cfg) && Due(cfg, n) <= elapsed
    ensures n * NANOS <= Allowance(cfg, elapsed + 1)
  {
    assert n * NANOS == cfg.bps * Due(cfg, n) + n * NANOS % cfg.bps;
    assert cfg.bps * Due(cfg, n) <= cfg.bps * elapsed;
  }

  lemma AllowanceSum(cfg: Config, x: int, y: int)
    ensures Allowance(cfg, x + y) == Allowance(cfg, x) + Allowance(cfg, y)
  {
  }

  lemma AllowanceGrows(cfg: Config, x: int, y: int)
    requires Valid(cfg) && x <= y
    ensures Allowance(cfg, x) <= Allowance(cfg, y)
  {
  }

  lemma AllowanceStart(cfg: Config)
    requires Valid(cfg)
    ensures Allowance(cfg, 0) == 0 <= Allowance(cfg, 1)
  {
  }

  lemma OthersPaced(cfg: Config, s: State, l: Label)
    requires Valid(cfg) && Paced(cfg, s) && !l.Player?
    ensures Paced(cfg, Step(cfg, s, l))
  {
    hide Allowance, ChunkSize, Apply, Cancels, PlayerStep;
    if l.Tick? {
      AllowanceGrows(cfg, s.now - s.start + 1, s.now + l.dt - s.start + 1);
    }
  }

  lemma ReadPaced(cfg: Config, s: State, l: Label)
    requires Valid(cfg) && Paced(cfg, s) && l.Player? && s.pc.Reading?
    ensures Paced(cfg, Step(cfg, s, l))
  {
    assert ReadCount(cfg, s, s.pc.clip, l.n) <= ChunkSize(cfg);
    hide Allowance, ChunkSize, ReadEnd;
  }

  lemma WaitPaced(cfg: Config, s: State, l: Label)
    requires Valid(cfg) && Paced(cfg, s) && l.Player? && s.pc.Pacing?
    ensures Paced(cfg, Step(cfg, s, l))
  {
    if IsDue(cfg, s) {
      DueBound(cfg, s.sent, s.now - s.start);
    }
    hide Allowance, ChunkSize, Due;
  }

  lemma LapPaced(cfg: Config, s: State, l: Label)
    requires Valid(cfg) && Paced(cfg, s) && l.Player? && (s.pc.Ending? || s.pc.Opening?)
    ensures Paced(cfg, Step(cfg, s, l))
  {
    assert ChunkSize(cfg) >= 0;
    AllowanceStart(cfg);
    AllowanceSum(cfg, s.start - s.began + s.laps, s.now - s.start + 1);
    hide Allowance, ChunkSize;
  }

  lemma RestPaced(cfg: Config, s: State, l: Label)
    requires Valid(cfg) && Paced(cfg, s) && l.Player?
    requires !s.pc.Reading? && !s.pc.Pacing? && !s.pc.Ending? && !s.pc.Opening?
    ensures Paced(cfg, Step(cfg, s, l))
  {
    assert ChunkSize(cfg) >= 0;
    hide Allowance, ChunkSize, Due;
    match s.pc
    case Checking(_, _) =>
    case Closing(_, _) =>
    case _ =>
  }

  lemma PacedStep(cfg: Config, s: State, l: Label)
    requires Valid(cfg) && Paced(cfg, s)
    ensures Paced(cfg, Step(cfg, s, l))
  {
    if !l.Player? {
      OthersPaced(cfg, s, l);
    } else if s.pc.Reading? {
      ReadPaced(cfg, s, l);
    } else if s.pc.Pacing? {
      WaitPaced(cfg, s, l);
    } else if s.pc.Ending? || s.pc.Opening? {
      LapPaced(cfg, s, l);
    } else {
      RestPaced(cfg, s, l);
    }
    hide Step, Paced;
  }

  lemma {:induction false} PacedRun(cfg: Config, s: State, ls: seq<Label>)
    requires Valid(cfg) && Paced(cfg, s)
    ensures Paced(cfg, Run(cfg, s, ls))
  {
    if ls != [] {
      PacedRun(cfg, s, ls[..|ls| - 1]);
      PacedStep(cfg, Run(cfg, s, ls[..|ls| - 1]), ls[|ls| - 1]);
    }
    hide Step;
  }

  /** A read takes a fifth of a second, or 4096 bytes when that rounds to nothing, unless less comes
      or is left; never more.  A failed read is kept as such, and the end of the file is seen only
      when everything was read; what was read is paced. */
  lemma ReadTakes(cfg: Config, s: State, clip: Clip, n: nat, end: End, ok: bool)
    requires Valid(cfg) && Sane(s) && s.pc == Reading(clip)
    ensures var chunk := if cfg.bps >= 5 then cfg.bps / 5 else 4096;
            var left := |Bytes(cfg, clip)| - if clip.Song? then s.offset + s.sent else s.sent;
            var m := Step(cfg, s, Player(n, end, ok)).sent - s.sent;
            && 0 <= m <= n && m <= chunk && (m <= left || m == 0)
            && (m == n || m == chunk || m == left || (m == 0 && left < 0))
            && var pc := Step(cfg, s, Player(n, end, ok)).pc;
            && (m > 0 ==> pc.Pacing? && pc.clip == clip) && (m == 0 ==> pc.Checking? && pc.clip == clip)
            && (pc.end.Failed? <==> end.Failed?) && (pc.end.Eof? <==> end.Eof? && m >= left)
  {
  }

  /** Every state of every run: the bytes the stream in flight has sent are at most what its
      elapsed time allows, plus one chunk, plus the nanosecond each lap's wait is rounded down by.
      The bound does not grow with the number of chunks. */
  lemma DriftFree(cfg: Config, s: State, ls: seq<Label>)
    requires Valid(cfg) && Entry(s)
    ensures var s' := Run(cfg, s, ls);
            var chunk := if cfg.bps >= 5 then cfg.bps / 5 else 4096;
            Streaming(s'.pc) ==>
              s'.total * NANOS <= cfg.bps * (s'.now - s'.began) + cfg.bps * (s'.laps + 1) + chunk * NANOS
  {
    PacedRun(cfg, s, ls);
    var s' := Run(cfg, s, ls);
    hide Run, Step;
    if Streaming(s'.pc) {
      AllowanceSum(cfg, s'.start - s'.began + s'.laps, s'.now - s'.start + 1);
      AllowanceSum(cfg, s'.now - s'.began, s'.laps + 1);
    }
  }

  // ---- ... and does not fall behind either ----

  lemma DueMeans(cfg: Config, n: int, elapsed: int)
    requires Valid(cfg)
    ensures Due(cfg, n) <= elapsed <==> n * 1_000_000_000 < cfg.bps * (elapsed + 1)
  {
    var d := Due(cfg, n);
    assert n * NANOS == cfg.bps * d + n * NANOS % cfg.bps;
    if d <= elapsed {
      assert cfg.bps * d <= cfg.bps * elapsed;
    } else {
      assert cfg.bps * d >= cfg.bps * (elapsed + 1);
    }
  }

  /** A chunk goes on exactly when the time for all that was sent, to the nanosecond, is up; until
      then an undisturbed player waits. */
  lemma GoesOnIff(cfg: Config, s: State, clip: Clip, e: End, n: nat, end: End, ok: bool)
    requires Valid(cfg) && s.pc == Pacing(clip, e) && !s.cancelled && !s.stopped
    ensures var s' := Step(cfg, s, Player(n, end, ok));
            if s.sent * 1_000_000_000 < cfg.bps * (s.now - s.start + 1) then s' == s.(pc := Checking(clip, e)) else s' == s
  {
    DueMeans(cfg, s.sent, s.now - s.start);
    hide Due;
  }

  /** The player has nothing to do but wait for the clock. */
  ghost predicate Blocked(cfg: Config, s: State)
    requires Valid(cfg)
  {
    forall n, end, ok :: Step(cfg, s, Player(n, end, ok)) == s
  }

  /** A run in which the clock moves only while the player waits for it, by at most g at a time. */
  ghost predicate Prompt(cfg: Config, s: State, ls: seq<Label>, g: nat)
    requires Valid(cfg)
  {
    ls == [] ||
    (Prompt(cfg, s, ls[..|ls| - 1], g)
     && (ls[|ls| - 1].Tick? ==> ls[|ls| - 1].dt <= g && Blocked(cfg, Run(cfg, s, ls[..|ls| - 1]))))
  }

  ghost predicate KeptUp(cfg: Config, s: State, g: nat) {
    Streaming(s.pc) ==>
      && Allowance(cfg, s.now - s.start) <= s.sent * NANOS + Allowance(cfg, g)
      && Allowance(cfg, s.start - s.began) <= (s.total - s.sent) * NANOS + Allowance(cfg, g * s.laps)
  }

  lemma NeverIdle(cfg: Config, s: State)
    requires Valid(cfg) && Streaming(s.pc) && !s.pc.Pacing?
    ensures Step(cfg, s, Player(0, More, true)).pc != s.pc
  {
    hide Due, IsDue;
  }

  lemma BlockedWaits(cfg: Config, s: State)
    requires Valid(cfg) && Blocked(cfg, s) && Streaming(s.pc)
    ensures s.pc.Pacing? && cfg.bps * (s.now - s.start + 1) <= s.sent * NANOS
  {
    assert Step(cfg, s, Player(0, More, false)) == s && Step(cfg, s, Player(0, More, true)) == s;
    if s.pc.Pacing? {
      assert !s.cancelled && !s.stopped by { hide Due; }
      GoesOnIff(cfg, s, s.pc.clip, s.pc.end, 0, More, true);
      hide Step;
    } else {
      NeverIdle(cfg, s);
    }
  }

  lemma TickKeptUp(cfg: Config, s: State, dt: nat, g: nat)
    requires Valid(cfg) && KeptUp(cfg, s, g) && Blocked(cfg, s) && dt <= g
    ensures KeptUp(cfg, Step(cfg, s, Tick(dt)), g)
  {
    if Streaming(s.pc) {
      BlockedWaits(cfg, s);
      AllowanceSum(cfg, s.now - s.start, dt);
      AllowanceSum(cfg, s.now - s.start, 1);
      AllowanceStart(cfg);
      AllowanceGrows(cfg, dt, g);
      assert Allowance(cfg, s.now - s.start + 1) == cfg.bps * (s.now - s.start + 1);
    }
    hide Allowance, PlayerStep, Blocked;
  }

  lemma LapKeptUp(cfg: Config, s: State, l: Label, g: nat)
    requires Valid(cfg) && KeptUp(cfg, s, g) && l.Player? && (s.pc.Ending? || s.pc.Opening?)
    ensures KeptUp(cfg, Step(cfg, s, l), g)
  {
    AllowanceStart(cfg);
    AllowanceGrows(cfg, 0, g);
    AllowanceSum(cfg, s.start - s.began, s.now - s.start);
    Distribute(g, s.laps);
    AllowanceSum(cfg, g * s.laps, g);
    assert Allowance(cfg, g * 0) == 0;
    hide Allowance;
  }

  lemma OtherKeptUp(cfg: Config, s: State, l: Label, g: nat)
    requires Valid(cfg) && KeptUp(cfg, s, g) && !l.Tick? && !(l.Player? && (s.pc.Ending? || s.pc.Opening?))
    ensures KeptUp(cfg, Step(cfg, s, l), g)
  {
    SendsOnly(cfg, s, l);
    hide Step, Allowance;
  }

  /** All other steps leave the clock alone and send, if anything, more. */
  lemma SendsOnly(cfg: Config, s: State, l: Label)
    requires Valid(cfg) && !l.Tick? && !(l.Player? && (s.pc.Ending? || s.pc.Opening?))
    ensures var s' := Step(cfg, s, l);
            && s'.now == s.now && s'.start == s.start && s'.began == s.began && s'.laps == s.laps
            && (Streaming(s'.pc) ==> Streaming(s.pc) && s'.sent >= s.sent && s'.total - s'.sent == s.total - s.sent)
  {
    if l.Player? {
      SendsPlayer(cfg, s, l);
    }
    hide PlayerStep, Apply, Cancels;
  }

  lemma SendsPlayer(cfg: Config, s: State, l: Label)
    requires Valid(cfg) && l.Player? && !s.pc.Ending? && !s.pc.Opening?
    ensures var s' := PlayerStep(cfg, s, l.n, l.end, l.ok);
            && s'.now == s.now && s'.start == s.start && s'.began == s.began && s'.laps == s.laps
            && (Streaming(s'.pc) ==> Streaming(s.pc) && s'.sent >= s.sent && s'.total - s'.sent == s.total - s.sent)
  {
    if s.pc.Reading? {
      hide ReadEnd;
      assert ReadCount(cfg, s, s.pc.clip, l.n) >= 0;
      hide ReadCount;
    } else {
      SendsNone(cfg, s, l);
      hide PlayerStep;
    }
  }

  lemma SendsNone(cfg: Config, s: State, l: Label)
    requires Valid(cfg) && l.Player? && !s.pc.Ending? && !s.pc.Opening? && !s.pc.Reading?
    ensures var s' := PlayerStep(cfg, s, l.n, l.end, l.ok);
            && s'.now == s.now && s'.start == s.start && s'.began == s.began && s'.laps == s.laps
            && (Streaming(s'.pc) ==> Streaming(s.pc) && s'.sent == s.sent && s'.total == s.total)
  {
    hide IsDue, ReadCount, ReadEnd;
    match s.pc
    case Closing(_, _) =>
    case Pacing(_, _) =>
    case _ =>
  }

  lemma {:induction false} KeptUpRun(cfg: Config, s: State, ls: seq<Label>, g: nat)
    requires Valid(cfg) && KeptUp(cfg, s, g) && Prompt(cfg, s, ls, g)
    ensures KeptUp(cfg, Run(cfg, s, ls), g)
  {
    if ls != [] {
      var before, l := ls[..|ls| - 1], ls[|ls| - 1];
      var s1 := Run(cfg, s, before);
      KeptUpRun(cfg, s, before, g);
      if l.Tick? {
        TickKeptUp(cfg, s1, l.dt, g);
      } else if l.Player? && (s1.pc.Ending? || s1.pc.Opening?) {
        LapKeptUp(cfg, s1, l, g);
      } else {
        OtherKeptUp(cfg, s1, l, g);
      }
    }
    hide Step, KeptUp;
  }

  /** The other side of DriftFree: when the player is never kept from a step it can take, and wakes
      at most g nanoseconds late, the stream in flight has sent all that its elapsed time allows,
      save what g allows, once for each lap.  Neither bound grows with the number of chunks. */
  lemma KeepsPace(cfg: Config, s: State, ls: seq<Label>, g: nat)
    requires Valid(cfg) && Entry(s) && Prompt(cfg, s, ls, g)
    ensures var s' := Run(cfg, s, ls);
            Streaming(s'.pc) ==>
              cfg.bps * (s'.now - s'.began) <= s'.total * NANOS + cfg.bps * (g * (s'.laps + 1))
  {
    KeptUpRun(cfg, s, ls, g);
    hide Run, Step, KeptUp, Prompt, Allowance;
    if Streaming(Run(cfg, s, ls).pc) {
      KeptUpMeans(cfg, Run(cfg, s, ls), g);
    }
  }

  lemma KeptUpMeans(cfg: Config, s: State, g: nat)
    requires Valid(cfg) && KeptUp(cfg, s, g) && Streaming(s.pc)
    ensures cfg.bps * (s.now - s.began) <= s.total * NANOS + cfg.bps * (g * (s.laps + 1))
  {
    var lap, before, laps := s.now - s.start, s.start - s.began, g * s.laps;
    Distribute(g, s.laps);
    AllowanceMeans(cfg, before + lap);
    AllowanceMeans(cfg, laps + g);
    hide Allowance;
    AllowanceSum(cfg, before, lap);
    AllowanceSum(cfg, laps, g);
  }

  lemma AllowanceMeans(cfg: Config, t: int)
    ensures Allowance(cfg, t) == cfg.bps * t
  {
  }

  lemma Distribute(g: int, n: int)
    ensures g * (n + 1) == g * n + g
  {
  }
}
