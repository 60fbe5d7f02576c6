/** The player goroutine inside one local queue item, as a transition system.

    Each Player label is one atomic step of playLocalItem/streamFile; every other label is a
    step of some other goroutine.  A label that cannot act leaves the state as it is, so every
    sequence of labels is a run, and a theorem about all sequences covers every interleaving. */
module Player {
  import opened Options
  import opened Control

  type Byte = x: int | 0 <= x < 256

  datatype Config = Config(song: seq<Byte>, silence: seq<Byte>, bps: int)

  ghost predicate Valid(cfg: Config) {
    0 < cfg.bps
  }

  /** Bytes read at a time: a fifth of a second, or 4096 when that rounds to nothing. */
  function ChunkSize(cfg: Config): int {
    if cfg.bps / 5 < 1 then 4096 else cfg.bps / 5
  }

  /** Which clip is streaming: the item's own file, or the silence that holds a pause. */
  datatype Clip = Song | Hold

  datatype End = More | Eof | Failed

  datatype Pc =
    | Opening(clip: Clip)              // register the stream's cancel, open and seek the file
    | Reading(clip: Clip)              // read a chunk and hand it to the Broadcaster
    | Pacing(clip: Clip, end: End)     // wait until the chunk is due, or the stream is cancelled
    | Checking(clip: Clip, end: End)   // poll the cancellation
    | PollPaused(end: End)             // checkStop, first half
    | PollSeek(end: End)               // checkStop, second half
    | Ending(clip: Clip, end: End)     // act on how the read ended
    | Closing(clip: Clip, completed: bool)
    | AskStop | AskSkip | AskSeek | AskPaused
    | HoldTest | HoldStop | HoldSkip | HoldSeek | HoldLeft
    | Finished(completed: bool)

  datatype State = State(
    pc: Pc,
    offset: int,       // offsetBytes
    sent: int,         // bytesSent of the stream in flight
    inFlight: bool,    // a stream's cancel is registered
    cancelled: bool,   // ... and has been called
    stopped: bool,     // the Run context is cancelled
    ctrl: Ctrl,
    now: int,
    start: int,        // when the current lap of the stream started
    began: int,        // history: when the stream itself started,
    total: int,        //   how many bytes it has sent over all laps,
    laps: nat)         //   and how many laps it has finished

  datatype Label =
    | Player(n: nat, end: End, ok: bool)   // n, end: what a read returns; ok: I/O or select choice
    | Call(op: Op)                         // a whole control call
    | Lock(op: Op)                         // only its critical section
    | Cancel                               // only its cancellation of the stream in flight
    | Stop
    | Tick(dt: nat)

  /** What reaches the Broadcaster, and the seeks the player applies in between. */
  datatype Out = Sound(at: int, bytes: seq<Byte>) | Hush(count: nat) | Jump(to: int)

  /** When n bytes are due, in nanoseconds after the lap's start. */
  function Due(cfg: Config, n: int): int
    requires Valid(cfg)
  {
    n * NANOS / cfg.bps
  }

  function Bytes(cfg: Config, clip: Clip): seq<Byte> {
    if clip.Song? then cfg.song else cfg.silence
  }

  /** Where the next read of the stream in flight starts. */
  function ReadPos(s: State, clip: Clip): int {
    if clip.Song? then s.offset + s.sent else s.sent
  }

  function Available(cfg: Config, s: State, clip: Clip): int {
    var left := |Bytes(cfg, clip)| - ReadPos(s, clip);
    if left < 0 then 0 else left
  }

  function Min(a: int, b: int): int { if a < b then a else b }

  /** How many bytes a read delivers: any number up to the chunk and what is left of the file. */
  function ReadCount(cfg: Config, s: State, clip: Clip, n: nat): int {
    Min(n, Min(ChunkSize(cfg), Available(cfg, s, clip)))
  }

  /** End of file is reported only once everything has been read. */
  function ReadEnd(cfg: Config, s: State, clip: Clip, n: nat, end: End): End {
    if end.Eof? && ReadCount(cfg, s, clip, n) < Available(cfg, s, clip) then More else end
  }

  predicate Done(s: State) { s.cancelled || s.stopped }

  predicate IsDue(cfg: Config, s: State)
    requires Valid(cfg)
  {
    s.now - s.start >= Due(cfg, s.sent)
  }

  function TakeSeek(cfg: Config, s: State, pc: Pc): State
    requires s.ctrl.seek.Some?
  {
    s.(pc := pc, offset := s.ctrl.seek.value * cfg.bps, ctrl := s.ctrl.(seek := None))
  }

  function PlayerStep(cfg: Config, s: State, n: nat, end: End, ok: bool): State
    requires Valid(cfg)
  {
    match s.pc
    case Opening(clip) =>
      s.(pc := if ok then Reading(clip) else Closing(clip, false),
         inFlight := true, cancelled := false, sent := 0,
         start := s.now, began := s.now, total := 0, laps := 0)
    case Reading(clip) =>
      var m := ReadCount(cfg, s, clip, n);
      var e := ReadEnd(cfg, s, clip, n, end);
      s.(pc := if m > 0 then Pacing(clip, e) else Checking(clip, e),
         sent := s.sent + m, total := s.total + m)
    case Pacing(clip, e) =>
      if IsDue(cfg, s) && (ok || !Done(s)) then s.(pc := Checking(clip, e))
      else if Done(s) then s.(pc := Closing(clip, false))
      else s
    case Checking(clip, e) =>
      if Done(s) then s.(pc := Closing(clip, false))
      else s.(pc := if clip.Hold? then PollPaused(e) else Ending(clip, e))
    case PollPaused(e) => s.(pc := if s.ctrl.paused then PollSeek(e) else Closing(Hold, false))
    case PollSeek(e) => s.(pc := if s.ctrl.seek.Some? then Closing(Hold, false) else Ending(Hold, e))
    case Ending(clip, e) =>
      (match e
       case More => s.(pc := Reading(clip))
       case Failed => s.(pc := Closing(clip, false))
       case Eof =>
         if clip.Song? || !ok then s.(pc := Closing(clip, true))
         else s.(pc := Reading(clip), start := s.now, sent := 0, laps := s.laps + 1))
    case Closing(clip, completed) =>
      var s' := s.(inFlight := false, cancelled := false, sent := 0);
      if clip.Hold? then s'.(pc := HoldSkip)
      else s'.(pc := if completed then Finished(true) else AskStop, offset := s.offset + s.sent)
    case AskStop => s.(pc := if s.stopped then Finished(false) else AskSkip)
    case AskSkip => if s.ctrl.skip then s.(pc := Finished(false), ctrl := s.ctrl.(skip := false)) else s.(pc := AskSeek)
    case AskSeek => if s.ctrl.seek.Some? then TakeSeek(cfg, s, Opening(Song)) else s.(pc := AskPaused)
    case AskPaused => s.(pc := if s.ctrl.paused then HoldTest else Finished(false))
    case HoldTest => s.(pc := if s.ctrl.paused then HoldStop else HoldLeft)
    case HoldStop => s.(pc := if s.stopped then HoldLeft else Opening(Hold))
    case HoldSkip => if s.ctrl.skip then s.(pc := Finished(false), ctrl := s.ctrl.(skip := false)) else s.(pc := HoldSeek)
    case HoldSeek => if s.ctrl.seek.Some? then TakeSeek(cfg, s, HoldTest) else s.(pc := HoldTest)
    case HoldLeft => s.(pc := if s.stopped then Finished(false) else Opening(Song))
    case Finished(_) => s
  }

  function CancelStream(s: State): State {
    if s.inFlight then s.(cancelled := true) else s
  }

  function Step(cfg: Config, s: State, l: Label): State
    requires Valid(cfg)
  {
    match l
    case Player(n, end, ok) => PlayerStep(cfg, s, n, end, ok)
    case Call(op) =>
      var s' := s.(ctrl := Apply(s.ctrl, op, s.now));
      if Cancels(s.ctrl, op) then CancelStream(s') else s'
    case Lock(op) => s.(ctrl := Apply(s.ctrl, op, s.now))
    case Cancel => CancelStream(s)
    case Stop => s.(stopped := true)
    case Tick(dt) => s.(now := s.now + dt)
  }

  /** What one step hands to the Broadcaster, or which seek it applies. */
  function Output(cfg: Config, s: State, l: Label): seq<Out> {
    if !l.Player? then []
    else if s.pc.Reading? then
      var m := ReadCount(cfg, s, s.pc.clip, l.n);
      if m <= 0 then []
      else if s.pc.clip.Hold? then [Hush(m)]
      else if 0 <= ReadPos(s, Song) <= |cfg.song| - m then
        [Sound(ReadPos(s, Song), cfg.song[ReadPos(s, Song)..ReadPos(s, Song) + m])]
      else []
    else if (s.pc.AskSeek? || s.pc.HoldSeek?) && s.ctrl.seek.Some? then [Jump(s.ctrl.seek.value * cfg.bps)]
    else []
  }

  function Run(cfg: Config, s: State, ls: seq<Label>): State
    requires Valid(cfg)
  {
    if ls == [] then s else Step(cfg, Run(cfg, s, ls[..|ls| - 1]), ls[|ls| - 1])
  }

  function Log(cfg: Config, s: State, ls: seq<Label>): seq<Out>
    requires Valid(cfg)
  {
    if ls == [] then []
    else Log(cfg, s, ls[..|ls| - 1]) + Output(cfg, Run(cfg, s, ls[..|ls| - 1]), ls[|ls| - 1])
  }

  /** playLocalItem is entered with the offset at 0 and no stream registered; pending seeks were
      cleared by SetCurrent, and a skip may be left over from before. */
  ghost predicate Entry(s: State) {
    && s.pc == Opening(Song) && s.offset == 0 && s.sent == 0 && !s.inFlight && !s.cancelled
    && (s.ctrl.seek.Some? ==> 0 <= s.ctrl.seek.value)
  }

  /** Holds in every state: positions and elapsed times never go negative and a stream is
      registered exactly between opening and closing. */
  ghost predicate Sane(s: State) {
    && 0 <= s.offset && 0 <= s.sent
    && (s.ctrl.seek.Some? ==> 0 <= s.ctrl.seek.value)
    && s.inFlight == Streaming(s.pc)
    && (s.cancelled ==> s.inFlight)
    && (!s.inFlight ==> s.sent == 0)
    && (s.inFlight ==> s.start <= s.now)
  }

  predicate Streaming(pc: Pc) {
    pc.Reading? || pc.Pacing? || pc.Checking? || pc.PollPaused? || pc.PollSeek? || pc.Ending? || pc.Closing?
  }

  lemma SeekForward(seconds: int, bps: int)
    requires 0 <= seconds && 0 < bps
    ensures 0 <= seconds * bps
  {
  }

  lemma SaneStep(cfg: Config, s: State, l: Label)
    requires Valid(cfg) && Sane(s)
    ensures Sane(Step(cfg, s, l))
  {
    if l.Player? {
      SanePlayer(cfg, s, l.n, l.end, l.ok);
    }
    hide PlayerStep;
  }

  lemma SanePlayer(cfg: Config, s: State, n: nat, end: End, ok: bool)
    requires Valid(cfg) && Sane(s)
    ensures Sane(PlayerStep(cfg, s, n, end, ok))
  {
    if s.ctrl.seek.Some? {
      SeekForward(s.ctrl.seek.value, cfg.bps);
    }
    hide Due;
    match s.pc
    case Reading(_) =>
    case Closing(_, _) =>
    case _ =>
  }

  lemma {:induction false} SaneRun(cfg: Config, s: State, ls: seq<Label>)
    requires Valid(cfg) && (Entry(s) || Sane(s))
    ensures Sane(Run(cfg, s, ls))
  {
    if ls != [] {
      SaneRun(cfg, s, ls[..|ls| - 1]);
      SaneStep(cfg, Run(cfg, s, ls[..|ls| - 1]), ls[|ls| - 1]);
    }
  }

  lemma {:induction false} RunConcat(cfg: Config, s: State, a: seq<Label>, b: seq<Label>)
    requires Valid(cfg)
    ensures Run(cfg, s, a + b) == Run(cfg, Run(cfg, s, a), b)
    ensures Log(cfg, s, a + b) == Log(cfg, s, a) + Log(cfg, Run(cfg, s, a), b)
  {
    hide Step, Output;
    if b == [] {
      assert a + b == a;
    } else {
      var b' := b[..|b| - 1];
      RunConcat(cfg, s, a, b');
      assert (a + b)[..|a + b| - 1] == a + b';
    }
  }

  lemma RunSnoc(cfg: Config, s: State, ls: seq<Label>, l: Label)
    requires Valid(cfg)
    ensures Run(cfg, s, ls + [l]) == Step(cfg, Run(cfg, s, ls), l)
    ensures Log(cfg, s, ls + [l]) == Log(cfg, s, ls) + Output(cfg, Run(cfg, s, ls), l)
  {
    hide Step, Output;
    assert (ls + [l])[..|ls + [l]| - 1] == ls;
  }
}
