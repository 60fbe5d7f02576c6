/** The playback code of a station in its own form: an object whose control methods update its
    fields, and the player's loops over them.

    Other goroutines run between any two atomic steps of the player: Yield performs the calls the
    schedule puts there, and hands back the scheduler's and the disk's choices for the next step.
    A schedule that runs out ends with the station being stopped.  The loops are proved to make
    runs of the transition system in module Player and to send exactly its log. */
module StationCode {
  import opened Options
  import opened Control
  import opened Player
  import opened Conservation

  /** What other goroutines can change under the player. */
  ghost predicate Overtaken(a: State, b: State) {
    && b == a.(ctrl := b.ctrl, cancelled := b.cancelled, stopped := b.stopped, now := b.now)
    && (a.stopped ==> b.stopped)
    && b.ctrl.current == a.ctrl.current
  }

  lemma OthersOvertake(cfg: Config, s: State, l: Label, from: State)
    requires Valid(cfg) && !l.Player? && Overtaken(from, s)
    ensures Overtaken(from, Step(cfg, s, l))
  {
  }

  function Delivered(cfg: Config, clip: Clip, position: int, count: int): seq<Out>
    requires count > 0 ==> 0 <= position <= position + count <= |Bytes(cfg, clip)|
  {
    if count <= 0 then []
    else if clip.Hold? then [Hush(count)]
    else [Sound(position, cfg.song[position..position + count])]
  }

  lemma ReadEffect(cfg: Config, s: State, clip: Clip, n: nat, end: End, ok: bool)
    requires Valid(cfg) && Sane(s) && s.pc == Reading(clip)
    ensures var left := if ReadPos(s, clip) < |Bytes(cfg, clip)| then |Bytes(cfg, clip)| - ReadPos(s, clip) else 0;
            var count := Min(n, Min(ChunkSize(cfg), left));
            var e := if end.Eof? && count < left then More else end;
            && Step(cfg, s, Player(n, end, ok))
            == s.(pc := if count > 0 then Pacing(clip, e) else Checking(clip, e), sent := s.sent + count, total := s.total + count)
            && (count > 0 ==> 0 <= ReadPos(s, clip) <= ReadPos(s, clip) + count <= |Bytes(cfg, clip)|)
            && Output(cfg, s, Player(n, end, ok)) == Delivered(cfg, clip, ReadPos(s, clip), count)
  {
  }

  lemma AskSeekEffect(cfg: Config, s: State, l: Label)
    requires Valid(cfg) && (s.pc.AskSeek? || s.pc.HoldSeek?) && l.Player?
    ensures var to := if s.ctrl.seek.Some? then Some(s.ctrl.seek.value * cfg.bps) else None;
            && Output(cfg, s, l) == (if to.Some? then [Jump(to.value)] else [])
            && Step(cfg, s, l) == s.(
                 pc := if s.pc.HoldSeek? then HoldTest else if to.Some? then Opening(Song) else AskPaused,
                 offset := if to.Some? then to.value else s.offset,
                 ctrl := s.ctrl.(seek := None))
  {
    assert s.ctrl.seek.None? ==> s.ctrl.(seek := None) == s.ctrl;
  }

  // ---- What the loops send ----

  /** One stream's part of the tape: of the item's own file exactly the bytes sent, from where it was
      opened on; of the silence clip nothing but silence. */
  ghost predicate Streamed(cfg: Config, clip: Clip, from: int, sent: int, before: seq<Out>, after: seq<Out>) {
    && before <= after
    && (sent > 0 && clip.Song? ==> 0 <= from <= from + sent <= |cfg.song|)
    && (clip.Song? ==> Audio(after) == Audio(before) + if sent > 0 then cfg.song[from..from + sent] else [])
    && forall i :: |before| <= i < |after| ==> if clip.Song? then after[i].Sound? else after[i].Hush?
  }

  lemma StreamedMore(cfg: Config, clip: Clip, from: int, sent: int, count: int, before: seq<Out>, heard: seq<Out>)
    requires Streamed(cfg, clip, from, sent, before, heard) && 0 <= sent && 0 <= count
    requires var position := if clip.Song? then from + sent else sent;
             count > 0 ==> 0 <= position <= position + count <= |Bytes(cfg, clip)|
    requires clip.Song? ==> 0 <= from
    ensures var position := if clip.Song? then from + sent else sent;
            Streamed(cfg, clip, from, sent + count, before, heard + Delivered(cfg, clip, position, count))
  {
    var position := if clip.Song? then from + sent else sent;
    var more := Delivered(cfg, clip, position, count);
    if count == 0 {
      assert heard + more == heard;
    } else if clip.Song? {
      var bytes := cfg.song[position..position + count];
      hide Audio;
      assert more == [Sound(position, bytes)];
      AudioSnoc(heard, Sound(position, bytes));
      SongMore(cfg.song, from, sent, count, Audio(before));
    } else {
      hide Audio;
    }
  }

  lemma SongMore(song: seq<Byte>, from: int, sent: int, count: int, a: seq<Byte>)
    requires 0 <= from <= from + sent <= from + sent + count <= |song|
    ensures (a + if sent > 0 then song[from..from + sent] else []) + song[from + sent..from + sent + count]
         == a + song[from..from + sent + count]
  {
    var b := if sent > 0 then song[from..from + sent] else [];
    assert b + song[from + sent..from + sent + count] == song[from..from + sent + count];
  }

  lemma AudioSnoc(es: seq<Out>, e: Out)
    requires e.Sound?
    ensures Audio(es + [e]) == Audio(es) + e.bytes
  {
    assert (es + [e])[..|es + [e]| - 1] == es;
  }

  /** Where a tape that stood at an offset when it had n outputs stands now, if no file was played:
      at the last seek applied since, or still there. */
  function Resting(es: seq<Out>, n: nat, offset: int): int {
    if |es| <= n then offset
    else match es[|es| - 1]
         case Jump(to) => to
         case _ => Resting(es[..|es| - 1], n, offset)
  }

  /** The pause hold's part of the tape: silence and seeks, and the offset they leave it at. */
  ghost predicate Held(before: seq<Out>, after: seq<Out>, offset: int, now: int) {
    && before <= after
    && (forall i :: |before| <= i < |after| ==> !after[i].Sound?)
    && now == Resting(after, |before|, offset)
  }

  lemma {:induction false} RestingHush(es: seq<Out>, es': seq<Out>, n: nat, offset: int)
    requires n <= |es| && es <= es' && forall i :: |es| <= i < |es'| ==> es'[i].Hush?
    ensures Resting(es', n, offset) == Resting(es, n, offset)
  {
    if |es'| > |es| {
      RestingHush(es, es'[..|es'| - 1], n, offset);
    } else {
      assert es == es';
    }
  }

  lemma HeldOn(cfg: Config, before: seq<Out>, mid: seq<Out>, sent: int, after: seq<Out>, offset: int, now: int)
    requires Held(before, mid, offset, now) && Streamed(cfg, Hold, 0, sent, mid, after)
    ensures Held(before, after, offset, now)
  {
    RestingHush(mid, after, |before|, offset);
    hide Resting, Audio;
    forall i | |before| <= i < |after| ensures !after[i].Sound? {
      if i < |mid| {
        assert after[i] == mid[i];
      }
    }
  }

  lemma HeldSeek(before: seq<Out>, mid: seq<Out>, after: seq<Out>, offset: int, to: Option<int>, now: int)
    requires exists was :: Held(before, mid, offset, was) && now == if to.Some? then to.value else was
    requires after == mid + if to.Some? then [Jump(to.value)] else []
    ensures Held(before, after, offset, now)
  {
    if to.None? {
      assert after == mid;
    } else {
      assert after[..|after| - 1] == mid;
    }
  }

  class Station {
    // The current item and the fields guarded by playCtrlMu
    var current: Option<Item>
    var paused: bool
    var positionOffsetSeconds: int
    var positionAnchor: int
    var pendingSeekSeconds: Option<int>
    var skipRequested: bool

    // The registered stream's cancel function and whether it was called; the Run context
    var streamRegistered: bool
    var streamCancelled: bool
    var runCancelled: bool

    var clock: int
    var schedule: seq<Label>
    var tape: seq<Out>  // what was handed to the Broadcaster, with the seeks applied in between

    ghost var entry: State
    ghost var trace: seq<Label>
    ghost var model: State

    function Controls(): Ctrl
      reads this
    {
      Ctrl(current, paused, positionOffsetSeconds, positionAnchor, pendingSeekSeconds, skipRequested)
    }

    // ---- Control calls ----

    method CancelCurrentStream()
      modifies this`streamCancelled
      ensures streamCancelled == (old(streamCancelled) || streamRegistered)
    {
      if streamRegistered {
        streamCancelled := true;
      }
    }

    method Interrupt()
      modifies this`paused, this`pendingSeekSeconds, this`skipRequested, this`streamCancelled
      ensures Controls() == Apply(old(Controls()), Op.Interrupt, clock)
      ensures streamCancelled == (old(streamCancelled) || streamRegistered)
      ensures !paused && pendingSeekSeconds == None && skipRequested
    {
      paused := false;
      pendingSeekSeconds := None;
      skipRequested := true;
      CancelCurrentStream();
    }

    method PauseFields() returns (ok: bool)
      modifies this`paused, this`positionOffsetSeconds
      ensures ok == Accepted(old(Controls()), Op.Pause)
      ensures Controls() == Apply(old(Controls()), Op.Pause, clock)
    {
      if current.None? || current.value.live {
        return false;
      }
      if paused {
        return false;
      }
      positionOffsetSeconds := positionOffsetSeconds + WholeSeconds(clock - positionAnchor);
      paused := true;
      return true;
    }

    method Pause() returns (ok: bool)
      modifies this`paused, this`positionOffsetSeconds, this`streamCancelled
      ensures ok == Accepted(old(Controls()), Op.Pause)
      ensures Controls() == Apply(old(Controls()), Op.Pause, clock)
      ensures streamCancelled == (old(streamCancelled) || (Cancels(old(Controls()), Op.Pause) && streamRegistered))
      ensures ok <==> current.Some? && !current.value.live && !old(paused)
      ensures paused == (old(paused) || ok)
      ensures ok ==> WholeSecondsOf(clock - positionAnchor, positionOffsetSeconds - old(positionOffsetSeconds))
      ensures !ok ==> positionOffsetSeconds == old(positionOffsetSeconds)
      ensures streamCancelled == (old(streamCancelled) || (ok && streamRegistered))
    {
      ok := PauseFields();
      if ok {
        CancelCurrentStream();
      }
    }

    method Resume() returns (ok: bool)
      modifies this`paused, this`positionAnchor
      ensures ok == Accepted(old(Controls()), Op.Resume)
      ensures Controls() == Apply(old(Controls()), Op.Resume, clock)
      ensures ok == old(paused) && !paused && positionAnchor == if ok then clock else old(positionAnchor)
    {
      if !paused {
        return false;
      }
      paused := false;
      positionAnchor := clock;
      return true;
    }

    method SeekFields(seconds: int) returns (applied: bool, result: int, wasPaused: bool)
      modifies this`pendingSeekSeconds, this`positionOffsetSeconds, this`positionAnchor
      ensures applied == Accepted(old(Controls()), Op.Seek(seconds)) && wasPaused == paused
      ensures Controls() == Apply(old(Controls()), Op.Seek(seconds), clock)
      ensures applied ==> result == Target(old(Controls()), seconds)
      ensures !applied ==> result == 0
    {
      wasPaused := paused;
      if current.None? || current.value.live {
        return false, 0, wasPaused;
      }
      var position := seconds;
      if position < 0 {
        position := 0;
      }
      var d := current.value.duration;
      if d > 0 && position > d {
        position := d;
      }
      pendingSeekSeconds := Some(position);
      positionOffsetSeconds := position;
      positionAnchor := clock;
      return true, position, wasPaused;
    }

    method SeekPosition(seconds: int) returns (applied: bool, result: int)
      modifies this`pendingSeekSeconds, this`positionOffsetSeconds, this`positionAnchor, this`streamCancelled
      ensures applied == Accepted(old(Controls()), Op.Seek(seconds))
      ensures Controls() == Apply(old(Controls()), Op.Seek(seconds), clock)
      ensures applied ==> result == Target(old(Controls()), seconds)
      ensures !applied ==> result == 0
      ensures streamCancelled == (old(streamCancelled) || (Cancels(old(Controls()), Op.Seek(seconds)) && streamRegistered))
      ensures applied <==> current.Some? && !current.value.live
      ensures applied ==> GoesTo(current.value.duration, seconds, result) && pendingSeekSeconds == Some(result)
      ensures applied ==> positionOffsetSeconds == result && positionAnchor == clock
      ensures !applied ==> pendingSeekSeconds == old(pendingSeekSeconds) && positionOffsetSeconds == old(positionOffsetSeconds) && positionAnchor == old(positionAnchor)
      ensures streamCancelled == (old(streamCancelled) || (applied && !paused && streamRegistered))
    {
      var wasPaused;
      applied, result, wasPaused := SeekFields(seconds);
      if applied && !wasPaused {
        CancelCurrentStream();
      }
    }

    method SeekBy(delta: int) returns (applied: bool, result: int)
      modifies this`pendingSeekSeconds, this`positionOffsetSeconds, this`positionAnchor, this`streamCancelled
      ensures applied == Seekable(old(Controls()))
      ensures Controls() == Apply(old(Controls()), Op.Seek(Position(old(Controls()), clock) + delta), clock)
      ensures result == if applied then Target(old(Controls()), Position(old(Controls()), clock) + delta) else 0
      ensures streamCancelled == (old(streamCancelled) || (Seekable(old(Controls())) && !paused && streamRegistered))
      ensures applied <==> current.Some? && !current.value.live
      ensures applied ==> GoesTo(current.value.duration, Position(old(Controls()), clock) + delta, result) && pendingSeekSeconds == Some(result)
    {
      if current.None? || current.value.live {
        return false, 0;
      }
      var position := CurrentPositionSeconds();
      applied, result := SeekPosition(position + delta);
    }

    method CurrentPositionSeconds() returns (position: int)
      ensures position == Position(Controls(), clock)
      ensures paused ==> position == positionOffsetSeconds
      ensures !paused ==> WholeSecondsOf(clock - positionAnchor, position - positionOffsetSeconds)
    {
      position := positionOffsetSeconds;
      if !paused {
        position := position + WholeSeconds(clock - positionAnchor);
      }
    }

    method SetCurrent(item: Option<Item>)
      modifies this`current, this`paused, this`pendingSeekSeconds, this`positionOffsetSeconds, this`positionAnchor
      ensures Controls() == NewTrack(old(Controls()), item, clock)
      ensures current == item && !paused && pendingSeekSeconds == None && positionOffsetSeconds == 0 && positionAnchor == clock
    {
      current := item;
      paused := false;
      pendingSeekSeconds := None;
      positionOffsetSeconds := 0;
      positionAnchor := clock;
    }

    method ConsumeSkipRequested() returns (skip: bool)
      modifies this`skipRequested
      ensures skip == old(skipRequested) && Controls() == old(Controls()).(skip := false)
    {
      if !skipRequested {
        return false;
      }
      skipRequested := false;
      return true;
    }

    method ConsumeSeekOffsetBytes(bytesPerSecond: int) returns (offsetBytes: int, ok: bool)
      modifies this`pendingSeekSeconds
      ensures ok == old(pendingSeekSeconds).Some? && Controls() == old(Controls()).(seek := None)
      ensures ok ==> offsetBytes == old(pendingSeekSeconds).value * bytesPerSecond
    {
      if pendingSeekSeconds.None? {
        return 0, false;
      }
      offsetBytes := pendingSeekSeconds.value * bytesPerSecond;
      pendingSeekSeconds := None;
      return offsetBytes, true;
    }

    // ---- Between the player's steps ----

    /** The object's fields are the model's state, after the trace from the entry state. */
    ghost predicate Tracks(cfg: Config)
      reads this
    {
      && Valid(cfg) && Sane(model)
      && model == Run(cfg, entry, trace)
      && tape == Log(cfg, entry, trace)
      && model.ctrl == Controls()
      && model.inFlight == streamRegistered
      && model.cancelled == streamCancelled
      && model.stopped == runCancelled
      && model.now == clock
    }

    /** What is left of the schedule, and the final stop. */
    function Fuel(): nat
      reads this
    {
      |schedule| + if runCancelled then 0 else 1
    }

    ghost method Record(cfg: Config, l: Label)
      requires Valid(cfg) && Sane(model) && model == Run(cfg, entry, trace)
      modifies this`trace, this`model
      ensures trace == old(trace) + [l] && model == Step(cfg, old(model), l)
      ensures Sane(model) && model == Run(cfg, entry, trace)
      ensures Log(cfg, entry, trace) == Log(cfg, entry, old(trace)) + Output(cfg, old(model), l)
    {
      SaneStep(cfg, model, l);
      RunSnoc(cfg, entry, trace, l);
      trace, model := trace + [l], Step(cfg, model, l);
      hide Run, Log, Step, Output, Sane;
    }

    method PerformCall(op: Op)
      modifies this`paused, this`positionOffsetSeconds, this`positionAnchor, this`pendingSeekSeconds, this`skipRequested, this`streamCancelled
      ensures Controls() == Apply(old(Controls()), op, clock)
      ensures streamCancelled == (old(streamCancelled) || (Cancels(old(Controls()), op) && streamRegistered))
    {
      match op {
        case Interrupt => Interrupt();
        case Pause => var _ := Pause();
        case Resume => var _ := Resume();
        case Seek(k) => var _, _ := SeekPosition(k);
      }
    }

    method PerformLock(op: Op)
      modifies this`paused, this`positionOffsetSeconds, this`positionAnchor, this`pendingSeekSeconds, this`skipRequested
      ensures Controls() == Apply(old(Controls()), op, clock)
    {
      match op {
        case Interrupt => paused, pendingSeekSeconds, skipRequested := false, None, true;
        case Pause => var _ := PauseFields();
        case Resume => var _ := Resume();
        case Seek(k) => var _, _, _ := SeekFields(k);
      }
    }

    /** One step of another goroutine. */
    method Perform(cfg: Config, l: Label)
      requires Tracks(cfg) && !l.Player?
      modifies this
      ensures Tracks(cfg) && entry == old(entry) && schedule == old(schedule)
      ensures model == Step(cfg, old(model), l)
      ensures runCancelled == (old(runCancelled) || l.Stop?)
      ensures tape == old(tape)
    {
      hide Run, Log, Apply, Cancels, PlayerStep, Sane;
      match l {
        case Call(op) => PerformCall(op);
        case Lock(op) => PerformLock(op);
        case Cancel => CancelCurrentStream();
        case Stop => runCancelled := true;
        case Tick(dt) => clock := clock + dt;
      }
      Record(cfg, l);
      assert Output(cfg, old(model), l) == [];
      assert tape + [] == tape;
    }

    /** Lets other goroutines run up to the player's next step, whose choices it returns. */
    method Yield(cfg: Config) returns (n: nat, end: End, ok: bool)
      requires Tracks(cfg)
      modifies this
      ensures Tracks(cfg) && entry == old(entry) && Overtaken(old(model), model)
      ensures Fuel() < old(Fuel()) || (Fuel() == 0 && old(Fuel()) == 0)
      ensures tape == old(tape)
    {
      assert Overtaken(model, model);
      hide Run, Log, Step, Sane, Overtaken, Controls;
      while schedule != [] && !schedule[0].Player?
        invariant Tracks(cfg) && entry == old(entry) && Overtaken(old(model), model) && tape == old(tape)
        invariant Fuel() <= old(Fuel())
        decreases |schedule|
      {
        var l := schedule[0];
        schedule := schedule[1..];
        OthersOvertake(cfg, model, l, old(model));
        Perform(cfg, l);
      }
      if schedule == [] {
        if !runCancelled {
          OthersOvertake(cfg, model, Stop, old(model));
          Perform(cfg, Stop);
        }
        return 0, More, true;
      }
      n, end, ok := schedule[0].n, schedule[0].end, schedule[0].ok;
      schedule := schedule[1..];
    }

    // ---- streamFile, one atomic step at a time ----

    /** Registers the stream's cancel, then opens and seeks the file. */
    method BeginStream(cfg: Config, clip: Clip) returns (isOpen: bool)
      requires Tracks(cfg) && model.pc == Opening(clip)
      modifies this
      ensures Tracks(cfg) && entry == old(entry) && Burned(old(Fuel()), Fuel())
      ensures model.pc == (if isOpen then Reading(clip) else Closing(clip, false))
      ensures model.offset == old(model.offset) && model.sent == 0 && model.start == clock
      ensures model.ctrl.current == old(model.ctrl.current)
      ensures tape == old(tape)
    {
      hide Run, Log, Sane;
      var n, end, ok := Yield(cfg);
      streamRegistered, streamCancelled := true, false;
      Record(cfg, Player(n, end, ok));
      assert tape + [] == tape;
      return ok;
    }

    /** Clears the registered cancel as streamFile returns. */
    method EndStream(cfg: Config, clip: Clip, completed: bool)
      requires Tracks(cfg) && model.pc == Closing(clip, completed)
      modifies this
      ensures Tracks(cfg) && entry == old(entry) && Burned(old(Fuel()), Fuel())
      ensures clip.Hold? ==> model.pc == HoldSkip && model.offset == old(model.offset)
      ensures clip.Song? ==> model.pc == (if completed then Finished(true) else AskStop)
      ensures clip.Song? ==> model.offset == old(model.offset) + old(model.sent)
      ensures model.ctrl.current == old(model.ctrl.current)
      ensures tape == old(tape)
    {
      hide Run, Log, Sane;
      var n, end, ok := Yield(cfg);
      streamRegistered, streamCancelled := false, false;
      Record(cfg, Player(n, end, ok));
      assert tape + [] == tape;
    }

    /** Hands a chunk that was read to the Broadcaster. */
    method Deliver(cfg: Config, clip: Clip, position: int, count: int, ghost l: Label)
      requires Tracks(cfg) && l.Player? && model.pc == Reading(clip)
      requires count > 0 ==> 0 <= position <= position + count <= |Bytes(cfg, clip)|
      requires Output(cfg, model, l) == Delivered(cfg, clip, position, count)
      modifies this`tape, this`trace, this`model
      ensures Tracks(cfg) && model == Step(cfg, old(model), l)
      ensures tape == old(tape) + Delivered(cfg, clip, position, count)
    {
      hide Run, Log, Sane, Output;
      if count > 0 {
        var file := Bytes(cfg, clip);
        var chunk := file[position..position + count];
        tape := tape + [if clip.Song? then Sound(position, chunk) else Hush(count)];
      } else {
        assert tape + [] == tape;
      }
      Record(cfg, l);
    }

    /** Reads a chunk and hands it to the Broadcaster. */
    method ReadChunk(cfg: Config, clip: Clip, position: int) returns (count: int, end: End)
      requires Tracks(cfg) && model.pc == Reading(clip) && position == ReadPos(model, clip)
      modifies this
      ensures Tracks(cfg) && entry == old(entry) && Burned(old(Fuel()), Fuel())
      ensures 0 <= count && model.sent == old(model.sent) + count
      ensures model.pc == if count > 0 then Pacing(clip, end) else Checking(clip, end)
      ensures model.offset == old(model.offset) && model.start == old(model.start)
      ensures model.ctrl.current == old(model.ctrl.current)
      ensures (count > 0 ==> 0 <= position <= position + count <= |Bytes(cfg, clip)|) && tape == old(tape) + Delivered(cfg, clip, position, count)
    {
      hide Run, Log, Sane;
      var n, e, ok := Yield(cfg);
      assert position == ReadPos(model, clip);
      var size := |Bytes(cfg, clip)|;
      var left := if position < size then size - position else 0;
      count := ReadSize(cfg, n, left);
      end := if e.Eof? && count < left then More else e;
      ghost var l := Player(n, e, ok);
      ReadEffect(cfg, model, clip, n, e, ok);
      hide Step, Output, Min, ChunkSize;
      Deliver(cfg, clip, position, count, l);
    }

    /** The next chunk of a stream that has sent so much since it was opened. */
    method SendChunk(cfg: Config, clip: Clip, from: int, bytesSent: int, ghost before: seq<Out>)
      returns (count: int, end: End)
      requires Tracks(cfg) && model.pc == Reading(clip) && model.sent == bytesSent && 0 <= bytesSent && (clip.Song? ==> 0 <= from)
      requires (clip.Song? ==> model.offset == from) && Streamed(cfg, clip, from, bytesSent, before, tape)
      modifies this
      ensures Tracks(cfg) && entry == old(entry) && Burned(old(Fuel()), Fuel())
      ensures 0 <= count && model.sent == bytesSent + count && Streamed(cfg, clip, from, bytesSent + count, before, tape)
      ensures model.pc == if count > 0 then Pacing(clip, end) else Checking(clip, end)
      ensures model.offset == old(model.offset) && model.start == old(model.start)
      ensures model.ctrl.current == old(model.ctrl.current)
    {
      hide Tracks, Fuel, Controls, Streamed, Bytes, Delivered;
      ghost var heard := tape;
      var position := if clip.Song? then from + bytesSent else bytesSent;
      count, end := ReadChunk(cfg, clip, position);
      StreamedMore(cfg, clip, from, bytesSent, count, before, heard);
    }

    /** A read returns no more than was asked for, a chunk, or what is left of the file. */
    method ReadSize(cfg: Config, n: nat, left: nat) returns (count: int)
      ensures count == Min(n, Min(ChunkSize(cfg), left)) && count >= 0
    {
      var chunkSize := cfg.bps / 5;
      if chunkSize < 1 {
        chunkSize := 4096;
      }
      count := n;
      if chunkSize < count {
        count := chunkSize;
      }
      if left < count {
        count := left;
      }
    }

    /** Waits until what has been sent is due, or the stream is cancelled. */
    method WaitUntilDue(cfg: Config, clip: Clip, end: End, bytesSent: int, start: int) returns (cut: bool)
      requires Tracks(cfg) && model.pc == Pacing(clip, end) && model.sent == bytesSent && model.start == start
      modifies this
      ensures Tracks(cfg) && entry == old(entry) && Burned(old(Fuel()), Fuel())
      ensures model.pc == if cut then Closing(clip, false) else Checking(clip, end)
      ensures model.offset == old(model.offset) && model.start == start && model.sent == bytesSent
      ensures model.ctrl.current == old(model.ctrl.current)
      ensures tape == old(tape)
    {
      hide Run, Log, Sane;
      while true
        invariant Tracks(cfg) && model.pc == Pacing(clip, end) && model.sent == bytesSent && model.start == start
        invariant entry == old(entry) && model.offset == old(model.offset) && Fuel() <= old(Fuel())
        invariant model.ctrl.current == old(model.ctrl.current) && tape == old(tape)
        decreases Fuel()
      {
        var n, e, ok := Yield(cfg);
        var due := clock - start >= Due(cfg, bytesSent);
        var done := streamCancelled || runCancelled;
        Record(cfg, Player(n, e, ok));
        assert tape + [] == tape;
        if due && (ok || !done) {
          return false;
        }
        if done {
          return true;
        }
      }
    }

    /** Polls the stream's cancellation. */
    method PollDone(cfg: Config, clip: Clip, end: End) returns (done: bool)
      requires Tracks(cfg) && model.pc == Checking(clip, end)
      modifies this
      ensures Tracks(cfg) && entry == old(entry) && Burned(old(Fuel()), Fuel())
      ensures model.pc == if done then Closing(clip, false) else if clip.Hold? then PollPaused(end) else Ending(clip, end)
      ensures Fuel() == 0 ==> done
      ensures SameStream(old(model), model)
      ensures tape == old(tape)
    {
      hide Run, Log, Sane;
      var n, e, ok := Yield(cfg);
      done := streamCancelled || runCancelled;
      Record(cfg, Player(n, e, ok));
      assert tape + [] == tape;
    }

    /** The pause hold's checkStop: no longer paused, or a seek is waiting. */
    method CheckStop(cfg: Config, end: End) returns (stop: bool)
      requires Tracks(cfg) && model.pc == PollPaused(end)
      modifies this
      ensures Tracks(cfg) && entry == old(entry) && Fuel() <= old(Fuel())
      ensures model.pc == if stop then Closing(Hold, false) else Ending(Hold, end)
      ensures SameStream(old(model), model)
      ensures tape == old(tape)
    {
      hide Run, Log, Sane;
      var n, e, ok := Yield(cfg);
      var held := paused;
      Record(cfg, Player(n, e, ok));
      assert tape + [] == tape;
      if !held {
        return true;
      }
      n, e, ok := Yield(cfg);
      stop := pendingSeekSeconds.Some?;
      Record(cfg, Player(n, e, ok));
      assert tape + [] == tape;
    }

    /** Acts on how the read ended; the silence clip starts another lap at the end of the file. */
    method AfterRead(cfg: Config, clip: Clip, end: End, bytesSent: int, start: int)
      returns (over: bool, completed: bool, bytesSent': int, start': int)
      requires Tracks(cfg) && model.pc == Ending(clip, end) && model.sent == bytesSent && model.start == start
      modifies this
      ensures Tracks(cfg) && entry == old(entry) && Fuel() <= old(Fuel())
      ensures model.pc == if over then Closing(clip, completed) else Reading(clip)
      ensures model.sent == bytesSent' && model.start == start' && model.offset == old(model.offset)
      ensures bytesSent' == bytesSent || (clip.Hold? && !over && bytesSent' == 0)
      ensures model.ctrl.current == old(model.ctrl.current)
      ensures tape == old(tape)
    {
      hide Run, Log, Sane;
      var n, e, ok := Yield(cfg);
      over, completed, bytesSent', start' := false, false, bytesSent, start;
      if end.Eof? {
        if clip.Song? || !ok {
          over, completed := true, true;
        } else {
          start' := clock;
          bytesSent' := 0;
        }
      } else if end.Failed? {
        over := true;
      }
      Record(cfg, Player(n, e, ok));
      assert tape + [] == tape;
    }

    /** Opens the stream, streams, and clears the registered cancel however that ends. */
    method StreamFile(cfg: Config, clip: Clip, startOffsetBytes: int) returns (completed: bool, bytesSent: int)
      requires Tracks(cfg) && model.pc == Opening(clip) && (clip.Song? ==> model.offset == startOffsetBytes)
      modifies this
      ensures Tracks(cfg) && entry == old(entry) && Burned(old(Fuel()), Fuel())
      ensures clip.Hold? ==> model.pc == HoldSkip && model.offset == old(model.offset)
      ensures clip.Song? ==> model.pc == (if completed then Finished(true) else AskStop)
      ensures clip.Song? ==> model.offset == startOffsetBytes + bytesSent
      ensures model.ctrl.current == old(model.ctrl.current)
      ensures Streamed(cfg, clip, startOffsetBytes, bytesSent, old(tape), tape)
    {
      assert 0 <= model.offset;
      hide Tracks, Fuel, Controls, Overtaken;
      var isOpen := BeginStream(cfg, clip);
      completed, bytesSent := false, 0;
      if isOpen {
        completed, bytesSent := StreamOpen(cfg, clip, startOffsetBytes);
      }
      EndStream(cfg, clip, completed);
    }

    /** The streaming loop over the open file. */
    method StreamOpen(cfg: Config, clip: Clip, startOffsetBytes: int) returns (completed: bool, bytesSent: int)
      requires Tracks(cfg) && model.pc == Reading(clip) && model.sent == 0 && model.start == clock
      requires clip.Song? ==> 0 <= startOffsetBytes && model.offset == startOffsetBytes
      modifies this
      ensures Tracks(cfg) && entry == old(entry) && Burned(old(Fuel()), Fuel())
      ensures model.pc == Closing(clip, completed) && model.sent == bytesSent && model.offset == old(model.offset)
      ensures model.ctrl.current == old(model.ctrl.current)
      ensures Streamed(cfg, clip, startOffsetBytes, bytesSent, old(tape), tape)
    {
      assert Streamed(cfg, clip, startOffsetBytes, 0, tape, tape);
      hide Tracks, Fuel, Controls, Overtaken, Streamed;
      var start := clock;
      bytesSent := 0;
      completed := false;
      var over := false;
      while !over
        invariant Tracks(cfg) && entry == old(entry)
        invariant if over then Burned(old(Fuel()), Fuel()) else Fuel() <= old(Fuel())
        invariant 0 <= bytesSent && Streamed(cfg, clip, startOffsetBytes, bytesSent, old(tape), tape)
        invariant model.pc == (if over then Closing(clip, completed) else Reading(clip)) && model.sent == bytesSent
        invariant (!over ==> model.start == start) && model.offset == old(model.offset)
        invariant model.ctrl.current == old(model.ctrl.current)
        decreases !over, Fuel()
      {
        over, completed, bytesSent, start := StreamChunk(cfg, clip, startOffsetBytes, bytesSent, start, old(tape));
      }
    }

    method SendPaced(cfg: Config, clip: Clip, from: int, sent: int, start: int, ghost before: seq<Out>)
      returns (bytesSent: int, end: End, cut: bool)
      requires Tracks(cfg) && model.pc == Reading(clip) && model.sent == sent && model.start == start && 0 <= sent
      requires (clip.Song? ==> 0 <= from && model.offset == from) && Streamed(cfg, clip, from, sent, before, tape)
      modifies this
      ensures Tracks(cfg) && entry == old(entry) && Burned(old(Fuel()), Fuel())
      ensures model.pc == (if cut then Closing(clip, false) else Checking(clip, end)) && model.sent == bytesSent && 0 <= bytesSent
      ensures model.start == start && model.offset == old(model.offset) && model.ctrl.current == old(model.ctrl.current)
      ensures Streamed(cfg, clip, from, bytesSent, before, tape)
    {
      hide Tracks, Fuel, Controls, Overtaken, Streamed;
      var n;
      n, end := SendChunk(cfg, clip, from, sent, before);
      bytesSent, cut := sent + n, false;
      if n > 0 {
        cut := WaitUntilDue(cfg, clip, end, bytesSent, start);
      }
    }

    /** Once around the loop: a chunk, its wait, and the reasons to leave. */
    method StreamChunk(cfg: Config, clip: Clip, from: int, sent: int, start: int, ghost before: seq<Out>)
      returns (over: bool, completed: bool, bytesSent: int, start': int)
      requires Tracks(cfg) && model.pc == Reading(clip) && model.sent == sent && model.start == start && 0 <= sent
      requires (clip.Song? ==> 0 <= from && model.offset == from) && Streamed(cfg, clip, from, sent, before, tape)
      modifies this
      ensures Tracks(cfg) && entry == old(entry) && Burned(old(Fuel()), Fuel()) && (!over ==> Fuel() < old(Fuel()))
      ensures model.pc == (if over then Closing(clip, completed) else Reading(clip)) && model.sent == bytesSent && 0 <= bytesSent
      ensures (!over ==> model.start == start') && model.offset == old(model.offset)
      ensures model.ctrl.current == old(model.ctrl.current)
      ensures Streamed(cfg, clip, from, bytesSent, before, tape)
    {
      assert forall x, y :: clip.Hold? && Streamed(cfg, clip, from, x, before, y) ==> Streamed(cfg, clip, from, 0, before, y);
      hide Tracks, Fuel, Controls, Overtaken, Streamed;
      over, completed, start' := true, false, start;
      var end, cut;
      bytesSent, end, cut := SendPaced(cfg, clip, from, sent, start, before);
      if cut {
        return;
      }
      var done := PollDone(cfg, clip, end);
      if done {
        return;
      }
      if clip.Hold? {
        var stop := CheckStop(cfg, end);
        if stop {
          return;
        }
      }
      over, completed, bytesSent, start' := AfterRead(cfg, clip, end, bytesSent, start);
    }

    // ---- playLocalItem ----

    /** Checks the Run context. */
    method TestStopped(cfg: Config) returns (stop: bool)
      requires Tracks(cfg) && (model.pc.AskStop? || model.pc.HoldStop? || model.pc.HoldLeft?)
      modifies this
      ensures Tracks(cfg) && entry == old(entry) && Fuel() <= old(Fuel()) && (Fuel() == 0 ==> stop)
      ensures old(model.pc.AskStop?) ==> model.pc == if stop then Finished(false) else AskSkip
      ensures old(model.pc.HoldStop?) ==> model.pc == if stop then HoldLeft else Opening(Hold)
      ensures old(model.pc.HoldLeft?) ==> model.pc == if stop then Finished(false) else Opening(Song)
      ensures model.offset == old(model.offset)
      ensures tape == old(tape)
    {
      hide Run, Log, Sane;
      var n, e, ok := Yield(cfg);
      stop := runCancelled;
      Record(cfg, Player(n, e, ok));
      assert tape + [] == tape;
    }

    method TestSkip(cfg: Config) returns (skip: bool)
      requires Tracks(cfg) && (model.pc.AskSkip? || model.pc.HoldSkip?)
      modifies this
      ensures Tracks(cfg) && entry == old(entry) && Fuel() <= old(Fuel())
      ensures model.pc == if skip then Finished(false) else if old(model.pc.AskSkip?) then AskSeek else HoldSeek
      ensures model.offset == old(model.offset)
      ensures tape == old(tape)
    {
      hide Run, Log, Sane;
      var n, e, ok := Yield(cfg);
      skip := ConsumeSkipRequested();
      Record(cfg, Player(n, e, ok));
      assert tape + [] == tape;
    }

    method ApplySeek(cfg: Config, ghost l: Label) returns (offsetBytes: int, ok: bool)
      requires Tracks(cfg) && (model.pc.AskSeek? || model.pc.HoldSeek?) && l.Player?
      modifies this`pendingSeekSeconds, this`tape, this`trace, this`model
      ensures Tracks(cfg) && model == Step(cfg, old(model), l)
      ensures ok == old(model).ctrl.seek.Some? && (ok ==> offsetBytes == old(model).ctrl.seek.value * cfg.bps)
      ensures tape == old(tape) + if ok then [Jump(offsetBytes)] else []
    {
      hide Run, Log, Sane;
      AskSeekEffect(cfg, model, l);
      hide Step, Output;
      offsetBytes, ok := ConsumeSeekOffsetBytes(cfg.bps);
      if ok {
        tape := tape + [Jump(offsetBytes)];
      } else {
        assert tape + [] == tape;
      }
      Record(cfg, l);
    }

    method TestSeek(cfg: Config) returns (offsetBytes: int, ok: bool)
      requires Tracks(cfg) && (model.pc.AskSeek? || model.pc.HoldSeek?)
      modifies this
      ensures Tracks(cfg) && entry == old(entry) && Fuel() <= old(Fuel())
      ensures old(model.pc.AskSeek?) ==> model.pc == if ok then Opening(Song) else AskPaused
      ensures old(model.pc.HoldSeek?) ==> model.pc == HoldTest
      ensures model.offset == if ok then offsetBytes else old(model.offset)
      ensures tape == old(tape) + if ok then [Jump(offsetBytes)] else []
    {
      hide Run, Log, Sane;
      var n, e, choice := Yield(cfg);
      ghost var l := Player(n, e, choice);
      AskSeekEffect(cfg, model, l);
      hide *;
      offsetBytes, ok := ApplySeek(cfg, l);
    }

    method TestPaused(cfg: Config) returns (held: bool)
      requires Tracks(cfg) && (model.pc.AskPaused? || model.pc.HoldTest?)
      modifies this
      ensures Tracks(cfg) && entry == old(entry) && Fuel() <= old(Fuel())
      ensures old(model.pc.AskPaused?) ==> model.pc == if held then HoldTest else Finished(false)
      ensures old(model.pc.HoldTest?) ==> model.pc == if held then HoldStop else HoldLeft
      ensures model.offset == old(model.offset)
      ensures tape == old(tape)
    {
      hide Run, Log, Sane;
      var n, e, ok := Yield(cfg);
      held := paused;
      Record(cfg, Player(n, e, ok));
      assert tape + [] == tape;
    }

    /** The pause hold: loops silence until Resume, a skip or a stop; seeks only move the offset. */
    method HoldPause(cfg: Config, offset: int) returns (offsetBytes: int, over: bool)
      requires Tracks(cfg) && model.pc == HoldTest && model.offset == offset
      modifies this
      ensures Tracks(cfg) && entry == old(entry) && Fuel() <= old(Fuel())
      ensures model.offset == offsetBytes
      ensures model.pc == if over then Finished(false) else Opening(Song)
      ensures Held(old(tape), tape, offset, offsetBytes)
    {
      hide Tracks, Fuel, Controls, Overtaken;
      offsetBytes := offset;
      while true
        invariant Tracks(cfg) && entry == old(entry) && Fuel() <= old(Fuel())
        invariant model.pc == HoldTest && model.offset == offsetBytes
        invariant Held(old(tape), tape, offset, offsetBytes)
        decreases Fuel()
      {
        ghost var before := tape;
        var held := TestPaused(cfg);
        if !held {
          break;
        }
        var stop := TestStopped(cfg);
        if stop {
          break;
        }
        var _, sent := StreamFile(cfg, Hold, 0);
        HeldOn(cfg, old(tape), before, sent, tape, offset, offsetBytes);
        var skip := TestSkip(cfg);
        if skip {
          return offsetBytes, true;
        }
        before := tape;
        var seekTo, ok := TestSeek(cfg);
        if ok {
          offsetBytes := seekTo;
        }
        HeldSeek(old(tape), before, tape, offset, if ok then Some(seekTo) else None, offsetBytes);
      }
      over := TestStopped(cfg);
    }

    /** Streams the item to its end through pauses and seeks.  The loops make exactly a run of the
        transition system, so the bytes sent are conserved; completed means the end was reached. */
    method PlayLocalItem(cfg: Config) returns (completed: bool)
      requires Valid(cfg) && !streamRegistered && !streamCancelled
      requires pendingSeekSeconds.Some? ==> 0 <= pendingSeekSeconds.value
      modifies this
      ensures Tracks(cfg) && Entry(entry) && entry.ctrl == old(Controls()) && entry.stopped == old(runCancelled)
      ensures Run(cfg, entry, trace).pc == Finished(completed) && tape == Log(cfg, entry, trace)
      ensures TapeOk(cfg.song, tape)
      ensures completed ==> Head(tape) >= |cfg.song|
    {
      tape := [];
      entry := State(Opening(Song), 0, 0, false, false, runCancelled, Controls(), clock, clock, clock, 0, 0);
      trace, model := [], entry;
      completed := PlayFrom(cfg);
      BytesConserved(cfg, entry, trace);
      hide Run, Log, Step, Output;
    }

    method PlayFrom(cfg: Config) returns (completed: bool)
      requires Tracks(cfg) && model.pc == Opening(Song) && model.offset == 0
      modifies this
      ensures Tracks(cfg) && entry == old(entry) && model.pc == Finished(completed)
    {
      hide Tracks, Fuel, Controls, Overtaken;
      var offsetBytes := 0;
      while true
        invariant Tracks(cfg) && entry == old(entry)
        invariant model.pc == Opening(Song) && model.offset == offsetBytes
        decreases Fuel()
      {
        var done, sent := StreamFile(cfg, Song, offsetBytes);
        offsetBytes := offsetBytes + sent;
        if done {
          return true;
        }
        var stop := TestStopped(cfg);
        if stop {
          return false;
        }
        var skip := TestSkip(cfg);
        if skip {
          return false;
        }
        var seekTo, ok := TestSeek(cfg);
        if ok {
          offsetBytes := seekTo;
          continue;
        }
        var held := TestPaused(cfg);
        if !held {
          return false;
        }
        var over;
        offsetBytes, over := HoldPause(cfg, offsetBytes);
        if over {
          return false;
        }
      }
    }
  }

  ghost predicate SameStream(a: State, b: State) {
    && b.offset == a.offset && b.sent == a.sent && b.start == a.start && b.ctrl.current == a.ctrl.current
  }

  predicate Burned(before: nat, after: nat) {
    after < before || (after == 0 && before == 0)
  }
}
