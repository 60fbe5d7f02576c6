/** The mid-track playback controls of a station: the fields guarded by playCtrlMu and the
    effect each control operation has on them.  Time is a clock in integer nanoseconds. */
module Control {
  import opened Options

  const NANOS: int := 1_000_000_000

  /** A duration as whole seconds, truncated toward zero as a float-to-int conversion does. */
  function WholeSeconds(d: int): int {
    if d >= 0 then d / NANOS else -((-d) / NANOS)
  }

  /** What the controls read of the current queue item; duration 0 means unknown. */
  datatype Item = Item(live: bool, duration: int)

  datatype Ctrl = Ctrl(
    current: Option<Item>,
    paused: bool,
    offset: int,        // position in seconds as of anchor
    anchor: int,
    seek: Option<int>,  // pending seek, in seconds
    skip: bool)

  datatype Op = Interrupt | Pause | Resume | Seek(seconds: int)

  /** Pause and Seek need a current item that is not a live relay. */
  predicate Seekable(c: Ctrl) {
    c.current.Some? && !c.current.value.live
  }

  function ClampTo(duration: int, seconds: int): int {
    var s := if seconds < 0 then 0 else seconds;
    if duration > 0 && s > duration then duration else s
  }

  function Target(c: Ctrl, seconds: int): int
    requires Seekable(c)
  {
    ClampTo(c.current.value.duration, seconds)
  }

  /** The position reported to clients. */
  function Position(c: Ctrl, now: int): int {
    if c.paused then c.offset else c.offset + WholeSeconds(now - c.anchor)
  }

  /** Whether the call reports that it did something. */
  predicate Accepted(c: Ctrl, op: Op) {
    match op
    case Interrupt => true
    case Pause => Seekable(c) && !c.paused
    case Resume => c.paused
    case Seek(_) => Seekable(c)
  }

  /** The call's critical section. */
  function Apply(c: Ctrl, op: Op, now: int): Ctrl {
    if !Accepted(c, op) then c else
    match op
    case Interrupt => c.(paused := false, seek := None, skip := true)
    case Pause => c.(offset := c.offset + WholeSeconds(now - c.anchor), paused := true)
    case Resume => c.(paused := false, anchor := now)
    case Seek(k) => c.(seek := Some(Target(c, k)), offset := Target(c, k), anchor := now)
  }

  /** Whether the call goes on to cancel the stream in flight. */
  predicate Cancels(c: Ctrl, op: Op) {
    Accepted(c, op) && !op.Resume? && (op.Seek? ==> !c.paused)
  }

  /** SetCurrent: the pending skip is the one field it leaves alone. */
  function NewTrack(c: Ctrl, item: Option<Item>, now: int): Ctrl {
    c.(current := item, paused := false, seek := None, offset := 0, anchor := now)
  }

  // ---- What each call does, field by field ----

  /** Pause and Seek act on a current item that is not a live relay, Pause only on one that is not
      paused, Resume only on one that is; a call that does not act changes nothing.  A Pause moves
      the position on by the whole seconds since the anchor. */
  lemma CallEffects(c: Ctrl, now: int)
    ensures var c' := Apply(c, Pause, now);
            if c.current.Some? && !c.current.value.live && !c.paused then
              c' == c.(paused := true, offset := c'.offset) && WholeSecondsOf(now - c.anchor, c'.offset - c.offset)
            else c' == c
    ensures Apply(c, Resume, now) == if c.paused then c.(paused := false, anchor := now) else c
    ensures Apply(c, Interrupt, now) == c.(paused := false, seek := None, skip := true)
    ensures forall item :: NewTrack(c, item, now) == Ctrl(item, false, 0, now, None, c.skip)
  {
    SecondsOf(now - c.anchor);
  }

  /** n is d nanoseconds in seconds, cut off toward zero. */
  predicate WholeSecondsOf(d: int, n: int) {
    if d >= 0 then 0 <= d - n * 1_000_000_000 < 1_000_000_000 else -1_000_000_000 < d - n * 1_000_000_000 <= 0
  }

  lemma SecondsOf(d: int)
    ensures WholeSecondsOf(d, WholeSeconds(d))
  {
    if d >= 0 {
      assert d == (d / NANOS) * NANOS + d % NANOS;
    } else {
      assert -d == ((-d) / NANOS) * NANOS + (-d) % NANOS;
    }
  }

  /** Where a seek to so many seconds goes: there, when that is inside the track or its duration is
      unknown; to the start when it is before; to the end when it is past it. */
  predicate GoesTo(duration: int, seconds: int, to: int) {
    && (0 <= seconds && (duration <= 0 || seconds <= duration) ==> to == seconds)
    && (seconds < 0 ==> to == 0)
    && (0 < duration < seconds ==> to == duration)
  }

  lemma SeekEffect(c: Ctrl, now: int, seconds: int)
    ensures var c' := Apply(c, Seek(seconds), now);
            if c.current.Some? && !c.current.value.live then
              && c'.seek.Some? && GoesTo(c.current.value.duration, seconds, c'.seek.value)
              && c' == c.(seek := c'.seek, offset := c'.seek.value, anchor := now)
            else c' == c
  {
  }

  /** Of the calls that act, Interrupt, Pause, and a Seek while not paused cancel the stream. */
  lemma CancelEffect(c: Ctrl, seconds: int)
    ensures Cancels(c, Interrupt) && !Cancels(c, Resume)
    ensures Cancels(c, Pause) <==> c.current.Some? && !c.current.value.live && !c.paused
    ensures Cancels(c, Seek(seconds)) <==> c.current.Some? && !c.current.value.live && !c.paused
  {
  }

  /** The reported position is the offset, and the whole seconds since the anchor while playing. */
  lemma PositionMeans(c: Ctrl, now: int)
    ensures c.paused ==> Position(c, now) == c.offset
    ensures !c.paused ==> WholeSecondsOf(now - c.anchor, Position(c, now) - c.offset)
  {
    SecondsOf(now - c.anchor);
  }

  // ---- Reported position against true playing time ----

  /** A control state, the clock, the true playing time in nanoseconds since the track started
      or was last sought, and the successful pauses since then. */
  datatype Timed = Timed(ctrl: Ctrl, now: int, played: int, pauses: nat)

  datatype Moment = Elapse(dt: nat) | Do(op: Op) | Begin(item: Option<Item>)

  function TimedStep(t: Timed, e: Moment): Timed {
    match e
    case Elapse(dt) =>
      t.(now := t.now + dt, played := if t.ctrl.paused then t.played else t.played + dt)
    case Begin(item) => Timed(NewTrack(t.ctrl, item, t.now), t.now, 0, 0)
    case Do(op) =>
      var c := Apply(t.ctrl, op, t.now);
      if op.Pause? && Accepted(t.ctrl, op) then t.(ctrl := c, pauses := t.pauses + 1)
      else if op.Seek? && Accepted(t.ctrl, op) then Timed(c, t.now, Target(t.ctrl, op.seconds) * NANOS, 0)
      else t.(ctrl := c)
  }

  function TimedRun(t: Timed, es: seq<Moment>): Timed {
    if es == [] then t else TimedStep(TimedRun(t, es[..|es| - 1]), es[|es| - 1])
  }

  predicate NoInterrupt(es: seq<Moment>) {
    forall e <- es :: e != Do(Interrupt)
  }

  /** What the reported position has lost so far: under a second for each pause. */
  function Lost(t: Timed): int {
    t.played - t.ctrl.offset * NANOS - if t.ctrl.paused then 0 else t.now - t.ctrl.anchor
  }

  ghost predicate PositionInv(t: Timed) {
    && (!t.ctrl.paused ==> t.ctrl.anchor <= t.now)
    && 0 <= Lost(t) <= t.pauses * (NANOS - 1)
  }

  lemma PositionStep(t: Timed, e: Moment)
    requires PositionInv(t) && e != Do(Interrupt)
    ensures PositionInv(TimedStep(t, e))
  {
    var t' := TimedStep(t, e);
    if e == Do(Pause) && Accepted(t.ctrl, Pause) {
      var d := t.now - t.ctrl.anchor;
      assert d == WholeSeconds(d) * NANOS + d % NANOS;
      assert Lost(t') == Lost(t) + d % NANOS;
      assert t'.pauses * (NANOS - 1) == t.pauses * (NANOS - 1) + (NANOS - 1);
    }
  }

  /** Starts the reckoning afresh: a new track, or a seek that is accepted. */
  predicate Restarts(t: Timed, e: Moment) {
    e.Begin? || (e.Do? && e.op.Seek? && Accepted(t.ctrl, e.op))
  }

  /** Reported position and true playing time, from any state on, since the last new track or
      accepted seek: as long as no Interrupt comes, the report never runs ahead, and lags by less
      than one second plus one for each pause since the track started or was last sought. */
  lemma {:induction false} ReportedPositionBound(t: Timed, start: Moment, es: seq<Moment>)
    requires Restarts(t, start) && NoInterrupt(es)
    ensures var t' := TimedRun(TimedStep(t, start), es);
            var reported := Position(t'.ctrl, t'.now);
            && PositionInv(t')
            && reported * NANOS <= t'.played < (reported + t'.pauses + 1) * NANOS
  {
    var t0 := TimedStep(t, start);
    var t' := TimedRun(t0, es);
    if es != [] {
      var before := es[..|es| - 1];
      forall e <- before ensures e != Do(Interrupt) { assert e in es; }
      ReportedPositionBound(t, start, before);
      assert es[|es| - 1] in es;
      PositionStep(TimedRun(t0, before), es[|es| - 1]);
    }
    assert PositionInv(t');
    var lag := if t'.ctrl.paused then 0 else t'.now - t'.ctrl.anchor;
    assert lag == WholeSeconds(lag) * NANOS + lag % NANOS;
    assert (Position(t'.ctrl, t'.now) + t'.pauses + 1) * NANOS
        == Position(t'.ctrl, t'.now) * NANOS + t'.pauses * (NANOS - 1) + t'.pauses + NANOS;
  }

  /** Pause and Resume do not move the reported position, and it only grows as time passes. */
  lemma PositionSteady(c: Ctrl, now: int, later: int)
    requires now <= later
    ensures Position(Apply(c, Pause, now), now) == Position(c, now)
    ensures Position(Apply(c, Resume, now), now) == Position(c, now)
    ensures Position(c, now) <= Position(c, later)
  {
  }

  /** Interrupt leaves the reported position alone exactly when the track is not paused, or the
      anchor is less than a second away: it does not restart the anchor as Resume does. */
  lemma InterruptKeepsPositionIff(c: Ctrl, now: int)
    ensures Position(Apply(c, Interrupt, now), now) == Position(c, now)
       <==> !c.paused || -NANOS < now - c.anchor < NANOS
  {
  }

  // ---- Seeking stays inside the file ----

  /** A cached file's duration in seconds, from its size; 0 when the bitrate is unknown. */
  function DurationSeconds(size: nat, bytesPerSecond: int): int {
    if bytesPerSecond <= 0 then 0 else size / bytesPerSecond
  }

  /** A file's duration is its length in whole seconds, or unknown. */
  lemma DurationMeans(size: nat, bps: int)
    ensures bps <= 0 ==> DurationSeconds(size, bps) == 0
    ensures bps > 0 ==> DurationSeconds(size, bps) * bps <= size < (DurationSeconds(size, bps) + 1) * bps
  {
    if bps > 0 {
      assert size == DurationSeconds(size, bps) * bps + size % bps;
    }
  }

  /** Every seek lands inside the file exactly when the track lasts at least one second;
      seeking to the end then leaves less than a second of audio. */
  lemma SeekStaysInsideIff(size: nat, bps: int)
    requires bps > 0
    ensures (forall k: int {:trigger ClampTo(DurationSeconds(size, bps), k)} ::
              0 <= ClampTo(DurationSeconds(size, bps), k) * bps <= size)
       <==> DurationSeconds(size, bps) > 0
    ensures var d := DurationSeconds(size, bps);
            d > 0 ==> forall k :: k >= d ==> size - ClampTo(d, k) * bps < bps
  {
    var d := DurationSeconds(size, bps);
    assert size == d * bps + size % bps;
    if d > 0 {
      forall k: int ensures 0 <= ClampTo(d, k) * bps <= d * bps {
      }
    } else {
      assert ClampTo(d, 1) * bps == bps > size;
    }
  }

  /** SeekBy is Seek from the reported position, so the same bound covers any signed delta. */
  lemma SeekByStaysInside(c: Ctrl, now: int, delta: int, size: nat, bps: int)
    requires bps > 0 && Seekable(c) && c.current.value.duration == DurationSeconds(size, bps) > 0
    ensures var c' := Apply(c, Seek(Position(c, now) + delta), now);
            c'.seek.Some? && 0 <= c'.seek.value * bps <= size && c'.offset == c'.seek.value
  {
  }
}
