/** The prefetch pool: a bounded buffer of jobs, any number of workers, and items whose ready
    channel must be closed exactly once. */
module Pool {
  import opened Options
  import opened Control

  const JOBS: nat := 64

  datatype Outcome =
    | Ready(path: string, durationSeconds: int)
    | Live(url: string)
    | Failed(code: string)

  /** What resolving and transcoding an item came to. */
  datatype Processing =
    | ResolveFailed
    | ResolvedLive(url: string)
    | TranscodeTimedOut
    | TranscodeFailed
    | Transcoded(path: string, size: Option<nat>)  // the size, if the file can be looked at

  const DEFAULT_CODE := "TRANSCODE_FAILED"
  const TIMEOUT_CODE := "TRANSCODE_TIMEOUT"
  const FULL_CODE := "PREFETCH_QUEUE_FULL"

  /** 0, unknown, when the file cannot be looked at. */
  function FileDuration(size: Option<nat>, bytesPerSecond: int): int {
    if size.None? then 0 else DurationSeconds(size.value, bytesPerSecond)
  }

  function Verdict(p: Processing, bytesPerSecond: int): Outcome {
    match p
    case ResolveFailed => Failed(DEFAULT_CODE)
    case ResolvedLive(url) => Live(url)
    case TranscodeTimedOut => Failed(TIMEOUT_CODE)
    case TranscodeFailed => Failed(DEFAULT_CODE)
    case Transcoded(path, size) => Ready(path, FileDuration(size, bytesPerSecond))
  }

  /** What every result comes to, code by code. */
  lemma VerdictMeans(bps: int, url: string, path: string, size: Option<nat>)
    ensures Verdict(ResolveFailed, bps) == Failed("TRANSCODE_FAILED") && Verdict(TranscodeFailed, bps) == Failed("TRANSCODE_FAILED")
    ensures Verdict(TranscodeTimedOut, bps) == Failed("TRANSCODE_TIMEOUT")
    ensures Verdict(ResolvedLive(url), bps) == Live(url)
    ensures var v := Verdict(Transcoded(path, size), bps);
            && v.Ready? && v.path == path
            && (size.None? || bps <= 0 ==> v.durationSeconds == 0)
            && (size.Some? && bps > 0 ==> v.durationSeconds * bps <= size.value < (v.durationSeconds + 1) * bps)
  {
    if size.Some? {
      DurationMeans(size.value, bps);
    }
    hide DurationSeconds;
  }

  /** A queue item, as far as prefetch sets it: each Mark closes the ready channel, which must not
      be closed already. */
  class QueuedItem {
    var ready: bool
    var localPath: string
    var durationSeconds: int
    var isLive: bool
    var liveURL: string
    var failed: bool
    var errCode: string

    constructor ()
      ensures !ready && !failed && !isLive && errCode == ""
    {
      ready, localPath, durationSeconds, isLive, liveURL, failed, errCode := false, "", 0, false, "", false, "";
    }

    /** What a reader of the closed channel sees. */
    function Settled(): Option<Outcome>
      reads this
    {
      if !ready then None
      else if failed then Some(Failed(if errCode == "" then DEFAULT_CODE else errCode))
      else if isLive then Some(Live(liveURL))
      else Some(Ready(localPath, durationSeconds))
    }

    method MarkReady(path: string, duration: int, err: bool)
      requires !ready && errCode == "" && !isLive
      modifies this
      ensures Settled() == Some(if err then Failed(DEFAULT_CODE) else Ready(path, duration))
      ensures ready && localPath == path && durationSeconds == duration && failed == err && !isLive && errCode == ""
    {
      localPath := path;
      durationSeconds := duration;
      failed := err;
      ready := true;
    }

    method MarkFailed(code: string)
      requires !ready && code != ""
      modifies this
      ensures Settled() == Some(Failed(code))
      ensures ready && failed && errCode == code && isLive == old(isLive)
    {
      failed := true;
      errCode := code;
      ready := true;
    }

    method MarkLive(url: string)
      requires !ready && !failed
      modifies this
      ensures Settled() == Some(Live(url))
      ensures ready && isLive && liveURL == url && failed == old(failed) && errCode == old(errCode)
    {
      isLive := true;
      liveURL := url;
      ready := true;
    }

    /** What a worker does with an item, given how resolving and transcoding went. */
    method Process(p: Processing, bytesPerSecond: int)
      requires !ready && !failed && !isLive && errCode == ""
      modifies this
      ensures Settled() == Some(Verdict(p, bytesPerSecond))
      ensures ready && (failed <==> p.ResolveFailed? || p.TranscodeTimedOut? || p.TranscodeFailed?)
      ensures isLive <==> p.ResolvedLive?
      ensures p.Transcoded? ==> localPath == p.path && durationSeconds == FileDuration(p.size, bytesPerSecond)
      ensures p.ResolvedLive? ==> liveURL == p.url
      ensures errCode == if p.TranscodeTimedOut? then "TRANSCODE_TIMEOUT" else ""
    {
      match p {
        case ResolveFailed => MarkReady("", 0, true);
        case ResolvedLive(url) => MarkLive(url);
        case TranscodeTimedOut => MarkFailed(TIMEOUT_CODE);
        case TranscodeFailed => MarkReady("", 0, true);
        case Transcoded(path, size) => MarkReady(path, FileDuration(size, bytesPerSecond), false);
      }
    }
  }

  /** The pool's buffered channel of jobs. */
  class PrefetchPool {
    var jobs: seq<QueuedItem>

    constructor ()
      ensures jobs == []
    {
      jobs := [];
    }

    /** Never blocks: a new item goes into the buffer, or fails at once when the buffer is full. */
    method Prefetch(item: QueuedItem)
      requires !item.ready
      modifies this, item
      ensures |old(jobs)| < JOBS ==> jobs == old(jobs) + [item] && unchanged(item)
      ensures |old(jobs)| >= JOBS ==> jobs == old(jobs) && item.Settled() == Some(Failed(FULL_CODE))
    {
      if |jobs| < JOBS {
        jobs := jobs + [item];
      } else {
        item.MarkFailed(FULL_CODE);
      }
    }

    /** A worker's turn: takes the oldest job, if any, and settles it. */
    method Work(p: Processing, bytesPerSecond: int) returns (item: QueuedItem?)
      requires forall x <- jobs :: !x.ready && !x.failed && !x.isLive && x.errCode == ""
      modifies this, jobs
      ensures old(jobs) == [] ==> item == null && jobs == []
      ensures old(jobs) != [] ==> item == old(jobs)[0] && jobs == old(jobs)[1..] && item.Settled() == Some(Verdict(p, bytesPerSecond))
      ensures forall x <- old(jobs) :: x != item ==> unchanged(x)
    {
      if jobs == [] {
        return null;
      }
      item := jobs[0];
      jobs := jobs[1..];
      item.Process(p, bytesPerSecond);
    }
  }

  // ---- All the pool's goroutines together ----

  /** items: those submitted so far; settled: the outcome each closed channel carries; closings: how
      often each channel was closed. */
  datatype State = State(
    items: seq<nat>,
    buffer: seq<nat>,
    hands: map<nat, nat>,          // worker -> item
    settled: map<nat, Outcome>,
    closings: map<nat, nat>)

  datatype Label =
    | Prefetch(item: nat)
    | Take(worker: nat)
    | Finish(worker: nat, result: Processing)

  function Settle(s: State, item: nat, o: Outcome): State {
    s.(settled := s.settled[item := o],
       closings := s.closings[item := 1 + if item in s.closings then s.closings[item] else 0])
  }

  /** Every item is new when it is submitted; a worker takes its next job when its hands are free. */
  function Step(s: State, bps: int, l: Label): State {
    match l
    case Prefetch(item) =>
      if item in s.items then s
      else if |s.buffer| < JOBS then s.(items := s.items + [item], buffer := s.buffer + [item])
      else Settle(s.(items := s.items + [item]), item, Failed(FULL_CODE))
    case Take(worker) =>
      if worker in s.hands || s.buffer == [] then s
      else s.(buffer := s.buffer[1..], hands := s.hands[worker := s.buffer[0]])
    case Finish(worker, result) =>
      if worker !in s.hands then s
      else Settle(s.(hands := s.hands - {worker}), s.hands[worker], Verdict(result, bps))
  }

  function Run(bps: int, ls: seq<Label>): State {
    if ls == [] then State([], [], map[], map[], map[])
    else Step(Run(bps, ls[..|ls| - 1]), bps, ls[|ls| - 1])
  }

  /** A new item goes to the back of the buffer while fewer than 64 are there, and fails otherwise;
      an idle worker takes the item at the front; a busy one settles the item in its hands, and
      nothing else. */
  lemma PoolEffects(s: State, bps: int, item: nat, worker: nat, result: Processing)
    ensures var s' := Step(s, bps, Prefetch(item));
            if item in s.items then s' == s
            else if |s.buffer| < 64 then s' == s.(items := s.items + [item], buffer := s.buffer + [item])
            else s'.buffer == s.buffer && s'.hands == s.hands && s'.settled == s.settled[item := Failed("PREFETCH_QUEUE_FULL")]
    ensures var s' := Step(s, bps, Take(worker));
            if worker in s.hands || s.buffer == [] then s' == s
            else [s'.hands[worker]] + s'.buffer == s.buffer
                 && s' == s.(buffer := s'.buffer, hands := s.hands[worker := s'.hands[worker]])
    ensures var s' := Step(s, bps, Finish(worker, result));
            if worker !in s.hands then s' == s
            else s'.buffer == s.buffer && s'.hands == s.hands - {worker}
                 && s'.settled == s.settled[s.hands[worker] := Verdict(result, bps)]
  {
  }

  /** The items the buffer took in, in order. */
  function TakenIn(bps: int, ls: seq<Label>): seq<nat> {
    if ls == [] then [] else
    var s, l := Run(bps, ls[..|ls| - 1]), ls[|ls| - 1];
    TakenIn(bps, ls[..|ls| - 1])
    + if l.Prefetch? && l.item !in s.items && |s.buffer| < 64 then [l.item] else []
  }

  /** The items workers took up, in order. */
  function TakenUp(bps: int, ls: seq<Label>): seq<nat> {
    if ls == [] then [] else
    var s, s', l := Run(bps, ls[..|ls| - 1]), Run(bps, ls), ls[|ls| - 1];
    TakenUp(bps, ls[..|ls| - 1])
    + if l.Take? && l.worker !in s.hands && l.worker in s'.hands then [s'.hands[l.worker]] else []
  }

  /** Items are worked on in exactly the order in which they were submitted: those taken up, then
      those in the buffer, are those taken in. */
  lemma {:induction false} FirstComeFirstServed(bps: int, ls: seq<Label>)
    ensures TakenIn(bps, ls) == TakenUp(bps, ls) + Run(bps, ls).buffer
  {
    if ls != [] {
      FirstComeFirstServed(bps, ls[..|ls| - 1]);
      var up, l := TakenUp(bps, ls[..|ls| - 1]), ls[|ls| - 1];
      var s, s' := Run(bps, ls[..|ls| - 1]), Run(bps, ls);
      assert s' == Step(s, bps, l);
      LineMoves(s, bps, l, up);
      hide Step, Run;
    }
  }

  lemma LineMoves(s: State, bps: int, l: Label, up: seq<nat>)
    ensures var s' := Step(s, bps, l);
            (up + s.buffer) + (if l.Prefetch? && l.item !in s.items && |s.buffer| < 64 then [l.item] else [])
            == (up + if l.Take? && l.worker !in s.hands && l.worker in s'.hands then [s'.hands[l.worker]] else []) + s'.buffer
  {
    hide Verdict;
    var s' := Step(s, bps, l);
    if l.Take? && l.worker !in s.hands && s.buffer != [] {
      assert s.buffer == [s.buffer[0]] + s'.buffer;
    }
  }

  predicate InHand(s: State, item: nat) {
    exists w :: w in s.hands && s.hands[w] == item
  }

  /** An item is in exactly one of the buffer, one worker's hands, or settled, and its channel is
      closed exactly when it is settled, once. */
  ghost predicate Placed(s: State) {
    && |s.buffer| <= JOBS
    && (forall i, j :: 0 <= i < j < |s.buffer| ==> s.buffer[i] != s.buffer[j])
    && (forall v, w :: v in s.hands && w in s.hands && s.hands[v] == s.hands[w] ==> v == w)
    && (forall x <- s.buffer :: x in s.items && !InHand(s, x) && x !in s.settled)
    && (forall w <- s.hands :: s.hands[w] in s.items && s.hands[w] !in s.settled)
    && (forall x <- s.items :: x in s.buffer || InHand(s, x) || x in s.settled)
    && (forall x <- s.settled :: x in s.items)
    && s.closings == map x | x in s.settled :: 1
  }

  lemma PrefetchPlaced(s: State, bps: int, item: nat)
    requires Placed(s)
    ensures Placed(Step(s, bps, Prefetch(item)))
  {
    var s' := Step(s, bps, Prefetch(item));
    if item !in s.items {
      assert !InHand(s, item) && item !in s.buffer;
      forall x ensures InHand(s', x) == InHand(s, x) {
        assert s'.hands == s.hands;
      }
      if |s.buffer| < JOBS {
        assert s'.settled == s.settled && s'.closings == s.closings;
        assert forall x :: x in s'.buffer <==> x == item || x in s.buffer;
        assert forall x :: x in s'.items <==> x == item || x in s.items;
        hide Step, InHand;
      } else {
        assert s'.buffer == s.buffer && s'.closings == s.closings[item := 1];
        hide Step, InHand;
      }
    }
  }

  lemma TakePlaced(s: State, bps: int, worker: nat)
    requires Placed(s)
    ensures Placed(Step(s, bps, Take(worker)))
  {
    var s' := Step(s, bps, Take(worker));
    if s' != s {
      var item := s.buffer[0];
      assert s'.hands[worker] == item && item in s.buffer;
      forall x | x != item ensures InHand(s', x) == InHand(s, x) {
        if InHand(s, x) {
          var w :| w in s.hands && s.hands[w] == x;
          assert s'.hands[w] == x;
        }
        if InHand(s', x) {
          var w :| w in s'.hands && s'.hands[w] == x;
          assert s.hands[w] == x;
        }
      }
      assert forall x :: x in s.buffer <==> x == item || x in s.buffer[1..];
      assert item !in s.buffer[1..];
      assert InHand(s', item);
      assert !InHand(s, item);
    }
  }

  lemma FinishPlaced(s: State, bps: int, worker: nat, result: Processing)
    requires Placed(s)
    ensures Placed(Step(s, bps, Finish(worker, result)))
  {
    var s' := Step(s, bps, Finish(worker, result));
    hide Verdict;
    if worker in s.hands {
      var item := s.hands[worker];
      assert InHand(s, item);
      forall x | x != item ensures InHand(s', x) == InHand(s, x) {
        if InHand(s, x) {
          var w :| w in s.hands && s.hands[w] == x;
          assert s'.hands[w] == x;
        }
        if InHand(s', x) {
          var w :| w in s'.hands && s'.hands[w] == x;
          assert s.hands[w] == x;
        }
      }
      assert forall w <- s'.hands :: s'.hands[w] != item;
    }
  }

  lemma {:induction false} PlacedRun(bps: int, ls: seq<Label>)
    ensures Placed(Run(bps, ls))
  {
    if ls != [] {
      var s := Run(bps, ls[..|ls| - 1]);
      PlacedRun(bps, ls[..|ls| - 1]);
      match ls[|ls| - 1]
      case Prefetch(item) => PrefetchPlaced(s, bps, item);
      case Take(worker) => TakePlaced(s, bps, worker);
      case Finish(worker, result) => FinishPlaced(s, bps, worker, result);
    }
    hide Step, Placed;
  }

  /** Once settled, an item's outcome never changes and its channel is never closed again. */
  lemma {:induction false} OutcomeIsFinal(bps: int, ls: seq<Label>, more: seq<Label>, item: nat)
    requires item in Run(bps, ls).settled
    ensures var s, s' := Run(bps, ls), Run(bps, ls + more);
            item in s'.settled && s'.settled[item] == s.settled[item]
            && item in s'.closings && s'.closings[item] == 1
  {
    if more == [] {
      assert ls + more == ls;
    } else {
      var most, l := more[..|more| - 1], more[|more| - 1];
      RunMore(bps, ls, more);
      PlacedRun(bps, ls + most);
      hide Run, Step, Placed;
      OutcomeIsFinal(bps, ls, most, item);
      SettledStays(Run(bps, ls + most), bps, l, item);
    }
    PlacedRun(bps, ls + more);
    hide Run, Step;
    ClosedOnce(Run(bps, ls + more), item);
  }

  lemma RunMore(bps: int, ls: seq<Label>, more: seq<Label>)
    requires more != []
    ensures Run(bps, ls + more) == Step(Run(bps, ls + more[..|more| - 1]), bps, more[|more| - 1])
  {
    hide Step;
    var all := ls + more;
    assert all[..|all| - 1] == ls + more[..|more| - 1] && all[|all| - 1] == more[|more| - 1];
  }

  lemma ClosedOnce(s: State, item: nat)
    requires Placed(s) && item in s.settled
    ensures item in s.closings && s.closings[item] == 1
  {
  }

  lemma SettledStays(s: State, bps: int, l: Label, item: nat)
    requires Placed(s) && item in s.settled
    ensures var s' := Step(s, bps, l);
            item in s'.settled && s'.settled[item] == s.settled[item]
  {
  }

  /** PREFETCH_QUEUE_FULL is given exactly when a new item finds the buffer full: no other step
      settles anything with that code. */
  lemma QueueFullIff(s: State, bps: int, l: Label, item: nat)
    requires Placed(s) && item !in s.settled
    ensures var s' := Step(s, bps, l);
            ((item in s'.settled && s'.settled[item] == Failed(FULL_CODE))
             <==> (l == Prefetch(item) && item !in s.items && |s.buffer| == JOBS))
  {
    assert FULL_CODE[0] == 'P' && TIMEOUT_CODE[0] == 'T' && DEFAULT_CODE[0] == 'T';
  }
}
