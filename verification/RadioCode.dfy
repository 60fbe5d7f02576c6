/** Run in its own form: the loop over the queue object, with the other goroutines' steps taken
    from a schedule between its own, which ends with the station being stopped.  It is proved to
    make a run of the transition system in module RunLoop. */
module RadioCode {
  import opened PlayQueue
  import opened RunLoop

  class Radio {
    const queue: Queue
    var settled: map<Id, Outcome>
    var runCancelled: bool
    var published: seq<Event>
    var history: seq<(Id, bool)>
    var issued: seq<Id>          // ids handed out so far
    var schedule: seq<Label>

    ghost var entry: State
    ghost var trace: seq<Label>
    ghost var model: State

    constructor (schedule: seq<Label>, settled: map<Id, Outcome>)
      ensures Tracks() && model.pc.Top? && !model.wasSilent && Fresh(entry)
      ensures published == [] && fresh(queue)
    {
      var q := new Queue();
      queue := q;
      this.settled, runCancelled, published, history, issued := settled, false, [], [], [];
      this.schedule := schedule;
      var s := State(Top, false, false, [], settled, [], [], [], [], {});
      entry, trace, model := s, [], s;
    }

    ghost predicate Tracks()
      reads this, queue
    {
      && model == RunLoop.Run(entry, trace)
      && model.queue == queue.items
      && model.settled == settled
      && model.stopped == runCancelled
      && model.events == published
      && model.history == history
      && model.ever == issued
    }

    function Fuel(): nat
      reads this
    {
      |schedule| + if runCancelled then 0 else 1
    }

    ghost method Record(l: Label)
      requires model == RunLoop.Run(entry, trace)
      modifies this`trace, this`model
      ensures trace == old(trace) + [l] && model == Step(old(model), l) && model == RunLoop.Run(entry, trace)
    {
      assert (trace + [l])[..|trace + [l]| - 1] == trace;
      trace, model := trace + [l], Step(model, l);
      hide Step;
    }

    method Drop(id: Id)
      modifies queue
      ensures queue.items == Without(old(queue.items), id)
    {
      hide Without;
      var _ := queue.Remove(id);
    }

    method DropAhead(id: Id)
      modifies queue
      ensures queue.items == StartingAt(old(queue.items), id)
    {
      hide StartingAt;
      var _, _ := queue.SkipTo(id);
    }

    /** One step of another goroutine. */
    method Perform(l: Label)
      requires Tracks() && !l.Player?
      modifies this`settled, this`runCancelled, this`issued, this`trace, this`model, queue
      ensures Tracks() && entry == old(entry) && model == Step(old(model), l)
      ensures runCancelled == (old(runCancelled) || l.Stop?)
    {
      hide RunLoop.Run, PlayerStep, News, FirstIndex, StartingAt, Ahead;
      match l {
        case Append(id) =>
          if id !in issued {
            var _ := queue.Append(id);
            issued := issued + [id];
          }
        case PushFront(id) =>
          if id !in issued {
            queue.PushFront(id);
            issued := issued + [id];
          }
        case Remove(id) => Drop(id);
        case SkipTo(id) => DropAhead(id);
        case Clear => var _ := queue.Clear();
        case Settle(id, outcome) =>
          if id !in settled {
            settled := settled[id := outcome];
          }
        case Stop => runCancelled := true;
      }
      Record(l);
    }

    method Yield() returns (early: bool, completed: bool, low: bool)
      requires Tracks()
      modifies this`settled, this`runCancelled, this`issued, this`schedule, this`trace, this`model, queue
      ensures Tracks() && entry == old(entry)
      ensures model.pc == old(model.pc) && model.wasSilent == old(model.wasSilent)
      ensures Fuel() < old(Fuel()) || (Fuel() == 0 && old(Fuel()) == 0)
    {
      hide RunLoop.Run, PlayerStep, News, Without, StartingAt, Ahead;
      while schedule != [] && !schedule[0].Player?
        invariant Tracks() && entry == old(entry) && Fuel() <= old(Fuel())
        invariant model.pc == old(model.pc) && model.wasSilent == old(model.wasSilent)
        decreases |schedule|
      {
        var l := schedule[0];
        schedule := schedule[1..];
        Perform(l);
      }
      if schedule == [] {
        if !runCancelled {
          Perform(Stop);
        }
        return false, false, false;
      }
      early, completed, low := schedule[0].early, schedule[0].completed, schedule[0].low;
      schedule := schedule[1..];
    }

    // ---- The player's steps ----

    /** Checks the Run context at the head of the loop, or after waiting for an item. */
    method TestStopped() returns (stop: bool)
      requires Tracks() && (model.pc.Top? || model.pc.Woken?)
      modifies this, queue
      ensures Tracks() && entry == old(entry) && model.wasSilent == old(model.wasSilent)
      ensures Fuel() <= old(Fuel()) && (Fuel() == 0 ==> stop)
      ensures Fuel() < old(Fuel()) || stop
      ensures stop ==> model.pc.Exited?
      ensures !stop ==> model.pc == if old(model.pc.Top?) then Popping else Judging(old(model.pc.id))
    {
      hide RunLoop.Run, LastN;
      var early, completed, low := Yield();
      stop := runCancelled;
      Record(Player(early, completed, low));
      assert published + [] == published;
    }

    /** Pops the next item; an empty queue begins silence, unless it is silent already. */
    method PopNext(wasSilent: bool) returns (item: Id, ok: bool)
      requires Tracks() && model.pc.Popping? && model.wasSilent == wasSilent
      modifies this, queue
      ensures Tracks() && entry == old(entry) && Fuel() <= old(Fuel())
      ensures ok ==> model.pc == Popped(item) && model.wasSilent == wasSilent
      ensures !ok ==> model.pc == Silence && model.wasSilent
    {
      hide RunLoop.Run, LastN;
      var early, completed, low := Yield();
      item, ok := queue.PopFront();
      if !ok && !wasSilent {
        published := published + [SilenceStarted];
      } else {
        assert published + [] == published;
      }
      Record(Player(early, completed, low));
    }

    /** The silence clip loops until something is queued. */
    method LoopSilence()
      requires Tracks() && model.pc == Silence
      modifies this, queue
      ensures Tracks() && entry == old(entry) && Fuel() <= old(Fuel())
      ensures model.pc == Top && model.wasSilent == old(model.wasSilent)
    {
      hide RunLoop.Run, LastN;
      var early, completed, low := Yield();
      Record(Player(early, completed, low));
      assert published + [] == published;
    }

    method QueueChanged(item: Id)
      requires Tracks() && model.pc == Popped(item)
      modifies this, queue
      ensures Tracks() && entry == old(entry) && Fuel() <= old(Fuel())
      ensures model.pc == Readiness(item) && model.wasSilent == old(model.wasSilent)
    {
      hide RunLoop.Run, LastN;
      var early, completed, low := Yield();
      var length := queue.Len();
      var news := [QueueUpdated(length)];
      if low {
        news := news + [QueueLow(length)];
      } else {
        assert news + [] == news;
      }
      published := published + news;
      Record(Player(early, completed, low));
    }

    /** An item that is not ready begins silence while the player waits for it. */
    method CheckReady(item: Id, wasSilent: bool) returns (ready: bool)
      requires Tracks() && model.pc == Readiness(item) && model.wasSilent == wasSilent
      modifies this, queue
      ensures Tracks() && entry == old(entry) && Fuel() <= old(Fuel())
      ensures model.pc == (if ready then Judging(item) else Waiting(item)) && model.wasSilent == (wasSilent || !ready)
    {
      hide RunLoop.Run, LastN;
      var early, completed, low := Yield();
      ready := item in settled;
      if !ready && !wasSilent {
        published := published + [SilenceStarted];
      } else {
        assert published + [] == published;
      }
      Record(Player(early, completed, low));
    }

    /** The silence stream of a wait returns when the item is ready, or early when it is cancelled
        or fails. */
    method WaitReady(item: Id)
      requires Tracks() && model.pc == Waiting(item)
      modifies this, queue
      ensures Tracks() && entry == old(entry) && Fuel() <= old(Fuel())
      ensures model.pc == Woken(item) && model.wasSilent == old(model.wasSilent)
    {
      hide RunLoop.Run, LastN;
      while true
        invariant Tracks() && entry == old(entry) && Fuel() <= old(Fuel())
        invariant model.pc == Waiting(item) && model.wasSilent == old(model.wasSilent)
        decreases Fuel()
      {
        var early, completed, low := Yield();
        var over := item in settled || runCancelled || early;
        Record(Player(early, completed, low));
        assert published + [] == published;
        if over {
          return;
        }
      }
    }

    /** Reports an item whose prefetch failed, or ends the silence before it starts. */
    method Judge(item: Id, wasSilent: bool) returns (broken: bool)
      requires Tracks() && model.pc == Judging(item) && model.wasSilent == wasSilent
      modifies this, queue
      ensures Tracks() && entry == old(entry) && Fuel() <= old(Fuel())
      ensures broken ==> model.pc == Top && model.wasSilent == wasSilent
      ensures !broken ==> model.pc == Starting(item) && !model.wasSilent
    {
      hide RunLoop.Run, LastN;
      var early, completed, low := Yield();
      broken := item in settled && settled[item].Broken?;
      if broken {
        published := published + [Error(item)];
      } else if wasSilent {
        published := published + [SilenceEnded];
      } else {
        assert published + [] == published;
      }
      Record(Player(early, completed, low));
    }

    method StartTrack(item: Id)
      requires Tracks() && model.pc == Starting(item)
      modifies this, queue
      ensures Tracks() && entry == old(entry) && Fuel() <= old(Fuel())
      ensures model.pc == Playing(item) && model.wasSilent == old(model.wasSilent)
    {
      hide RunLoop.Run, LastN;
      var early, completed, low := Yield();
      published := published + [Started(item)];
      Record(Player(early, completed, low));
    }

    /** playLocalItem or streamLiveRelay: ends with one of two reasons. */
    method PlayTrack(item: Id) returns (completed: bool)
      requires Tracks() && model.pc == Playing(item)
      modifies this, queue
      ensures Tracks() && entry == old(entry) && Fuel() <= old(Fuel())
      ensures model.pc == Stopping(item, completed) && model.wasSilent == old(model.wasSilent)
    {
      hide RunLoop.Run, LastN;
      var early, c, low := Yield();
      completed := c;
      Record(Player(early, c, low));
      assert published + [] == published;
    }

    method EndTrack(item: Id, completed: bool)
      requires Tracks() && model.pc == Stopping(item, completed)
      modifies this, queue
      ensures Tracks() && entry == old(entry) && Fuel() <= old(Fuel())
      ensures model.pc == Recording(item, completed) && model.wasSilent == old(model.wasSilent)
    {
      hide RunLoop.Run, LastN;
      var early, c, low := Yield();
      published := published + [Ended(item, completed)];
      Record(Player(early, c, low));
    }

    method RecordHistory(item: Id, completed: bool)
      requires Tracks() && model.pc == Recording(item, completed)
      modifies this, queue
      ensures Tracks() && entry == old(entry) && Fuel() <= old(Fuel())
      ensures model.pc == Top && model.wasSilent == old(model.wasSilent)
    {
      hide RunLoop.Run;
      var early, c, low := Yield();
      history := history + [(item, completed)];
      if |history| > 20 {
        history := history[|history| - 20..];
      }
      Record(Player(early, c, low));
      assert published + [] == published;
    }

    /** The player loop of a station, from registration to stop.  It makes a run of the transition
        system, so what it publishes follows the grammar and its history is the last twenty ends. */
    method Run()
      requires Tracks() && model.pc.Top? && !model.wasSilent && Fresh(entry)
      modifies this, queue
      ensures Tracks() && entry == old(entry) && model.pc.Exited?
      ensures published == RunLoop.Run(entry, trace).events && Grammatical(published)
      ensures history == LastN(RunLoop.Tracks(published), HISTORY_MAX)
      ensures forall id :: Error(id) in published ==> id in settled && settled[id] == Broken
      ensures forall id :: Started(id) in published ==>
                id in RunLoop.Run(entry, trace).cut || (id in settled && settled[id] == Playable)
    {
      Loop();
      EventRun(entry, trace);
      PlayRun(entry, trace);
      hide RunLoop.Run;
    }

    method Loop()
      requires Tracks() && model.pc.Top? && !model.wasSilent
      modifies this, queue
      ensures Tracks() && entry == old(entry) && model.pc.Exited?
    {
      hide Tracks, Fuel;
      var wasSilent := false;
      while true
        invariant Tracks() && entry == old(entry)
        invariant model.pc.Top? && model.wasSilent == wasSilent
        decreases Fuel()
      {
        var stop := TestStopped();
        if stop {
          return;
        }
        var item, ok := PopNext(wasSilent);
        if !ok {
          wasSilent := true;
          LoopSilence();
          continue;
        }
        QueueChanged(item);
        var ready := CheckReady(item, wasSilent);
        if !ready {
          wasSilent := true;
          WaitReady(item);
          stop := TestStopped();
          if stop {
            return;
          }
        }
        var broken := Judge(item, wasSilent);
        if broken {
          continue;
        }
        wasSilent := false;
        StartTrack(item);
        var completed := PlayTrack(item);
        EndTrack(item, completed);
        RecordHistory(item, completed);
      }
    }
  }
}
