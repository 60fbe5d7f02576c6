/** The fan-out of station events: like the broadcaster, but a full subscriber only misses the
    event and is never disconnected for it. */
module EventBus {
  import opened Broadcast

  const EVENT_BUFFER: nat := 16

  datatype Bus<T> = Bus(nextID: nat, subs: set<nat>, chans: map<nat, Chan<T>>, crashed: bool)

  datatype BusOp<T> = Join | Part(id: nat) | Publish(event: T) | CloseBus | Next(id: nat)

  function Deliver<T>(ch: Chan<T>, e: T): Chan<T> {
    if |ch.buf| < EVENT_BUFFER then ch.(buf := ch.buf + [e]) else ch
  }

  function BusStep<T>(b: Bus<T>, op: BusOp<T>): Bus<T>
    requires b.subs <= b.chans.Keys
  {
    match op
    case Join =>
      var id := b.nextID + 1;
      b.(nextID := id, subs := b.subs + {id}, chans := b.chans[id := Chan([], false)])
    case Part(id) =>
      if id in b.subs then
        b.(subs := b.subs - {id}, chans := b.chans[id := Close(b.chans[id])], crashed := b.crashed || b.chans[id].closed)
      else b
    case Publish(e) =>
      b.(chans := map id | id in b.chans :: if id in b.subs then Deliver(b.chans[id], e) else b.chans[id],
         crashed := b.crashed || exists id :: id in b.subs && b.chans[id].closed)
    case CloseBus =>
      b.(subs := {},
         chans := map id | id in b.chans :: if id in b.subs then Close(b.chans[id]) else b.chans[id],
         crashed := b.crashed || exists id :: id in b.subs && b.chans[id].closed)
    case Next(id) =>
      if id in b.chans && b.chans[id].buf != [] then
        b.(chans := b.chans[id := b.chans[id].(buf := b.chans[id].buf[1..])])
      else b
  }

  /** As for the broadcaster: open exactly while subscribed, ids never reused, no crash. */
  ghost predicate BusSafe<T>(b: Bus<T>) {
    && b.subs <= b.chans.Keys
    && (forall id :: id in b.chans <==> 1 <= id <= b.nextID)
    && (forall id <- b.chans :: b.chans[id].closed <==> id !in b.subs)
    && (forall id <- b.chans :: |b.chans[id].buf| <= EVENT_BUFFER)
    && !b.crashed
  }

  lemma BusSafeStep<T>(b: Bus<T>, op: BusOp<T>)
    requires BusSafe(b)
    ensures BusSafe(BusStep(b, op))
    ensures forall id <- b.chans :: b.chans[id].closed ==> BusStep(b, op).chans[id].closed
  {
  }

  ghost function BusRun<T>(ops: seq<BusOp<T>>): (b: Bus<T>)
    ensures BusSafe(b)
  {
    if ops == [] then Bus(0, {}, map[], false)
    else
      var before := BusRun(ops[..|ops| - 1]);
      BusSafeStep(before, ops[|ops| - 1]);
      BusStep(before, ops[|ops| - 1])
  }

  // ---- What each operation does ----

  /** An event reaches every subscriber with fewer than 16 waiting; a full one misses it and is
      otherwise left as it is. */
  lemma PublishDelivers<T>(b: Bus<T>, e: T, id: nat)
    requires BusSafe(b) && id in b.chans
    ensures var b' := BusStep(b, Publish(e));
            && b'.subs == b.subs && b'.nextID == b.nextID && id in b'.chans && b'.chans[id].closed == b.chans[id].closed
            && b'.chans[id].buf == if id in b.subs && |b.chans[id].buf| < 16 then b.chans[id].buf + [e] else b.chans[id].buf
  {
  }

  /** A new subscriber has an empty, open channel; leaving and closing close the channels concerned
      and leave what is waiting in them to be read, one by one. */
  lemma ChannelsChange<T>(b: Bus<T>, id: nat)
    requires BusSafe(b)
    ensures var b' := BusStep(b, Join); var n := b'.nextID;
            n !in b.chans && b'.subs == b.subs + {n} && b'.chans == b.chans[n := Chan([], false)]
    ensures var b' := BusStep(b, Part(id));
            && b'.subs == b.subs - {id} && b'.chans.Keys == b.chans.Keys
            && (forall x <- b.chans :: b'.chans[x] == if x == id && id in b.subs then Chan(b.chans[x].buf, true) else b.chans[x])
    ensures var b' := BusStep(b, CloseBus);
            && b'.subs == {} && b'.chans.Keys == b.chans.Keys
            && (forall x <- b.chans :: b'.chans[x] == Chan(b.chans[x].buf, true))
    ensures var b' := BusStep(b, Next(id));
            && b'.subs == b.subs && b'.chans.Keys == b.chans.Keys
            && (forall x <- b.chans :: b'.chans[x] ==
                  if x == id && b.chans[x].buf != [] then Chan(b.chans[x].buf[1..], b.chans[x].closed) else b.chans[x])
  {
  }

  // ---- What a subscriber hears ----

  function Published<T>(ops: seq<BusOp<T>>): seq<T> {
    if ops == [] then [] else
    Published(ops[..|ops| - 1]) + if ops[|ops| - 1].Publish? then [ops[|ops| - 1].event] else []
  }

  /** The events published in a run that goes on from another, by number, that found the subscriber
      there and its channel with room. */
  ghost function FoundRoom<T>(before: seq<BusOp<T>>, more: seq<BusOp<T>>, id: nat): seq<nat> {
    if more == [] then [] else
    var most, b := more[..|more| - 1], BusRun(before + more[..|more| - 1]);
    FoundRoom(before, most, id)
    + if more[|more| - 1].Publish? && id in b.subs && id in b.chans && |b.chans[id].buf| < 16 then [|Published(most)|] else []
  }

  /** The events a subscriber reads in it. */
  ghost function ReadBy<T>(before: seq<BusOp<T>>, more: seq<BusOp<T>>, id: nat): seq<T> {
    if more == [] then [] else
    var most, b := more[..|more| - 1], BusRun(before + more[..|more| - 1]);
    ReadBy(before, most, id)
    + if more[|more| - 1] == Next(id) && id in b.chans && b.chans[id].buf != [] then b.chans[id].buf[..1] else []
  }

  ghost predicate Rising(xs: seq<nat>, n: nat) {
    (forall i, j :: 0 <= i < j < |xs| ==> xs[i] < xs[j]) && (forall i :: 0 <= i < |xs| ==> xs[i] < n)
  }

  lemma RisingMore(xs: seq<nat>, n: nat)
    requires Rising(xs, n)
    ensures Rising(xs, n + 1) && Rising(xs + [n], n + 1)
  {
  }

  /** The channel's buffer after an operation, as the lemmas above have it. */
  lemma BufferAfter<T>(b: Bus<T>, op: BusOp<T>, id: nat)
    requires BusSafe(b) && id in b.chans
    ensures var buf, b' := b.chans[id].buf, BusStep(b, op);
            id in b'.chans && b'.chans[id].buf ==
              if op.Publish? && id in b.subs && |buf| < 16 then buf + [op.event]
              else if op == Next(id) && buf != [] then buf[1..] else buf
  {
  }

  lemma BusSnoc<T>(ops: seq<BusOp<T>>, op: BusOp<T>)
    ensures BusRun(ops + [op]) == BusStep(BusRun(ops), op)
  {
    hide BusStep, BusSafe;
    assert (ops + [op])[..|ops|] == ops;
  }

  /** One more operation, as the functions above and the channel see it. */
  lemma OneMore<T>(before: seq<BusOp<T>>, more: seq<BusOp<T>>, id: nat)
    requires more != [] && id in BusRun(before + more[..|more| - 1]).chans
    ensures var most, op := more[..|more| - 1], more[|more| - 1];
            var b, b' := BusRun(before + most), BusRun(before + more);
            var buf, fits := b.chans[id].buf, op.Publish? && id in b.subs && |b.chans[id].buf| < 16;
            && id in b'.chans
            && Published(more) == Published(most) + (if op.Publish? then [op.event] else [])
            && FoundRoom(before, more, id) == FoundRoom(before, most, id) + (if fits then [|Published(most)|] else [])
            && ReadBy(before, more, id) == ReadBy(before, most, id) + (if op == Next(id) && buf != [] then buf[..1] else [])
            && b'.chans[id].buf == if fits then buf + [op.event] else if op == Next(id) && buf != [] then buf[1..] else buf
  {
    var most, op := more[..|more| - 1], more[|more| - 1];
    hide BusStep, BusSafe;
    assert before + more == (before + most) + [op];
    BusSnoc(before + most, op);
    BufferAfter(BusRun(before + most), op, id);
    hide BusRun;
  }

  lemma PublishedMore<T>(offered: seq<T>, xs: seq<nat>, read: seq<T>, buf: seq<T>, e: T)
    requires Picked(offered, xs, read + buf) && Rising(xs, |offered|)
    ensures Picked(offered + [e], xs, read + buf) && Rising(xs, |offered + [e]|)
    ensures Picked(offered + [e], xs + [|offered|], read + (buf + [e])) && Rising(xs + [|offered|], |offered + [e]|)
  {
    PickOne(offered, xs, read + buf, e);
    RisingMore(xs, |offered|);
    assert read + (buf + [e]) == (read + buf) + [e];
  }

  /** For every subscriber and every run of the bus: what it read since it joined, then what waits in
      its channel, is the events published since, in order, less exactly those that found its
      channel full, or it gone. */
  lemma {:induction false} HearsWhatFits<T>(before: seq<BusOp<T>>, more: seq<BusOp<T>>, id: nat)
    requires id in BusRun(before).chans && BusRun(before).chans[id].buf == []
    ensures var b := BusRun(before + more);
            && id in b.chans && Rising(FoundRoom(before, more, id), |Published(more)|)
            && Picked(Published(more), FoundRoom(before, more, id), ReadBy(before, more, id) + b.chans[id].buf)
  {
    hide *;
    if more == [] {
      assert before + more == before;
      NothingHeard(before, id);
    } else {
      var most, op := more[..|more| - 1], more[|more| - 1];
      HearsWhatFits(before, most, id);
      OneMore(before, more, id);
      var offered, xs, read, buf := Published(most), FoundRoom(before, most, id), ReadBy(before, most, id), BusRun(before + most).chans[id].buf;
      assert offered + [] == offered && xs + [] == xs && read + [] == read;
      if op.Publish? {
        PublishedMore(offered, xs, read, buf, op.event);
      } else if op == Next(id) && buf != [] {
        assert (read + buf[..1]) + buf[1..] == read + buf;
      }
    }
  }

  lemma NothingHeard<T>(before: seq<BusOp<T>>, id: nat)
    requires id in BusRun(before).chans && BusRun(before).chans[id].buf == []
    ensures FoundRoom(before, [], id) == [] && Rising([], 0) && Published<T>([]) == [] && ReadBy(before, [], id) == []
    ensures Picked<T>([], [], [] + BusRun(before).chans[id].buf)
  {
    hide BusRun, BusSafe;
  }

  lemma StaysSubscribed<T>(b: Bus<T>, op: BusOp<T>, id: nat)
    requires BusSafe(b) && id in b.subs && op != Part(id) && !op.CloseBus?
    ensures id in BusStep(b, op).subs
  {
  }

  /** A subscriber leaves only by parting or when the bus closes, never for being slow. */
  lemma {:induction false} NeverEvicted<T>(before: seq<BusOp<T>>, more: seq<BusOp<T>>, id: nat)
    requires id in BusRun(before).subs
    requires forall i :: 0 <= i < |more| ==> more[i] != Part(id) && !more[i].CloseBus?
    ensures id in BusRun(before + more).subs
  {
    hide BusStep;
    if more == [] {
      assert before + more == before;
    } else {
      var all, most, op := before + more, more[..|more| - 1], more[|more| - 1];
      assert all[..|all| - 1] == before + most && all[|all| - 1] == op;
      NeverEvicted(before, most, id);
      StaysSubscribed(BusRun(before + most), op, id);
    }
  }

  class EventBus<T> {
    var subs: set<nat>
    var chans: map<nat, Chan<T>>
    var nextID: nat

    constructor ()
      ensures Model() == Bus(0, {}, map[], false)
    {
      subs, chans, nextID := {}, map[], 0;
    }

    ghost function Model(): Bus<T>
      reads this
    {
      Bus(nextID, subs, chans, false)
    }

    method Subscribe() returns (id: nat)
      requires BusSafe(Model())
      modifies this
      ensures Model() == BusStep(old(Model()), Join) && BusSafe(Model())
      ensures id == nextID && id !in old(chans) && subs == old(subs) + {id} && chans == old(chans)[id := Chan([], false)]
    {
      nextID := nextID + 1;
      id := nextID;
      chans := chans[id := Chan([], false)];
      subs := subs + {id};
    }

    /** Closing a channel twice would crash. */
    method CloseChan(id: nat)
      requires id in chans && !chans[id].closed
      modifies this`chans
      ensures chans == old(chans)[id := Close(old(chans)[id])]
    {
      chans := chans[id := chans[id].(closed := true)];
    }

    method Unsubscribe(id: nat)
      requires BusSafe(Model())
      modifies this
      ensures Model() == BusStep(old(Model()), Part(id)) && BusSafe(Model())
      ensures id !in subs && subs == old(subs) - {id} && (id in chans ==> chans[id].closed)
    {
      BusSafeStep(Model(), Part(id));
      if id in subs {
        subs := subs - {id};
        CloseChan(id);
      }
    }

    method PublishEvent(e: T)
      requires BusSafe(Model())
      modifies this
      ensures Model() == BusStep(old(Model()), Publish(e)) && BusSafe(Model())
      ensures subs == old(subs) && chans.Keys == old(chans).Keys
      ensures forall id <- chans ::
                chans[id].buf == if id in subs && |old(chans)[id].buf| < 16 then old(chans)[id].buf + [e] else old(chans)[id].buf
    {
      ghost var b := Model();
      BusSafeStep(b, Publish(e));
      var todo := subs;
      while todo != {}
        invariant todo <= subs == b.subs && chans.Keys == b.chans.Keys && nextID == b.nextID
        invariant forall id <- b.chans :: chans[id] ==
                    if id in b.subs && id !in todo then Deliver(b.chans[id], e) else b.chans[id]
        decreases |todo|
      {
        var id :| id in todo;
        todo := todo - {id};
        if |chans[id].buf| < EVENT_BUFFER {
          chans := chans[id := chans[id].(buf := chans[id].buf + [e])];
        }
      }
      assert chans == BusStep(b, Publish(e)).chans;
      hide BusStep, BusSafe;
    }

    method CloseAll()
      requires BusSafe(Model())
      modifies this
      ensures Model() == BusStep(old(Model()), CloseBus) && BusSafe(Model())
      ensures subs == {} && forall id <- chans :: chans[id].closed
    {
      ghost var b := Model();
      BusSafeStep(b, CloseBus);
      CloseEach();
      assert chans == BusStep(b, CloseBus).chans;
      hide BusStep;
    }

    method CloseEach()
      requires BusSafe(Model())
      modifies this`subs, this`chans
      ensures subs == {} && chans.Keys == old(chans).Keys
      ensures forall id <- chans :: chans[id] == if id in old(subs) then Close(old(chans)[id]) else old(chans)[id]
    {
      ghost var b := Model();
      var todo := subs;
      while todo != {}
        invariant todo == subs <= b.subs && chans.Keys == b.chans.Keys
        invariant forall id <- b.chans :: chans[id] ==
                    if id in b.subs && id !in todo then Close(b.chans[id]) else b.chans[id]
        decreases |todo|
      {
        var id :| id in todo;
        todo := todo - {id};
        subs := subs - {id};
        CloseChan(id);
      }
    }
  }
}
