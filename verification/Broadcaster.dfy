/** The fan-out of audio chunks to listeners: bounded buffers, eviction of stalled listeners, and
    channels that are closed from three places. */
module Broadcast {
  const BUFFER_SIZE: nat := 64
  const MAX_DROPS: nat := 5

  /** A listener's channel.  Sending to or closing a closed one would crash the server. */
  datatype Chan<T> = Chan(buf: seq<T>, closed: bool)

  datatype Hub<T> = Hub(
    nextID: nat,
    listeners: map<nat, nat>,      // consecutive drops of each connected listener
    chans: map<nat, Chan<T>>,      // every channel ever made, by its listener's id
    crashed: bool)                 // a closed channel was sent to or closed

  datatype Op<T> = Subscribe | Unsubscribe(id: nat) | Write(chunk: T) | CloseAll | Receive(id: nat)

  predicate Full<T>(ch: Chan<T>) { |ch.buf| >= BUFFER_SIZE }

  function Push<T>(ch: Chan<T>, chunk: T): Chan<T> {
    if Full(ch) then ch else ch.(buf := ch.buf + [chunk])
  }

  function Close<T>(ch: Chan<T>): Chan<T> { ch.(closed := true) }

  /** Whether this write evicts a listener with so many drops before it. */
  predicate Evicts<T>(ch: Chan<T>, dropped: nat) {
    Full(ch) && dropped + 1 >= MAX_DROPS
  }

  function Step<T>(h: Hub<T>, op: Op<T>): Hub<T>
    requires Closed(h)
  {
    match op
    case Subscribe =>
      var id := h.nextID + 1;
      h.(nextID := id, listeners := h.listeners[id := 0], chans := h.chans[id := Chan([], false)])
    case Unsubscribe(id) =>
      if id in h.listeners then
        h.(listeners := h.listeners - {id}, chans := h.chans[id := Close(h.chans[id])],
           crashed := h.crashed || h.chans[id].closed)
      else h
    case Write(chunk) =>
      h.(listeners := map id | id in h.listeners && !Evicts(h.chans[id], h.listeners[id])
                        :: if Full(h.chans[id]) then h.listeners[id] + 1 else 0,
         chans := map id | id in h.chans
                    :: if id !in h.listeners then h.chans[id]
                       else if Evicts(h.chans[id], h.listeners[id]) then Close(h.chans[id])
                       else Push(h.chans[id], chunk),
         crashed := h.crashed || exists id :: id in h.listeners && h.chans[id].closed)
    case CloseAll =>
      h.(listeners := map[],
         chans := map id | id in h.chans :: if id in h.listeners then Close(h.chans[id]) else h.chans[id],
         crashed := h.crashed || exists id :: id in h.listeners && h.chans[id].closed)
    case Receive(id) =>
      if id in h.chans && h.chans[id].buf != [] then
        h.(chans := h.chans[id := h.chans[id].(buf := h.chans[id].buf[1..])])
      else h
  }

  /** Every connected listener has a channel. */
  ghost predicate Closed<T>(h: Hub<T>) {
    forall id <- h.listeners :: id in h.chans
  }

  /** A channel is open exactly while its id is connected; ids count up and are never reused. */
  ghost predicate Safe<T>(h: Hub<T>) {
    && Closed(h)
    && (forall id :: id in h.chans <==> 1 <= id <= h.nextID)
    && (forall id <- h.chans :: h.chans[id].closed <==> id !in h.listeners)
    && (forall id <- h.chans :: |h.chans[id].buf| <= BUFFER_SIZE)
    && (forall id <- h.listeners :: h.listeners[id] < MAX_DROPS)
    && !h.crashed
  }

  lemma SafeStep<T>(h: Hub<T>, op: Op<T>)
    requires Safe(h)
    ensures Safe(Step(h, op))
    ensures forall id <- h.chans :: h.chans[id].closed ==> Step(h, op).chans[id].closed
  {
  }

  /** What a write does to a listener with a channel and so many consecutive drops: the chunk goes
      in if fewer than 64 wait there; else it is dropped, and the fifth drop in a row disconnects. */
  ghost predicate GetsChunk<T>(ch: Chan<T>, dropped: nat, chunk: T, stays: bool, ch': Chan<T>, dropped': nat) {
    if |ch.buf| < 64 then stays && ch' == Chan(ch.buf + [chunk], ch.closed) && dropped' == 0
    else if dropped + 1 < 5 then stays && ch' == ch && dropped' == dropped + 1
    else !stays && ch' == Chan(ch.buf, true)
  }

  lemma WriteEffect<T>(h: Hub<T>, chunk: T)
    requires Safe(h)
    ensures var h' := Step(h, Write(chunk));
            && h'.nextID == h.nextID && h'.chans.Keys == h.chans.Keys && h'.listeners.Keys <= h.listeners.Keys
            && (forall id <- h.chans :: id !in h.listeners ==> h'.chans[id] == h.chans[id])
            && forall id <- h.listeners ::
                 GetsChunk(h.chans[id], h.listeners[id], chunk, id in h'.listeners, h'.chans[id],
                           if id in h'.listeners then h'.listeners[id] else 0)
  {
  }

  /** A new listener has an empty, open channel and no drops; leaving and closing close the channels
      concerned and leave what is waiting in them to be read, one by one. */
  lemma ChannelsChange<T>(h: Hub<T>, id: nat)
    requires Safe(h)
    ensures var h' := Step(h, Subscribe); var n := h'.nextID;
            n !in h.chans && h'.listeners == h.listeners[n := 0] && h'.chans == h.chans[n := Chan([], false)]
    ensures var h' := Step(h, Unsubscribe(id));
            && h'.listeners == h.listeners - {id} && h'.chans.Keys == h.chans.Keys
            && (forall x <- h.chans :: h'.chans[x] == if x == id && id in h.listeners then Chan(h.chans[x].buf, true) else h.chans[x])
    ensures var h' := Step(h, CloseAll);
            && h'.listeners == map[] && h'.chans.Keys == h.chans.Keys
            && (forall x <- h.chans :: h'.chans[x] == Chan(h.chans[x].buf, true))
    ensures var h' := Step(h, Receive(id));
            && h'.listeners == h.listeners && h'.chans.Keys == h.chans.Keys
            && (forall x <- h.chans :: h'.chans[x] ==
                  if x == id && h.chans[x].buf != [] then Chan(h.chans[x].buf[1..], h.chans[x].closed) else h.chans[x])
  {
  }

  ghost function Run<T>(ops: seq<Op<T>>): (h: Hub<T>)
    ensures Safe(h)
  {
    if ops == [] then Hub(0, map[], map[], false)
    else
      var before := Run(ops[..|ops| - 1]);
      SafeStep(before, ops[|ops| - 1]);
      Step(before, ops[|ops| - 1])
  }

  // ---- One listener on its own ----

  /** A single listener: connected or not, its buffer, its consecutive drops. */
  datatype Listener<T> = Listener(connected: bool, buf: seq<T>, dropped: nat)

  datatype Own<T> = Put(chunk: T) | Take | Leave | Idle

  function ListenerStep<T>(l: Listener<T>, o: Own<T>): Listener<T> {
    match o
    case Put(chunk) =>
      if !l.connected then l
      else if |l.buf| < BUFFER_SIZE then Listener(true, l.buf + [chunk], 0)
      else if l.dropped + 1 < MAX_DROPS then l.(dropped := l.dropped + 1)
      else Listener(false, l.buf, 0)
    case Take => if l.buf == [] then l else l.(buf := l.buf[1..])
    case Leave => Listener(false, l.buf, 0)
    case Idle => l
  }

  function ListenerRun<T>(l: Listener<T>, os: seq<Own<T>>): Listener<T> {
    if os == [] then l else ListenerStep(ListenerRun(l, os[..|os| - 1]), os[|os| - 1])
  }

  /** What an operation on the hub is to one listener. */
  function Mine<T>(op: Op<T>, id: nat): Own<T> {
    match op
    case Write(chunk) => Put(chunk)
    case Receive(x) => if x == id then Take else Idle
    case Unsubscribe(x) => if x == id then Leave else Idle
    case CloseAll => Leave
    case Subscribe => Idle
  }

  function AllMine<T>(ops: seq<Op<T>>, id: nat): seq<Own<T>> {
    seq(|ops|, i requires 0 <= i < |ops| => Mine(ops[i], id))
  }

  function View<T>(h: Hub<T>, id: nat): Listener<T>
    requires Closed(h) && id in h.chans
  {
    if id in h.listeners then Listener(true, h.chans[id].buf, h.listeners[id])
    else Listener(false, h.chans[id].buf, 0)
  }

  lemma ViewStep<T>(h: Hub<T>, op: Op<T>, id: nat)
    requires Safe(h) && id in h.chans
    ensures Closed(Step(h, op)) && id in Step(h, op).chans
    ensures View(Step(h, op), id) == ListenerStep(View(h, id), Mine(op, id))
  {
    SafeStep(h, op);
  }

  /** Listener independence: after any run, a listener is what it would be alone, fed the same
      writes and its own receives, whatever the other listeners do. */
  lemma {:induction false} ListenersAreIndependent<T>(before: seq<Op<T>>, more: seq<Op<T>>, id: nat)
    requires id in Run(before).chans
    ensures id in Run(before + more).chans
    ensures View(Run(before + more), id) == ListenerRun(View(Run(before), id), AllMine(more, id))
  {
    hide Step, View, ListenerStep, Mine;
    if more == [] {
      assert before + more == before;
    } else {
      var all, most, op := before + more, more[..|more| - 1], more[|more| - 1];
      assert all[..|all| - 1] == before + most && all[|all| - 1] == op;
      ListenersAreIndependent(before, most, id);
      var h := Run(before + most);
      assert Run(all) == Step(h, op);
      ViewStep(h, op, id);
      assert AllMine(more, id)[..|more| - 1] == AllMine(most, id);
      assert AllMine(more, id)[|more| - 1] == Mine(op, id);
      hide Run;
    }
  }

  lemma RunSnoc<T>(before: seq<Op<T>>, op: Op<T>)
    ensures Run(before + [op]) == Step(Run(before), op)
  {
    hide Step, Safe;
    assert (before + [op])[..|before|] == before;
  }

  /** A new listener starts connected, empty and with no drops, under an id never used before. */
  lemma SubscribeStarts<T>(before: seq<Op<T>>)
    ensures var h := Run(before + [Subscribe]);
            var id := Run(before).nextID + 1;
            id in h.chans && id !in Run(before).chans && View(h, id) == Listener(true, [], 0)
  {
    RunSnoc<T>(before, Subscribe);
    hide Run;
  }

  // ---- How long a stalled listener lasts ----

  function Puts<T>(chunks: seq<T>): seq<Own<T>> {
    seq(|chunks|, i requires 0 <= i < |chunks| => Put(chunks[i]))
  }

  /** A listener that stops reading with b chunks buffered takes the next 64 - b writes, drops four
      more, and is disconnected by the fifth dropped write; sooner if it had drops already. */
  lemma {:induction false} StalledListener<T>(l: Listener<T>, chunks: seq<T>)
    requires l.connected && |l.buf| <= BUFFER_SIZE && l.dropped < MAX_DROPS
    ensures var l' := ListenerRun(l, Puts(chunks));
            var room := BUFFER_SIZE - |l.buf|;
            var patience := room + MAX_DROPS - if room > 0 then 0 else l.dropped;
            && (l'.connected <==> |chunks| < patience)
            && (l'.connected ==> l'.buf == l.buf + chunks[..if |chunks| < room then |chunks| else room])
            && (l'.connected && |chunks| <= room && chunks != [] ==> l'.dropped == 0)
            && (l'.connected && |chunks| > room ==> l'.dropped == |chunks| - room + (if room > 0 then 0 else l.dropped))
            && (chunks == [] ==> l' == l)
  {
    if chunks != [] {
      var most := chunks[..|chunks| - 1];
      StalledListener(l, most);
      assert Puts(chunks)[..|chunks| - 1] == Puts(most);
      var room := BUFFER_SIZE - |l.buf|;
      if |most| < room {
        assert most[..|most|] + [chunks[|chunks| - 1]] == chunks[..|chunks|];
      } else {
        assert most[..room] == chunks[..room];
      }
    } else {
      assert l.buf + [] == l.buf;
    }
  }

  // ---- What a listener hears ----

  /** A listener together with the chunks written since it joined, which of them (by number) its
      channel accepted, and the chunks it has received. */
  datatype Heard<T> = Heard(self: Listener<T>, offered: seq<T>, accepted: seq<nat>, received: seq<T>)

  function HeardStep<T>(t: Heard<T>, o: Own<T>): Heard<T> {
    var l := ListenerStep(t.self, o);
    match o
    case Put(chunk) =>
      Heard(l, t.offered + [chunk],
            if t.self.connected && |t.self.buf| < BUFFER_SIZE then t.accepted + [|t.offered|] else t.accepted,
            t.received)
    case Take => Heard(l, t.offered, t.accepted, t.received + t.self.buf[..if t.self.buf == [] then 0 else 1])
    case _ => t.(self := l)
  }

  function HeardRun<T>(os: seq<Own<T>>): Heard<T> {
    if os == [] then Heard(Listener(true, [], 0), [], [], [])
    else HeardStep(HeardRun(os[..|os| - 1]), os[|os| - 1])
  }

  /** An in-order subsequence of the chunks with at most four missing between neighbours. */
  ghost predicate SmallGaps(xs: seq<nat>) {
    forall i, j :: 0 <= i < j < |xs| && j == i + 1 ==> xs[i] < xs[j] <= xs[i] + MAX_DROPS
  }

  /** The chunks with those numbers. */
  ghost predicate Picked<T>(offered: seq<T>, xs: seq<nat>, chunks: seq<T>) {
    |chunks| == |xs| && forall i :: 0 <= i < |xs| ==> xs[i] < |offered| && chunks[i] == offered[xs[i]]
  }

  /** What was got is the chunks offered, in order from the first, in gaps of at most four; and up
      to the last four, while connected. */
  ghost predicate Followed<T>(l: Listener<T>, offered: seq<T>, xs: seq<nat>, got: seq<T>) {
    && SmallGaps(xs)
    && Picked(offered, xs, got)
    && (xs != [] ==> xs[0] == 0 && xs[|xs| - 1] < |offered|)
    && (l.connected && offered != [] ==> xs != [] && |offered| - 1 - xs[|xs| - 1] == l.dropped < MAX_DROPS)
    && (l.connected && offered == [] ==> l.dropped == 0)
  }

  ghost predicate HeardInv<T>(t: Heard<T>) {
    Followed(t.self, t.offered, t.accepted, t.received + t.self.buf)
  }

  lemma GapStep(xs: seq<nat>, x: nat)
    requires SmallGaps(xs) && (xs != [] ==> xs[|xs| - 1] < x <= xs[|xs| - 1] + MAX_DROPS)
    ensures SmallGaps(xs + [x])
  {
  }

  lemma PickOne<T>(offered: seq<T>, xs: seq<nat>, chunks: seq<T>, chunk: T)
    requires Picked(offered, xs, chunks)
    ensures Picked(offered + [chunk], xs, chunks)
    ensures Picked(offered + [chunk], xs + [|offered|], chunks + [chunk])
  {
  }

  lemma OfferHeard<T>(t: Heard<T>, chunk: T)
    requires HeardInv(t)
    ensures HeardInv(HeardStep(t, Put(chunk)))
  {
    hide SmallGaps, Picked;
    PickOne(t.offered, t.accepted, t.received + t.self.buf, chunk);
    if t.self.connected && |t.self.buf| < BUFFER_SIZE {
      GapStep(t.accepted, |t.offered|);
      assert t.received + (t.self.buf + [chunk]) == (t.received + t.self.buf) + [chunk];
    }
  }

  lemma TakeHeard<T>(t: Heard<T>)
    requires HeardInv(t)
    ensures HeardInv(HeardStep(t, Take))
  {
    hide SmallGaps, Picked;
    var b := t.self.buf;
    if b == [] {
      assert t.received + b[..0] == t.received;
    } else {
      assert (t.received + b[..1]) + b[1..] == t.received + b;
    }
  }

  lemma {:induction false} HeardInvRun<T>(os: seq<Own<T>>)
    ensures HeardInv(HeardRun(os))
  {
    if os != [] {
      var before, o := os[..|os| - 1], os[|os| - 1];
      HeardInvRun(before);
      if o.Put? {
        OfferHeard(HeardRun(before), o.chunk);
      } else if o.Take? {
        TakeHeard(HeardRun(before));
      }
    }
  }

  /** The chunks written during a run, in order. */
  function Written<T>(ops: seq<Op<T>>): seq<T> {
    if ops == [] then [] else
    Written(ops[..|ops| - 1]) + if ops[|ops| - 1].Write? then [ops[|ops| - 1].chunk] else []
  }

  /** The chunks a listener receives in a run that goes on from another. */
  ghost function Received<T>(before: seq<Op<T>>, more: seq<Op<T>>, id: nat): seq<T> {
    if more == [] then [] else
    var h, op := Run(before + more[..|more| - 1]), more[|more| - 1];
    Received(before, more[..|more| - 1], id)
    + if op == Receive(id) && id in h.chans && h.chans[id].buf != [] then h.chans[id].buf[..1] else []
  }

  lemma {:induction false} HeardIsListener<T>(os: seq<Own<T>>)
    ensures HeardRun(os).self == ListenerRun(Listener(true, [], 0), os)
  {
    if os != [] {
      HeardIsListener(os[..|os| - 1]);
    }
  }

  lemma HeardNext<T>(more: seq<Op<T>>, id: nat)
    requires more != []
    ensures HeardRun(AllMine(more, id)) == HeardStep(HeardRun(AllMine(more[..|more| - 1], id)), Mine(more[|more| - 1], id))
  {
    hide HeardStep, Mine;
    var os := AllMine(more, id);
    assert os[..|os| - 1] == AllMine(more[..|more| - 1], id) && os[|os| - 1] == Mine(more[|more| - 1], id);
  }

  /** The listener whose hearing is followed above is the one in the hub, */
  lemma HeardIsHubs<T>(before: seq<Op<T>>, more: seq<Op<T>>, id: nat)
    requires id in Run(before).chans && View(Run(before), id) == Listener(true, [], 0)
    ensures id in Run(before + more).chans && HeardRun(AllMine(more, id)).self == View(Run(before + more), id)
  {
    ListenersAreIndependent(before, more, id);
    hide Run;
    HeardIsListener(AllMine(more, id));
  }

  lemma HeardGrows<T>(t: Heard<T>, op: Op<T>, id: nat)
    ensures var t' := HeardStep(t, Mine(op, id));
            && t'.offered == t.offered + (if op.Write? then [op.chunk] else [])
            && t'.received == t.received + if op == Receive(id) && t.self.buf != [] then t.self.buf[..1] else []
  {
  }

  /** and hears what is written and received there. */
  lemma {:induction false} HeardIsReceived<T>(before: seq<Op<T>>, more: seq<Op<T>>, id: nat)
    requires id in Run(before).chans && View(Run(before), id) == Listener(true, [], 0)
    ensures var t := HeardRun(AllMine(more, id));
            t.offered == Written(more) && t.received == Received(before, more, id)
  {
    if more != [] {
      var most, op := more[..|more| - 1], more[|more| - 1];
      HeardIsReceived(before, most, id);
      HeardIsHubs(before, most, id);
      HeardNext(more, id);
      var h, t := Run(before + most), HeardRun(AllMine(most, id));
      assert View(h, id).buf == h.chans[id].buf;
      hide Run, View, AllMine, HeardRun, HeardStep, Mine;
      HeardGrows(t, op, id);
      assert t.self.buf == h.chans[id].buf;
    }
  }

  /** The gap bound, of any listener and any run of the broadcaster: what it received since it
      joined followed by what is in its buffer is the chunks written since, in order from the
      first, with at most four missing between neighbours, and at the end while it is connected. */
  lemma GapBound<T>(before: seq<Op<T>>, more: seq<Op<T>>)
    ensures var id := Run(before).nextID + 1;
            var start := before + [Subscribe];
            var h := Run(start + more);
            id in h.chans && exists xs :: Followed(View(h, id), Written(more), xs, Received(start, more, id) + h.chans[id].buf)
  {
    var id := Run(before).nextID + 1;
    SubscribeStarts(before);
    var start := before + [Op<T>.Subscribe];
    HeardIsHubs(start, more, id);
    HeardIsReceived(start, more, id);
    var t := HeardRun(AllMine(more, id));
    HeardInvRun(AllMine(more, id));
    assert t.self.buf == Run(start + more).chans[id].buf;
    hide Run, HeardRun, Followed, AllMine;
  }

  // ---- The broadcaster itself ----

  class Broadcaster<T> {
    var listeners: map<nat, nat>
    var nextID: nat
    var chans: map<nat, Chan<T>>

    constructor ()
      ensures Model() == Hub(0, map[], map[], false)
    {
      listeners, nextID, chans := map[], 0, map[];
    }

    ghost function Model(): Hub<T>
      reads this
    {
      Hub(nextID, listeners, chans, false)
    }

    /** Closing a channel twice would crash. */
    method CloseChan(id: nat)
      requires id in chans && !chans[id].closed
      modifies this`chans
      ensures chans == old(chans)[id := Close(old(chans)[id])]
    {
      chans := chans[id := chans[id].(closed := true)];
    }

    method SubscribeListener() returns (id: nat)
      requires Safe(Model())
      modifies this
      ensures Model() == Step(old(Model()), Subscribe) && Safe(Model())
      ensures id == nextID && id !in old(chans)
      ensures listeners == old(listeners)[id := 0] && chans == old(chans)[id := Chan([], false)]
    {
      nextID := nextID + 1;
      id := nextID;
      chans := chans[id := Chan([], false)];
      listeners := listeners[id := 0];
    }

    method UnsubscribeListener(id: nat)
      requires Safe(Model())
      modifies this
      ensures Model() == Step(old(Model()), Unsubscribe(id)) && Safe(Model())
      ensures listeners == old(listeners) - {id} && (id in chans ==> chans[id].closed)
    {
      SafeStep(Model(), Unsubscribe(id));
      if id in listeners {
        listeners := listeners - {id};
        CloseChan(id);
      }
    }

    /** The non-blocking send to one listener. */
    method Offer(id: nat, chunk: T) returns (evicted: bool)
      requires id in listeners && id in chans && !chans[id].closed
      modifies this`listeners, this`chans
      ensures OnlyOffered(old(Model()), id, chunk, Model())
      ensures evicted == (id !in listeners)
    {
      if |chans[id].buf| < BUFFER_SIZE {
        chans := chans[id := chans[id].(buf := chans[id].buf + [chunk])];
        listeners := listeners[id := 0];
        return false;
      }
      var dropped := listeners[id] + 1;
      if dropped >= MAX_DROPS {
        listeners := listeners - {id};
        CloseChan(id);
        return true;
      }
      listeners := listeners[id := dropped];
      return false;
    }

    /** Fans a chunk out in whatever order the map yields its entries; count is the number of
        listeners to report, if any was evicted. */
    method WriteChunk(chunk: T) returns (evicted: bool, count: nat)
      requires Safe(Model())
      modifies this
      ensures Model() == Step(old(Model()), Write(chunk)) && Safe(Model())
      ensures chans.Keys == old(chans).Keys && listeners.Keys <= old(listeners).Keys
      ensures forall id <- old(chans) :: id !in old(listeners) ==> chans[id] == old(chans)[id]
      ensures forall id <- old(listeners) ::
                GetsChunk(old(chans)[id], old(listeners)[id], chunk, id in listeners, chans[id],
                          if id in listeners then listeners[id] else 0)
      ensures evicted <==> listeners.Keys != old(listeners).Keys
      ensures count == |listeners|
    {
      ghost var h := Model();
      SafeStep(h, Write(chunk));
      evicted := OfferAll(chunk);
      WriteIsOffers(h, chunk, Model());
      WriteEffect(h, chunk);
      count := |listeners|;
      hide Step, GetsChunk, Safe;
    }

    method OfferAll(chunk: T) returns (evicted: bool)
      requires Safe(Model())
      modifies this`listeners, this`chans
      ensures AllOffered(old(Model()), {}, chunk, Model())
      ensures evicted <==> listeners.Keys != old(listeners).Keys
    {
      ghost var h := Model();
      evicted := false;
      var todo := listeners.Keys;
      hide Evicts, Full, Push, Close;
      while todo != {}
        invariant AllOffered(h, todo, chunk, Model())
        invariant evicted <==> listeners.Keys != h.listeners.Keys
        decreases |todo|
      {
        var id :| id in todo;
        ghost var before := Model();
        var gone := Offer(id, chunk);
        OfferedOne(h, todo, id, chunk, before, Model());
        todo := todo - {id};
        evicted := evicted || gone;
      }
    }

    method CloseAllListeners()
      requires Safe(Model())
      modifies this
      ensures Model() == Step(old(Model()), CloseAll) && Safe(Model())
      ensures listeners == map[] && forall id <- chans :: chans[id].closed
    {
      ghost var h := Model();
      SafeStep(h, CloseAll);
      CloseEach();
      assert chans == Step(h, CloseAll).chans;
      hide Step;
    }

    method CloseEach()
      requires Safe(Model())
      modifies this`listeners, this`chans
      ensures listeners == map[] && chans.Keys == old(chans).Keys
      ensures forall id <- chans :: chans[id] == if id in old(listeners) then Close(old(chans)[id]) else old(chans)[id]
    {
      ghost var h := Model();
      var todo := listeners.Keys;
      while todo != {}
        invariant todo == listeners.Keys <= h.listeners.Keys && chans.Keys == h.chans.Keys
        invariant forall id <- h.chans :: chans[id] == if id in h.listeners && id !in todo then Close(h.chans[id]) else h.chans[id]
        decreases |todo|
      {
        var id :| id in todo;
        todo := todo - {id};
        listeners := listeners - {id};
        CloseChan(id);
      }
    }
  }

  /** One listener has had its turn. */
  ghost predicate Offered<T>(h: Hub<T>, id: nat, chunk: T, h': Hub<T>)
    requires id in h.listeners && id in h.chans && id in h'.chans
  {
    if Evicts(h.chans[id], h.listeners[id]) then
      id !in h'.listeners && h'.chans[id] == Close(h.chans[id])
    else
      && id in h'.listeners && h'.chans[id] == Push(h.chans[id], chunk)
      && h'.listeners[id] == if Full(h.chans[id]) then h.listeners[id] + 1 else 0
  }

  /** Nothing else has changed. */
  ghost predicate OnlyOffered<T>(h: Hub<T>, id: nat, chunk: T, h': Hub<T>) {
    && id in h.listeners && id in h.chans && h'.nextID == h.nextID && h'.crashed == h.crashed
    && h'.chans.Keys == h.chans.Keys
    && (forall x :: x != id ==> (x in h.listeners <==> x in h'.listeners))
    && Offered(h, id, chunk, h')
    && (forall x <- h.chans :: x != id ==> h'.chans[x] == h.chans[x])
    && (forall x <- h.listeners :: x != id ==> h'.listeners[x] == h.listeners[x])
  }

  /** Every listener but those still to do has had its turn, and nothing else has changed. */
  ghost predicate AllOffered<T>(h: Hub<T>, todo: set<nat>, chunk: T, h': Hub<T>) {
    && Closed(h) && h'.nextID == h.nextID && h'.crashed == h.crashed
    && todo <= h'.listeners.Keys <= h.listeners.Keys && h'.chans.Keys == h.chans.Keys
    && (forall id <- todo :: h'.chans[id] == h.chans[id] && h'.listeners[id] == h.listeners[id])
    && (forall id <- h.listeners :: id !in todo ==> Offered(h, id, chunk, h'))
    && (forall id <- h.chans :: id !in h.listeners ==> h'.chans[id] == h.chans[id])
  }

  lemma OfferedOne<T>(h: Hub<T>, todo: set<nat>, id: nat, chunk: T, a: Hub<T>, b: Hub<T>)
    requires AllOffered(h, todo, chunk, a) && id in todo && OnlyOffered(a, id, chunk, b)
    ensures AllOffered(h, todo - {id}, chunk, b)
  {
    hide Evicts, Full, Push, Close;
    forall x | x in h.listeners && x !in todo - {id} ensures x in b.chans && Offered(h, x, chunk, b) {
      if x != id {
        assert Offered(h, x, chunk, a);
      }
    }
  }

  lemma WriteIsOffers<T>(h: Hub<T>, chunk: T, h': Hub<T>)
    requires Safe(h) && AllOffered(h, {}, chunk, h')
    ensures h' == Step(h, Write(chunk))
  {
    hide Evicts, Full, Push, Close;
    var s := Step(h, Write(chunk));
    assert h'.listeners == s.listeners;
    assert h'.chans == s.chans;
  }
}
