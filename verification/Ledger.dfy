/** Where every queued item goes: over any interleaving of the queue operations with the player
    loop, each item is in exactly one place, and the items that survive keep their order. */
module Ledger {
  import opened PlayQueue
  import opened RunLoop

  /** The item the player holds, from popping it to publishing its end. */
  function Hand(pc: Pc): seq<Id> {
    match pc
    case Top => []
    case Popping => []
    case Silence => []
    case Recording(_, _) => []
    case Exited(left) => if left.Some? then [left.value] else []
    case _ => [pc.id]
  }

  function EndedIds(es: seq<Event>): seq<Id> {
    if es == [] then [] else
    var e := es[|es| - 1];
    EndedIds(es[..|es| - 1]) + if e.Ended? then [e.id] else []
  }

  function StartedIds(es: seq<Event>): seq<Id> {
    if es == [] then [] else
    var e := es[|es| - 1];
    StartedIds(es[..|es| - 1]) + if e.Started? then [e.id] else []
  }

  /** How often an item occurs in a list. */
  function Occurs(q: seq<Id>, id: Id): nat {
    multiset(q)[id]
  }

  /** How many places an item is in: pending, dropped, reported as an error, played to its end, or
      in hand. */
  function Places(s: State, id: Id): nat {
    Occurs(s.queue, id) + Occurs(s.dropped, id) + Occurs(Errors(s.events), id)
    + Occurs(EndedIds(s.events), id) + Occurs(Hand(s.pc), id)
  }

  predicate OnAir(pc: Pc) { pc.Playing? || pc.Stopping? }

  ghost predicate Balanced(s: State, id: Id) {
    && Occurs(s.ever, id) <= 1
    && Places(s, id) == Occurs(s.ever, id)
    && Occurs(StartedIds(s.events), id)
    == Occurs(EndedIds(s.events), id) + if OnAir(s.pc) && s.pc.id == id then 1 else 0
  }

  lemma OccursConcat(a: seq<Id>, b: seq<Id>, id: Id)
    ensures Occurs(a + b, id) == Occurs(a, id) + Occurs(b, id)
  {
  }

  lemma OccursOne(x: Id, id: Id)
    ensures Occurs([x], id) == if x == id then 1 else 0
    ensures Occurs([], id) == 0
  {
  }

  lemma OccursIn(q: seq<Id>, id: Id)
    ensures Occurs(q, id) > 0 <==> id in q
  {
  }

  lemma OccursSplit(q: seq<Id>, i: nat, id: Id)
    requires i <= |q|
    ensures Occurs(q, id) == Occurs(q[..i], id) + Occurs(q[i..], id)
    ensures i < |q| ==> Occurs(q, id) == Occurs(q[..i] + q[i + 1..], id) + Occurs([q[i]], id)
  {
    assert q == q[..i] + q[i..];
    if i < |q| {
      assert q[i..] == [q[i]] + q[i + 1..];
    }
  }

  lemma PublishedIds(es: seq<Event>, e: Event, id: Id)
    ensures Occurs(Errors(es + [e]), id) == Occurs(Errors(es), id) + if e.Error? && e.id == id then 1 else 0
    ensures Occurs(EndedIds(es + [e]), id) == Occurs(EndedIds(es), id) + if e.Ended? && e.id == id then 1 else 0
    ensures Occurs(StartedIds(es + [e]), id) == Occurs(StartedIds(es), id) + if e.Started? && e.id == id then 1 else 0
  {
    assert (es + [e])[..|es + [e]| - 1] == es;
  }

  lemma QueueOpBalanced(s: State, l: Label, id: Id)
    requires Balanced(s, id) && !l.Player?
    ensures Balanced(Step(s, l), id)
  {
    hide Occurs, Errors, EndedIds, StartedIds, FirstIndex;
    match l
    case Append(x) =>
      OccursConcat(s.queue, [x], id);
      OccursConcat(s.ever, [x], id);
      OccursOne(x, id);
      OccursIn(s.ever, id);
    case PushFront(x) =>
      OccursConcat([x], s.queue, id);
      OccursConcat(s.ever, [x], id);
      OccursOne(x, id);
      OccursIn(s.ever, id);
    case Remove(x) =>
      OccursSplit(s.queue, FirstIndex(s.queue, x), id);
      OccursConcat(s.dropped, [x], id);
    case SkipTo(x) =>
      OccursSplit(s.queue, FirstIndex(s.queue, x), id);
      OccursConcat(s.dropped, Ahead(s.queue, x), id);
      OccursOne(0, id);
    case Clear =>
      OccursConcat(s.dropped, s.queue, id);
      OccursOne(0, id);
    case _ =>
  }

  /** The player changes the queue only by taking its first item. */
  lemma PlayerTakes(s: State, l: Label)
    requires l.Player?
    ensures var s' := Step(s, l);
            && s'.queue == (if s.pc.Popping? && s.queue != [] then s.queue[1..] else s.queue)
            && s'.ever == s.ever && s'.dropped == s.dropped
  {
    hide LastN, IsBroken, News;
    match s.pc
    case Popping =>
    case _ =>
  }

  lemma NewsCounts(s: State, l: Label, id: Id)
    requires l.Player?
    ensures var es, es', it := s.events, Step(s, l).events, s.pc;
            && Occurs(Errors(es'), id) == Occurs(Errors(es), id)
               + (if it.Judging? && IsBroken(s, it.id) && it.id == id then 1 else 0)
            && Occurs(EndedIds(es'), id) == Occurs(EndedIds(es), id) + (if it.Stopping? && it.id == id then 1 else 0)
            && Occurs(StartedIds(es'), id) == Occurs(StartedIds(es), id) + if it.Starting? && it.id == id then 1 else 0
  {
    hide Occurs, Errors, EndedIds, StartedIds, PlayerStep, IsBroken;
    var news := News(s, l.low);
    assert |news| <= 2;
    if news == [] {
      assert s.events + news == s.events;
    } else {
      PublishedIds(s.events, news[0], id);
      if |news| == 2 {
        PublishedIds(s.events + [news[0]], news[1], id);
        assert s.events + news == s.events + [news[0]] + [news[1]];
      } else {
        assert news == [news[0]];
      }
    }
  }

  /** How the player's hand changes. */
  lemma HandStep(s: State, l: Label, id: Id)
    requires l.Player?
    ensures var s' := Step(s, l);
            && Occurs(Hand(s'.pc), id) == Occurs(Hand(s.pc), id)
               + (if s.pc.Popping? && s.queue != [] && s.queue[0] == id then 1 else 0)
               - (if s.pc.Stopping? && s.pc.id == id then 1 else 0)
               - (if s.pc.Judging? && IsBroken(s, s.pc.id) && s.pc.id == id then 1 else 0)
            && (OnAir(s'.pc) && s'.pc.id == id <==> (s.pc.Starting? || s.pc.Playing?) && s.pc.id == id)
  {
    hide LastN, IsBroken, News, Occurs;
    OccursOne(0, id);
    match s.pc
    case Popping =>
      if s.queue != [] {
        OccursOne(s.queue[0], id);
      }
    case Judging(x) => OccursOne(x, id);
    case Stopping(x, _) => OccursOne(x, id);
    case _ =>
  }

  lemma PlayerBalanced(s: State, l: Label, id: Id)
    requires Balanced(s, id) && l.Player?
    ensures Balanced(Step(s, l), id)
  {
    hide Step, Occurs, Errors, EndedIds, StartedIds, Hand;
    PlayerTakes(s, l);
    NewsCounts(s, l, id);
    HandStep(s, l, id);
    if s.pc.Popping? && s.queue != [] {
      OccursSplit(s.queue, 0, id);
      assert s.queue[..0] + s.queue[1..] == s.queue[1..];
      OccursOne(s.queue[0], id);
    }
  }

  lemma {:induction false} BalancedRun(s: State, ls: seq<Label>, id: Id)
    requires Fresh(s)
    ensures Balanced(Run(s, ls), id)
  {
    if ls != [] {
      var before, l := ls[..|ls| - 1], ls[|ls| - 1];
      BalancedRun(s, before, id);
      if l.Player? {
        PlayerBalanced(Run(s, before), l, id);
      } else {
        QueueOpBalanced(Run(s, before), l, id);
      }
      hide Step, Balanced;
    }
  }

  /** Every item ever queued is in exactly one place and no other item is in any; at most one is in
      hand; nothing starts twice, or starts after being dropped. */
  lemma EveryItemInOnePlace(s: State, ls: seq<Label>, id: Id)
    requires Fresh(s)
    ensures var s' := Run(s, ls);
            && Places(s', id) == (if id in s'.ever then 1 else 0)
            && |Hand(s'.pc)| <= 1
            && Occurs(StartedIds(s'.events), id) <= 1
            && (id in StartedIds(s'.events) ==>
                  id !in s'.queue && id !in s'.dropped && id !in Errors(s'.events))
  {
    BalancedRun(s, ls, id);
    var s' := Run(s, ls);
    hide Run, Errors, EndedIds, StartedIds;
    if OnAir(s'.pc) {
      OccursOne(s'.pc.id, id);
    }
  }

  // ---- Order ----

  ghost predicate NoRepeats(q: seq<Id>) {
    forall i, j :: 0 <= i < j < |q| ==> q[i] != q[j]
  }

  ghost predicate Before(q: seq<Id>, a: Id, b: Id) {
    exists i, j :: 0 <= i < j < |q| && q[i] == a && q[j] == b
  }

  lemma PendingOnce(s: State, ls: seq<Label>)
    requires Fresh(s)
    ensures NoRepeats(Run(s, ls).queue)
    ensures forall id <- Run(s, ls).queue :: id in Run(s, ls).ever
  {
    var q := Run(s, ls).queue;
    forall i, j | 0 <= i < j < |q| ensures q[i] != q[j] {
      BalancedRun(s, ls, q[i]);
      OccursSplit(q, j, q[i]);
      OccursIn(q[..j], q[i]);
      OccursIn(q[j..], q[j]);
    }
    forall id | id in q ensures id in Run(s, ls).ever {
      BalancedRun(s, ls, id);
      OccursIn(q, id);
      OccursIn(Run(s, ls).ever, id);
    }
  }

  /** An item that is pending is ahead of everything it was ahead of, save what was dropped. */
  ghost predicate StillAhead(s: State, a: Id, b: Id) {
    && a in s.ever && b in s.ever
    && (a in s.queue ==> if b in s.queue then Before(s.queue, a, b) else b in s.dropped)
  }

  /** Every pair of the rest of a queue was a pair of the queue: the rest from i on, */
  lemma SuffixKeepsOrder(q: seq<Id>, i: nat, a: Id, b: Id)
    requires NoRepeats(q) && Before(q, a, b)
    requires i <= |q| && a in q[i..] && b in q[i..]
    ensures Before(q[i..], a, b)
  {
    var m, n :| 0 <= m < n < |q| && q[m] == a && q[n] == b;
    var m', n' :| 0 <= m' < |q[i..]| && 0 <= n' < |q[i..]| && q[i..][m'] == a && q[i..][n'] == b;
    Unique(q, m, i + m');
    Unique(q, n, i + n');
    hide NoRepeats;
  }

  /** or the rest without the item at i. */
  lemma RemovalKeepsOrder(q: seq<Id>, i: nat, a: Id, b: Id)
    requires NoRepeats(q) && Before(q, a, b)
    requires i < |q| && a != q[i] && b != q[i]
    ensures Before(q[..i] + q[i + 1..], a, b)
  {
    var m, n :| 0 <= m < n < |q| && q[m] == a && q[n] == b;
    hide NoRepeats;
    var q', m', n' := q[..i] + q[i + 1..], if m < i then m else m - 1, if n < i then n else n - 1;
    assert q'[m'] == a && q'[n'] == b;
  }

  lemma Unique(q: seq<Id>, i: nat, j: nat)
    requires NoRepeats(q) && i < |q| && j < |q| && q[i] == q[j]
    ensures i == j
  {
  }

  lemma GrowKeepsOrder(q: seq<Id>, x: Id, a: Id, b: Id)
    requires Before(q, a, b)
    ensures Before(q + [x], a, b) && Before([x] + q, a, b)
  {
    var i, j :| 0 <= i < j < |q| && q[i] == a && q[j] == b;
    assert (q + [x])[i] == a && (q + [x])[j] == b;
    assert ([x] + q)[i + 1] == a && ([x] + q)[j + 1] == b;
  }

  lemma DropOne(q: seq<Id>, i: nat, id: Id)
    requires i < |q|
    ensures id in q <==> id in q[..i] + q[i + 1..] || id == q[i]
    ensures id in q <==> id in q[..i] || id in q[i..]
  {
    assert q == q[..i] + [q[i]] + q[i + 1..];
    assert q == q[..i] + q[i..];
  }

  lemma AddOrder(s: State, l: Label, a: Id, b: Id)
    requires StillAhead(s, a, b) && a != b && (l.Append? || l.PushFront?)
    ensures StillAhead(Step(s, l), a, b)
  {
    var q := s.queue;
    if a in q && b in q {
      GrowKeepsOrder(q, l.id, a, b);
    }
    hide Before;
  }

  lemma RemoveOrder(s: State, id: Id, a: Id, b: Id)
    requires NoRepeats(s.queue) && StillAhead(s, a, b) && a != b
    ensures StillAhead(Step(s, Remove(id)), a, b)
  {
    hide Before, FirstIndex, NoRepeats;
    var q, i := s.queue, FirstIndex(s.queue, id);
    if i < |q| {
      DropOne(q, i, a);
      DropOne(q, i, b);
      NotAgain(q, i);
      if a in Without(q, id) && b in Without(q, id) {
        RemovalKeepsOrder(q, i, a, b);
      }
    }
  }

  lemma SkipOrder(s: State, id: Id, a: Id, b: Id)
    requires NoRepeats(s.queue) && StillAhead(s, a, b) && a != b
    ensures StillAhead(Step(s, SkipTo(id)), a, b)
  {
    var q, i := s.queue, FirstIndex(s.queue, id);
    if i < |q| {
      DropOne(q, i, a);
      DropOne(q, i, b);
      if a in q[i..] && b in q[i..] {
        SuffixKeepsOrder(q, i, a, b);
      }
    }
    hide Before, FirstIndex, NoRepeats;
  }

  lemma NotAgain(q: seq<Id>, i: nat)
    requires NoRepeats(q) && i < |q|
    ensures q[i] !in q[..i] + q[i + 1..]
  {
  }

  lemma TakeOrder(s: State, l: Label, a: Id, b: Id)
    requires NoRepeats(s.queue) && StillAhead(s, a, b) && a != b && l.Player?
    ensures StillAhead(Step(s, l), a, b)
  {
    hide Step, Before, NoRepeats;
    PlayerTakes(s, l);
    if s.pc.Popping? && s.queue != [] && a in s.queue[1..] {
      assert s.queue == [s.queue[0]] + s.queue[1..];
      if b in s.queue {
        TakeKeepsOrder(s.queue, a, b);
      }
    }
  }

  lemma TakeKeepsOrder(q: seq<Id>, a: Id, b: Id)
    requires NoRepeats(q) && Before(q, a, b) && a in q[1..]
    ensures b in q[1..] && Before(q[1..], a, b)
  {
    NotFirst(q, a, b);
    SuffixKeepsOrder(q, 1, a, b);
    hide NoRepeats;
  }

  lemma NotFirst(q: seq<Id>, a: Id, b: Id)
    requires NoRepeats(q) && Before(q, a, b)
    ensures q[0] != b && b in q[1..]
  {
    var i, j :| 0 <= i < j < |q| && q[i] == a && q[j] == b;
    assert q[1..][j - 1] == b;
  }

  lemma OrderStep(s: State, l: Label, a: Id, b: Id)
    requires NoRepeats(s.queue) && StillAhead(s, a, b) && a != b
    ensures StillAhead(Step(s, l), a, b)
  {
    match l
    case Append(x) => AddOrder(s, l, a, b);
    case PushFront(x) => AddOrder(s, l, a, b);
    case Remove(x) => RemoveOrder(s, x, a, b);
    case SkipTo(x) => SkipOrder(s, x, a, b);
    case Player(_, _, _) => TakeOrder(s, l, a, b);
    case _ =>
  }

  lemma RunMore(s: State, ls: seq<Label>, more: seq<Label>)
    requires more != []
    ensures Run(s, ls + more) == Step(Run(s, ls + more[..|more| - 1]), more[|more| - 1])
  {
    hide Step;
    var all := ls + more;
    assert all[..|all| - 1] == ls + more[..|more| - 1] && all[|all| - 1] == more[|more| - 1];
  }

  lemma {:induction false} AheadRun(s: State, ls: seq<Label>, more: seq<Label>, a: Id, b: Id)
    requires Fresh(s) && StillAhead(Run(s, ls), a, b) && a != b
    ensures StillAhead(Run(s, ls + more), a, b)
  {
    hide Run, Fresh, StillAhead, NoRepeats;
    if more == [] {
      assert ls + more == ls;
    } else {
      var before, l := ls + more[..|more| - 1], more[|more| - 1];
      AheadRun(s, ls, more[..|more| - 1], a, b);
      PendingOnce(s, before);
      RunMore(s, ls, more);
      OrderStep(Run(s, before), l, a, b);
    }
  }

  /** If a was ahead of b in the queue at any point, then at every later point at which a is still
      pending b is behind it or was dropped: b has not been taken by the player. */
  lemma ServedInOrder(s: State, ls: seq<Label>, more: seq<Label>, a: Id, b: Id)
    requires Fresh(s) && Before(Run(s, ls).queue, a, b)
    ensures StillAhead(Run(s, ls + more), a, b)
    ensures var s' := Run(s, ls + more);
            a in s'.queue ==> b !in Hand(s'.pc) && b !in StartedIds(s'.events) && b !in Errors(s'.events)
  {
    PendingOnce(s, ls);
    var q := Run(s, ls).queue;
    assert a in q && b in q && a != b;
    hide Run, Hand, StartedIds, EndedIds, Errors, Occurs;
    AheadRun(s, ls, more, a, b);
    var s' := Run(s, ls + more);
    EveryItemInOnePlace(s, ls + more, b);
    OccursIn(s'.queue, b);
    OccursIn(s'.dropped, b);
    OccursIn(Hand(s'.pc), b);
    OccursIn(Errors(s'.events), b);
  }
}
