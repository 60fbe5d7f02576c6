/** Byte conservation: whatever the interleaving, the item's bytes reach the Broadcaster as
    file segments, each starting where the previous one ended or at a seek the player applied. */
module Conservation {
  import opened Control
  import opened Player

  /** Where the tape stands after a log: the next byte of the file to be heard. */
  function Head(es: seq<Out>): int {
    if es == [] then 0 else
    match es[|es| - 1]
    case Sound(at, bytes) => at + |bytes|
    case Hush(_) => Head(es[..|es| - 1])
    case Jump(to) => to
  }

  ghost predicate Segment(song: seq<Byte>, e: Out, head: int) {
    match e
    case Sound(at, bytes) => at == head && 0 <= at <= at + |bytes| <= |song| && bytes == song[at..at + |bytes|]
    case Hush(_) => true
    case Jump(to) => 0 <= to
  }

  ghost predicate TapeOk(song: seq<Byte>, es: seq<Out>) {
    es == [] || (TapeOk(song, es[..|es| - 1]) && Segment(song, es[|es| - 1], Head(es[..|es| - 1])))
  }

  lemma {:induction false} TapeAt(song: seq<Byte>, es: seq<Out>, i: nat)
    requires TapeOk(song, es) && i < |es|
    ensures TapeOk(song, es[..i]) && Segment(song, es[i], Head(es[..i]))
  {
    if i < |es| - 1 {
      TapeAt(song, es[..|es| - 1], i);
      assert es[..|es| - 1][..i] == es[..i];
    }
  }

  /** The item's bytes in a log, silence left out. */
  function Audio(es: seq<Out>): seq<Byte> {
    if es == [] then [] else
    Audio(es[..|es| - 1]) + if es[|es| - 1].Sound? then es[|es| - 1].bytes else []
  }

  ghost predicate NoJump(es: seq<Out>) {
    forall i :: 0 <= i < |es| ==> !es[i].Jump?
  }

  predicate InSong(pc: Pc) {
    (pc.Reading? || pc.Pacing? || pc.Checking? || pc.Ending? || pc.Closing?) && pc.clip.Song?
  }

  /** How far into the file the item has got. */
  function Reached(s: State): int {
    s.offset + if InSong(s.pc) then s.sent else 0
  }

  /** The end of the file has been read and not yet been overtaken by anything. */
  predicate SawEnd(pc: Pc) {
    || pc == Finished(true)
    || pc == Closing(Song, true)
    || ((pc.Pacing? || pc.Checking? || pc.Ending?) && pc.clip.Song? && pc.end.Eof?)
  }

  ghost predicate Inv(cfg: Config, s: State, log: seq<Out>) {
    && Sane(s)
    && TapeOk(cfg.song, log)
    && Head(log) == Reached(s)
    && (SawEnd(s.pc) ==> Reached(s) >= |cfg.song|)
  }

  lemma TapeAppend(song: seq<Byte>, es: seq<Out>, e: Out)
    requires TapeOk(song, es) && Segment(song, e, Head(es))
    ensures TapeOk(song, es + [e])
    ensures Head(es + [e]) == Moved(Head(es), [e])
  {
    assert (es + [e])[..|es + [e]| - 1] == es;
  }

  /** Where the tape stands after an output. */
  function Moved(head: int, out: seq<Out>): int {
    if out == [] then head else
    match out[0]
    case Sound(at, bytes) => at + |bytes|
    case Hush(_) => head
    case Jump(to) => to
  }

  lemma ReadOutput(cfg: Config, s: State, l: Label)
    requires Valid(cfg) && Sane(s) && s.pc.Reading? && l.Player?
    ensures var s' := Step(cfg, s, l);
            var out := Output(cfg, s, l);
            && |out| <= 1 && (out != [] ==> Segment(cfg.song, out[0], Reached(s)))
            && Reached(s') == Moved(Reached(s), out)
            && (SawEnd(s'.pc) ==> Reached(s') >= |cfg.song|)
  {
    hide Due;
    assert ReadCount(cfg, s, s.pc.clip, l.n) <= Available(cfg, s, s.pc.clip);
  }

  lemma SeekOutput(cfg: Config, s: State, l: Label)
    requires Valid(cfg) && Sane(s) && (s.pc.AskSeek? || s.pc.HoldSeek?) && s.ctrl.seek.Some? && l.Player?
    ensures Output(cfg, s, l) == [Jump(s.ctrl.seek.value * cfg.bps)] && 0 <= s.ctrl.seek.value * cfg.bps
    ensures Reached(Step(cfg, s, l)) == s.ctrl.seek.value * cfg.bps && !SawEnd(Step(cfg, s, l).pc)
  {
  }

  lemma SilentOutput(cfg: Config, s: State, l: Label)
    requires Valid(cfg) && Sane(s) && (SawEnd(s.pc) ==> Reached(s) >= |cfg.song|)
    requires Output(cfg, s, l) == [] && !(l.Player? && s.pc.Reading?)
    ensures var s' := Step(cfg, s, l);
            Reached(s') == Reached(s) && (SawEnd(s'.pc) ==> Reached(s') >= |cfg.song|)
  {
    hide Due;
  }

  /** One output continues the tape from where the state has got to. */
  lemma OutputStep(cfg: Config, s: State, l: Label)
    requires Valid(cfg) && Sane(s) && (SawEnd(s.pc) ==> Reached(s) >= |cfg.song|)
    ensures var s' := Step(cfg, s, l);
            var out := Output(cfg, s, l);
            && |out| <= 1 && (out != [] ==> Segment(cfg.song, out[0], Reached(s)))
            && Reached(s') == Moved(Reached(s), out)
            && (SawEnd(s'.pc) ==> Reached(s') >= |cfg.song|)
  {
    if l.Player? && s.pc.Reading? {
      ReadOutput(cfg, s, l);
    } else if l.Player? && (s.pc.AskSeek? || s.pc.HoldSeek?) && s.ctrl.seek.Some? {
      SeekOutput(cfg, s, l);
    } else {
      SilentOutput(cfg, s, l);
    }
    hide Step, Reached, SawEnd;
  }

  lemma ConservationStep(cfg: Config, s: State, log: seq<Out>, l: Label)
    requires Valid(cfg) && Inv(cfg, s, log)
    ensures Inv(cfg, Step(cfg, s, l), log + Output(cfg, s, l))
  {
    SaneStep(cfg, s, l);
    OutputStep(cfg, s, l);
    var out := Output(cfg, s, l);
    hide Step, Output, Sane, SawEnd, Reached;
    if out == [] {
      assert log + out == log;
    } else {
      assert out == [out[0]];
      TapeAppend(cfg.song, log, out[0]);
    }
  }

  lemma {:induction false} BytesConserved(cfg: Config, s: State, ls: seq<Label>)
    requires Valid(cfg) && Entry(s)
    ensures Inv(cfg, Run(cfg, s, ls), Log(cfg, s, ls))
  {
    hide Step, Output;
    if ls != [] {
      var before := ls[..|ls| - 1];
      BytesConserved(cfg, s, before);
      ConservationStep(cfg, Run(cfg, s, before), Log(cfg, s, before), ls[|ls| - 1]);
    }
  }

  lemma Join<T>(s: seq<T>, a: nat, b: nat, c: nat)
    requires a <= b <= c <= |s|
    ensures s[a..b] + s[b..c] == s[a..c]
  {
  }

  /** Between seeks nothing is lost, repeated or reordered: from any point of the log on, as long
      as no seek was applied, what was heard is one contiguous stretch of the file. */
  lemma {:induction false} Contiguous(song: seq<Byte>, es: seq<Out>, i: nat)
    requires TapeOk(song, es) && i <= |es| && NoJump(es[i..])
    requires 0 <= Head(es[..i]) <= |song|
    ensures Head(es[..i]) <= Head(es) <= |song|
    ensures Audio(es) == Audio(es[..i]) + song[Head(es[..i])..Head(es)]
  {
    if i == |es| {
      assert es[..i] == es;
    } else {
      var e, before := es[|es| - 1], es[..|es| - 1];
      assert e == es[i..][|es| - 1 - i];
      assert before[i..] == es[i..][..|es| - 1 - i];
      assert before[..i] == es[..i];
      Contiguous(song, before, i);
      var from, mid, to := Head(es[..i]), Head(before), Head(es);
      assert to == Moved(mid, [e]);
      assert Audio(es) == Audio(before) + if e.Sound? then e.bytes else [];
      hide TapeOk, Head, Audio, NoJump;
      Join(song, from, mid, to);
      assert (Audio(es[..i]) + song[from..mid]) + song[mid..to] == Audio(es[..i]) + (song[from..mid] + song[mid..to]);
    }
  }

  predicate Seeks(l: Label) {
    (l.Call? || l.Lock?) && l.op.Seek?
  }

  lemma {:induction false} NoSeekNoJump(cfg: Config, s: State, ls: seq<Label>)
    requires Valid(cfg) && s.ctrl.seek.None? && forall l <- ls :: !Seeks(l)
    ensures Run(cfg, s, ls).ctrl.seek.None? && NoJump(Log(cfg, s, ls))
  {
    if ls != [] {
      var before, l := ls[..|ls| - 1], ls[|ls| - 1];
      forall x <- before ensures !Seeks(x) { assert x in ls; }
      NoSeekNoJump(cfg, s, before);
      assert l in ls;
      NoSeekStep(cfg, Run(cfg, s, before), l);
      hide Step, Output;
    }
  }

  lemma NoSeekStep(cfg: Config, s: State, l: Label)
    requires Valid(cfg) && s.ctrl.seek.None? && !Seeks(l)
    ensures Step(cfg, s, l).ctrl.seek.None? && NoJump(Output(cfg, s, l))
  {
    hide Due, ReadEnd, ReadCount, IsDue;
  }

  /** With no seek, any pauses, resumes, skips and cancellations in any order: what was heard is
      a prefix of the file, and the whole file when the item completes. */
  lemma PausingLosesNothing(cfg: Config, s: State, ls: seq<Label>)
    requires Valid(cfg) && Entry(s) && s.ctrl.seek.None? && forall l <- ls :: !Seeks(l)
    ensures Audio(Log(cfg, s, ls)) <= cfg.song
    ensures Run(cfg, s, ls).pc == Finished(true) ==> Audio(Log(cfg, s, ls)) == cfg.song
  {
    var log := Log(cfg, s, ls);
    BytesConserved(cfg, s, ls);
    NoSeekNoJump(cfg, s, ls);
    assert log[0..] == log && log[..0] == [];
    Contiguous(cfg.song, log, 0);
    hide Step, Output;
  }

  /** With seeks, an item that completes was heard to the end from the last seek on. */
  lemma CompletedAfterSeek(cfg: Config, s: State, ls: seq<Label>, i: nat)
    requires Valid(cfg) && Entry(s) && Run(cfg, s, ls).pc == Finished(true)
    requires i < |Log(cfg, s, ls)| && Log(cfg, s, ls)[i].Jump? && NoJump(Log(cfg, s, ls)[i + 1..])
    requires Log(cfg, s, ls)[i].to <= |cfg.song|
    ensures var log := Log(cfg, s, ls);
            && 0 <= log[i].to
            && Audio(log) == Audio(log[..i]) + cfg.song[log[i].to..|cfg.song|]
  {
    BytesConserved(cfg, s, ls);
    hide Step, Output, Run, Log;
    AfterJump(cfg.song, Log(cfg, s, ls), i);
  }

  // ---- Seeks of a track whose length is known ----

  ghost predicate SeekInside(cfg: Config, duration: int, c: Ctrl) {
    && c.current.Some? && !c.current.value.live && c.current.value.duration == duration
    && (c.seek.Some? ==> 0 <= c.seek.value * cfg.bps <= |cfg.song|)
  }

  ghost predicate JumpsInside(song: seq<Byte>, es: seq<Out>) {
    forall e <- es :: e.Jump? ==> 0 <= e.to <= |song|
  }

  lemma SeekInsideStep(cfg: Config, duration: int, s: State, l: Label)
    requires Valid(cfg) && duration == DurationSeconds(|cfg.song|, cfg.bps) > 0 && SeekInside(cfg, duration, s.ctrl)
    ensures SeekInside(cfg, duration, Step(cfg, s, l).ctrl) && JumpsInside(cfg.song, Output(cfg, s, l))
  {
    if l.Player? {
      SeekInsidePlayer(cfg, duration, s, l);
    } else {
      SeekStaysInsideIff(|cfg.song|, cfg.bps);
      if (l.Call? || l.Lock?) && l.op.Seek? {
        assert 0 <= ClampTo(DurationSeconds(|cfg.song|, cfg.bps), l.op.seconds) * cfg.bps <= |cfg.song|;
      }
      hide PlayerStep, ClampTo, DurationSeconds;
    }
  }

  lemma SeekInsidePlayer(cfg: Config, duration: int, s: State, l: Label)
    requires Valid(cfg) && SeekInside(cfg, duration, s.ctrl) && l.Player?
    ensures SeekInside(cfg, duration, Step(cfg, s, l).ctrl) && JumpsInside(cfg.song, Output(cfg, s, l))
  {
    TakesSeekOnly(cfg, s, l);
    hide Step;
  }

  /** The player changes the controls only by taking a skip or a seek. */
  lemma TakesSeekOnly(cfg: Config, s: State, l: Label)
    requires Valid(cfg) && l.Player?
    ensures var c' := Step(cfg, s, l).ctrl;
            c'.current == s.ctrl.current && (c'.seek == s.ctrl.seek || c'.seek.None?)
  {
    hide Due, IsDue, ReadCount, ReadEnd;
    match s.pc
    case AskSeek =>
    case HoldSeek =>
    case _ =>
  }

  /** When the duration is the file's length in seconds, and not zero, every seek the player applies
      is inside the file, whatever is asked for and however the calls fall. */
  lemma {:induction false} SeeksInside(cfg: Config, duration: int, s: State, ls: seq<Label>)
    requires Valid(cfg) && duration == DurationSeconds(|cfg.song|, cfg.bps) > 0 && SeekInside(cfg, duration, s.ctrl)
    ensures SeekInside(cfg, duration, Run(cfg, s, ls).ctrl) && JumpsInside(cfg.song, Log(cfg, s, ls))
  {
    if ls != [] {
      var before, l := ls[..|ls| - 1], ls[|ls| - 1];
      SeeksInside(cfg, duration, s, before);
      SeekInsideStep(cfg, duration, Run(cfg, s, before), l);
    }
    hide Step, Output, SeekInside, DurationSeconds;
  }

  lemma {:induction false} HeadInside(song: seq<Byte>, es: seq<Out>)
    requires TapeOk(song, es) && JumpsInside(song, es)
    ensures 0 <= Head(es) <= |song|
  {
    if es != [] {
      var before, e := es[..|es| - 1], es[|es| - 1];
      assert e in es && forall x <- before :: x in es;
      HeadInside(song, before);
    }
  }

  /** So the tape never leaves the file, and an item that completes stands exactly at its end: from
      the last seek on, all of the file was heard. */
  lemma CompletesAtTheEnd(cfg: Config, duration: int, s: State, ls: seq<Label>)
    requires Valid(cfg) && Entry(s) && s.ctrl.seek.None?
    requires duration == DurationSeconds(|cfg.song|, cfg.bps) > 0 && SeekInside(cfg, duration, s.ctrl)
    ensures var log := Log(cfg, s, ls);
            && 0 <= Head(log) <= |cfg.song|
            && (Run(cfg, s, ls).pc == Finished(true) ==>
                  && Head(log) == |cfg.song|
                  && forall i :: 0 <= i < |log| && log[i].Jump? && NoJump(log[i + 1..]) ==>
                       && 0 <= log[i].to <= |cfg.song|
                       && Audio(log) == Audio(log[..i]) + cfg.song[log[i].to..|cfg.song|])
  {
    var log := Log(cfg, s, ls);
    BytesConserved(cfg, s, ls);
    SeeksInside(cfg, duration, s, ls);
    HeadInside(cfg.song, log);
    if Run(cfg, s, ls).pc == Finished(true) {
      forall i | 0 <= i < |log| && log[i].Jump? && NoJump(log[i + 1..])
        ensures 0 <= log[i].to <= |cfg.song| && Audio(log) == Audio(log[..i]) + cfg.song[log[i].to..|cfg.song|]
      {
        assert log[i] in log;
        hide Run, Step, Output, Audio, Head;
        CompletedAfterSeek(cfg, s, ls, i);
      }
    }
    hide Run, Log, Step, Output;
  }

  lemma AfterJump(song: seq<Byte>, es: seq<Out>, i: nat)
    requires TapeOk(song, es) && i < |es| && es[i].Jump? && NoJump(es[i + 1..]) && es[i].to <= |song|
    requires Head(es) >= |song|
    ensures 0 <= es[i].to && Audio(es) == Audio(es[..i]) + song[es[i].to..|song|]
  {
    TapeAt(song, es, i);
    JumpHead(es, i);
    hide TapeOk, Head, Audio, NoJump;
    Contiguous(song, es, i + 1);
  }

  lemma JumpHead(es: seq<Out>, i: nat)
    requires i < |es| && es[i].Jump?
    ensures Head(es[..i + 1]) == es[i].to && Audio(es[..i + 1]) == Audio(es[..i])
  {
    var upTo := es[..i + 1];
    assert upTo[..|upTo| - 1] == es[..i] && upTo[|upTo| - 1] == es[i];
  }

  /** The converse fails: a skip that lands after the last chunk ends the item as interrupted
      although the whole file was heard. */
  lemma WholeFileYetInterrupted(cfg: Config, s: State, end: End)
    requires Valid(cfg) && Sane(s) && s.pc == Pacing(Song, end) && Reached(s) == |cfg.song|
    ensures var ls := [Call(Interrupt), Player(0, More, false), Player(0, More, true), Player(0, More, true), Player(0, More, true)];
            Run(cfg, s, ls).pc == Finished(false) && Log(cfg, s, ls) == []
  {
    var l0, l1, l2 := Call(Interrupt), Player(0, More, false), Player(0, More, true);
    var s1 := Step(cfg, s, l0);
    var s2 := Step(cfg, s1, l1);
    assert s1.cancelled && s1.ctrl.skip && s2.pc == Closing(Song, false) && s2.ctrl.skip;
    var s3 := Step(cfg, s2, l2);
    assert s3.pc == AskStop && s3.ctrl.skip;
    var s4 := Step(cfg, s3, l2);
    var s5 := Step(cfg, s4, l2);
    assert s5.pc == Finished(false);
    RunFive(cfg, s, l0, l1, l2, l2, l2);
  }

  lemma Listed(a: Label, b: Label, c: Label, d: Label, e: Label)
    ensures [] + [a] == [a] && [a] + [b] == [a, b] && [a, b] + [c] == [a, b, c]
    ensures [a, b, c] + [d] == [a, b, c, d]
    ensures [a, b, c, d] + [e] == [a, b, c, d, e]
  {
  }

  lemma RunTwo(cfg: Config, s: State, a: Label, b: Label)
    requires Valid(cfg)
    ensures Run(cfg, s, [a, b]) == Step(cfg, Step(cfg, s, a), b)
    ensures Log(cfg, s, [a, b]) == Output(cfg, s, a) + Output(cfg, Step(cfg, s, a), b)
  {
    assert Run(cfg, s, []) == s && Log(cfg, s, []) == [];
    hide Step, Output, Run, Log;
    Listed(a, b, b, b, b);
    RunSnoc(cfg, s, [], a);
    RunSnoc(cfg, s, [a], b);
    assert [] + Output(cfg, s, a) == Output(cfg, s, a);
  }

  lemma RunFive(cfg: Config, s: State, a: Label, b: Label, c: Label, d: Label, e: Label)
    requires Valid(cfg)
    ensures var s1 := Step(cfg, s, a);
            var s2 := Step(cfg, s1, b);
            var s3 := Step(cfg, s2, c);
            var s4 := Step(cfg, s3, d);
            && Run(cfg, s, [a, b, c, d, e]) == Step(cfg, s4, e)
            && Log(cfg, s, [a, b, c, d, e])
            == Output(cfg, s, a) + Output(cfg, s1, b) + Output(cfg, s2, c) + Output(cfg, s3, d) + Output(cfg, s4, e)
  {
    hide Step, Output, Run, Log;
    Listed(a, b, c, d, e);
    RunTwo(cfg, s, a, b);
    RunSnoc(cfg, s, [a, b], c);
    RunSnoc(cfg, s, [a, b, c], d);
    RunSnoc(cfg, s, [a, b, c, d], e);
  }
}
