/** The playback scheduler and the loop controller of the recorder, as
    functions of the recorded events and of the values the `looping` flag is
    read as. The flag is flipped by another thread (end_task), so the playback
    thread's view of it is an input: every read of `looping` takes the next
    value of a feed, and once the feed is used up every read sees false (the
    task has been ended). Time is in integer milliseconds. */
module Scheduler {
  import opened Platform

  /** The longest single sleep: the flag is re-read after each slice. */
  const SLICE: nat := 100
  /** The wait between two loop iterations. */
  const LOOP_INTERVAL: nat := 5000

  datatype Button = Left | Right | Middle

  /** What a capture callback saw. */
  datatype Input =
    | Move(x: int, y: int)
    | Click(x: int, y: int, button: Button)
    | KeyPress(key: Key)
    | KeyRelease(key: Key)

  /** A recorded event with its capture time. */
  datatype Event = Event(input: Input, time: int)

  /** One call on the mouse or keyboard controller, or one sleep of the
      playback thread. */
  datatype Effect =
    | SetPosition(x: int, y: int)
    | ClickButton(button: Button)
    | PressKey(key: Key)
    | ReleaseKey(key: Key)
    | Sleep(ms: nat)

  function Min(a: int, b: int): int { if a <= b then a else b }
  function Max(a: int, b: int): int { if a >= b then a else b }

  /** The controller calls that replay one recorded input. A click moves the
      mouse to where it was recorded first. */
  function Replay(i: Input): seq<Effect> {
    match i
    case Move(x, y) => [SetPosition(x, y)]
    case Click(x, y, b) => [SetPosition(x, y), ClickButton(b)]
    case KeyPress(k) => [PressKey(k)]
    case KeyRelease(k) => [ReleaseKey(k)]
  }

  /** The six modifier releases every playback ends with, in the order they
      are released; end_task releases the same keys. */
  const RELEASE_GUARD: seq<Effect> :=
    [ReleaseKey(Special("shift_l")), ReleaseKey(Special("shift_r")),
     ReleaseKey(Special("ctrl_l")), ReleaseKey(Special("ctrl_r")),
     ReleaseKey(Special("alt_l")), ReleaseKey(Special("alt_r"))]

  /** The `looping` flag as the playback thread sees it: its value as last
      read, and the values the coming reads will see. */
  datatype Flag = Flag(value: bool, feed: seq<bool>)

  /** The flag after one more read; the value read is `r.value`. */
  function Read(f: Flag): (r: Flag)
    ensures r.value ==> |f.feed| > 0 && r.feed == f.feed[1..]
    ensures |r.feed| <= |f.feed|
  {
    if f.feed == [] then Flag(false, []) else Flag(f.feed[0], f.feed[1..])
  }

  /** What a stretch of playback did, and the flag afterwards. */
  datatype Run = Run(effects: seq<Effect>, flag: Flag)

  function Then(prefix: seq<Effect>, r: Run): Run {
    Run(prefix + r.effects, r.flag)
  }

  /** `while elapsed < sleep_time and looping: sleep(min(0.1, sleep_time -
      elapsed)); elapsed += 0.1`: the flag is only read while time is left. */
  function Wait(sleep: int, elapsed: nat, f: Flag): (r: Run)
    ensures |r.flag.feed| <= |f.feed|
    ensures forall e | e in r.effects :: e.Sleep? && 0 < e.ms <= SLICE
    decreases sleep - elapsed
  {
    if elapsed >= sleep then Run([], f)
    else
      var f1 := Read(f);
      if !f1.value then Run([], f1)
      else Then([Sleep(Min(SLICE, sleep - elapsed))], Wait(sleep, elapsed + SLICE, f1))
  }

  /** The `for event in events` loop of playback, from the remaining events
      and the time of the last event dispatched. */
  function PlayFrom(evs: seq<Event>, start: int, f: Flag): (r: Run)
    ensures |r.flag.feed| <= |f.feed|
    decreases |evs|
  {
    if evs == [] then Run([], f)
    else
      var f1 := Read(f);
      if !f1.value then Run([], f1)
      else
        var w := Wait(Max(0, evs[0].time - start), 0, f1);
        var f2 := Read(w.flag);
        if !f2.value then Run(w.effects, f2)
        else Then(w.effects + Replay(evs[0].input), PlayFrom(evs[1..], evs[0].time, f2))
  }

  /** playback(): nothing at all for no events; otherwise the events from the
      first one's time, then the guard keys released, whichever way the loop
      ended. */
  function Play(evs: seq<Event>, f: Flag): (r: Run)
    ensures |r.flag.feed| <= |f.feed|
  {
    if evs == [] then Run([], f)
    else
      var p := PlayFrom(evs, evs[0].time, f);
      Run(p.effects + RELEASE_GUARD, p.flag)
  }

  lemma EffectsAssoc(a: seq<Effect>, b: seq<Effect>, c: seq<Effect>)
    ensures (a + b) + c == a + (b + c)
  {
  }

  /** One turn of playback's `for event in events` loop: the flag is read,
      the gap is waited, the flag is read again, and the event is replayed
      only if both reads saw it set. */
  function Step(ev: Event, start: int, f: Flag): Run {
    var f1 := Read(f);
    if !f1.value then Run([], f1)
    else
      var w := Wait(Max(0, ev.time - start), 0, f1);
      var f2 := Read(w.flag);
      if !f2.value then Run(w.effects, f2)
      else Run(w.effects + Replay(ev.input), f2)
  }

  /** Playback is its turns in sequence, stopping after the first turn that
      reads the flag as false. */
  lemma PlayFromStep(evs: seq<Event>, start: int, f: Flag)
    requires evs != []
    ensures var st := Step(evs[0], start, f);
      PlayFrom(evs, start, f)
        == if st.flag.value then Then(st.effects, PlayFrom(evs[1..], evs[0].time, st.flag)) else st
  {
  }

  /** One pass of loop_playback's `while looping` body: a playback, then the
      inter-iteration wait if the flag is still set. */
  function Iteration(evs: seq<Event>, f: Flag): (r: Run)
    ensures |r.flag.feed| <= |f.feed|
  {
    var p := Play(evs, f);
    var f1 := Read(p.flag);
    if f1.value then Then(p.effects, Wait(LOOP_INTERVAL, 0, f1)) else Run(p.effects, f1)
  }

  /** loop_playback's `while looping` loop. */
  function LoopFrom(evs: seq<Event>, f: Flag): (r: Run)
    ensures |r.flag.feed| <= |f.feed|
    ensures !r.flag.value
    decreases |f.feed|
  {
    var f1 := Read(f);
    if !f1.value then Run([], f1)
    else Then(Iteration(evs, f1).effects, LoopFrom(evs, Iteration(evs, f1).flag))
  }

  /** loop_playback(): sets `looping` and loops until it is read as false. */
  function Loop(evs: seq<Event>, feed: seq<bool>): Run {
    LoopFrom(evs, Flag(true, feed))
  }

  // ---------------------------------------------------------------------
  // Timing: an uninterrupted wait sleeps exactly the recorded gap.

  /** The slices an uninterrupted wait of `ms` milliseconds sleeps. */
  function Slices(ms: int): seq<Effect>
    decreases ms
  {
    if ms <= 0 then [] else [Sleep(Min(SLICE, ms))] + Slices(ms - SLICE)
  }

  /** Total time slept by a run of effects. */
  function Slept(es: seq<Effect>): int {
    if es == [] then 0 else (if es[0].Sleep? then es[0].ms else 0) + Slept(es[1..])
  }

  lemma {:induction false} SleptAppend(a: seq<Effect>, b: seq<Effect>)
    ensures Slept(a + b) == Slept(a) + Slept(b)
  {
    if a == [] {
      assert a + b == b;
    } else {
      assert (a + b)[0] == a[0] && (a + b)[1..] == a[1..] + b;
      SleptAppend(a[1..], b);
    }
  }

  /** A wait of `ms` is cut into ceil(ms / 100) slices of at most 100 ms each,
      which add up to exactly `ms`. */
  lemma {:induction false} SlicesAddUp(ms: int)
    ensures Slept(Slices(ms)) == Max(0, ms)
    ensures |Slices(ms)| == if ms <= 0 then 0 else (ms + SLICE - 1) / SLICE
    ensures forall e | e in Slices(ms) :: e.Sleep? && 0 < e.ms <= SLICE
  {
    if ms > 0 {
      SlicesAddUp(ms - SLICE);
      SleptAppend([Sleep(Min(SLICE, ms))], Slices(ms - SLICE));
    }
  }

  /** All of the first `n` values of a feed are true. */
  predicate TrueFor(feed: seq<bool>, n: nat) {
    n <= |feed| && forall i :: 0 <= i < n ==> feed[i]
  }

  /** With the flag set for every read, the wait sleeps exactly the slices of
      the remaining time and reads the flag once per slice. */
  lemma {:induction false} WaitUninterrupted(sleep: int, elapsed: nat, v: bool, feed: seq<bool>)
    requires TrueFor(feed, |Slices(sleep - elapsed)|)
    ensures var n := |Slices(sleep - elapsed)|;
      Wait(sleep, elapsed, Flag(v, feed))
        == Run(Slices(sleep - elapsed), Flag(if n == 0 then v else true, feed[n..]))
    decreases sleep - elapsed
  {
    if elapsed < sleep {
      var f1 := Read(Flag(v, feed));
      assert f1 == Flag(true, feed[1..]);
      assert TrueFor(feed[1..], |Slices(sleep - (elapsed + SLICE))|);
      WaitUninterrupted(sleep, elapsed + SLICE, true, feed[1..]);
      assert feed[1..][|Slices(sleep - (elapsed + SLICE))|..] == feed[|Slices(sleep - elapsed)|..];
    }
  }

  /** A false read during a wait ends it at once: after `n` slices, with the
      read that follows them. */
  lemma {:induction false} WaitInterrupted(sleep: int, elapsed: nat, v: bool, feed: seq<bool>, n: nat)
    requires n < |Slices(sleep - elapsed)|
    requires TrueFor(feed, n) && n < |feed| && !feed[n]
    ensures Wait(sleep, elapsed, Flag(v, feed)) == Run(Slices(sleep - elapsed)[..n], Flag(false, feed[n + 1..]))
    decreases n
  {
    if n > 0 {
      assert TrueFor(feed[1..], n - 1);
      WaitInterrupted(sleep, elapsed + SLICE, true, feed[1..], n - 1);
      assert feed[1..][n..] == feed[n + 1..];
      assert Slices(sleep - elapsed)[..n]
          == [Sleep(Min(SLICE, sleep - elapsed))] + Slices(sleep - (elapsed + SLICE))[..n - 1];
    }
  }

  // ---------------------------------------------------------------------
  // Playback with no cancellation reproduces the recording.

  /** The reads of the flag an uninterrupted playback of `evs` makes. */
  function ReadsNeeded(evs: seq<Event>, start: int): nat
    decreases |evs|
  {
    if evs == [] then 0
    else 2 + |Slices(Max(0, evs[0].time - start))| + ReadsNeeded(evs[1..], evs[0].time)
  }

  /** What an uninterrupted playback does: before each event, sleep for the
      gap to the previous event's time (none for the first), then replay it. */
  function Expected(evs: seq<Event>, start: int): seq<Effect>
    decreases |evs|
  {
    if evs == [] then []
    else Slices(Max(0, evs[0].time - start)) + Replay(evs[0].input) + Expected(evs[1..], evs[0].time)
  }

  lemma {:induction false} PlayFromUninterrupted(evs: seq<Event>, start: int, v: bool, feed: seq<bool>)
    requires TrueFor(feed, ReadsNeeded(evs, start))
    ensures PlayFrom(evs, start, Flag(v, feed)).effects == Expected(evs, start)
    ensures PlayFrom(evs, start, Flag(v, feed)).flag.feed == feed[ReadsNeeded(evs, start)..]
    decreases |evs|
  {
    if evs != [] {
      var gap := Max(0, evs[0].time - start);
      var n := |Slices(gap)|;
      assert TrueFor(feed[1..], n);
      WaitUninterrupted(gap, 0, true, feed[1..]);
      var w := Wait(gap, 0, Flag(true, feed[1..]));
      assert w.flag.feed == feed[n + 1..];
      assert Read(w.flag) == Flag(true, feed[n + 2..]);
      var rest := feed[n + 2..];
      assert TrueFor(rest, ReadsNeeded(evs[1..], evs[0].time));
      PlayFromUninterrupted(evs[1..], evs[0].time, true, rest);
      assert rest[ReadsNeeded(evs[1..], evs[0].time)..] == feed[ReadsNeeded(evs, start)..];
    }
  }

  /** With the flag set for every read, playback replays every event, each
      after sleeping exactly the gap to the one before it, and then releases
      the guard keys. */
  lemma PlayUninterrupted(evs: seq<Event>, v: bool, feed: seq<bool>)
    requires evs != [] && TrueFor(feed, ReadsNeeded(evs, evs[0].time))
    ensures Play(evs, Flag(v, feed)).effects == Expected(evs, evs[0].time) + RELEASE_GUARD
  {
    PlayFromUninterrupted(evs, evs[0].time, v, feed);
  }

  // ---------------------------------------------------------------------
  // Order: what is dispatched is a prefix of the recording, in order.

  /** The controller calls of a run, without its sleeps. */
  function Dispatched(es: seq<Effect>): seq<Effect> {
    if es == [] then [] else (if es[0].Sleep? then [] else [es[0]]) + Dispatched(es[1..])
  }

  lemma {:induction false} DispatchedAppend(a: seq<Effect>, b: seq<Effect>)
    ensures Dispatched(a + b) == Dispatched(a) + Dispatched(b)
  {
    if a == [] {
      assert a + b == b;
    } else {
      assert (a + b)[0] == a[0] && (a + b)[1..] == a[1..] + b;
      DispatchedAppend(a[1..], b);
    }
  }

  lemma {:induction false} DispatchedSleeps(es: seq<Effect>)
    requires forall e | e in es :: e.Sleep?
    ensures Dispatched(es) == []
  {
    if es != [] {
      DispatchedSleeps(es[1..]);
    }
  }

  /** Replaying an input makes controller calls only. */
  lemma DispatchedReplay(i: Input)
    ensures Dispatched(Replay(i)) == Replay(i)
  {
    var r := Replay(i);
    assert Dispatched(r[|r|..]) == [];
    if |r| == 2 {
      assert Dispatched(r[1..]) == [r[1]] + Dispatched(r[2..]);
    }
  }

  /** The replays of a run of events, in order. */
  function ReplayAll(evs: seq<Event>): seq<Effect> {
    if evs == [] then [] else Replay(evs[0].input) + ReplayAll(evs[1..])
  }

  lemma {:induction false} ReplayAllSnoc(evs: seq<Event>, k: nat)
    requires k < |evs|
    ensures ReplayAll(evs[..k + 1]) == ReplayAll(evs[..k]) + Replay(evs[k].input)
  {
    if k > 0 {
      assert evs[..k + 1][1..] == evs[1..][..k];
      assert evs[..k][1..] == evs[1..][..k - 1];
      ReplayAllSnoc(evs[1..], k - 1);
    } else {
      assert evs[..1][1..] == [];
    }
  }

  /** Playback dispatches the first `k` events in recorded order and nothing
      else, and it stops short of the end only when it has just read the flag
      as false. */
  lemma {:induction false} PlayFromInOrder(evs: seq<Event>, start: int, f: Flag) returns (k: nat)
    ensures k <= |evs|
    ensures Dispatched(PlayFrom(evs, start, f).effects) == ReplayAll(evs[..k])
    ensures k < |evs| ==> !PlayFrom(evs, start, f).flag.value
    decreases |evs|
  {
    k := 0;
    if evs != [] && Read(f).value {
      var w := Wait(Max(0, evs[0].time - start), 0, Read(f));
      DispatchedSleeps(w.effects);
      var f2 := Read(w.flag);
      if f2.value {
        var rest := PlayFrom(evs[1..], evs[0].time, f2);
        var j := PlayFromInOrder(evs[1..], evs[0].time, f2);
        k := j + 1;
        DispatchedStep(w.effects, evs[0].input, rest.effects);
        assert evs[..k][1..] == evs[1..][..j];
      }
    }
  }

  /** Effects with no sleep among them are all controller calls. */
  lemma {:induction false} DispatchedCalls(es: seq<Effect>)
    requires forall e | e in es :: !e.Sleep?
    ensures Dispatched(es) == es
  {
    if es != [] {
      DispatchedCalls(es[1..]);
    }
  }

  /** Whatever the flag does, a non-empty playback ends by releasing the six
      modifiers, after a prefix of the recording replayed in order. */
  lemma PlayEndsWithRelease(evs: seq<Event>, f: Flag) returns (k: nat)
    requires evs != []
    ensures k <= |evs|
    ensures Dispatched(Play(evs, f).effects) == ReplayAll(evs[..k]) + RELEASE_GUARD
    ensures var es := Play(evs, f).effects;
      |es| >= |RELEASE_GUARD| && es[|es| - |RELEASE_GUARD|..] == RELEASE_GUARD
  {
    var p := PlayFrom(evs, evs[0].time, f);
    k := PlayFromInOrder(evs, evs[0].time, f);
    DispatchedAppend(p.effects, RELEASE_GUARD);
    DispatchedCalls(RELEASE_GUARD);
    var es := p.effects + RELEASE_GUARD;
    assert es[|es| - |RELEASE_GUARD|..] == RELEASE_GUARD;
  }

  lemma DispatchedStep(w: seq<Effect>, i: Input, rest: seq<Effect>)
    requires Dispatched(w) == []
    ensures Dispatched(w + Replay(i) + rest) == Replay(i) + Dispatched(rest)
  {
    DispatchedAppend(w, Replay(i));
    DispatchedAppend(w + Replay(i), rest);
    DispatchedReplay(i);
  }

  // ---------------------------------------------------------------------
  // The loop.

  /** The wait between iterations, uninterrupted: 50 slices of 100 ms. */
  lemma IntervalUninterrupted(feed: seq<bool>)
    requires TrueFor(feed, 50)
    ensures Wait(LOOP_INTERVAL, 0, Flag(true, feed)).effects == Slices(LOOP_INTERVAL)
    ensures |Slices(LOOP_INTERVAL)| == 50
  {
    SlicesAddUp(LOOP_INTERVAL);
    WaitUninterrupted(LOOP_INTERVAL, 0, true, feed);
  }

  /** One uninterrupted iteration of the loop replays the recording, releases
      the guard keys, then waits LOOP_INTERVAL in 100 ms slices. */
  lemma IterationUninterrupted(evs: seq<Event>, v: bool, feed: seq<bool>)
    requires evs != [] && TrueFor(feed, ReadsNeeded(evs, evs[0].time) + 51)
    ensures Iteration(evs, Flag(v, feed)).effects
         == Expected(evs, evs[0].time) + RELEASE_GUARD + Slices(LOOP_INTERVAL)
  {
    var m := ReadsNeeded(evs, evs[0].time);
    PlayFromUninterrupted(evs, evs[0].time, v, feed);
    var rest := feed[m + 1..];
    assert Read(Play(evs, Flag(v, feed)).flag) == Flag(true, rest);
    IntervalUninterrupted(rest);
  }

  /** A false read in the loop's own checks ends the loop at once: nothing
      after the loop's first read of `false` is played. */
  lemma LoopStopsAtFalse(evs: seq<Event>, v: bool, x: seq<bool>)
    ensures LoopFrom(evs, Flag(v, [false] + x)).effects == []
  {
  }

  /** `a` is the flag `b` with only false reads appended to its feed. */
  predicate Padded(a: Flag, b: Flag) {
    a.value == b.value && |b.feed| <= |a.feed| && a.feed[..|b.feed|] == b.feed
    && forall i :: |b.feed| <= i < |a.feed| ==> !a.feed[i]
  }

  lemma ReadPadded(a: Flag, b: Flag)
    requires Padded(a, b)
    ensures Padded(Read(a), Read(b))
  {
    if b.feed != [] {
      assert a.feed[0] == b.feed[0];
      assert a.feed[1..][..|b.feed| - 1] == b.feed[1..];
    }
  }

  lemma {:induction false} WaitPadded(sleep: int, elapsed: nat, a: Flag, b: Flag)
    requires Padded(a, b)
    ensures Wait(sleep, elapsed, a).effects == Wait(sleep, elapsed, b).effects
    ensures Padded(Wait(sleep, elapsed, a).flag, Wait(sleep, elapsed, b).flag)
    decreases sleep - elapsed
  {
    if elapsed < sleep {
      ReadPadded(a, b);
      if Read(b).value {
        WaitPadded(sleep, elapsed + SLICE, Read(a), Read(b));
      }
    }
  }

  lemma {:induction false} PlayFromPadded(evs: seq<Event>, start: int, a: Flag, b: Flag)
    requires Padded(a, b)
    ensures PlayFrom(evs, start, a).effects == PlayFrom(evs, start, b).effects
    ensures Padded(PlayFrom(evs, start, a).flag, PlayFrom(evs, start, b).flag)
    decreases |evs|
  {
    if evs != [] {
      ReadPadded(a, b);
      if Read(b).value {
        var gap := Max(0, evs[0].time - start);
        WaitPadded(gap, 0, Read(a), Read(b));
        var wa := Wait(gap, 0, Read(a));
        var wb := Wait(gap, 0, Read(b));
        ReadPadded(wa.flag, wb.flag);
        if Read(wb.flag).value {
          PlayFromPadded(evs[1..], evs[0].time, Read(wa.flag), Read(wb.flag));
        }
      }
    }
  }

  lemma IterationPadded(evs: seq<Event>, a: Flag, b: Flag)
    requires Padded(a, b)
    ensures Iteration(evs, a).effects == Iteration(evs, b).effects
    ensures Padded(Iteration(evs, a).flag, Iteration(evs, b).flag)
  {
    var pa := Play(evs, a);
    var pb := Play(evs, b);
    if evs != [] {
      PlayFromPadded(evs, evs[0].time, a, b);
    }
    assert Padded(pa.flag, pb.flag);
    ReadPadded(pa.flag, pb.flag);
    if Read(pb.flag).value {
      WaitPadded(LOOP_INTERVAL, 0, Read(pa.flag), Read(pb.flag));
    }
  }

  lemma {:induction false} LoopFromPadded(evs: seq<Event>, a: Flag, b: Flag)
    requires Padded(a, b)
    ensures LoopFrom(evs, a).effects == LoopFrom(evs, b).effects
    decreases |a.feed|
  {
    ReadPadded(a, b);
    if Read(b).value {
      IterationPadded(evs, Read(a), Read(b));
      LoopFromPadded(evs, Iteration(evs, Read(a)).flag, Iteration(evs, Read(b)).flag);
    }
  }

  /** Once the flag is false for good (end_task has run and no task has been
      started again), playback does exactly what it does when the feed has run
      out: the first false read ends it, nothing more is dispatched, and the
      guard keys are released. */
  lemma PlayStopsOnceFalse(evs: seq<Event>, v: bool, t: seq<bool>, n: nat)
    ensures Play(evs, Flag(v, t + seq(n, _ => false))).effects == Play(evs, Flag(v, t)).effects
  {
    var a := Flag(v, t + seq(n, _ => false));
    assert a.feed[..|t|] == t;
    if evs != [] {
      PlayFromPadded(evs, evs[0].time, a, Flag(v, t));
    }
  }

  /** With the feed used up, playback reads the flag as false before the
      first event and dispatches nothing: it only releases the guard keys. */
  lemma PlayAfterEnd(evs: seq<Event>, v: bool)
    requires evs != []
    ensures Play(evs, Flag(v, [])).effects == RELEASE_GUARD
  {
  }

  /** The flag is read twice around each wait, and a value set between the
      two reads wins: a flag cleared during the wait of the second event and
      set again before the check that follows it lets that event fire at once,
      200 ms early. */
  lemma FlipBackFiresEarly()
    ensures var evs := [Event(Move(0, 0), 0), Event(Move(1, 1), 200)];
      PlayFrom(evs, 0, Flag(true, [true, true, true, false, true])).effects
        == [SetPosition(0, 0), SetPosition(1, 1)]
  {
    var evs := [Event(Move(0, 0), 0), Event(Move(1, 1), 200)];
    assert Wait(0, 0, Flag(true, [true, true, false, true])) == Run([], Flag(true, [true, true, false, true]));
    assert Wait(200, 0, Flag(true, [false, true])) == Run([], Flag(false, [true]));
    assert PlayFrom(evs[1..][1..], 200, Flag(true, [])) == Run([], Flag(true, []));
  }

  /** Once the flag is false for good (end_task has run and no task has been
      started again), the loop does exactly what it does when the feed has run
      out: the later false reads begin no new iteration and play nothing. */
  lemma LoopIgnoresTrailingFalse(evs: seq<Event>, v: bool, t: seq<bool>, n: nat)
    ensures LoopFrom(evs, Flag(v, t + seq(n, _ => false))).effects == LoopFrom(evs, Flag(v, t)).effects
  {
    var a := Flag(v, t + seq(n, _ => false));
    assert a.feed[..|t|] == t;
    LoopFromPadded(evs, a, Flag(v, t));
  }
}
