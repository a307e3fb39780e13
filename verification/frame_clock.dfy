/**
  The per-frame time accumulator that opens the render loop of both
  programs (src/Source.cpp and the older Source.cpp): wall-clock time scaled
  by `timeScale` is added to game time, and the frame's `deltaTime` is the
  game time that passed.
 */
module FrameClock {

  /** The time globals: `realTime`, `gameTime`, `deltaTime`, `lastFrame` and `timeScale`. */
  datatype Clock = Clock(realTime: real, gameTime: real, deltaTime: real, lastFrame: real, timeScale: real)

  /** Every time global starts at 0, and the scale at 1. */
  const Start := Clock(0.0, 0.0, 0.0, 0.0, 1.0)

  /**
    One tick with a single wall-clock reading `now`: the previous game time
    is remembered, game time advances by the scaled wall-clock interval, the
    reading is stored, and the delta is the game time gained.
   */
  function Tick(c: Clock, now: real): (r: Clock)
    ensures r.lastFrame == c.gameTime
    ensures r.gameTime == c.gameTime + (now - c.realTime) * c.timeScale
    ensures r.realTime == now
    ensures r.deltaTime == (now - c.realTime) * c.timeScale
    ensures r.timeScale == c.timeScale
    ensures now >= c.realTime && c.timeScale > 0.0 ==> r.deltaTime >= 0.0 && r.gameTime >= c.gameTime
  {
    var lastFrame := c.gameTime;
    var gameTime := c.gameTime + (now - c.realTime) * c.timeScale;
    Clock(now, gameTime, gameTime - lastFrame, lastFrame, c.timeScale)
  }

  /** Dividing the delta by a non-zero scale recovers the wall-clock time that passed. */
  lemma TickWallClockDelta(c: Clock, now: real)
    requires c.timeScale != 0.0
    ensures Tick(c, now).deltaTime / Tick(c, now).timeScale == now - c.realTime
  {
    var r := Tick(c, now);
    assert r.deltaTime == (now - c.realTime) * c.timeScale;
  }

  /** Ticking through a sequence of readings with the scale unchanged. */
  function Ticks(c: Clock, readings: seq<real>): (r: Clock)
    ensures r.timeScale == c.timeScale
    ensures |readings| == 0 ==> r == c
    ensures |readings| > 0 ==> r.realTime == readings[|readings| - 1]
    decreases |readings|
  {
    if |readings| == 0 then c else Ticks(Tick(c, readings[0]), readings[1..])
  }

  predicate NonDecreasing(readings: seq<real>) {
    forall i, j :: 0 <= i < j < |readings| ==> readings[i] <= readings[j]
  }

  /**
    No wall-clock time is lost: after any run of ticks at a fixed scale the
    game time gained is exactly the scale times the wall-clock time covered.
   */
  lemma {:induction false} TicksCreditAllWallTime(c: Clock, readings: seq<real>)
    requires |readings| > 0
    ensures Ticks(c, readings).realTime == readings[|readings| - 1]
    ensures Ticks(c, readings).gameTime == c.gameTime + (readings[|readings| - 1] - c.realTime) * c.timeScale
    decreases |readings|
  {
    var c1 := Tick(c, readings[0]);
    if |readings| > 1 {
      TicksCreditAllWallTime(c1, readings[1..]);
      assert readings[1..][|readings[1..]| - 1] == readings[|readings| - 1];
    }
  }

  /**
    With non-decreasing readings that start no earlier than the clock and a
    positive scale, game time never goes backwards: a longer prefix of the
    readings leaves at least as much game time as a shorter one.
   */
  lemma {:induction false} TicksMonotonic(c: Clock, readings: seq<real>, i: nat, j: nat)
    requires NonDecreasing(readings) && (|readings| > 0 ==> readings[0] >= c.realTime)
    requires c.timeScale > 0.0
    requires i <= j <= |readings|
    ensures Ticks(c, readings[..i]).gameTime <= Ticks(c, readings[..j]).gameTime
    ensures |readings| > 0 ==> Ticks(c, readings).gameTime >= c.gameTime
  {
    if |readings| > 0 {
      PrefixGain(c, readings, 0, |readings|);
      assert readings[..|readings|] == readings;
    }
    PrefixGain(c, readings, i, j);
  }

  /** The game time after `readings[..i]` is at most that after `readings[..j]`, for one pair `i <= j`. */
  lemma {:induction false} PrefixGain(c: Clock, readings: seq<real>, i: nat, j: nat)
    requires NonDecreasing(readings) && (|readings| > 0 ==> readings[0] >= c.realTime)
    requires c.timeScale > 0.0
    requires i <= j <= |readings|
    ensures Ticks(c, readings[..i]).gameTime <= Ticks(c, readings[..j]).gameTime
    decreases j
  {
    if i < j {
      PrefixGain(c, readings, i, j - 1);
      PrefixStep(c, readings, j - 1);
    }
  }

  /** One more reading, no earlier than the last, never takes game time back. */
  lemma PrefixStep(c: Clock, readings: seq<real>, k: nat)
    requires NonDecreasing(readings) && (|readings| > 0 ==> readings[0] >= c.realTime)
    requires c.timeScale > 0.0
    requires k < |readings|
    ensures Ticks(c, readings[..k]).gameTime <= Ticks(c, readings[..k + 1]).gameTime
  {
    var p := Ticks(c, readings[..k]);
    assert readings[..k + 1] == readings[..k] + [readings[k]];
    TicksSnoc(c, readings[..k], readings[k]);
    if k > 0 {
      assert p.realTime == readings[k - 1];
      assert readings[k - 1] <= readings[k];
    } else {
      assert readings[..k] == [];
    }
  }

  /** Ticking through one more reading is one more `Tick`. */
  lemma {:induction false} TicksSnoc(c: Clock, xs: seq<real>, x: real)
    ensures Ticks(c, xs + [x]) == Tick(Ticks(c, xs), x)
    decreases |xs|
  {
    if |xs| == 0 {
      assert xs + [x] == [x];
      assert [x][1..] == [];
    } else {
      assert (xs + [x])[0] == xs[0];
      assert (xs + [x])[1..] == xs[1..] + [x];
      TicksSnoc(Tick(c, xs[0]), xs[1..], x);
    }
  }

  /**
    The tick as the render loops write it: the clock is read twice, once to
    advance game time (`sample`) and once to store as `realTime` (`after`).
   */
  function TickAsWritten(c: Clock, sample: real, after: real): (r: Clock)
    ensures r.lastFrame == c.gameTime && r.timeScale == c.timeScale
    ensures r.gameTime == c.gameTime + (sample - c.realTime) * c.timeScale
    ensures r.deltaTime == (sample - c.realTime) * c.timeScale
    ensures r.realTime == after
    ensures sample == after ==> r == Tick(c, after)
  {
    var lastFrame := c.gameTime;
    var gameTime := c.gameTime + (sample - c.realTime) * c.timeScale;
    Clock(after, gameTime, gameTime - lastFrame, lastFrame, c.timeScale)
  }

  /** With two reads, `deltaTime / timeScale` is the time up to the first read. */
  lemma TickAsWrittenWallClockDelta(c: Clock, sample: real, after: real)
    requires c.timeScale != 0.0
    ensures TickAsWritten(c, sample, after).deltaTime / TickAsWritten(c, sample, after).timeScale == sample - c.realTime
  {
    var r := TickAsWritten(c, sample, after);
    assert r.deltaTime == (sample - c.realTime) * c.timeScale;
  }

  /**
    The interval between the two reads is never credited: at scale 1, reading
    1 s and then 2 s leaves game time at 1 while real time is 2, and the next
    tick starts from 2.
   */
  lemma TickAsWrittenLosesTime()
    ensures TickAsWritten(Start, 1.0, 2.0).gameTime == 1.0
    ensures TickAsWritten(Start, 1.0, 2.0).realTime == 2.0
    ensures Tick(Start, 2.0).gameTime == 2.0
    ensures TickAsWritten(TickAsWritten(Start, 1.0, 2.0), 3.0, 3.0).gameTime == 2.0
  {
    var c1 := TickAsWritten(Start, 1.0, 2.0);
    assert c1.gameTime == 0.0 + (1.0 - 0.0) * 1.0;
    assert c1.realTime == 2.0 && c1.timeScale == 1.0;
    var c2 := TickAsWritten(c1, 3.0, 3.0);
    assert c2.gameTime == 1.0 + (3.0 - 2.0) * 1.0;
    var d := Tick(Start, 2.0);
    assert d.gameTime == 0.0 + (2.0 - 0.0) * 1.0;
  }
}
