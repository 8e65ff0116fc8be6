/** The difficulty curve: scroll speed stepping up with elapsed run time, and
    the obstacle-height factor that grows over the first two minutes. */
module Difficulty {

  const INITIAL_SPEED: real := 3.0
  const SPEED_STEP: real := 0.5
  /** Milliseconds between speed steps. */
  const SPEED_INCREASE_INTERVAL: nat := 10000
  /** Milliseconds a tick adds to the run clock (one frame at 60 Hz). */
  const FRAME_MS: nat := 16
  /** Milliseconds until obstacle heights reach their widest spread. */
  const RAMP_MS: real := 120000.0
  const MAX_DIFFICULTY: real := 0.7

  /** The game loop's test for a speed step, `time % 10000 < 16`, applied to
      the clock after it advanced. On a clock that moves in whole frames it fires exactly on the
      interval boundaries. */
  predicate SpeedsUp(time: nat): (up: bool)
    ensures time % FRAME_MS == 0 ==> (up <==> time % SPEED_INCREASE_INTERVAL == 0)
  {
    var phase := time % SPEED_INCREASE_INTERVAL;
    assert time % FRAME_MS == 0 ==> phase % FRAME_MS == 0 by {
      if time % FRAME_MS == 0 {
        FramePhase(time);
      }
    }
    phase < FRAME_MS
  }

  /** Scroll speed after `time` ms of a run: one step per full interval elapsed. */
  function SpeedAt(time: nat): (s: real)
    ensures s >= INITIAL_SPEED
  {
    INITIAL_SPEED + SPEED_STEP * (time / SPEED_INCREASE_INTERVAL) as real
  }

  /** Obstacle-height factor: elapsed time over the ramp, capped at 0.7. */
  function DifficultyAt(time: nat): (d: real)
    ensures 0.0 <= d <= MAX_DIFFICULTY
    ensures d == MAX_DIFFICULTY || d == time as real / RAMP_MS
    ensures time as real >= MAX_DIFFICULTY * RAMP_MS ==> d == MAX_DIFFICULTY
  {
    var ramp := time as real / RAMP_MS;
    if ramp < MAX_DIFFICULTY then ramp else MAX_DIFFICULTY
  }

  /** A clock that only ever advances by whole frames sits on a multiple of 16 ms
      within each interval, because 10000 is itself a multiple of 16. */
  lemma {:induction false} FramePhase(time: nat)
    requires time % FRAME_MS == 0
    ensures (time % SPEED_INCREASE_INTERVAL) % FRAME_MS == 0
  {
    var q := time / SPEED_INCREASE_INTERVAL;
    var m := time % SPEED_INCREASE_INTERVAL;
    var a := time / FRAME_MS;
    assert time == 16 * a;
    assert time == 10000 * q + m;
    assert m == 16 * (a - 625 * q);
  }

  /** Advancing a frame-aligned clock by one frame steps the speed exactly when
      the new clock reaches an interval boundary, and the game loop's test
      `time % 10000 < 16` fires exactly there. */
  lemma {:induction false} SpeedStepExact(time: nat)
    requires time % FRAME_MS == 0
    ensures (time + FRAME_MS) % FRAME_MS == 0
    ensures SpeedsUp(time + FRAME_MS) <==> (time + FRAME_MS) % SPEED_INCREASE_INTERVAL == 0
    ensures SpeedAt(time + FRAME_MS) ==
              if SpeedsUp(time + FRAME_MS) then SpeedAt(time) + SPEED_STEP else SpeedAt(time)
  {
    var q := time / SPEED_INCREASE_INTERVAL;
    var m := time % SPEED_INCREASE_INTERVAL;
    FramePhase(time);
    assert m <= 9984;
    if m + 16 == 10000 {
      assert time + 16 == 10000 * (q + 1);
      assert (time + 16) / 10000 == q + 1;
      assert (time + 16) % 10000 == 0;
    } else {
      assert time + 16 == 10000 * q + (m + 16);
      assert (time + 16) / 10000 == q;
      assert (time + 16) % 10000 == m + 16;
    }
  }

  /** Counted in ticks, the speed steps up on every 625th tick of a run and on no other. */
  lemma {:induction false} SpeedUpEvery625Ticks(ticks: nat)
    ensures SpeedsUp(FRAME_MS * ticks) <==> ticks % 625 == 0
  {
    var q := ticks / 625;
    var r := ticks % 625;
    assert ticks == 625 * q + r;
    assert 16 * ticks == 10000 * q + 16 * r;
    assert 0 <= 16 * r < 10000;
    assert (16 * ticks) % 10000 == 16 * r;
  }
}
