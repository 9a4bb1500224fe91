/** Lasers (main.py, class Laser) and the pass over a ship's list of lasers
    that `Ship.move_lasers` makes every frame. */
module Lasers {
  import opened Screen

  /** A laser: its position and the image whose mask it collides with. */
  datatype Laser = Laser(x: int, y: int, sprite: Sprite)
  {
    /** `move(velocity)`: a vertical shift; the sign gives the direction. */
    function Moved(velocity: int): (r: Laser)
      ensures r.y - y == velocity && r.x == x && r.sprite == sprite
    {
      this.(y := y + velocity)
    }

    /** `off_screen(height)`: outside the band [0, height]. */
    predicate OffScreen(height: int): (r: bool)
      ensures r <==> y < 0 || y > height
    {
      !(height >= y >= 0)
    }

    function Body(): Screen.Body
    {
      Screen.Body(x, y, sprite)
    }
  }

  /** `n` frames of movement at the same velocity. */
  function MovedTimes(l: Laser, velocity: int, n: nat): Laser
  {
    if n == 0 then l else MovedTimes(l, velocity, n - 1).Moved(velocity)
  }

  lemma {:induction false} MovedTimesShift(l: Laser, velocity: int, n: nat)
    ensures MovedTimes(l, velocity, n) == l.(y := l.y + n * velocity)
  {
    if n > 0 {
      MovedTimesShift(l, velocity, n - 1);
    }
  }

  /** A player laser (moving up by `speed` per frame) fired from inside the
      playfield leaves it after exactly `y / speed + 1` frames: it is off
      screen after `n` moves exactly when `n` exceeds `y / speed`. */
  lemma PlayerLaserLifetime(l: Laser, speed: int, n: nat)
    requires speed > 0 && 0 <= l.y <= HEIGHT
    ensures MovedTimes(l, -speed, n).OffScreen(HEIGHT) <==> n > l.y / speed
  {
    MovedTimesShift(l, -speed, n);
    assert n * (-speed) == -(n * speed);
    assert n * speed >= 0;
    BelowMultiple(l.y, speed, n);
  }

  /** `y < n * s` exactly when `n` exceeds the quotient `y / s`. */
  lemma BelowMultiple(y: int, s: int, n: nat)
    requires y >= 0 && s > 0
    ensures y < n * s <==> n > y / s
  {
    var q, r := y / s, y % s;
    assert y == q * s + r && 0 <= r < s;
    if n > q {
      MultiplyMonotone(q + 1, n, s);
      assert (q + 1) * s == q * s + s;
    } else {
      MultiplyMonotone(n, q, s);
    }
  }

  lemma MultiplyMonotone(a: int, b: int, s: int)
    requires a <= b && s > 0
    ensures a * s <= b * s
  {
    assert b * s - a * s == (b - a) * s;
  }

  /** What a pass over a list of lasers leaves: the lasers still in the list
      and how many of them hit the target. */
  datatype Sweep = Sweep(lasers: seq<Laser>, hits: nat)

  /** The pass of `Ship.move_lasers` (main.py:123-130) as the source runs it:
      `for laser in self.lasers` with `self.lasers.remove(laser)` inside the
      loop. Each visited laser is moved by `velocity`; it is removed when it is
      off screen, or else when it hits the target (`hit`). Removing the current
      laser shifts the next one into its slot, which the iterator then passes
      over: that laser is neither moved nor tested this frame and stays. */
  function SweepLasers(ls: seq<Laser>, velocity: int, hit: Laser -> bool): (r: Sweep)
    ensures |r.lasers| <= |ls| && r.hits <= |ls|
    decreases |ls|
  {
    if ls == [] then Sweep([], 0)
    else
      var m := ls[0].Moved(velocity);
      if !m.OffScreen(HEIGHT) && !hit(m) then
        var s := SweepLasers(ls[1..], velocity, hit);
        Sweep([m] + s.lasers, s.hits)
      else
        var hits := if m.OffScreen(HEIGHT) then 0 else 1;
        if |ls| == 1 then Sweep([], hits)
        else
          var s := SweepLasers(ls[2..], velocity, hit);
          Sweep([ls[1]] + s.lasers, s.hits + hits)
  }

  /** A list seen as the part already passed followed by the rest: removing
      the current element (the head of the rest) or replacing it. */
  lemma DropCurrent<T>(s: seq<T>, done: seq<T>, rest: seq<T>)
    requires s == done + rest && rest != []
    ensures s[|done|] == rest[0] && s == (done + [rest[0]]) + rest[1..]
    ensures s[..|done|] + s[|done| + 1..] == done + rest[1..]
    ensures |rest| >= 2 ==> done + rest[1..] == (done + [rest[1]]) + rest[2..]
  {
    assert s[..|done|] == done && s[|done| + 1..] == rest[1..];
    if |rest| >= 2 {
      assert rest[1..] == [rest[1]] + rest[2..];
    }
  }

  lemma ReplaceCurrent<T>(s: seq<T>, done: seq<T>, rest: seq<T>, x: T)
    requires s == done + rest && rest != []
    ensures s[|done| := x] == (done + [x]) + rest[1..]
  {
  }

  /** The bookkeeping of the loop of `Ship.move_lasers` over `all`: the
      lasers already passed (`done`) followed by the pass over the rest give
      the pass over all of them. */
  predicate Sweeping(all: seq<Laser>, done: seq<Laser>, rest: seq<Laser>, hits: nat, velocity: int, hit: Laser -> bool)
  {
    var tail := SweepLasers(rest, velocity, hit);
    SweepLasers(all, velocity, hit) == Sweep(done + tail.lasers, hits + tail.hits)
  }

  /** One iteration of the loop of `Ship.move_lasers` for a laser that stays
      on screen and misses: it is kept, moved. */
  lemma SweepKeep(all: seq<Laser>, done: seq<Laser>, rest: seq<Laser>, hits: nat, velocity: int, hit: Laser -> bool)
    requires rest != [] && Sweeping(all, done, rest, hits, velocity, hit)
    requires var m := rest[0].Moved(velocity); !m.OffScreen(HEIGHT) && !hit(m)
    ensures Sweeping(all, done + [rest[0].Moved(velocity)], rest[1..], hits, velocity, hit)
  {
    var m := rest[0].Moved(velocity);
    var next := SweepLasers(rest[1..], velocity, hit);
    assert SweepLasers(rest, velocity, hit) == Sweep([m] + next.lasers, next.hits);
    assert done + ([m] + next.lasers) == (done + [m]) + next.lasers;
  }

  /** One iteration of the loop of `Ship.move_lasers` for a laser that
      leaves the screen or hits: it is removed, counted as a hit only on
      screen, and the laser after it is passed over. */
  lemma SweepDrop(all: seq<Laser>, done: seq<Laser>, rest: seq<Laser>, hits: nat, velocity: int, hit: Laser -> bool)
    requires rest != [] && Sweeping(all, done, rest, hits, velocity, hit)
    requires var m := rest[0].Moved(velocity); m.OffScreen(HEIGHT) || hit(m)
    ensures var h := if rest[0].Moved(velocity).OffScreen(HEIGHT) then 0 else 1;
      if |rest| >= 2 then Sweeping(all, done + [rest[1]], rest[2..], hits + h, velocity, hit)
      else Sweeping(all, done, [], hits + h, velocity, hit)
  {
    var m := rest[0].Moved(velocity);
    var h := if m.OffScreen(HEIGHT) then 0 else 1;
    if |rest| >= 2 {
      var next := SweepLasers(rest[2..], velocity, hit);
      assert SweepLasers(rest, velocity, hit) == Sweep([rest[1]] + next.lasers, next.hits + h);
      assert done + ([rest[1]] + next.lasers) == (done + [rest[1]]) + next.lasers;
    } else {
      assert done + [] == done;
    }
  }

  /** Reference pass over a snapshot: every laser is visited, moved, and kept
      exactly when it is on screen and misses. */
  function SweepEvery(ls: seq<Laser>, velocity: int, hit: Laser -> bool): (r: Sweep)
    decreases |ls|
  {
    if ls == [] then Sweep([], 0)
    else
      var m := ls[0].Moved(velocity);
      var s := SweepEvery(ls[1..], velocity, hit);
      if m.OffScreen(HEIGHT) then s
      else if hit(m) then Sweep(s.lasers, s.hits + 1)
      else Sweep([m] + s.lasers, s.hits)
  }

  /** No laser is created by the pass: each removed laser either left the
      screen or counted as one hit. */
  lemma {:induction false} SweepCounts(ls: seq<Laser>, velocity: int, hit: Laser -> bool)
    ensures var r := SweepLasers(ls, velocity, hit); |r.lasers| + r.hits <= |ls|
  {
    if |ls| > 1 {
      SweepCounts(ls[1..], velocity, hit);
      SweepCounts(ls[2..], velocity, hit);
    }
  }

  /** Every laser left after the pass is either one the iterator skipped,
      unchanged, or a visited laser moved by `velocity` that is on screen and
      missed the target. */
  lemma {:induction false} SweepSurvivors(ls: seq<Laser>, velocity: int, hit: Laser -> bool, l: Laser)
    requires l in SweepLasers(ls, velocity, hit).lasers
    ensures l in ls || exists o :: o in ls && l == o.Moved(velocity) && !l.OffScreen(HEIGHT) && !hit(l)
  {
    var m := ls[0].Moved(velocity);
    if !m.OffScreen(HEIGHT) && !hit(m) {
      if l != m {
        SweepSurvivors(ls[1..], velocity, hit, l);
        if l !in ls[1..] {
          var o :| o in ls[1..] && l == o.Moved(velocity) && !l.OffScreen(HEIGHT) && !hit(l);
          assert o in ls;
        }
      } else {
        assert ls[0] in ls;
      }
    } else if l != ls[1] {
      SweepSurvivors(ls[2..], velocity, hit, l);
      if l !in ls[2..] {
        var o :| o in ls[2..] && l == o.Moved(velocity) && !l.OffScreen(HEIGHT) && !hit(l);
        assert o in ls;
      }
    }
  }

  /** Because lasers are skipped, the pass never reports more hits than the
      reference pass that visits every laser. */
  lemma {:induction false} SweepHitsAtMostEvery(ls: seq<Laser>, velocity: int, hit: Laser -> bool)
    ensures SweepLasers(ls, velocity, hit).hits <= SweepEvery(ls, velocity, hit).hits
  {
    if |ls| > 1 {
      SweepHitsAtMostEvery(ls[1..], velocity, hit);
      SweepHitsAtMostEvery(ls[2..], velocity, hit);
      assert ls[1..][1..] == ls[2..];
    }
  }

  /** When no visited laser is removed, nothing is skipped: the pass agrees
      with the reference and every laser is moved. */
  lemma {:induction false} SweepAgreesWhenNoneRemoved(ls: seq<Laser>, velocity: int, hit: Laser -> bool)
    requires forall k :: 0 <= k < |ls| ==> !ls[k].Moved(velocity).OffScreen(HEIGHT) && !hit(ls[k].Moved(velocity))
    ensures SweepLasers(ls, velocity, hit) == SweepEvery(ls, velocity, hit)
    ensures var r := SweepLasers(ls, velocity, hit);
      r.hits == 0 && |r.lasers| == |ls| &&
      forall k :: 0 <= k < |ls| ==> r.lasers[k] == ls[k].Moved(velocity)
  {
    if ls != [] {
      assert forall k :: 0 <= k < |ls[1..]| ==> ls[1..][k] == ls[k + 1];
      SweepAgreesWhenNoneRemoved(ls[1..], velocity, hit);
    }
  }

  /** Not every laser is visited: an enemy laser that leaves the bottom edge
      makes the pass skip the laser behind it, which would have hit. */
  lemma SweepSkipsAfterRemoval()
    ensures var ls := [Laser(0, 748, EnemyLaser(Red)), Laser(0, 100, EnemyLaser(Red))];
      var hit := (l: Laser) => true;
      SweepLasers(ls, 4, hit) == Sweep([Laser(0, 100, EnemyLaser(Red))], 0) &&
      SweepEvery(ls, 4, hit) == Sweep([], 1)
  {
    var ls := [Laser(0, 748, EnemyLaser(Red)), Laser(0, 100, EnemyLaser(Red))];
    var hit := (l: Laser) => true;
    assert ls[0].Moved(4).OffScreen(HEIGHT);
    assert ls[2..] == [];
    assert ls[1..][1..] == [];
  }
}
