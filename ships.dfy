/** Ships (main.py, classes Ship, Player and Enemy): the firing cooldown, the
    shot, movement and each ship's pass over its own lasers. The fields and the
    cooldown logic that Player and Enemy inherit from Ship are repeated in both
    classes; what they share is defined once, as functions of this module. */
module Ships {
  import opened Screen
  import opened Lasers

  /** `Ship.COOL_DOWNS`: frames a ship waits between two shots. */
  const COOL_DOWNS: int := 30

  /** Damage a laser or a ram does to the player (`health -= 10`). */
  const DAMAGE: int := 10

  /** Score for each enemy shot down (`score += 100`). */
  const KILL_SCORE: int := 100

  /** `Ship.cool_down`: a counter at the threshold (or above) resets to 0;
      a running counter (above 0) advances; a ready counter (0) stays ready. */
  function NextCoolDown(counter: int): (r: int)
    ensures 0 <= counter <= COOL_DOWNS ==> 0 <= r <= COOL_DOWNS
    ensures counter == 0 ==> r == 0
    ensures r == 0 <==> counter == 0 || counter >= COOL_DOWNS
  {
    if counter >= COOL_DOWNS then 0
    else if counter > 0 then counter + 1
    else counter
  }

  /** The counter after `n` calls of `cool_down`. */
  function CoolDowns(counter: int, n: nat): int
  {
    if n == 0 then counter else NextCoolDown(CoolDowns(counter, n - 1))
  }

  /** A ship that has just fired (counter 1) is not ready again during the next
      29 calls of `cool_down`, and is ready again after exactly 30. */
  lemma {:induction false} CoolDownAfterShot(n: nat)
    requires n <= COOL_DOWNS
    ensures n < COOL_DOWNS ==> CoolDowns(1, n) == n + 1
    ensures n == COOL_DOWNS ==> CoolDowns(1, n) == 0
  {
    if n > 0 {
      CoolDownAfterShot(n - 1);
    }
  }

  /** A ready ship stays ready however many frames pass. */
  lemma {:induction false} ReadyStaysReady(n: nat)
    ensures CoolDowns(0, n) == 0
  {
    if n > 0 {
      ReadyStaysReady(n - 1);
    }
  }

  /** A counter starting in [0, COOL_DOWNS] stays there. */
  lemma {:induction false} CoolDownsInRange(counter: int, n: nat)
    requires 0 <= counter <= COOL_DOWNS
    ensures 0 <= CoolDowns(counter, n) <= COOL_DOWNS
  {
    if n > 0 {
      CoolDownsInRange(counter, n - 1);
    }
  }

  /** A ship's gun: its lasers and its cooldown counter. */
  datatype Gun = Gun(lasers: seq<Laser>, coolDownCounter: int)

  /** `shoot`: a ready gun (counter 0) appends one laser and starts the
      cooldown at 1; any other gun is left as it is. */
  function Fired(g: Gun, spawn: Laser): (r: Gun)
    ensures g.coolDownCounter == 0 ==> r.lasers == g.lasers + [spawn] && r.coolDownCounter == 1
    ensures g.coolDownCounter != 0 ==> r == g
  {
    if g.coolDownCounter == 0 then Gun(g.lasers + [spawn], 1) else g
  }

  /** Horizontal offset of an enemy's shot: the blue ship's is larger. */
  function LaserOffset(color: Color): (r: int)
    ensures color == Blue ==> r == 25
    ensures color != Blue ==> r == 15
  {
    if color == Blue then 25 else 15
  }

  /** The pressed keys the player's movement reads (the source's bindings:
      q, d, z, s and space). */
  datatype Keys = Keys(left: bool, right: bool, up: bool, down: bool, fire: bool)

  /** The player's new position (`Player.movement`, main.py:163-170): each
      direction moves by `velocity` only when the ship stays strictly inside
      the window, with 30 pixels kept free at the bottom for the health bar. */
  function Steer(x: int, y: int, keys: Keys, velocity: int, width: int, height: int): (r: (int, int))
    ensures r.0 == x - velocity || r.0 == x || r.0 == x + velocity
    ensures r.1 == y - velocity || r.1 == y || r.1 == y + velocity
    ensures !keys.left && !keys.right ==> r.0 == x
    ensures !keys.up && !keys.down ==> r.1 == y
    ensures velocity >= 0 && 0 < x && x + width < WIDTH ==> 0 < r.0 && r.0 + width < WIDTH
    ensures velocity >= 0 && 0 < y && y + height + 30 < HEIGHT ==> 0 < r.1 && r.1 + height + 30 < HEIGHT
    ensures keys.left && !keys.right ==> r.0 == (if x - velocity > 0 then x - velocity else x)
    ensures keys.right && !keys.left ==> r.0 == (if x + velocity + width < WIDTH then x + velocity else x)
    ensures keys.left && keys.right && x - velocity > 0 && x + width < WIDTH ==> r.0 == x
    ensures keys.up && !keys.down ==> r.1 == (if y - velocity > 0 then y - velocity else y)
    ensures keys.down && !keys.up ==> r.1 == (if y + velocity + height + 30 < HEIGHT then y + velocity else y)
    ensures keys.up && keys.down && y - velocity > 0 && y + height + 30 < HEIGHT ==> r.1 == y
  {
    var x1 := if keys.left && x - velocity > 0 then x - velocity else x;
    var x2 := if keys.right && x1 + velocity + width < WIDTH then x1 + velocity else x1;
    var y1 := if keys.up && y - velocity > 0 then y - velocity else y;
    var y2 := if keys.down && y1 + velocity + height + 30 < HEIGHT then y1 + velocity else y1;
    (x2, y2)
  }

  /** The player's gun after `Player.movement` (main.py:171-173): it fires
      from the new position `(x, y)` when space is held. */
  function Aimed(g: Gun, keys: Keys, x: int, y: int): Gun
  {
    if keys.fire then Fired(g, Laser(x, y, PlayerLaser)) else g
  }

  /** The collision test of a laser against a fixed target. */
  function Hitting(target: Screen.Body, assets: Assets): Laser -> bool
  {
    (l: Laser) => Collide(l.Body(), target, assets)
  }

  class Enemy {
    var x: int
    var y: int
    var health: int
    var coolDownCounter: int
    var lasers: seq<Laser>
    const color: Color

    /** `Enemy(x, y, color)` with the default health of 100. */
    constructor (x: int, y: int, color: Color)
      ensures this.x == x && this.y == y && this.color == color
      ensures health == 100 && coolDownCounter == 0 && lasers == []
    {
      this.x := x;
      this.y := y;
      this.color := color;
      health := 100;
      coolDownCounter := 0;
      lasers := [];
    }

    function Body(): Screen.Body
      reads this
    {
      Screen.Body(x, y, EnemyShip(color))
    }

    function Weapon(): Gun
      reads this
    {
      Gun(lasers, coolDownCounter)
    }

    /** `Enemy.movement`: straight down. */
    method Movement(velocity: int)
      modifies this`y
      ensures y == old(y) + velocity
    {
      y := y + velocity;
    }

    method CoolDown()
      modifies this`coolDownCounter
      ensures coolDownCounter == NextCoolDown(old(coolDownCounter))
    {
      if coolDownCounter >= COOL_DOWNS {
        coolDownCounter := 0;
      } else if coolDownCounter > 0 {
        coolDownCounter := coolDownCounter + 1;
      }
    }

    /** `Enemy.shoot`: the laser starts at the ship's height, shifted left by
        the variant's offset. */
    method Shoot()
      modifies this`lasers, this`coolDownCounter
      ensures Weapon() == Fired(old(Weapon()), Laser(x - LaserOffset(color), y, EnemyLaser(color)))
    {
      if coolDownCounter == 0 {
        var laser := Laser(x - LaserOffset(color), y, EnemyLaser(color));
        lasers := lasers + [laser];
        coolDownCounter := 1;
      }
    }

    /** `Ship.move_lasers(velocity, obj)`: one cooldown step, then the pass of
        `SweepLasers` over the lasers; the target loses 10 health per hit and
        nothing else about it changes. */
    method MoveLasers(velocity: int, target: Player, assets: Assets)
      modifies this`lasers, this`coolDownCounter, target`health
      ensures coolDownCounter == NextCoolDown(old(coolDownCounter))
      ensures var s := SweepLasers(old(lasers), velocity, Hitting(target.Body(), assets));
        lasers == s.lasers && target.health == old(target.health) - DAMAGE * s.hits
    {
      CoolDown();
      var hit := Hitting(target.Body(), assets);
      ghost var done: seq<Laser> := [];
      var ls := lasers;
      ghost var rest := ls;
      ghost var hits := 0;
      var i := 0;
      while i < |ls|
        invariant ls == done + rest
        invariant i == |done| || (i == |done| + 1 && rest == [])
        invariant Sweeping(old(lasers), done, rest, hits, velocity, hit)
        invariant target.health == old(target.health) - DAMAGE * hits
        modifies target`health
        decreases |rest|
      {
        DropCurrent(ls, done, rest);
        var m := ls[i].Moved(velocity);
        if m.OffScreen(HEIGHT) || hit(m) {
          SweepDrop(old(lasers), done, rest, hits, velocity, hit);
          if !m.OffScreen(HEIGHT) {
            target.health := target.health - DAMAGE;
            hits := hits + 1;
          }
          ls := ls[..i] + ls[i + 1..];
          if |rest| >= 2 {
            done, rest := done + [rest[1]], rest[2..];
          } else {
            rest := [];
          }
        } else {
          SweepKeep(old(lasers), done, rest, hits, velocity, hit);
          ReplaceCurrent(ls, done, rest, m);
          ls := ls[i := m];
          done, rest := done + [m], rest[1..];
        }
        i := i + 1;
      }
      lasers := ls;
    }
  }

  /** An enemy as a player laser sees it during one pass: the object and its
      body (position and image), which the pass does not change. */
  datatype Target = Target(enemy: Enemy, body: Screen.Body)

  function Targets(es: seq<Enemy>): (ts: seq<Target>)
    reads es
    ensures |ts| == |es|
    ensures forall k :: 0 <= k < |es| ==> ts[k] == Target(es[k], es[k].Body())
  {
    seq(|es|, k requires 0 <= k < |es| reads es => Target(es[k], es[k].Body()))
  }

  function EnemiesOf(ts: seq<Target>): (es: seq<Enemy>)
    ensures |es| == |ts|
    ensures forall k :: 0 <= k < |ts| ==> es[k] == ts[k].enemy
  {
    seq(|ts|, k requires 0 <= k < |ts| => ts[k].enemy)
  }

  /** No enemy object appears twice. */
  predicate DistinctEnemies(ts: seq<Target>)
  {
    forall i, j :: 0 <= i < j < |ts| ==> ts[i].enemy != ts[j].enemy
  }

  /** What a player laser does to the enemies it is tested against (the inner
      loop of `Player.move_lasers`): the enemies left and how many it hit. */
  datatype Strike = Strike(survivors: seq<Target>, hits: nat)

  /** The inner loop `for obj in objs` with `objs.remove(obj)` on a hit. The
      loop does not stop after a hit, and the enemy right after a removed one
      is passed over by the iterator. */
  function StrikeEnemies(m: Laser, ts: seq<Target>, assets: Assets): (r: Strike)
    ensures |r.survivors| + r.hits == |ts|
    ensures r.hits == 0 <==> r.survivors == ts
    decreases |ts|
  {
    if ts == [] then Strike([], 0)
    else if !Collide(m.Body(), ts[0].body, assets) then
      var s := StrikeEnemies(m, ts[1..], assets);
      Strike([ts[0]] + s.survivors, s.hits)
    else if |ts| == 1 then Strike([], 1)
    else
      var s := StrikeEnemies(m, ts[2..], assets);
      Strike([ts[1]] + s.survivors, s.hits + 1)
  }

  /** Prepending an enemy that occurs nowhere in a distinct list keeps it
      distinct. */
  lemma PrependDistinct(t: Target, s: seq<Target>, from: seq<Target>)
    requires DistinctEnemies(s) && multiset(s) <= multiset(from)
    requires forall u :: u in from ==> u.enemy != t.enemy
    ensures DistinctEnemies([t] + s)
  {
    forall k | 0 <= k < |s|
      ensures s[k].enemy != t.enemy
    {
      assert s[k] in multiset(s);
    }
  }

  /** The inner loop only removes enemies: none is added or duplicated. */
  lemma {:induction false} StrikeSubset(m: Laser, ts: seq<Target>, assets: Assets)
    ensures multiset(StrikeEnemies(m, ts, assets).survivors) <= multiset(ts)
  {
    if ts != [] {
      assert ts == [ts[0]] + ts[1..];
      if !Collide(m.Body(), ts[0].body, assets) {
        StrikeSubset(m, ts[1..], assets);
      } else if |ts| >= 2 {
        StrikeSubset(m, ts[2..], assets);
        assert ts == [ts[0], ts[1]] + ts[2..];
      }
    }
  }

  /** So a list without repeated enemies stays without. */
  lemma {:induction false} StrikeOnlyRemoves(m: Laser, ts: seq<Target>, assets: Assets)
    ensures var r := StrikeEnemies(m, ts, assets);
      multiset(r.survivors) <= multiset(ts) &&
      (DistinctEnemies(ts) ==> DistinctEnemies(r.survivors))
  {
    StrikeSubset(m, ts, assets);
    if ts != [] && DistinctEnemies(ts) {
      if !Collide(m.Body(), ts[0].body, assets) {
        StrikeOnlyRemoves(m, ts[1..], assets);
        assert DistinctEnemies(ts[1..]);
        PrependDistinct(ts[0], StrikeEnemies(m, ts[1..], assets).survivors, ts[1..]);
      } else if |ts| >= 2 {
        StrikeOnlyRemoves(m, ts[2..], assets);
        assert DistinctEnemies(ts[2..]);
        PrependDistinct(ts[1], StrikeEnemies(m, ts[2..], assets).survivors, ts[2..]);
      }
    }
  }

  /** Outcome of `Player.move_lasers`: the lasers and enemies left and the
      number of enemies shot down, or the `ValueError` raised when one laser
      hits a second enemy and `self.lasers.remove(laser)` runs again. */
  datatype PlayerPass =
    | Passed(lasers: seq<Laser>, survivors: seq<Target>, kills: nat)
    | LaserRemovedTwice

  /** A pass preceded by lasers already kept and kills already scored. */
  function AfterDone(done: seq<Laser>, kills: nat, r: PlayerPass): PlayerPass
  {
    if r.Passed? then Passed(done + r.lasers, r.survivors, kills + r.kills) else r
  }

  /** The outer loop of `Player.move_lasers` (main.py:177-187): each visited
      laser moves up by `velocity`; off screen it is removed, otherwise it is
      tested against the enemies still in the list. A laser with one hit is
      removed and scores a kill; a laser is never removed twice, or the pass
      fails. The laser after a removed one is passed over. */
  function PlayerLaserSweep(ls: seq<Laser>, ts: seq<Target>, velocity: int, assets: Assets): (r: PlayerPass)
    ensures r.Passed? ==> |r.survivors| + r.kills == |ts| && |r.lasers| + r.kills <= |ls|
    decreases |ls|
  {
    if ls == [] then Passed([], ts, 0)
    else
      var m := ls[0].Moved(-velocity);
      if m.OffScreen(HEIGHT) then
        if |ls| == 1 then Passed([], ts, 0)
        else AfterDone([ls[1]], 0, PlayerLaserSweep(ls[2..], ts, velocity, assets))
      else
        var s := StrikeEnemies(m, ts, assets);
        if s.hits == 0 then AfterDone([m], 0, PlayerLaserSweep(ls[1..], ts, velocity, assets))
        else if s.hits > 1 then LaserRemovedTwice
        else if |ls| == 1 then Passed([], s.survivors, 1)
        else AfterDone([ls[1]], 1, PlayerLaserSweep(ls[2..], s.survivors, velocity, assets))
  }

  /** `Player.move_lasers` only removes enemies and never adds or repeats
      one; with the count of `PlayerLaserSweep`, each enemy removed is one
      kill worth 100 points. */
  lemma {:induction false} PlayerPassOnlyRemoves(ls: seq<Laser>, ts: seq<Target>, velocity: int, assets: Assets)
    ensures var r := PlayerLaserSweep(ls, ts, velocity, assets);
      r.Passed? ==> multiset(r.survivors) <= multiset(ts) && (DistinctEnemies(ts) ==> DistinctEnemies(r.survivors))
  {
    if ls != [] {
      var m := ls[0].Moved(-velocity);
      if |ls| >= 2 {
        PlayerPassOnlyRemoves(ls[2..], ts, velocity, assets);
        PlayerPassOnlyRemoves(ls[1..], ts, velocity, assets);
        if !m.OffScreen(HEIGHT) {
          var s := StrikeEnemies(m, ts, assets);
          StrikeOnlyRemoves(m, ts, assets);
          PlayerPassOnlyRemoves(ls[2..], s.survivors, velocity, assets);
        }
      } else if !m.OffScreen(HEIGHT) {
        StrikeOnlyRemoves(m, ts, assets);
      }
    }
  }

  /** With at most one enemy in the list the pass cannot fail. */
  lemma {:induction false} OneEnemyNeverFails(ls: seq<Laser>, ts: seq<Target>, velocity: int, assets: Assets)
    requires |ts| <= 1
    ensures PlayerLaserSweep(ls, ts, velocity, assets).Passed?
  {
    if |ls| > 1 {
      var m := ls[0].Moved(-velocity);
      var s := StrikeEnemies(m, ts, assets);
      OneEnemyNeverFails(ls[2..], ts, velocity, assets);
      OneEnemyNeverFails(ls[2..], s.survivors, velocity, assets);
      OneEnemyNeverFails(ls[1..], ts, velocity, assets);
    }
  }

  /** An enemy the laser does not touch is never removed by the inner loop:
      every enemy missing afterwards is one the laser collides with. */
  lemma {:induction false} StrikeRemovesOnlyHits(m: Laser, ts: seq<Target>, assets: Assets, t: Target)
    requires t in ts && t !in StrikeEnemies(m, ts, assets).survivors
    ensures Collide(m.Body(), t.body, assets)
  {
    if t != ts[0] {
      if !Collide(m.Body(), ts[0].body, assets) {
        assert t in ts[1..];
        StrikeRemovesOnlyHits(m, ts[1..], assets, t);
      } else if t != ts[1] {
        assert t in ts[2..];
        StrikeRemovesOnlyHits(m, ts[2..], assets, t);
      }
    }
  }

  /** A laser that hits no enemy touches none of them: nothing was removed,
      so nothing was passed over. */
  lemma {:induction false} StrikeMissesAll(m: Laser, ts: seq<Target>, assets: Assets)
    requires StrikeEnemies(m, ts, assets).hits == 0
    ensures forall t :: t in ts ==> !Collide(m.Body(), t.body, assets)
  {
    if ts != [] {
      StrikeMissesAll(m, ts[1..], assets);
      assert forall t :: t in ts ==> t == ts[0] || t in ts[1..];
    }
  }

  /** Every enemy removed by a successful pass of `Player.move_lasers` is
      one that a moved, on-screen player laser collides with. */
  lemma {:induction false} PlayerPassRemovesOnlyHits(ls: seq<Laser>, ts: seq<Target>, velocity: int, assets: Assets, t: Target)
    requires var r := PlayerLaserSweep(ls, ts, velocity, assets); r.Passed? && t in ts && t !in r.survivors
    ensures exists l :: l in ls && !l.Moved(-velocity).OffScreen(HEIGHT) && Collide(l.Moved(-velocity).Body(), t.body, assets)
  {
    var m := ls[0].Moved(-velocity);
    if m.OffScreen(HEIGHT) {
      PlayerPassRemovesOnlyHits(ls[2..], ts, velocity, assets, t);
      var l :| l in ls[2..] && !l.Moved(-velocity).OffScreen(HEIGHT) && Collide(l.Moved(-velocity).Body(), t.body, assets);
      assert l in ls;
    } else {
      var s := StrikeEnemies(m, ts, assets);
      if s.hits == 0 {
        PlayerPassRemovesOnlyHits(ls[1..], ts, velocity, assets, t);
        var l :| l in ls[1..] && !l.Moved(-velocity).OffScreen(HEIGHT) && Collide(l.Moved(-velocity).Body(), t.body, assets);
        assert l in ls;
      } else if t !in s.survivors {
        StrikeRemovesOnlyHits(m, ts, assets, t);
        assert ls[0] in ls;
      } else {
        PlayerPassRemovesOnlyHits(ls[2..], s.survivors, velocity, assets, t);
        var l :| l in ls[2..] && !l.Moved(-velocity).OffScreen(HEIGHT) && Collide(l.Moved(-velocity).Body(), t.body, assets);
        assert l in ls;
      }
    }
  }

  /** Every laser left after a successful pass is one the iterator passed
      over, unchanged, or a laser moved up by `velocity` that is on screen
      and touches none of the enemies left. */
  lemma {:induction false} PlayerPassKeptLasers(ls: seq<Laser>, ts: seq<Target>, velocity: int, assets: Assets, l: Laser)
    requires var r := PlayerLaserSweep(ls, ts, velocity, assets); r.Passed? && l in r.lasers
    ensures var r := PlayerLaserSweep(ls, ts, velocity, assets);
      l in ls ||
      (!l.OffScreen(HEIGHT) && (exists o :: o in ls && l == o.Moved(-velocity)) &&
       forall t :: t in r.survivors ==> !Collide(l.Body(), t.body, assets))
  {
    var r := PlayerLaserSweep(ls, ts, velocity, assets);
    var m := ls[0].Moved(-velocity);
    var s := StrikeEnemies(m, ts, assets);
    if !m.OffScreen(HEIGHT) && s.hits == 0 && l == m {
      assert ls[0] in ls;
      PlayerPassOnlyRemoves(ls[1..], ts, velocity, assets);
      StrikeMissesAll(m, ts, assets);
      forall t | t in r.survivors
        ensures !Collide(l.Body(), t.body, assets)
      {
        assert t in multiset(r.survivors);
      }
    } else if !m.OffScreen(HEIGHT) && s.hits == 0 {
      PlayerPassKeptLasers(ls[1..], ts, velocity, assets, l);
      if l !in ls[1..] {
        var o :| o in ls[1..] && l == o.Moved(-velocity);
        assert o in ls;
      }
    } else if l != ls[1] {
      var ts' := if m.OffScreen(HEIGHT) then ts else s.survivors;
      PlayerPassKeptLasers(ls[2..], ts', velocity, assets, l);
      if l !in ls[2..] {
        var o :| o in ls[2..] && l == o.Moved(-velocity);
        assert o in ls;
      }
    }
  }

  /** The inner loop's bookkeeping: the enemies already passed (`done`)
      followed by the pass over the rest give the pass over all of `ts`. */
  predicate Striking(m: Laser, ts: seq<Target>, done: seq<Target>, rest: seq<Target>, hits: nat, assets: Assets)
  {
    var tail := StrikeEnemies(m, rest, assets);
    StrikeEnemies(m, ts, assets) == Strike(done + tail.survivors, hits + tail.hits)
  }

  /** One iteration of the inner loop keeps its bookkeeping. */
  lemma StrikeStep(m: Laser, ts: seq<Target>, done: seq<Target>, rest: seq<Target>, hits: nat, assets: Assets)
    requires rest != [] && Striking(m, ts, done, rest, hits, assets)
    ensures !Collide(m.Body(), rest[0].body, assets) ==>
      Striking(m, ts, done + [rest[0]], rest[1..], hits, assets)
    ensures Collide(m.Body(), rest[0].body, assets) && |rest| >= 2 ==>
      Striking(m, ts, done + [rest[1]], rest[2..], hits + 1, assets)
    ensures Collide(m.Body(), rest[0].body, assets) && |rest| == 1 ==>
      Striking(m, ts, done, [], hits + 1, assets)
  {
  }

  /** The inner loop of `Player.move_lasers` (main.py:182-187), run on its
      own: it returns the enemies left and the number of hits. */
  method StrikeLoop(m: Laser, ts: seq<Target>, assets: Assets) returns (survivors: seq<Target>, hits: nat)
    ensures Strike(survivors, hits) == StrikeEnemies(m, ts, assets)
  {
    survivors, hits := ts, 0;
    ghost var done: seq<Target> := [];
    ghost var rest := ts;
    var j := 0;
    while j < |survivors|
      invariant survivors == done + rest
      invariant j == |done| || (j == |done| + 1 && rest == [])
      invariant Striking(m, ts, done, rest, hits, assets)
      decreases |rest|
    {
      StrikeStep(m, ts, done, rest, hits, assets);
      DropCurrent(survivors, done, rest);
      if Collide(m.Body(), survivors[j].body, assets) {
        survivors := survivors[..j] + survivors[j + 1..];
        hits := hits + 1;
        if |rest| >= 2 {
          done, rest := done + [rest[1]], rest[2..];
        } else {
          rest := [];
        }
      } else {
        done, rest := done + [rest[0]], rest[1..];
      }
      j := j + 1;
    }
    assert done + [] == done;
  }

  /** The bookkeeping of the outer loop of `Player.move_lasers` over `all`
      against `start`: the lasers kept so far (`done`) and the kills so far
      followed by the pass over the rest against the enemies still listed
      give the pass over all of them. */
  predicate Passing(all: seq<Laser>, start: seq<Target>, done: seq<Laser>, kills: nat,
                    rest: seq<Laser>, ts: seq<Target>, velocity: int, assets: Assets)
  {
    PlayerLaserSweep(all, start, velocity, assets) == AfterDone(done, kills, PlayerLaserSweep(rest, ts, velocity, assets))
  }

  /** One iteration of the outer loop for a laser that leaves the screen:
      it is removed and the laser after it is passed over. */
  lemma PlayerSweepOffScreen(all: seq<Laser>, start: seq<Target>, done: seq<Laser>, kills: nat,
                             rest: seq<Laser>, ts: seq<Target>, velocity: int, assets: Assets)
    requires rest != [] && rest[0].Moved(-velocity).OffScreen(HEIGHT)
    requires Passing(all, start, done, kills, rest, ts, velocity, assets)
    ensures if |rest| >= 2 then Passing(all, start, done + [rest[1]], kills, rest[2..], ts, velocity, assets)
      else Passing(all, start, done, kills, [], ts, velocity, assets)
  {
    if |rest| >= 2 {
      var next := PlayerLaserSweep(rest[2..], ts, velocity, assets);
      if next.Passed? {
        assert done + ([rest[1]] + next.lasers) == (done + [rest[1]]) + next.lasers;
      }
    } else {
      assert done + [] == done;
    }
  }

  /** One iteration of the outer loop for a laser still on screen that hit
      no enemy: it is kept, moved. */
  lemma PlayerSweepMiss(all: seq<Laser>, start: seq<Target>, done: seq<Laser>, kills: nat,
                        rest: seq<Laser>, ts: seq<Target>, velocity: int, assets: Assets)
    requires rest != [] && !rest[0].Moved(-velocity).OffScreen(HEIGHT)
    requires StrikeEnemies(rest[0].Moved(-velocity), ts, assets).hits == 0
    requires Passing(all, start, done, kills, rest, ts, velocity, assets)
    ensures Passing(all, start, done + [rest[0].Moved(-velocity)], kills, rest[1..], ts, velocity, assets)
  {
    var m := rest[0].Moved(-velocity);
    var next := PlayerLaserSweep(rest[1..], ts, velocity, assets);
    if next.Passed? {
      assert done + ([m] + next.lasers) == (done + [m]) + next.lasers;
    }
  }

  /** One iteration of the outer loop for a laser still on screen that hit
      exactly one enemy: the enemy leaves the list, the laser is removed,
      one kill is scored and the laser after it is passed over. */
  lemma PlayerSweepKill(all: seq<Laser>, start: seq<Target>, done: seq<Laser>, kills: nat,
                        rest: seq<Laser>, ts: seq<Target>, velocity: int, assets: Assets)
    requires rest != [] && !rest[0].Moved(-velocity).OffScreen(HEIGHT)
    requires StrikeEnemies(rest[0].Moved(-velocity), ts, assets).hits == 1
    requires Passing(all, start, done, kills, rest, ts, velocity, assets)
    ensures var s := StrikeEnemies(rest[0].Moved(-velocity), ts, assets);
      if |rest| >= 2 then Passing(all, start, done + [rest[1]], kills + 1, rest[2..], s.survivors, velocity, assets)
      else Passing(all, start, done, kills + 1, [], s.survivors, velocity, assets)
  {
    var s := StrikeEnemies(rest[0].Moved(-velocity), ts, assets);
    if |rest| >= 2 {
      var next := PlayerLaserSweep(rest[2..], s.survivors, velocity, assets);
      if next.Passed? {
        assert done + ([rest[1]] + next.lasers) == (done + [rest[1]]) + next.lasers;
      }
    } else {
      assert done + [] == done;
    }
  }

  /** When no laser is left to pass, the bookkeeping is the whole pass. */
  lemma PassingDone(all: seq<Laser>, start: seq<Target>, done: seq<Laser>, kills: nat,
                    ts: seq<Target>, velocity: int, assets: Assets)
    requires Passing(all, start, done, kills, [], ts, velocity, assets)
    ensures PlayerLaserSweep(all, start, velocity, assets) == Passed(done, ts, kills)
  {
    assert done + [] == done;
  }

  /** A laser still on screen that hits a second enemy makes the whole pass
      fail. */
  lemma PassingFails(all: seq<Laser>, start: seq<Target>, done: seq<Laser>, kills: nat,
                     rest: seq<Laser>, ts: seq<Target>, velocity: int, assets: Assets)
    requires rest != [] && !rest[0].Moved(-velocity).OffScreen(HEIGHT)
    requires StrikeEnemies(rest[0].Moved(-velocity), ts, assets).hits > 1
    requires Passing(all, start, done, kills, rest, ts, velocity, assets)
    ensures PlayerLaserSweep(all, start, velocity, assets) == LaserRemovedTwice
  {
  }

  class Player {
    var x: int
    var y: int
    var health: int
    var coolDownCounter: int
    var lasers: seq<Laser>
    var level: int
    var lives: int
    var score: int
    const maxHealth: int

    /** `Player(x, y, health)`: level 0, 5 lives, score 0. */
    constructor (x: int, y: int, health: int)
      ensures this.x == x && this.y == y && this.health == health && maxHealth == health
      ensures coolDownCounter == 0 && lasers == []
      ensures level == 0 && lives == 5 && score == 0
    {
      this.x := x;
      this.y := y;
      this.health := health;
      maxHealth := health;
      coolDownCounter := 0;
      lasers := [];
      level := 0;
      lives := 5;
      score := 0;
    }

    function Body(): Screen.Body
      reads this
    {
      Screen.Body(x, y, PlayerShip)
    }

    function Weapon(): Gun
      reads this
    {
      Gun(lasers, coolDownCounter)
    }

    method CoolDown()
      modifies this`coolDownCounter
      ensures coolDownCounter == NextCoolDown(old(coolDownCounter))
    {
      if coolDownCounter >= COOL_DOWNS {
        coolDownCounter := 0;
      } else if coolDownCounter > 0 {
        coolDownCounter := coolDownCounter + 1;
      }
    }

    /** `Ship.shoot`: the laser starts at the ship's own position. */
    method Shoot()
      modifies this`lasers, this`coolDownCounter
      ensures Weapon() == Fired(old(Weapon()), Laser(x, y, PlayerLaser))
    {
      if coolDownCounter == 0 {
        lasers := lasers + [Laser(x, y, PlayerLaser)];
        coolDownCounter := 1;
      }
    }

    /** `Player.movement`: move as `Steer` says, then fire if space is held. */
    method Movement(keys: Keys, velocity: int, assets: Assets)
      modifies this`x, this`y, this`lasers, this`coolDownCounter
      ensures (x, y) == Steer(old(x), old(y), keys, velocity, assets.width(PlayerShip), assets.height(PlayerShip))
      ensures keys.fire ==> Weapon() == Fired(old(Weapon()), Laser(x, y, PlayerLaser))
      ensures !keys.fire ==> Weapon() == old(Weapon())
    {
      var width, height := assets.width(PlayerShip), assets.height(PlayerShip);
      if keys.left && x - velocity > 0 {
        x := x - velocity;
      }
      if keys.right && x + velocity + width < WIDTH {
        x := x + velocity;
      }
      if keys.up && y - velocity > 0 {
        y := y - velocity;
      }
      if keys.down && y + velocity + height + 30 < HEIGHT {
        y := y + velocity;
      }
      if keys.fire {
        Shoot();
      }
    }

    /** `Player.move_lasers(vel, objs)`: one cooldown step, then the pass of
        `PlayerLaserSweep` over the lasers and the enemy list. On success
        `remaining` is the new enemy list and the score rises by 100 per enemy
        removed; `ok` is false exactly when the source raises. */
    method MoveLasers(velocity: int, enemies: seq<Enemy>, assets: Assets) returns (remaining: seq<Enemy>, ok: bool)
      modifies this`lasers, this`coolDownCounter, this`score
      ensures coolDownCounter == NextCoolDown(old(coolDownCounter))
      ensures var r := PlayerLaserSweep(old(lasers), old(Targets(enemies)), velocity, assets);
        ok == r.Passed? &&
        (ok ==> lasers == r.lasers && remaining == EnemiesOf(r.survivors) && score == old(score) + KILL_SCORE * r.kills)
    {
      CoolDown();
      var targets := Targets(enemies);
      ghost var start := targets;
      var ls := lasers;
      ghost var done: seq<Laser> := [];
      ghost var rest := ls;
      ghost var kills := 0;
      var i := 0;
      while i < |ls|
        invariant ls == done + rest
        invariant i == |done| || (i == |done| + 1 && rest == [])
        invariant Passing(old(lasers), start, done, kills, rest, targets, velocity, assets)
        invariant score == old(score) + KILL_SCORE * kills
        modifies this`score
        decreases |rest|
      {
        DropCurrent(ls, done, rest);
        var m := ls[i].Moved(-velocity);
        if m.OffScreen(HEIGHT) {
          PlayerSweepOffScreen(old(lasers), start, done, kills, rest, targets, velocity, assets);
          ls := ls[..i] + ls[i + 1..];
          if |rest| >= 2 {
            done, rest := done + [rest[1]], rest[2..];
          } else {
            rest := [];
          }
        } else {
          var survivors, hits := StrikeLoop(m, targets, assets);
          if hits > 1 {
            PassingFails(old(lasers), start, done, kills, rest, targets, velocity, assets);
            remaining, ok := EnemiesOf(survivors), false;
            return;
          }
          if hits == 1 {
            PlayerSweepKill(old(lasers), start, done, kills, rest, targets, velocity, assets);
            targets := survivors;
            ls := ls[..i] + ls[i + 1..];
            score := score + KILL_SCORE;
            kills := kills + 1;
            if |rest| >= 2 {
              done, rest := done + [rest[1]], rest[2..];
            } else {
              rest := [];
            }
          } else {
            PlayerSweepMiss(old(lasers), start, done, kills, rest, targets, velocity, assets);
            ReplaceCurrent(ls, done, rest, m);
            ls := ls[i := m];
            done, rest := done + [m], rest[1..];
          }
        }
        i := i + 1;
      }
      PassingDone(old(lasers), start, done, kills, targets, velocity, assets);
      lasers := ls;
      remaining, ok := EnemiesOf(targets), true;
    }
  }
}
