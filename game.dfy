/** The frame loop of `main()` (main.py:304-358): one call of `Game.Step` is
    one pass through the body of its `while` loop, with the loop's local
    variables kept as fields of a `Game` object. */
module Game {
  import opened Screen
  import opened Lasers
  import opened Ships

  const FPS: int := 60
  /** Frames the game-over screen stays up before the loop ends (`FPS * 3`). */
  const GRACE_FRAMES: int := FPS * 3
  const ENEMIES_VELOCITY: int := 1
  const PLAYER_VELOCITY: int := 5
  const LASER_VELOCITY: int := 4
  /** Growth of the wave size at every refill (`wave_length += 5`). */
  const WAVE_STEP: int := 5
  /** An enemy fires when `random.randrange(0, 2 * 60)` draws 1. */
  const FIRE_ODDS: int := 2 * 60

  // ---------------------------------------------------------------------
  // End of run

  /** The loop variables that drive the end of a run, and the stored best
      score (the file `data/best_score.txt` reduced to its number). */
  datatype RunState = RunState(lost: bool, lostCount: int, playerRecords: bool, best: int)

  /** What the rest of the frame does: the normal update, nothing (`continue`
      during the game-over screen), or the normal update on the frame after
      which the loop ends. */
  datatype Phase = Playing | Frozen | LastFrame

  datatype EndCheck = EndCheck(run: RunState, phase: Phase)

  /** The run is lost exactly when the grace period has started. */
  predicate ValidRun(s: RunState)
  {
    0 <= s.lostCount && (s.lost <==> s.lostCount > 0)
  }

  /** main.py:308-326. Once the player has no lives or no health, the first
      such frame compares the score with the best score and stores it if it is
      higher; every such frame counts towards the grace period. */
  function EndOfRun(s: RunState, score: int, lives: int, health: int): (r: EndCheck)
    ensures s.lost ==> r.run.lost
    ensures ValidRun(s) ==> ValidRun(r.run) && (r.run.lost <==> s.lost || lives <= 0 || health <= 0)
    ensures r.phase == Frozen <==> r.run.lost && r.run.lostCount <= GRACE_FRAMES
    ensures r.phase == LastFrame <==> r.run.lost && r.run.lostCount > GRACE_FRAMES
    ensures r.run.best != s.best ==> (lives <= 0 || health <= 0) && s.lostCount == 0 && score > s.best && r.run.best == score
    ensures (lives <= 0 || health <= 0) && s.lostCount == 0 && score > s.best ==>
      r.run.best == score && r.run.playerRecords
    ensures r.run.playerRecords != s.playerRecords ==>
      (lives <= 0 || health <= 0) && s.lostCount == 0 && score > s.best && r.run.playerRecords
  {
    var dead := lives <= 0 || health <= 0;
    var record := dead && s.lostCount == 0 && score > s.best;
    var lost := s.lost || (dead && s.lostCount == 0);
    var run := RunState(
      lost,
      if dead then s.lostCount + 1 else s.lostCount,
      s.playerRecords || record,
      if record then score else s.best);
    var phase := if !run.lost then Playing else if run.lostCount > GRACE_FRAMES then LastFrame else Frozen;
    EndCheck(run, phase)
  }

  /** The run state after `n` frames in which score, lives and health stay
      as they are (as they do while the game-over screen is up). */
  function RunAfter(s: RunState, n: nat, score: int, lives: int, health: int): RunState
  {
    if n == 0 then s else EndOfRun(RunAfter(s, n - 1, score, lives, health), score, lives, health).run
  }

  /** From the first frame in which the player is out of lives or health, the
      game-over screen freezes the next 180 frames' updates, counting the
      first; on the 181st frame the update runs once more and the loop ends.
      The best score is written once, on the first frame, if beaten. */
  lemma {:induction false} GracePeriod(s: RunState, n: nat, score: int, lives: int, health: int)
    requires lives <= 0 || health <= 0
    requires !s.lost && s.lostCount == 0
    requires n <= GRACE_FRAMES
    ensures var before := RunAfter(s, n, score, lives, health);
      before.lostCount == n &&
      (n > 0 ==> before.lost && before.best == (if score > s.best then score else s.best))
    ensures var check := EndOfRun(RunAfter(s, n, score, lives, health), score, lives, health);
      check.phase == (if n < GRACE_FRAMES then Frozen else LastFrame)
  {
    if n > 0 {
      GracePeriod(s, n - 1, score, lives, health);
    }
  }

  // ---------------------------------------------------------------------
  // Waves

  /** One draw of `Enemy(random.randrange(50, WIDTH - 100),
      random.randrange(-1500, -100), random.choice(...))`. */
  datatype Spawn = Spawn(x: int, y: int, color: Color)

  predicate ValidSpawn(s: Spawn)
  {
    50 <= s.x < WIDTH - 100 && -1500 <= s.y < -100
  }

  /** The player's level and the wave size. */
  datatype Wave = Wave(level: int, length: int)

  /** A refill: one level up, five more enemies. */
  function NextWave(w: Wave): (r: Wave)
    ensures r.level == w.level + 1 && r.length == w.length + WAVE_STEP
  {
    Wave(w.level + 1, w.length + WAVE_STEP)
  }

  function Waves(w: Wave, n: nat): Wave
  {
    if n == 0 then w else NextWave(Waves(w, n - 1))
  }

  /** From the start of a run (level 0, wave size 5), the n-th refill
      leaves level n and spawns 5 + 5n enemies. */
  lemma {:induction false} WavesFromStart(n: nat)
    ensures Waves(Wave(0, 5), n) == Wave(n, 5 + WAVE_STEP * n)
  {
    if n > 0 {
      WavesFromStart(n - 1);
    }
  }

  // ---------------------------------------------------------------------
  // Enemies' frame

  /** What happens to an enemy at the end of its frame (main.py:349-356):
      it rams the player, or else leaves through the bottom, or else stays.
      Never both. */
  datatype Fate = Rammed | Escaped | Stays

  function FateOf(b: Screen.Body, player: Screen.Body, assets: Assets): (r: Fate)
    ensures r == Rammed <==> Collide(b, player, assets)
    ensures r == Escaped <==> !Collide(b, player, assets) && b.y + assets.height(b.sprite) > HEIGHT
    ensures r == Stays <==> !Collide(b, player, assets) && b.y + assets.height(b.sprite) <= HEIGHT
  {
    if Collide(b, player, assets) then Rammed
    else if b.y + assets.height(b.sprite) > HEIGHT then Escaped
    else Stays
  }

  function Count(fs: seq<Fate>, f: Fate): nat
  {
    if fs == [] then 0 else Count(fs[..|fs| - 1], f) + (if fs[|fs| - 1] == f then 1 else 0)
  }

  /** The elements of `xs` whose fate is to stay, in order. */
  function Kept<T>(xs: seq<T>, fs: seq<Fate>): seq<T>
    requires |xs| == |fs|
  {
    if xs == [] then []
    else Kept(xs[..|xs| - 1], fs[..|fs| - 1]) + (if fs[|fs| - 1] == Stays then [xs[|xs| - 1]] else [])
  }

  /** Every enemy meets exactly one fate: the enemies kept, rammed and
      escaped add up to the enemies there were. */
  lemma {:induction false} FatesPartition<T>(xs: seq<T>, fs: seq<Fate>)
    requires |xs| == |fs|
    ensures |Kept(xs, fs)| + Count(fs, Rammed) + Count(fs, Escaped) == |xs|
  {
    if xs != [] {
      FatesPartition(xs[..|xs| - 1], fs[..|fs| - 1]);
    }
  }

  /** The elements at `i` and `j` differ. */
  predicate Apart<T(==)>(xs: seq<T>, i: int, j: int)
    requires 0 <= i < |xs| && 0 <= j < |xs|
  {
    xs[i] != xs[j]
  }

  /** No element occurs twice (stated through `Apart`, so that the
      quantifier only fires where a proof asks about a pair). */
  predicate Distinct<T(==)>(xs: seq<T>)
  {
    forall i, j :: 0 <= i < j < |xs| ==> Apart(xs, i, j)
  }

  lemma DistinctAt<T>(xs: seq<T>, i: int, j: int)
    requires Distinct(xs) && 0 <= i < |xs| && 0 <= j < |xs| && i != j
    ensures xs[i] != xs[j]
  {
    if i < j {
      assert Apart(xs, i, j);
    } else {
      assert Apart(xs, j, i);
    }
  }

  /** Appending an element that is not yet there keeps the elements apart. */
  lemma DistinctAppend<T>(xs: seq<T>, x: T)
    requires Distinct(xs) && x !in xs
    ensures Distinct(xs + [x])
  {
    var ys := xs + [x];
    forall i, j | 0 <= i < j < |ys|
      ensures Apart(ys, i, j)
    {
      if j < |xs| {
        assert Apart(xs, i, j);
      } else {
        assert ys[i] == xs[i];
      }
    }
  }

  /** Keeping only removes: every kept element was there, and no element is
      repeated when none was. */
  lemma {:induction false} KeptOnlyRemoves<T>(xs: seq<T>, fs: seq<Fate>)
    requires |xs| == |fs|
    ensures forall x :: x in Kept(xs, fs) ==> x in xs
    ensures Distinct(xs) ==> Distinct(Kept(xs, fs))
  {
    if xs != [] {
      var n := |xs| - 1;
      KeptOnlyRemoves(xs[..n], fs[..n]);
      var front := Kept(xs[..n], fs[..n]);
      forall x | x in Kept(xs, fs)
        ensures x in xs
      {
        if x in front {
          assert x in xs[..n];
        }
      }
      if Distinct(xs) {
        var kept := Kept(xs, fs);
        forall i, j | 0 <= i < j < n
          ensures Apart(xs[..n], i, j)
        {
          DistinctAt(xs, i, j);
        }
        assert kept == front + (if fs[n] == Stays then [xs[n]] else []);
        forall i, j | 0 <= i < j < |kept|
          ensures Apart(kept, i, j)
        {
          if j < |front| {
            assert Apart(front, i, j);
          } else {
            assert kept[i] in xs[..n];
            var m :| 0 <= m < n && xs[m] == kept[i];
            DistinctAt(xs, m, n);
          }
        }
      }
    }
  }

  /** `list.remove(x)`: the first element equal to `x` goes. */
  function RemoveFirst<T(==)>(xs: seq<T>, x: T): seq<T>
  {
    if xs == [] then []
    else if xs[0] == x then xs[1..]
    else [xs[0]] + RemoveFirst(xs[1..], x)
  }

  lemma {:induction false} RemoveFirstAfter<T>(front: seq<T>, x: T, back: seq<T>)
    requires x !in front
    ensures RemoveFirst(front + [x] + back, x) == front + back
  {
    if front != [] {
      var xs := front + [x] + back;
      RemoveFirstAfter(front[1..], x, back);
      assert xs[0] == front[0] && xs[0] != x;
      assert xs[1..] == front[1..] + [x] + back;
      assert front + back == [front[0]] + (front[1..] + back);
    }
  }

  /** One enemy's turn in the list kept by the enemies' loop: the list
      before the turn, less that enemy when its fate is not to stay, is the
      list after it. */
  lemma KeptStep<T>(snap: seq<T>, k: nat, fates: seq<Fate>, f: Fate)
    requires k < |snap| && |fates| == k && Distinct(snap)
    ensures var list := Kept(snap[..k], fates) + snap[k..];
      Kept(snap[..k + 1], fates + [f]) + snap[k + 1..] ==
      (if f == Stays then list else RemoveFirst(list, snap[k]))
  {
    var front := Kept(snap[..k], fates);
    assert snap[..k + 1] == snap[..k] + [snap[k]];
    KeptSnoc(snap[..k], fates, snap[k], f);
    assert snap[k..] == [snap[k]] + snap[k + 1..];
    assert front + snap[k..] == front + [snap[k]] + snap[k + 1..];
    if f != Stays {
      KeptDrop(snap, k, fates);
    }
  }

  /** Removing the current element of that list leaves the ones kept so far
      followed by the ones not yet visited. */
  lemma KeptDrop<T>(snap: seq<T>, k: nat, fates: seq<Fate>)
    requires k < |snap| && |fates| == k && Distinct(snap)
    ensures var front := Kept(snap[..k], fates);
      RemoveFirst(front + [snap[k]] + snap[k + 1..], snap[k]) == front + snap[k + 1..]
  {
    NotEarlier(snap, k);
    KeptOnlyRemoves(snap[..k], fates);
    RemoveFirstAfter(Kept(snap[..k], fates), snap[k], snap[k + 1..]);
  }

  /** `Kept` unfolds at the end of the list. */
  lemma KeptSnoc<T>(xs: seq<T>, fs: seq<Fate>, x: T, f: Fate)
    requires |xs| == |fs|
    ensures Kept(xs + [x], fs + [f]) == Kept(xs, fs) + (if f == Stays then [x] else [])
  {
    assert (xs + [x])[..|xs|] == xs && (fs + [f])[..|fs|] == fs;
  }

  /** In a list without repeats, no element occurs before its own place. */
  lemma NotEarlier<T>(xs: seq<T>, k: nat)
    requires Distinct(xs) && k < |xs|
    ensures xs[k] !in xs[..k]
  {
    forall m | 0 <= m < k
      ensures xs[..k][m] != xs[k]
    {
      DistinctAt(xs, m, k);
    }
  }

  /** The player's fields a frame changes, as a value. */
  datatype PlayerState = PlayerState(x: int, y: int, health: int, lives: int, score: int, gun: Gun)

  function PlayerStateOf(p: Player): PlayerState
    reads p
  {
    PlayerState(p.x, p.y, p.health, p.lives, p.score, p.Weapon())
  }

  /** The part of an enemy's state its frame changes or reads, as a value. */
  datatype EnemyState = EnemyState(x: int, y: int, color: Color, health: int, gun: Gun)

  function StateOf(e: Enemy): EnemyState
    reads e
  {
    EnemyState(e.x, e.y, e.color, e.health, Gun(e.lasers, e.coolDownCounter))
  }

  function States(es: seq<Enemy>): (ss: seq<EnemyState>)
    reads es
    ensures |ss| == |es| && forall k :: 0 <= k < |es| ==> ss[k] == StateOf(es[k])
  {
    seq(|es|, k requires 0 <= k < |es| reads es => StateOf(es[k]))
  }

  /** A new enemy drawn as `s` (main.py:333): full health, no lasers, ready. */
  function Spawned(s: Spawn): EnemyState
  {
    EnemyState(s.x, s.y, s.color, 100, Gun([], 0))
  }

  function BodyOf(s: EnemyState): Screen.Body
  {
    Screen.Body(s.x, s.y, EnemyShip(s.color))
  }

  /** An enemy after its turn (main.py:343-347): one step down, the pass
      over its lasers against the player with one cooldown step, then a shot
      from its new position if the draw was 1. */
  function Turned(s: EnemyState, roll: int, target: Screen.Body, assets: Assets): (r: EnemyState)
    ensures r.x == s.x && r.y == s.y + ENEMIES_VELOCITY && r.color == s.color && r.health == s.health
  {
    var y := s.y + ENEMIES_VELOCITY;
    var g1 := Gun(SweepLasers(s.gun.lasers, LASER_VELOCITY, Hitting(target, assets)).lasers, NextCoolDown(s.gun.coolDownCounter));
    var g2 := if roll == 1 then Fired(g1, Laser(s.x - LaserOffset(s.color), y, EnemyLaser(s.color))) else g1;
    EnemyState(s.x, y, s.color, s.health, g2)
  }

  /** An enemy whose gun is ready fires on a draw of 1, from its new height
      and 25 pixels left of its x for a blue ship, 15 for the others; on any
      other draw its gun stays ready and holds only the lasers the pass kept. */
  lemma TurnedShot(s: EnemyState, roll: int, target: Screen.Body, assets: Assets)
    requires s.gun.coolDownCounter == 0
    ensures var r := Turned(s, roll, target, assets);
      var kept := SweepLasers(s.gun.lasers, LASER_VELOCITY, Hitting(target, assets)).lasers;
      (roll == 1 ==> r.gun == Gun(kept + [Laser(if s.color == Blue then s.x - 25 else s.x - 15, s.y + ENEMIES_VELOCITY, EnemyLaser(s.color))], 1)) &&
      (roll != 1 ==> r.gun == Gun(kept, 0))
  {
  }

  /** Damage the enemies' lasers deal to the target in one frame, in hits. */
  function LaserHits(ss: seq<EnemyState>, target: Screen.Body, assets: Assets): nat
  {
    if ss == [] then 0
    else
      LaserHits(ss[..|ss| - 1], target, assets) +
      SweepLasers(ss[|ss| - 1].gun.lasers, LASER_VELOCITY, Hitting(target, assets)).hits
  }

  function Fates(ss: seq<EnemyState>, player: Screen.Body, assets: Assets): (fs: seq<Fate>)
    ensures |fs| == |ss| && forall k :: 0 <= k < |ss| ==> fs[k] == FateOf(BodyOf(ss[k]), player, assets)
  {
    seq(|ss|, k requires 0 <= k < |ss| => FateOf(BodyOf(ss[k]), player, assets))
  }

  /** The value-level bookkeeping of the enemies' loop after `k` turns:
      the first `k` enemies have taken their turn, the rest have not, and
      `fates` records the first `k` fates. */
  predicate TurnsTaken(start: seq<EnemyState>, states: seq<EnemyState>, fates: seq<Fate>, k: nat,
                       rolls: nat -> int, target: Screen.Body, assets: Assets)
  {
    k <= |start| == |states| && |fates| == k &&
    (forall j :: 0 <= j < k ==> states[j] == Turned(start[j], rolls(j), target, assets)) &&
    (forall j :: k <= j < |states| ==> states[j] == start[j]) &&
    fates == Fates(states[..k], target, assets)
  }

  /** One more turn keeps the bookkeeping, and adds that enemy's laser hits
      and fate to the running totals. */
  lemma TurnStep(start: seq<EnemyState>, states: seq<EnemyState>, fates: seq<Fate>, k: nat,
                 rolls: nat -> int, target: Screen.Body, assets: Assets, s: EnemyState)
    requires TurnsTaken(start, states, fates, k, rolls, target, assets) && k < |start|
    requires s == Turned(start[k], rolls(k), target, assets)
    ensures var fate := FateOf(BodyOf(s), target, assets);
      TurnsTaken(start, states[k := s], fates + [fate], k + 1, rolls, target, assets) &&
      LaserHits(start[..k + 1], target, assets) ==
        LaserHits(start[..k], target, assets) + SweepLasers(start[k].gun.lasers, LASER_VELOCITY, Hitting(target, assets)).hits &&
      Count(fates + [fate], Rammed) == Count(fates, Rammed) + (if fate == Rammed then 1 else 0) &&
      Count(fates + [fate], Escaped) == Count(fates, Escaped) + (if fate == Escaped then 1 else 0)
  {
    var fate := FateOf(BodyOf(s), target, assets);
    var states' := states[k := s];
    assert states'[..k + 1] == states[..k] + [s];
    assert start[..k + 1][..k] == start[..k];
    assert (fates + [fate])[..k] == fates;
  }

  /** The value part of the enemies' loop after `k` turns over `snap`: the
      bookkeeping of `TurnsTaken`, the list left so far, and the player's
      health and lives, from `health0` and `lives0`. */
  predicate Tally(snap: seq<Enemy>, k: nat, rolls: nat -> int, assets: Assets,
                     start: seq<EnemyState>, target: Screen.Body, health0: int, lives0: int,
                     states: seq<EnemyState>, fates: seq<Fate>, list: seq<Enemy>, health: int, lives: int)
  {
    k <= |snap| && TurnsTaken(start, states, fates, k, rolls, target, assets) &&
    list == Kept(snap[..k], fates) + snap[k..] &&
    health == health0 - DAMAGE * (LaserHits(start[..k], target, assets) + Count(fates, Rammed)) &&
    lives == lives0 - Count(fates, Escaped)
  }

  /** The turn of the `k`-th enemy moves the tally on by one: its laser hits
      and a ram cost health, an escape costs a life, and a rammed or escaped
      enemy leaves the list. */
  lemma TallyStep(snap: seq<Enemy>, k: nat, rolls: nat -> int, assets: Assets,
                     start: seq<EnemyState>, target: Screen.Body, health0: int, lives0: int,
                     states: seq<EnemyState>, fates: seq<Fate>, list: seq<Enemy>, health: int, lives: int,
                     s: EnemyState, fate: Fate)
    requires Distinct(snap) && k < |snap| == |start|
    requires Tally(snap, k, rolls, assets, start, target, health0, lives0, states, fates, list, health, lives)
    requires s == Turned(start[k], rolls(k), target, assets) && fate == FateOf(BodyOf(s), target, assets)
    ensures Tally(snap, k + 1, rolls, assets, start, target, health0, lives0, states[k := s], fates + [fate],
                  if fate == Stays then list else RemoveFirst(list, snap[k]),
                  health - DAMAGE * (SweepLasers(start[k].gun.lasers, LASER_VELOCITY, Hitting(target, assets)).hits +
                    (if fate == Rammed then 1 else 0)),
                  lives - (if fate == Escaped then 1 else 0))
  {
    TurnStep(start, states, fates, k, rolls, target, assets, s);
    KeptStep(snap, k, fates, fate);
  }

  /** Once every enemy of `snap` has had its turn, the bookkeeping says what
      the whole pass did, and the list left over has no repeated enemy. */
  lemma TurnsDone<T>(snap: seq<T>, list: seq<T>, start: seq<EnemyState>, states: seq<EnemyState>, fates: seq<Fate>,
                     rolls: nat -> int, target: Screen.Body, assets: Assets)
    requires |snap| == |start| && Distinct(snap)
    requires TurnsTaken(start, states, fates, |start|, rolls, target, assets)
    requires list == Kept(snap[..|snap|], fates) + snap[|snap|..]
    ensures forall j :: 0 <= j < |states| ==> states[j] == Turned(start[j], rolls(j), target, assets)
    ensures fates == Fates(states, target, assets)
    ensures list == Kept(snap, fates) && Distinct(list)
    ensures LaserHits(start[..|start|], target, assets) == LaserHits(start, target, assets)
  {
    assert states[..|start|] == states;
    assert snap[..|snap|] == snap && snap[|snap|..] == [] && start[..|start|] == start;
    KeptOnlyRemoves(snap, fates);
  }

  /** The enemies of a list of targets are apart exactly when no enemy
      object appears twice in it. */
  lemma DistinctTargets(ts: seq<Target>)
    ensures DistinctEnemies(ts) <==> Distinct(EnemiesOf(ts))
  {
    var es := EnemiesOf(ts);
    if DistinctEnemies(ts) {
      forall i, j | 0 <= i < j < |es|
        ensures Apart(es, i, j)
      {
      }
    }
    if Distinct(es) {
      forall i, j | 0 <= i < j < |ts|
        ensures ts[i].enemy != ts[j].enemy
      {
        assert Apart(es, i, j);
      }
    }
  }

  /** A list of targets taken out of another holds only enemies of it. */
  lemma SurvivorsFrom(survivors: seq<Target>, ts: seq<Target>)
    requires multiset(survivors) <= multiset(ts)
    ensures forall e :: e in EnemiesOf(survivors) ==> e in EnemiesOf(ts)
  {
    forall e | e in EnemiesOf(survivors)
      ensures e in EnemiesOf(ts)
    {
      var k :| 0 <= k < |survivors| && EnemiesOf(survivors)[k] == e;
      assert survivors[k] in multiset(ts);
      var m :| 0 <= m < |ts| && ts[m] == survivors[k];
      assert EnemiesOf(ts)[m] == e;
    }
  }

  /** How the loop ends: still running, ended normally after the game-over
      screen, or stopped by the `ValueError` of `Player.move_lasers`. */
  datatype Outcome = Continue | Finished | Crashed

  class Game {
    const player: Player
    var enemies: seq<Enemy>
    var waveLength: int
    var lost: bool
    var lostCount: int
    var playerRecords: bool
    var best: int

    /** Every enemy object is in the list at most once. */
    ghost predicate Valid()
      reads this
    {
      Distinct(enemies) && 0 <= waveLength
    }

    function Run(): RunState
      reads this
    {
      RunState(lost, lostCount, playerRecords, best)
    }

    /** The start of `main()`, with `best` the stored best score. */
    constructor (best: int)
      ensures Valid() && fresh(player)
      ensures player.x == 325 && player.y == 625 && player.health == 100 && player.maxHealth == 100
      ensures player.lives == 5 && player.score == 0 && player.level == 0
      ensures player.lasers == [] && player.coolDownCounter == 0
      ensures enemies == [] && waveLength == 5
      ensures Run() == RunState(false, 0, false, best)
    {
      player := new Player(325, 625, 100);
      enemies := [];
      waveLength := 5;
      lost := false;
      lostCount := 0;
      playerRecords := false;
      this.best := best;
    }

    /** main.py:308-326: the end-of-run bookkeeping at the top of a frame. */
    method CheckEndOfRun() returns (phase: Phase)
      modifies this`lost, this`lostCount, this`playerRecords, this`best
      ensures EndCheck(Run(), phase) == EndOfRun(old(Run()), player.score, player.lives, player.health)
      ensures enemies == old(enemies) && waveLength == old(waveLength) && unchanged(player)
      ensures States(enemies) == old(States(enemies)) && forall e :: e in enemies ==> unchanged(e)
    {
      if player.lives <= 0 || player.health <= 0 {
        if lostCount == 0 {
          if player.score > best {
            playerRecords := true;
            best := player.score;
          }
          lost := true;
        }
        lostCount := lostCount + 1;
      }
      if lost {
        if lostCount > GRACE_FRAMES {
          phase := LastFrame;
        } else {
          phase := Frozen;
        }
      } else {
        phase := Playing;
      }
    }

    /** main.py:328-334: when no enemy is left, level up, grow the wave and
        append that many new enemies drawn from `spawns`. */
    method RefillWave(spawns: nat -> Spawn)
      requires Valid()
      requires forall i: nat :: ValidSpawn(spawns(i))
      modifies this`enemies, this`waveLength, player`level
      ensures Valid() && Run() == old(Run())
      ensures old(enemies) != [] ==>
        enemies == old(enemies) && waveLength == old(waveLength) && player.level == old(player.level)
      ensures old(enemies) == [] ==>
        Wave(player.level, waveLength) == NextWave(Wave(old(player.level), old(waveLength))) &&
        |enemies| == waveLength &&
        forall k :: 0 <= k < |enemies| ==>
          fresh(enemies[k]) &&
          Spawn(enemies[k].x, enemies[k].y, enemies[k].color) == spawns(k) &&
          ValidSpawn(Spawn(enemies[k].x, enemies[k].y, enemies[k].color)) &&
          enemies[k].health == 100 && enemies[k].Weapon() == Gun([], 0)
      ensures old(enemies) == [] ==> forall k :: 0 <= k < |enemies| ==> StateOf(enemies[k]) == Spawned(spawns(k))
      ensures old(enemies) != [] ==> States(enemies) == old(States(enemies))
    {
      if enemies == [] {
        player.level := player.level + 1;
        waveLength := waveLength + WAVE_STEP;
        var i := 0;
        while i < waveLength
          invariant 0 <= i <= waveLength && |enemies| == i
          invariant Distinct(enemies)
          invariant forall k :: 0 <= k < i ==>
            fresh(enemies[k]) &&
            Spawn(enemies[k].x, enemies[k].y, enemies[k].color) == spawns(k) &&
            enemies[k].health == 100 && enemies[k].Weapon() == Gun([], 0)
          modifies this`enemies
        {
          var s := spawns(i);
          var enemy := new Enemy(s.x, s.y, s.color);
          DistinctAppend(enemies, enemy);
          enemies := enemies + [enemy];
          i := i + 1;
        }
      }
    }

    /** main.py:343-347: one enemy's move, laser pass against the player
        and shot on a draw of 1. */
    method EnemyTurn(enemy: Enemy, roll: int, assets: Assets)
      modifies enemy`y, enemy`lasers, enemy`coolDownCounter, player`health
      ensures StateOf(enemy) == Turned(old(StateOf(enemy)), roll, player.Body(), assets)
      ensures player.health == old(player.health) -
        DAMAGE * SweepLasers(old(enemy.lasers), LASER_VELOCITY, Hitting(player.Body(), assets)).hits
    {
      enemy.Movement(ENEMIES_VELOCITY);
      enemy.MoveLasers(LASER_VELOCITY, player, assets);
      if roll == 1 {
        enemy.Shoot();
      }
    }

    /** main.py:343-356: one enemy's turn, then its removal from the list if
        it rams the player (10 damage) or else if it has left through the
        bottom (one life lost). */
    method VisitEnemy(enemy: Enemy, roll: int, assets: Assets, ghost others: seq<Enemy>) returns (ghost fate: Fate)
      modifies enemy`y, enemy`lasers, enemy`coolDownCounter, player`health, player`lives, this`enemies
      ensures player.level == old(player.level) && player.score == old(player.score) && player.Body() == old(player.Body())
      ensures Run() == old(Run()) && player.Weapon() == old(player.Weapon())
      ensures forall j :: 0 <= j < |others| && others[j] != enemy ==> StateOf(others[j]) == old(StateOf(others[j]))
      ensures StateOf(enemy) == Turned(old(StateOf(enemy)), roll, player.Body(), assets)
      ensures fate == FateOf(BodyOf(StateOf(enemy)), player.Body(), assets)
      ensures enemies == if fate == Stays then old(enemies) else RemoveFirst(old(enemies), enemy)
      ensures player.health == old(player.health) - DAMAGE *
        (SweepLasers(old(enemy.lasers), LASER_VELOCITY, Hitting(player.Body(), assets)).hits + (if fate == Rammed then 1 else 0))
      ensures player.lives == old(player.lives) - (if fate == Escaped then 1 else 0)
    {
      EnemyTurn(enemy, roll, assets);
      fate := FateOf(enemy.Body(), player.Body(), assets);
      if Collide(enemy.Body(), player.Body(), assets) {
        player.health := player.health - DAMAGE;
        enemies := RemoveFirst(enemies, enemy);
      } else if enemy.y + assets.height(enemy.Body().sprite) > HEIGHT {
        player.lives := player.lives - 1;
        enemies := RemoveFirst(enemies, enemy);
      }
    }

    /** The enemies' loop after `k` turns over the snapshot `snap`, taken
        when the player had health `health0` and `lives0` lives. */
    ghost predicate Progress(snap: seq<Enemy>, k: int, rolls: nat -> int, assets: Assets,
                             start: seq<EnemyState>, target: Screen.Body, health0: int, lives0: int,
                             states: seq<EnemyState>, fates: seq<Fate>)
      reads this, player, snap
    {
      0 <= k <= |snap| == |states| && Distinct(snap) && player.Body() == target &&
      (forall j {:trigger states[j]} :: 0 <= j < |snap| ==> StateOf(snap[j]) == states[j]) &&
      Tally(snap, k, rolls, assets, start, target, health0, lives0, states, fates, enemies, player.health, player.lives)
    }

    /** One pass of the loop body of main.py:342-356: the `k`-th enemy of
        the snapshot takes its turn, and the bookkeeping moves on by one. */
    method TakeTurn(snap: seq<Enemy>, k: int, rolls: nat -> int, assets: Assets,
                    ghost start: seq<EnemyState>, ghost target: Screen.Body, ghost health0: int, ghost lives0: int,
                    ghost states: seq<EnemyState>, ghost fates: seq<Fate>)
      returns (ghost states': seq<EnemyState>, ghost fates': seq<Fate>)
      requires k < |snap| && Progress(snap, k, rolls, assets, start, target, health0, lives0, states, fates)
      modifies this`enemies, player`health, player`lives, {snap[k]}`y, {snap[k]}`lasers, {snap[k]}`coolDownCounter
      ensures Progress(snap, k + 1, rolls, assets, start, target, health0, lives0, states', fates')
      ensures player.level == old(player.level) && player.score == old(player.score) && Run() == old(Run())
      ensures player.Weapon() == old(player.Weapon())
    {
      var enemy := snap[k];
      ghost var list, health, lives := enemies, player.health, player.lives;
      ghost var fate := VisitEnemy(enemy, rolls(k), assets, snap);
      TallyStep(snap, k, rolls, assets, start, target, health0, lives0, states, fates,
                list, health, lives, StateOf(enemy), fate);
      states' := states[k := StateOf(enemy)];
      fates' := fates + [fate];
      forall j | 0 <= j < |snap|
        ensures StateOf(snap[j]) == states'[j]
      {
        if j != k {
          DistinctAt(snap, j, k);
        }
      }
    }

    /** The loop of main.py:342-356 over a snapshot `snap` of the enemy list:
        every enemy takes its turn in order, and the list loses those that
        ram the player or escape. */
    method TakeTurns(snap: seq<Enemy>, rolls: nat -> int, assets: Assets,
                     ghost start: seq<EnemyState>, ghost target: Screen.Body)
      returns (ghost states: seq<EnemyState>, ghost fates: seq<Fate>)
      requires enemies == snap && Distinct(snap)
      requires start == States(snap) && player.Body() == target
      modifies this`enemies, player`health, player`lives, snap`y, snap`lasers, snap`coolDownCounter
      ensures player.Body() == target && player.Weapon() == old(player.Weapon()) && Run() == old(Run())
      ensures player.level == old(player.level) && player.score == old(player.score)
      ensures |states| == |snap| && forall j {:trigger states[j]} :: 0 <= j < |snap| ==> StateOf(snap[j]) == states[j]
      ensures forall j :: 0 <= j < |states| ==> states[j] == Turned(start[j], rolls(j), target, assets)
      ensures fates == Fates(states, target, assets)
      ensures enemies == Kept(snap, fates) && Distinct(enemies)
      ensures player.health == old(player.health) - DAMAGE * (LaserHits(start, target, assets) + Count(fates, Rammed))
      ensures player.lives == old(player.lives) - Count(fates, Escaped)
    {
      states := start;
      fates := [];
      var k := 0;
      assert states[..0] == [];
      while k < |snap|
        invariant Progress(snap, k, rolls, assets, start, target, old(player.health), old(player.lives), states, fates)
        invariant player.level == old(player.level) && player.score == old(player.score) && Run() == old(Run())
        invariant player.Weapon() == old(player.Weapon())
        modifies this`enemies, player`health, player`lives, snap`y, snap`lasers, snap`coolDownCounter
      {
        states, fates := TakeTurn(snap, k, rolls, assets, start, target, old(player.health), old(player.lives), states, fates);
        k := k + 1;
      }
      TurnsDone(snap, enemies, start, states, fates, rolls, target, assets);
    }

    /** main.py:342-356: every enemy of a snapshot of the list, in order,
        takes its turn and is removed if it rams the player or escapes. */
    method AdvanceEnemies(rolls: nat -> int, assets: Assets)
      requires Valid()
      requires forall i: nat :: 0 <= rolls(i) < FIRE_ODDS
      modifies this`enemies, player`health, player`lives, enemies`y, enemies`lasers, enemies`coolDownCounter
      ensures Valid() && waveLength == old(waveLength)
      ensures player.level == old(player.level) && player.score == old(player.score)
      ensures player.Weapon() == old(player.Weapon()) && player.Body() == old(player.Body()) && Run() == old(Run())
      ensures player.lives <= old(player.lives) && player.health <= old(player.health)
      ensures var after := States(old(enemies));
        var fates := Fates(after, player.Body(), assets);
        (forall k :: 0 <= k < |after| ==> after[k] == Turned(old(States(enemies))[k], rolls(k), player.Body(), assets)) &&
        enemies == Kept(old(enemies), fates) &&
        player.health == old(player.health) -
          DAMAGE * (LaserHits(old(States(enemies)), player.Body(), assets) + Count(fates, Rammed)) &&
        player.lives == old(player.lives) - Count(fates, Escaped)
    {
      var snap := enemies;
      ghost var start := States(snap);
      ghost var states, fates := TakeTurns(snap, rolls, assets, start, player.Body());
      assert States(snap) == states;
      assert Fates(States(snap), player.Body(), assets) == fates;
    }

    /** main.py:358: the player's lasers pass over the enemy list. When the
        pass does not raise, the list left holds only enemies that were
        there, none twice, and the score has risen by 100 per enemy
        removed. */
    method FireLasers(assets: Assets, ghost wave: seq<Enemy>) returns (ok: bool)
      requires Valid()
      modifies this`enemies, player`lasers, player`coolDownCounter, player`score
      ensures waveLength == old(waveLength) && player.level == old(player.level)
      ensures player.lives == old(player.lives) && player.health == old(player.health) && player.Body() == old(player.Body())
      ensures States(wave) == old(States(wave)) && Targets(old(enemies)) == old(Targets(enemies))
      ensures Run() == old(Run())
      ensures player.coolDownCounter == NextCoolDown(old(player.coolDownCounter))
      ensures var r := PlayerLaserSweep(old(player.lasers), old(Targets(enemies)), LASER_VELOCITY, assets);
        ok == r.Passed? &&
        (ok ==> enemies == EnemiesOf(r.survivors) && player.lasers == r.lasers && player.score == old(player.score) + KILL_SCORE * r.kills)
      ensures ok ==> (Valid() && (forall e :: e in enemies ==> e in old(enemies)) &&
        player.score == old(player.score) + KILL_SCORE * (|old(enemies)| - |enemies|))
    {
      ghost var targets := Targets(enemies);
      ghost var lasers := player.lasers;
      var remaining;
      remaining, ok := player.MoveLasers(LASER_VELOCITY, enemies, assets);
      if ok {
        ghost var r := PlayerLaserSweep(lasers, targets, LASER_VELOCITY, assets);
        PlayerPassOnlyRemoves(lasers, targets, LASER_VELOCITY, assets);
        assert EnemiesOf(targets) == enemies;
        DistinctTargets(targets);
        DistinctTargets(r.survivors);
        SurvivorsFrom(r.survivors, targets);
        enemies := remaining;
      }
    }

    /** main.py:340: the player's move, which leaves the enemies alone. */
    method MovePlayer(keys: Keys, assets: Assets, ghost wave: seq<Enemy>)
      modifies player`x, player`y, player`lasers, player`coolDownCounter
      ensures (player.x, player.y) == Steer(old(player.x), old(player.y), keys, PLAYER_VELOCITY,
                                            assets.width(PlayerShip), assets.height(PlayerShip))
      ensures player.Weapon() == Aimed(old(player.Weapon()), keys, player.x, player.y)
      ensures player.score == old(player.score) && player.lives == old(player.lives) && player.health == old(player.health)
      ensures player.level == old(player.level) && States(wave) == old(States(wave)) && Run() == old(Run())
    {
      player.Movement(keys, PLAYER_VELOCITY, assets);
    }

    /** main.py:342-358: the enemies' loop over the list `wave`, whose
        enemies have the states `start`, then the player's laser pass over
        the list it leaves (`advanced`). */
    method Resolve(rolls: nat -> int, assets: Assets, ghost wave: seq<Enemy>, ghost start: seq<EnemyState>)
      returns (ok: bool, ghost advanced: seq<Enemy>)
      requires Valid() && enemies == wave && States(wave) == start
      requires forall i: nat :: 0 <= rolls(i) < FIRE_ODDS
      modifies this`enemies, player`health, player`lives, player`lasers, player`coolDownCounter, player`score
      modifies wave`y, wave`lasers, wave`coolDownCounter
      ensures waveLength == old(waveLength) && player.level == old(player.level) && player.Body() == old(player.Body())
      ensures Run() == old(Run())
      ensures var target := player.Body();
        var fates := Fates(States(wave), target, assets);
        |start| == |wave| &&
        (forall k :: 0 <= k < |wave| ==> StateOf(wave[k]) == Turned(start[k], rolls(k), target, assets)) &&
        advanced == Kept(wave, fates) &&
        player.health == old(player.health) - DAMAGE * (LaserHits(start, target, assets) + Count(fates, Rammed)) &&
        player.lives == old(player.lives) - Count(fates, Escaped)
      ensures var r := PlayerLaserSweep(old(player.lasers), Targets(advanced), LASER_VELOCITY, assets);
        player.coolDownCounter == NextCoolDown(old(player.coolDownCounter)) &&
        ok == r.Passed? &&
        (ok ==> enemies == EnemiesOf(r.survivors) && player.lasers == r.lasers && player.score == old(player.score) + KILL_SCORE * r.kills)
      ensures ok ==> (Valid() && (forall e :: e in enemies ==> e in advanced) &&
        player.score == old(player.score) + KILL_SCORE * (|advanced| - |enemies|))
      ensures player.lives <= old(player.lives) && player.health <= old(player.health)
    {
      AdvanceEnemies(rolls, assets);
      advanced := enemies;
      ok := FireLasers(assets, wave);
    }

    /** What a played frame (main.py:328-358) leaves, given the player's
        fields `p0` and the enemy list `enemies0` before it: `wave` is the
        list after the refill, `start` the states its enemies had then, and
        `advanced` the list after the enemies' loop. The player moved as
        `Steer` says; every enemy of the wave took its turn; the list kept
        those that neither rammed nor escaped; health and lives fell by the
        laser hits, rams and escapes; then the player's lasers made their
        pass over `advanced`, which raised exactly when `ok` is false. */
    ghost predicate Played(p0: PlayerState, enemies0: seq<Enemy>, keys: Keys, spawns: nat -> Spawn,
                           rolls: nat -> int, assets: Assets,
                           wave: seq<Enemy>, start: seq<EnemyState>, advanced: seq<Enemy>, ok: bool)
      reads this, player, wave, advanced
    {
      var target := player.Body();
      var fates := Fates(States(wave), target, assets);
      var fired := Aimed(p0.gun, keys, player.x, player.y);
      var r := PlayerLaserSweep(fired.lasers, Targets(advanced), LASER_VELOCITY, assets);
      |start| == |wave| &&
      (enemies0 != [] ==> wave == enemies0) &&
      (enemies0 == [] ==> forall k :: 0 <= k < |wave| ==> start[k] == Spawned(spawns(k))) &&
      (player.x, player.y) == Steer(p0.x, p0.y, keys, PLAYER_VELOCITY, assets.width(PlayerShip), assets.height(PlayerShip)) &&
      (forall k :: 0 <= k < |wave| ==> StateOf(wave[k]) == Turned(start[k], rolls(k), target, assets)) &&
      advanced == Kept(wave, fates) &&
      player.health == p0.health - DAMAGE * (LaserHits(start, target, assets) + Count(fates, Rammed)) &&
      player.lives == p0.lives - Count(fates, Escaped) &&
      player.coolDownCounter == NextCoolDown(fired.coolDownCounter) &&
      ok == r.Passed? &&
      (ok ==> enemies == EnemiesOf(r.survivors) && player.lasers == r.lasers && player.score == p0.score + KILL_SCORE * r.kills)
    }

    /** main.py:328-358: the part of a frame played once the end-of-run
        check lets it through: refill, the player's move, the enemies' turns
        and the player's lasers. */
    method Play(keys: Keys, spawns: nat -> Spawn, rolls: nat -> int, assets: Assets)
      returns (ok: bool, ghost wave: seq<Enemy>, ghost start: seq<EnemyState>, ghost advanced: seq<Enemy>)
      requires Valid()
      requires forall i: nat :: ValidSpawn(spawns(i))
      requires forall i: nat :: 0 <= rolls(i) < FIRE_ODDS
      modifies this`enemies, this`waveLength, player, enemies
      ensures Run() == old(Run())
      ensures Played(old(PlayerStateOf(player)), old(enemies), keys, spawns, rolls, assets, wave, start, advanced, ok)
      ensures old(enemies) != [] ==> start == old(States(enemies))
      ensures old(enemies) == [] ==> |wave| == waveLength && forall k :: 0 <= k < |wave| ==> fresh(wave[k])
      ensures ok ==> (Valid() && (forall e :: e in enemies ==> e in advanced) &&
        player.score == old(player.score) + KILL_SCORE * (|advanced| - |enemies|))
      ensures old(enemies) != [] ==> waveLength == old(waveLength) && player.level == old(player.level)
      ensures old(enemies) == [] ==> Wave(player.level, waveLength) == NextWave(Wave(old(player.level), old(waveLength)))
      ensures player.lives <= old(player.lives) && player.health <= old(player.health)
    {
      ghost var p0 := PlayerStateOf(player);
      RefillWave(spawns);
      wave := enemies;
      start := States(enemies);
      ghost var level, length := player.level, waveLength;
      assert player.score == p0.score && player.lives == p0.lives && player.health == p0.health;
      assert player.Weapon() == p0.gun && player.x == p0.x && player.y == p0.y;
      MovePlayer(keys, assets, wave);
      assert player.level == level && waveLength == length;
      ok, advanced := Resolve(rolls, assets, wave, start);
      assert player.level == level && waveLength == length;
    }

    /** One pass of the loop of main.py:304-358. The end-of-run check comes
        first; while the game-over screen is held the pass stops there.
        Otherwise the frame is played (`Play`): it either raises (`Crashed`)
        or goes on; on the frame after the game-over screen it is played out
        and the loop ends (`Finished`). */
    method Step(keys: Keys, spawns: nat -> Spawn, rolls: nat -> int, assets: Assets)
      returns (outcome: Outcome, ghost wave: seq<Enemy>, ghost start: seq<EnemyState>, ghost advanced: seq<Enemy>)
      requires Valid()
      requires forall i: nat :: ValidSpawn(spawns(i))
      requires forall i: nat :: 0 <= rolls(i) < FIRE_ODDS
      modifies this, player, enemies
      ensures var check := EndOfRun(old(Run()), old(player.score), old(player.lives), old(player.health));
        Run() == check.run &&
        (check.phase == Frozen ==>
          outcome == Continue && enemies == old(enemies) && waveLength == old(waveLength) && unchanged(player) &&
          forall e :: e in old(enemies) ==> unchanged(e)) &&
        (check.phase != Frozen && outcome != Crashed ==>
          outcome == (if check.phase == LastFrame then Finished else Continue))
      ensures outcome != Crashed ==> (Valid() && (forall e :: e in enemies ==> e in advanced) &&
        player.score == old(player.score) + KILL_SCORE * (|advanced| - |enemies|))
      ensures old(enemies) != [] ==> waveLength == old(waveLength) && player.level == old(player.level)
      ensures (EndOfRun(old(Run()), old(player.score), old(player.lives), old(player.health)).phase != Frozen &&
        old(enemies) == []) ==> Wave(player.level, waveLength) == NextWave(Wave(old(player.level), old(waveLength)))
      ensures EndOfRun(old(Run()), old(player.score), old(player.lives), old(player.health)).phase != Frozen ==>
        Played(old(PlayerStateOf(player)), old(enemies), keys, spawns, rolls, assets, wave, start, advanced, outcome != Crashed) &&
        (old(enemies) != [] ==> start == old(States(enemies))) &&
        (old(enemies) == [] ==> |wave| == waveLength && forall k :: 0 <= k < |wave| ==> fresh(wave[k]))
      ensures player.lives <= old(player.lives) && player.health <= old(player.health)
    {
      advanced, wave, start := enemies, enemies, States(enemies);
      var phase := CheckEndOfRun();
      if phase == Frozen {
        outcome := Continue;
        return;
      }
      var ok;
      ok, wave, start, advanced := Play(keys, spawns, rolls, assets);
      outcome := if !ok then Crashed else if phase == LastFrame then Finished else Continue;
    }
  }
}
