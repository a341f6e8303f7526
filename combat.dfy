/**
 * Mobs, the boss and the player's projectile as values, with the rules that
 * resolve a projectile step and a melee sweep against them.
 */
module Combat {
  import opened Wrappers
  import opened Geometry
  import opened Characters
  import opened Sums

  const BallSpeed := 10
  const BallSize := 10
  const BallDamage := 10
  const BossHealth := 200
  /** A kill is worth between 0 and this many points. */
  const MaxKillPoints := 10

  /** A mob's position and health; its stamina and attack power play no part in the rules. */
  datatype Mob = Mob(rect: Rect, health: int)

  datatype Boss = Boss(rect: Rect, health: int, hitOnce: bool, colour: Colour)

  datatype Ball = Ball(rect: Rect, direction: Direction)

  function NewMob(x: int, y: int, health: int): (m: Mob)
    ensures m.rect.CenterX() == x && m.rect.CenterY() == y && m.health == health
  {
    Mob(CenteredRect(x, y, CharacterSize, CharacterSize), health)
  }

  function NewBoss(x: int, y: int): (b: Boss)
    ensures b.rect.CenterX() == x && b.rect.CenterY() == y
    ensures b.health == BossHealth && !b.hitOnce && b.colour == Purple
  {
    Boss(CenteredRect(x, y, CharacterSize, CharacterSize), BossHealth, false, Purple)
  }

  /** A shot starts at the shooter's centre and flies the way the shooter faces. */
  function NewBall(shooter: Rect, facing: Direction): (b: Ball)
    ensures b.rect.CenterX() == shooter.CenterX() && b.rect.CenterY() == shooter.CenterY()
    ensures b.rect.width == BallSize && b.rect.height == BallSize && b.direction == facing
  {
    Ball(CenteredRect(shooter.CenterX(), shooter.CenterY(), BallSize, BallSize), facing)
  }

  /** A ball moves exactly `BallSpeed` along its own direction and nowhere else. */
  function BallMoved(b: Ball): (m: Ball)
    ensures m.direction == b.direction
    ensures m.rect.width == b.rect.width && m.rect.height == b.rect.height
    ensures b.direction == Left ==> m.rect.left == b.rect.left - BallSpeed && m.rect.top == b.rect.top
    ensures b.direction == Right ==> m.rect.left == b.rect.left + BallSpeed && m.rect.top == b.rect.top
    ensures b.direction == Up ==> m.rect.top == b.rect.top - BallSpeed && m.rect.left == b.rect.left
    ensures b.direction == Down ==> m.rect.top == b.rect.top + BallSpeed && m.rect.left == b.rect.left
  {
    match b.direction
    case Left => b.(rect := b.rect.WithLeft(b.rect.left - BallSpeed))
    case Right => b.(rect := b.rect.WithLeft(b.rect.left + BallSpeed))
    case Up => b.(rect := b.rect.WithTop(b.rect.top - BallSpeed))
    case Down => b.(rect := b.rect.WithTop(b.rect.top + BallSpeed))
  }

  /**
   * A ball at `ball` meets one mob: a mob it touches loses `BallDamage`
   * health and is gone (None) exactly when its health is then at most 0;
   * a mob it misses is untouched.
   */
  function HitMob(ball: Rect, m: Mob): (r: Option<Mob>)
    ensures !Overlaps(ball, m.rect) ==> r == Some(m)
    ensures Overlaps(ball, m.rect) ==> (r.None? <==> m.health - BallDamage <= 0)
    ensures Overlaps(ball, m.rect) && r.Some? ==> r.value == Mob(m.rect, m.health - BallDamage)
  {
    if !Overlaps(ball, m.rect) then Some(m)
    else if m.health - BallDamage <= 0 then None
    else Some(m.(health := m.health - BallDamage))
  }

  /** What a ball leaves of the mobs: the survivors in order, the points gained, and whether it hit any. */
  datatype Volley = Volley(survivors: seq<Mob>, gained: int, hit: bool)

  /**
   * The ball meets every mob in turn; a kill of the i-th mob gains
   * `gains[i]` points. No mob is added, non-negative draws gain
   * non-negative points, and a ball that touches a mob counts as a hit.
   */
  function MobsHit(ball: Rect, mobs: seq<Mob>, gains: seq<int>): (v: Volley)
    requires |gains| == |mobs|
    ensures |v.survivors| <= |mobs|
    ensures (exists i :: 0 <= i < |mobs| && Overlaps(ball, mobs[i].rect)) ==> v.hit
    ensures (forall i :: 0 <= i < |gains| ==> gains[i] >= 0) ==> v.gained >= 0
    decreases |mobs|
  {
    if |mobs| == 0 then Volley([], 0, false)
    else
      var n := |mobs| - 1;
      var v := MobsHit(ball, mobs[..n], gains[..n]);
      var touched := v.hit || Overlaps(ball, mobs[n].rect);
      match HitMob(ball, mobs[n])
      case Some(m) => Volley(v.survivors + [m], v.gained, touched)
      case None => Volley(v.survivors, v.gained + gains[n], touched)
  }

  /** The number of mobs the ball touches whose health it takes to 0 or below. */
  function Kills(ball: Rect, mobs: seq<Mob>): nat
    decreases |mobs|
  {
    if |mobs| == 0 then 0
    else
      var m := mobs[|mobs| - 1];
      Kills(ball, mobs[..|mobs| - 1]) + (if Overlaps(ball, m.rect) && m.health - BallDamage <= 0 then 1 else 0)
  }

  /**
   * A ball step against the mobs removes as many mobs as it kills, gains
   * between 0 and `MaxKillPoints` per kill, counts as a hit exactly when it
   * touches some mob, and changes nothing when it touches none.
   */
  lemma {:induction false} MobsHitAccounting(ball: Rect, mobs: seq<Mob>, gains: seq<int>)
    requires |gains| == |mobs|
    requires forall i :: 0 <= i < |gains| ==> 0 <= gains[i] <= MaxKillPoints
    ensures |MobsHit(ball, mobs, gains).survivors| == |mobs| - Kills(ball, mobs)
    ensures 0 <= MobsHit(ball, mobs, gains).gained <= MaxKillPoints * Kills(ball, mobs)
    ensures MobsHit(ball, mobs, gains).hit <==> exists i :: 0 <= i < |mobs| && Overlaps(ball, mobs[i].rect)
    ensures !MobsHit(ball, mobs, gains).hit ==> MobsHit(ball, mobs, gains) == Volley(mobs, 0, false)
    decreases |mobs|
  {
    if |mobs| > 0 {
      var n := |mobs| - 1;
      MobsHitAccounting(ball, mobs[..n], gains[..n]);
      assert mobs[..n] + [mobs[n]] == mobs;
      if Overlaps(ball, mobs[n].rect) {
        assert MobsHit(ball, mobs, gains).hit;
      }
      if MobsHit(ball, mobs, gains).hit && !Overlaps(ball, mobs[n].rect) {
        var i :| 0 <= i < n && Overlaps(ball, mobs[..n][i].rect);
        assert mobs[i] == mobs[..n][i];
      }
    }
  }

  /**
   * The survivors of a ball step are exactly what `HitMob` leaves of each
   * mob: every mob the ball misses, and every touched mob that keeps health
   * above 0, with its health 10 lower; nothing else.
   */
  lemma {:induction false} MobsHitSurvivors(ball: Rect, mobs: seq<Mob>, gains: seq<int>)
    requires |gains| == |mobs|
    ensures forall i :: 0 <= i < |mobs| && HitMob(ball, mobs[i]).Some? ==>
      HitMob(ball, mobs[i]).value in MobsHit(ball, mobs, gains).survivors
    ensures forall m :: m in MobsHit(ball, mobs, gains).survivors ==>
      exists i :: 0 <= i < |mobs| && HitMob(ball, mobs[i]) == Some(m)
    decreases |mobs|
  {
    if |mobs| > 0 {
      var n := |mobs| - 1;
      MobsHitSurvivors(ball, mobs[..n], gains[..n]);
      var v := MobsHit(ball, mobs[..n], gains[..n]);
      var survivors := MobsHit(ball, mobs, gains).survivors;
      assert v.survivors <= survivors;
      forall i | 0 <= i < |mobs| && HitMob(ball, mobs[i]).Some?
        ensures HitMob(ball, mobs[i]).value in survivors
      {
        if i < n {
          assert mobs[..n][i] == mobs[i];
        }
      }
      forall m | m in survivors
        ensures exists i :: 0 <= i < |mobs| && HitMob(ball, mobs[i]) == Some(m)
      {
        if m in v.survivors {
          var i :| 0 <= i < n && HitMob(ball, mobs[..n][i]) == Some(m);
          assert mobs[..n][i] == mobs[i];
        } else {
          assert HitMob(ball, mobs[n]) == Some(m);
        }
      }
    }
  }

  /** How often `m` survives a ball step over `mobs`, computed from the mobs alone. */
  function SurvivorCount(ball: Rect, mobs: seq<Mob>, m: Mob): nat
  {
    if Overlaps(ball, m.rect) then
      (if m.health > 0 then multiset(mobs)[m.(health := m.health + BallDamage)] else 0)
    else multiset(mobs)[m]
  }

  /** A mob that survives the ball adds one survivor, counted as `SurvivorCount` expects. */
  lemma SurvivorCountKept(ball: Rect, done: seq<Mob>, kept: seq<Mob>, x: Mob, k: Mob, m: Mob)
    requires HitMob(ball, x) == Some(k)
    requires multiset(kept)[m] == SurvivorCount(ball, done, m)
    ensures multiset(kept + [k])[m] == SurvivorCount(ball, done + [x], m)
  {
  }

  /** A mob the ball kills adds no survivor, as `SurvivorCount` expects. */
  lemma SurvivorCountKilled(ball: Rect, done: seq<Mob>, kept: seq<Mob>, x: Mob, m: Mob)
    requires HitMob(ball, x).None?
    requires multiset(kept)[m] == SurvivorCount(ball, done, m)
    ensures multiset(kept)[m] == SurvivorCount(ball, done + [x], m)
  {
  }

  lemma {:induction false} SurvivorCountOf(ball: Rect, mobs: seq<Mob>, gains: seq<int>, m: Mob)
    requires |gains| == |mobs|
    ensures multiset(MobsHit(ball, mobs, gains).survivors)[m] == SurvivorCount(ball, mobs, m)
    decreases |mobs|
  {
    if |mobs| > 0 {
      var n := |mobs| - 1;
      SurvivorCountOf(ball, mobs[..n], gains[..n], m);
      var prev := MobsHit(ball, mobs[..n], gains[..n]).survivors;
      assert mobs[..n] + [mobs[n]] == mobs;
      match HitMob(ball, mobs[n])
      case Some(k) =>
        SurvivorCountKept(ball, mobs[..n], prev, mobs[n], k, m);
      case None =>
        SurvivorCountKilled(ball, mobs[..n], prev, mobs[n], m);
    }
  }

  /**
   * The survivors of a ball step, counted with multiplicity: a mob the ball
   * misses survives exactly as often as it occurred, and a touched survivor
   * with health `h` > 0 occurs exactly as often as the mob with health
   * `h + 10` at its place did.
   */
  lemma MobsHitSurvivorCounts(ball: Rect, mobs: seq<Mob>, gains: seq<int>)
    requires |gains| == |mobs|
    ensures forall m ::
      (multiset(MobsHit(ball, mobs, gains).survivors)[m] ==
       if Overlaps(ball, m.rect) then
         (if m.health > 0 then multiset(mobs)[m.(health := m.health + BallDamage)] else 0)
       else multiset(mobs)[m])
  {
    forall m {
      SurvivorCountOf(ball, mobs, gains, m);
    }
  }

  /** What a ball does to the boss, and whether it touched it. */
  datatype BossOutcome = BossOutcome(boss: Option<Boss>, hit: bool)

  /**
   * A ball that touches the boss wounds it the first time (it turns yellow
   * and stays) and removes it the second time; a ball that misses, or when
   * there is no boss, changes nothing.
   */
  function BossHit(ball: Rect, boss: Option<Boss>): (o: BossOutcome)
    ensures o.hit <==> boss.Some? && Overlaps(ball, boss.value.rect)
    ensures !o.hit ==> o.boss == boss
    ensures o.hit && !boss.value.hitOnce ==> o.boss == Some(boss.value.(hitOnce := true, colour := Yellow))
    ensures o.hit && boss.value.hitOnce ==> o.boss == None
  {
    if boss.Some? && Overlaps(ball, boss.value.rect) then
      if !boss.value.hitOnce then BossOutcome(Some(boss.value.(hitOnce := true, colour := Yellow)), true)
      else BossOutcome(None, true)
    else BossOutcome(boss, false)
  }

  /** The boss after `k` balls at `ball`. */
  function BossAfterHits(ball: Rect, boss: Option<Boss>, k: nat): Option<Boss>
  {
    if k == 0 then boss else BossHit(ball, BossAfterHits(ball, boss, k - 1)).boss
  }

  /** An unwounded boss that is hit keeps standing after one hit and is gone from the second on. */
  lemma {:induction false} BossFallsOnSecondHit(ball: Rect, boss: Boss, k: nat)
    requires !boss.hitOnce && Overlaps(ball, boss.rect)
    ensures BossAfterHits(ball, Some(boss), k).None? <==> k >= 2
    ensures k == 1 ==> BossAfterHits(ball, Some(boss), k) == Some(boss.(hitOnce := true, colour := Yellow))
  {
    if k >= 2 {
      BossFallsOnSecondHit(ball, boss, k - 1);
    }
  }

  /** What a melee sweep leaves: the mobs not touched, the points gained and the number removed. */
  datatype Sweep = Sweep(survivors: seq<Mob>, gained: int, killed: nat)

  /**
   * The melee sweep removes every mob the player touches, whatever its
   * health; the i-th kill gains `gains[i]`. Every mob is either kept or
   * counted as removed, and no kept mob is touched.
   */
  function MeleeSweep(player: Rect, mobs: seq<Mob>, gains: seq<int>): (s: Sweep)
    requires |gains| == |mobs|
    ensures s.killed + |s.survivors| == |mobs|
    ensures forall i :: 0 <= i < |s.survivors| ==> !Overlaps(player, s.survivors[i].rect)
    ensures (forall i :: 0 <= i < |mobs| ==> !Overlaps(player, mobs[i].rect)) ==> s == Sweep(mobs, 0, 0)
    decreases |mobs|
  {
    if |mobs| == 0 then Sweep([], 0, 0)
    else
      var n := |mobs| - 1;
      var s := MeleeSweep(player, mobs[..n], gains[..n]);
      if Overlaps(player, mobs[n].rect) then Sweep(s.survivors, s.gained + gains[n], s.killed + 1)
      else Sweep(s.survivors + [mobs[n]], s.gained, s.killed)
  }

  /**
   * A melee sweep keeps only mobs the player does not touch and gains
   * between 0 and `MaxKillPoints` for each one removed.
   */
  lemma {:induction false} MeleeSweepAccounting(player: Rect, mobs: seq<Mob>, gains: seq<int>)
    requires |gains| == |mobs|
    requires forall i :: 0 <= i < |gains| ==> 0 <= gains[i] <= MaxKillPoints
    ensures MeleeSweep(player, mobs, gains).killed == |mobs| - |MeleeSweep(player, mobs, gains).survivors|
    ensures 0 <= MeleeSweep(player, mobs, gains).gained <= MaxKillPoints * MeleeSweep(player, mobs, gains).killed
    ensures forall m :: m in MeleeSweep(player, mobs, gains).survivors <==> m in mobs && !Overlaps(player, m.rect)
    decreases |mobs|
  {
    if |mobs| > 0 {
      var n := |mobs| - 1;
      MeleeSweepAccounting(player, mobs[..n], gains[..n]);
      assert mobs[..n] + [mobs[n]] == mobs;
    }
  }

  /**
   * The melee sweep keeps every untouched mob exactly as often as it
   * occurred and no touched mob at all.
   */
  lemma {:induction false} MeleeSweepSurvivors(player: Rect, mobs: seq<Mob>, gains: seq<int>)
    requires |gains| == |mobs|
    ensures forall m ::
      (multiset(MeleeSweep(player, mobs, gains).survivors)[m] ==
       if Overlaps(player, m.rect) then 0 else multiset(mobs)[m])
    decreases |mobs|
  {
    if |mobs| > 0 {
      var n := |mobs| - 1;
      MeleeSweepSurvivors(player, mobs[..n], gains[..n]);
      assert mobs[..n] + [mobs[n]] == mobs;
      assert multiset(mobs) == multiset(mobs[..n]) + multiset{mobs[n]};
    }
  }

  /** When the player touches every mob, the melee sweep removes them all and gains the sum of the rolls. */
  lemma {:induction false} MeleeSweepAllTouched(player: Rect, mobs: seq<Mob>, gains: seq<int>)
    requires |gains| == |mobs|
    requires forall i :: 0 <= i < |mobs| ==> Overlaps(player, mobs[i].rect)
    ensures MeleeSweep(player, mobs, gains) == Sweep([], Sum(gains), |mobs|)
    decreases |mobs|
  {
    if |mobs| > 0 {
      var n := |mobs| - 1;
      assert forall i :: 0 <= i < n ==> mobs[..n][i] == mobs[i];
      MeleeSweepAllTouched(player, mobs[..n], gains[..n]);
    }
  }
}
