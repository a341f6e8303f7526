/**
 * The game state the frame loop owns — the player, the NPC, the mobs, the
 * obstacles, the boss and the story/running flags — and the operations that
 * change it: the player's update, the projectile step, the SPACE-key
 * action, the level-up, the boss spawn and the win/lose flag effects.
 */
module GameState {
  import opened Wrappers
  import opened Geometry
  import opened Characters
  import opened Danger
  import opened Combat
  import opened Sums

  const QuestText := "Kill all mobs and a boss will appear!"
  const LevelUpPoints := 50
  const MaxSpeed := 5
  const FollowersPerLevelUp := 2

  /** The quest flag after a talk with the NPC and the story text the talk yields. */
  datatype QuestOutcome = QuestOutcome(completed: bool, text: string)

  /**
   * Talking to the NPC: the first talk marks the quest as given and yields
   * the quest text; every later talk yields the empty text and leaves the
   * flag as it is.
   */
  function QuestTalk(completed: bool): (o: QuestOutcome)
    ensures o.completed
    ensures o.text != "" <==> !completed
    ensures !completed ==> o.text == QuestText
    ensures completed ==> o == QuestOutcome(completed, "")
  {
    if !completed then QuestOutcome(true, QuestText) else QuestOutcome(true, "")
  }

  /**
   * The one-time level-up is due once the points reach the threshold: never
   * again after it has happened, never below 50 points, and always at 50
   * points or more before it has happened.
   */
  predicate LevelUpDue(points: int, levelUp: bool): (r: bool)
    ensures levelUp ==> !r
    ensures points < LevelUpPoints ==> !r
    ensures !levelUp && points >= LevelUpPoints ==> r
  {
    points >= LevelUpPoints && !levelUp
  }

  /**
   * The boss appears by itself once no mob, no boss and no story text is
   * left on screen: never while a mob is left, never beside a boss, never
   * while the story is shown, and always otherwise, whether or not the
   * quest was given.
   */
  predicate BossSpawnDue(mobsLeft: nat, bossPresent: bool, storyDisplayed: bool): (r: bool)
    ensures mobsLeft > 0 ==> !r
    ensures bossPresent ==> !r
    ensures storyDisplayed ==> !r
    ensures mobsLeft == 0 && !bossPresent && !storyDisplayed ==> r
  {
    mobsLeft == 0 && !bossPresent && !storyDisplayed
  }

  /**
   * Some mob overlaps `r`. A rectangle touches a mob exactly when it
   * overlaps a member of the group; with no mob, or a rectangle with a zero
   * side, nothing is touched.
   */
  predicate TouchesAnyMob(r: Rect, mobs: seq<Mob>): (b: bool)
    ensures b <==> exists m :: m in mobs && Overlaps(r, m.rect)
    ensures mobs == [] ==> !b
    ensures r.width <= 0 || r.height <= 0 ==> !b
  {
    exists i :: 0 <= i < |mobs| && Overlaps(r, mobs[i].rect)
  }

  class Game {
    const player: Character
    var questCompleted: bool
    var points: int
    var levelUp: bool
    var followers: seq<Character>
    var speed: int
    var inRedCircle: bool
    var redCircleTimer: int

    const npc: Rect
    var npcVisible: bool
    var mobs: seq<Mob>
    const obstacles: seq<Rect>
    var boss: Option<Boss>
    var storyDisplayed: bool
    var storyText: string
    var running: bool

    /**
     * The starting state: the player in the middle of the screen, the NPC at
     * (100, 100), the given mobs and obstacles, no boss, no story, running.
     */
    constructor (initialMobs: seq<Mob>, obstacles: seq<Rect>)
      ensures fresh(player)
      ensures player.rect == CenteredRect(ScreenWidth / 2, ScreenHeight / 2, CharacterSize, CharacterSize)
      ensures player.health == 100 && player.maxHealth == 100
      ensures player.stamina == 50 && player.maxStamina == 50 && player.attackPower == 10
      ensures player.colour == Green && player.direction == Right && player.weapon == None
      ensures !questCompleted && points == 0 && !levelUp && followers == [] && speed == MaxSpeed
      ensures !inRedCircle && redCircleTimer == 0
      ensures npc == CenteredRect(100, 100, CharacterSize, CharacterSize) && npcVisible
      ensures mobs == initialMobs && this.obstacles == obstacles
      ensures boss == None && !storyDisplayed && storyText == "" && running
    {
      player := new Character("Player", ScreenWidth / 2, ScreenHeight / 2, Green, 100, 50, 10);
      questCompleted := false;
      points := 0;
      levelUp := false;
      followers := [];
      speed := MaxSpeed;
      inRedCircle := false;
      redCircleTimer := 0;
      npc := CenteredRect(100, 100, CharacterSize, CharacterSize);
      npcVisible := true;
      mobs := initialMobs;
      this.obstacles := obstacles;
      boss := None;
      storyDisplayed := false;
      storyText := "";
      running := true;
    }

    /** The lose screen's flag effect: the loop stops. */
    method EndGame()
      modifies this`running
      ensures !running
    {
      running := false;
    }

    /** The win check: the loop stops once no boss is left. */
    method CheckWinCondition()
      modifies this`running
      ensures running == (old(running) && boss.Some?)
    {
      if boss.None? {
        running := false;
      }
    }

    /** The NPC hands out the quest at most once. */
    method GiveQuest() returns (text: string)
      modifies this`questCompleted
      ensures QuestOutcome(questCompleted, text) == QuestTalk(old(questCompleted))
    {
      if !questCompleted {
        questCompleted := true;
        return QuestText;
      }
      return "";
    }

    /** The player moves by the held keys at the current speed. */
    method MovePlayer(keys: Keys)
      modifies player`rect, player`direction
      ensures Step(player.rect, player.direction) == Move(old(player.rect), keys, speed, old(player.direction))
    {
      if keys.left {
        player.rect := player.rect.WithLeft(player.rect.left - speed);
        player.direction := Left;
      }
      if keys.right {
        player.rect := player.rect.WithLeft(player.rect.left + speed);
        player.direction := Right;
      }
      if keys.up {
        player.rect := player.rect.WithTop(player.rect.top - speed);
        player.direction := Up;
      }
      if keys.down {
        player.rect := player.rect.WithTop(player.rect.top + speed);
        player.direction := Down;
      }
    }

    /** The player is put back inside the viewport. */
    method ClampPlayer()
      modifies player`rect
      ensures player.rect == ClampToScreen(old(player.rect))
    {
      var r := player.rect;
      if r.left < 0 {
        r := r.WithLeft(0);
      }
      if r.Right() > ScreenWidth {
        r := r.WithRight(ScreenWidth);
      }
      if r.top < 0 {
        r := r.WithTop(0);
      }
      if r.Bottom() > ScreenHeight {
        r := r.WithBottom(ScreenHeight);
      }
      player.rect := r;
    }

    /** One pass over the obstacles, pushing the player back out of each one it overlaps. */
    method PushBackFromObstacles()
      modifies player`rect
      ensures player.rect == PushAll(old(player.rect), obstacles, player.direction)
    {
      var i := 0;
      while i < |obstacles|
        invariant 0 <= i <= |obstacles|
        invariant player.rect == PushAll(old(player.rect), obstacles[..i], player.direction)
      {
        assert obstacles[..i + 1][..i] == obstacles[..i];
        if Overlaps(player.rect, obstacles[i]) {
          player.rect := PushBack(player.rect, obstacles[i], player.direction);
        }
        i := i + 1;
      }
      assert obstacles[..i] == obstacles;
    }

    /** One frame of the danger timer; reaching the limit loses the game. */
    method UpdateDangerTimer(dt: nat)
      modifies this`inRedCircle, this`redCircleTimer, this`running, player`colour
      ensures var o := DangerStep(old(redCircleTimer), TouchesAnyMob(player.rect, mobs), dt, old(player.colour));
        inRedCircle == TouchesAnyMob(player.rect, mobs) &&
        redCircleTimer == o.timer && player.colour == o.colour &&
        running == (old(running) && !o.endsGame)
    {
      inRedCircle := TouchesAnyMob(player.rect, mobs);
      if inRedCircle {
        redCircleTimer := redCircleTimer + dt;
        if redCircleTimer >= DangerLimit {
          EndGame();
        } else if redCircleTimer >= RedBand {
          player.colour := Red;
        } else if redCircleTimer >= OrangeBand {
          player.colour := Orange;
        } else if redCircleTimer >= YellowBand {
          player.colour := Yellow;
        }
      } else {
        redCircleTimer := 0;
        player.colour := Green;
      }
    }

    /**
     * One call of the player's update: move by the keys, clamp to the
     * viewport, push back out of obstacles along the facing, then advance
     * the danger timer.
     */
    method PlayerUpdate(keys: Keys, dt: nat)
      modifies player`rect, player`direction, player`colour
      modifies this`inRedCircle, this`redCircleTimer, this`running
      ensures var s := Move(old(player.rect), keys, speed, old(player.direction));
        player.direction == s.facing &&
        player.rect == PushAll(ClampToScreen(s.rect), obstacles, s.facing)
      ensures var o := DangerStep(old(redCircleTimer), TouchesAnyMob(player.rect, mobs), dt, old(player.colour));
        inRedCircle == TouchesAnyMob(player.rect, mobs) &&
        redCircleTimer == o.timer && player.colour == o.colour &&
        running == (old(running) && !o.endsGame)
    {
      MovePlayer(keys);
      ClampPlayer();
      PushBackFromObstacles();
      UpdateDangerTimer(dt);
    }

    /** The contact check of a mob's update: a mob touching the player loses the game. */
    method MobsContact()
      modifies this`running
      ensures running == (old(running) && !TouchesAnyMob(player.rect, mobs))
    {
      var i := 0;
      while i < |mobs|
        invariant 0 <= i <= |mobs|
        invariant running == (old(running) && !exists j :: 0 <= j < i && Overlaps(mobs[j].rect, player.rect))
      {
        if Overlaps(mobs[i].rect, player.rect) {
          EndGame();
        }
        i := i + 1;
      }
    }

    /**
     * The level-up: attack power doubles, the player turns turquoise and two
     * new followers join, side by side at the player's top-left corner.
     */
    method LevelUpEffect()
      modifies this`followers, player`attackPower, player`colour
      ensures player.attackPower == 2 * old(player.attackPower) && player.colour == Turquoise
      ensures |followers| == |old(followers)| + FollowersPerLevelUp
      ensures followers[..|old(followers)|] == old(followers)
      ensures forall k :: |old(followers)| <= k < |followers| ==> fresh(followers[k])
    {
      player.colour := Turquoise;
      player.attackPower := player.attackPower * 2;
      var i := 0;
      while i < FollowersPerLevelUp
        invariant 0 <= i <= FollowersPerLevelUp
        invariant player.attackPower == 2 * old(player.attackPower) && player.colour == Turquoise
        invariant |followers| == |old(followers)| + i
        invariant followers[..|old(followers)|] == old(followers)
        invariant forall k :: |old(followers)| <= k < |followers| ==> fresh(followers[k])
      {
        var follower := new Character(if i == 0 then "Follower1" else "Follower2", player.rect.left + i * CharacterSize, player.rect.top, Turquoise, 100, 50, 10);
        followers := followers + [follower];
        i := i + 1;
      }
    }

    /**
     * The melee branch of the SPACE key: every mob touching the player is
     * removed for `gains[i]` points, and the one-time level-up fires on the
     * first kill that finds the points at the threshold.
     */
    method MeleeKills(gains: seq<int>)
      requires |gains| == |mobs|
      requires forall i :: 0 <= i < |gains| ==> 0 <= gains[i] <= MaxKillPoints
      modifies this`mobs, this`points, this`levelUp, this`followers, player`attackPower, player`colour
      ensures var s := MeleeSweep(player.rect, old(mobs), gains);
        mobs == s.survivors && points == old(points) + s.gained &&
        levelUp == (old(levelUp) || (s.killed > 0 && points >= LevelUpPoints))
      ensures levelUp && !old(levelUp) ==>
        player.attackPower == 2 * old(player.attackPower) && player.colour == Turquoise &&
        |followers| == |old(followers)| + FollowersPerLevelUp && followers[..|old(followers)|] == old(followers)
      ensures !(levelUp && !old(levelUp)) ==>
        player.attackPower == old(player.attackPower) && player.colour == old(player.colour) &&
        followers == old(followers)
    {
      var all := mobs;
      var kept := [];
      var i := 0;
      while i < |all|
        invariant 0 <= i <= |all|
        invariant var s := MeleeSweep(player.rect, all[..i], gains[..i]);
          kept == s.survivors && points == old(points) + s.gained &&
          levelUp == (old(levelUp) || (s.killed > 0 && points >= LevelUpPoints))
        invariant points >= old(points)
        invariant levelUp && !old(levelUp) ==>
          player.attackPower == 2 * old(player.attackPower) && player.colour == Turquoise &&
          |followers| == |old(followers)| + FollowersPerLevelUp && followers[..|old(followers)|] == old(followers)
        invariant !(levelUp && !old(levelUp)) ==>
          player.attackPower == old(player.attackPower) && player.colour == old(player.colour) &&
          followers == old(followers)
      {
        assert all[..i + 1][..i] == all[..i] && gains[..i + 1][..i] == gains[..i];
        if Overlaps(player.rect, all[i].rect) {
          points := points + gains[i];
          if LevelUpDue(points, levelUp) {
            levelUp := true;
            LevelUpEffect();
          }
        } else {
          kept := kept + [all[i]];
        }
        i := i + 1;
      }
      assert all[..i] == all && gains[..i] == gains;
      mobs := kept;
    }

    /**
     * The SPACE key: next to the NPC with no story shown it hands out the
     * quest and shows the story; with the story shown it hides the story and
     * the NPC and creates a boss at (`bossX`, `bossY`) whatever boss there
     * was; otherwise it is a melee sweep.
     */
    method PressSpace(gains: seq<int>, bossX: int, bossY: int)
      requires |gains| == |mobs|
      requires forall i :: 0 <= i < |gains| ==> 0 <= gains[i] <= MaxKillPoints
      modifies this`questCompleted, this`storyText, this`storyDisplayed, this`npcVisible, this`boss
      modifies this`mobs, this`points, this`levelUp, this`followers, player`attackPower, player`colour
      ensures !old(storyDisplayed) && Overlaps(player.rect, npc) ==>
        QuestOutcome(questCompleted, storyText) == QuestTalk(old(questCompleted)) && storyDisplayed &&
        boss == old(boss) && mobs == old(mobs) && points == old(points) && levelUp == old(levelUp) &&
        npcVisible == old(npcVisible)
      ensures old(storyDisplayed) ==>
        !storyDisplayed && !npcVisible && boss == Some(NewBoss(bossX, bossY)) &&
        questCompleted == old(questCompleted) && mobs == old(mobs) && points == old(points) && levelUp == old(levelUp) &&
        storyText == old(storyText)
      ensures !old(storyDisplayed) && !Overlaps(player.rect, npc) ==>
        var s := MeleeSweep(player.rect, old(mobs), gains);
        mobs == s.survivors && points == old(points) + s.gained &&
        levelUp == (old(levelUp) || (s.killed > 0 && points >= LevelUpPoints)) &&
        boss == old(boss) && storyDisplayed == old(storyDisplayed) && questCompleted == old(questCompleted) &&
        npcVisible == old(npcVisible) && storyText == old(storyText)
      ensures levelUp && !old(levelUp) ==>
        player.attackPower == 2 * old(player.attackPower) && player.colour == Turquoise &&
        |followers| == |old(followers)| + FollowersPerLevelUp && followers[..|old(followers)|] == old(followers)
      ensures !(levelUp && !old(levelUp)) ==>
        player.attackPower == old(player.attackPower) && player.colour == old(player.colour) &&
        followers == old(followers)
    {
      if !storyDisplayed && Overlaps(player.rect, npc) {
        storyText := GiveQuest();
        storyDisplayed := true;
      } else if storyDisplayed {
        storyDisplayed := false;
        npcVisible := false;
        boss := Some(NewBoss(bossX, bossY));
      } else {
        MeleeKills(gains);
      }
    }

    /** The loop's boss spawn: a boss at (`x`, `y`) appears once the field is clear. */
    method SpawnBossIfCleared(x: int, y: int)
      modifies this`boss
      ensures BossSpawnDue(|mobs|, old(boss).Some?, storyDisplayed) ==> boss == Some(NewBoss(x, y))
      ensures !BossSpawnDue(|mobs|, old(boss).Some?, storyDisplayed) ==> boss == old(boss)
    {
      if BossSpawnDue(|mobs|, boss.Some?, storyDisplayed) {
        boss := Some(NewBoss(x, y));
      }
    }

    /** The spawn timer's effect: one more mob centred on (`x`, `y`). */
    method SpawnMob(x: int, y: int, health: int)
      modifies this`mobs
      ensures mobs == old(mobs) + [NewMob(x, y, health)]
    {
      mobs := mobs + [NewMob(x, y, health)];
    }

    /**
     * The mobs part of a projectile step: the ball at `ball` meets every mob
     * once, in order; a touched mob loses health and a killed one is removed
     * for `gains[i]` points.
     */
    method BallHitsMobs(ball: Rect, gains: seq<int>) returns (hit: bool)
      requires |gains| == |mobs|
      requires forall i :: 0 <= i < |gains| ==> 0 <= gains[i] <= MaxKillPoints
      modifies this`mobs, this`points
      ensures var v := MobsHit(ball, old(mobs), gains);
        mobs == v.survivors && points == old(points) + v.gained && hit == v.hit
    {
      var all := mobs;
      var kept := [];
      hit := false;
      var i := 0;
      while i < |all|
        invariant 0 <= i <= |all|
        invariant MobsHit(ball, all[..i], gains[..i]) == Volley(kept, points - old(points), hit)
      {
        assert all[..i + 1][..i] == all[..i] && gains[..i + 1][..i] == gains[..i];
        var m := all[i];
        if Overlaps(ball, m.rect) {
          m := m.(health := m.health - BallDamage);
          if m.health <= 0 {
            points := points + gains[i];
          } else {
            kept := kept + [m];
          }
          hit := true;
        } else {
          kept := kept + [m];
        }
        i := i + 1;
      }
      assert all[..i] == all && gains[..i] == gains;
      mobs := kept;
    }

    /** The boss part of a projectile step: the first hit wounds the boss, the second removes it and wins. */
    method BallHitsBoss(ball: Rect) returns (hit: bool)
      modifies this`boss, this`running
      ensures var o := BossHit(ball, old(boss));
        boss == o.boss && hit == o.hit && running == (old(running) && !(o.hit && o.boss.None?))
    {
      hit := false;
      if boss.Some? && Overlaps(ball, boss.value.rect) {
        if !boss.value.hitOnce {
          boss := Some(boss.value.(hitOnce := true, colour := Yellow));
        } else {
          boss := None;
          CheckWinCondition();
        }
        hit := true;
      }
    }

    /**
     * One projectile step: the ball moves, then meets every mob and then the
     * boss; a ball that left the screen or hit anything is spent. Felling
     * the boss wins the game.
     */
    method BallUpdate(ball: Ball, gains: seq<int>) returns (moved: Ball, alive: bool)
      requires |gains| == |mobs|
      requires forall i :: 0 <= i < |gains| ==> 0 <= gains[i] <= MaxKillPoints
      modifies this`mobs, this`points, this`boss, this`running
      ensures moved == BallMoved(ball)
      ensures var v := MobsHit(moved.rect, old(mobs), gains);
        mobs == v.survivors && points == old(points) + v.gained
      ensures var o := BossHit(moved.rect, old(boss));
        boss == o.boss && running == (old(running) && !(o.hit && o.boss.None?))
      ensures alive == (Contains(Screen, moved.rect) && !MobsHit(moved.rect, old(mobs), gains).hit &&
                        !BossHit(moved.rect, old(boss)).hit)
    {
      moved := BallMoved(ball);
      alive := Contains(Screen, moved.rect);
      var hitMob := BallHitsMobs(moved.rect, gains);
      var hitBoss := BallHitsBoss(moved.rect);
      alive := alive && !hitMob && !hitBoss;
    }
  }

  /** The player's rectangle in a fresh game, written out. */
  function StartRect(): (r: Rect)
    ensures r == CenteredRect(ScreenWidth / 2, ScreenHeight / 2, CharacterSize, CharacterSize)
  {
    Rect(620, 380, CharacterSize, CharacterSize)
  }

  /**
   * Five mobs on the player, each melee kill worth 10 points: one SPACE
   * press takes a fresh game to 50 points and levels up once; a later kill
   * does not level up again.
   */
  method FiveMeleeKillsLevelUpOnce()
  {
    var m := Mob(StartRect(), 30);
    var g := new Game([m, m, m, m, m], []);
    assert !Overlaps(g.player.rect, g.npc);
    var gains := [10, 10, 10, 10, 10];
    assert forall i :: 0 <= i < |g.mobs| ==> Overlaps(g.player.rect, g.mobs[i].rect);
    MeleeSweepAllTouched(g.player.rect, g.mobs, gains);
    assert Sum([10]) == 10 by { assert [10][..0] == []; }
    assert Sum([10, 10]) == 20 by { assert [10, 10][..1] == [10]; }
    assert Sum([10, 10, 10]) == 30 by { assert [10, 10, 10][..2] == [10, 10]; }
    assert Sum([10, 10, 10, 10]) == 40 by { assert [10, 10, 10, 10][..3] == [10, 10, 10]; }
    assert Sum(gains) == 50 by { assert gains[..4] == [10, 10, 10, 10]; }
    g.PressSpace(gains, 0, 0);
    assert g.points == 50 && g.levelUp && g.mobs == [];
    assert g.player.attackPower == 20 && |g.followers| == 2;
    g.SpawnMob(ScreenWidth / 2, ScreenHeight / 2, 30);
    assert g.mobs == [Mob(StartRect(), 30)];
    MeleeSweepAllTouched(g.player.rect, g.mobs, [10]);
    g.PressSpace([10], 0, 0);
    assert g.points == 60 && g.mobs == [];
    assert g.player.attackPower == 20 && |g.followers| == 2;
  }

  /** Standing on a mob for three frames of 1000 ms warns orange, then red, then loses the game. */
  method StandingOnAMobLoses()
  {
    var g := new Game([Mob(StartRect(), 30)], []);
    assert Overlaps(g.player.rect, g.mobs[0].rect);
    g.UpdateDangerTimer(1000);
    assert g.running && g.player.colour == Orange;
    g.UpdateDangerTimer(1000);
    assert g.running && g.player.colour == Red;
    g.UpdateDangerTimer(1000);
    assert !g.running && g.redCircleTimer == 3000;
  }

  /** Two balls that reach the boss fell it and win the game; the first only wounds it. */
  method TwoBallsFellTheBoss()
  {
    var g := new Game([], []);
    assert g.player.rect == StartRect();
    g.SpawnBossIfCleared(650, 400);
    assert NewBoss(650, 400) == Boss(Rect(630, 380, 40, 40), BossHealth, false, Purple);
    assert g.boss == Some(Boss(Rect(630, 380, 40, 40), BossHealth, false, Purple));
    var shot := Ball(Rect(635, 395, 10, 10), Right);
    assert shot == NewBall(g.player.rect, Right);
    assert BallMoved(shot).rect == Rect(645, 395, 10, 10);
    assert Overlaps(Rect(645, 395, 10, 10), Rect(630, 380, 40, 40));
    var moved, alive := g.BallUpdate(shot, []);
    assert g.boss.Some? && g.boss.value.hitOnce && g.running && !alive;
    moved, alive := g.BallUpdate(shot, []);
    assert g.boss == None && !g.running && !alive;
  }
}
