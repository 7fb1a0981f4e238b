/** The game manager: streams the track chunk by chunk and steps the
    difficulty (empty-chunk weight and game speed) at fixed time milestones. */
module Track {
  import opened Common

  /** A chunk template of `levelParts`, known by the local position of its
      "SpawnPoint" child. */
  datatype LevelPart = LevelPart(spawnPointOffset: Vec3)

  /** A placed chunk: the index of the template it instantiates and the
      position it was instantiated at, in the chunk parent's frame. The chunk
      parent moves the whole track, so positions in that frame stay fixed,
      and a spawn point read in a later frame is the same point in it. */
  datatype Chunk = Chunk(template: nat, position: Vec3)

  /** Chunks are instantiated turned half a turn about y, so a chunk's spawn
      point is its position plus its template's spawn-point offset, rotated. */
  function SpawnPointOf(parts: seq<LevelPart>, c: Chunk): (r: Vec3)
    requires c.template < |parts|
    ensures Rotate180Y(Vec3(r.x - c.position.x, r.y - c.position.y, r.z - c.position.z))
              == parts[c.template].spawnPointOffset
  {
    Add(c.position, Rotate180Y(parts[c.template].spawnPointOffset))
  }

  /** The deterministic start of the level: n chunks of template 0, the first
      at `origin`, each next one at the spawn point of the one before. */
  function StartRun(parts: seq<LevelPart>, origin: Vec3, n: nat): (r: seq<Chunk>)
    requires |parts| > 0
    ensures |r| == n
    ensures forall i :: 0 <= i < n ==> r[i].template == 0
  {
    if n == 0 then []
    else if n == 1 then [Chunk(0, origin)]
    else
      var prev := StartRun(parts, origin, n - 1);
      prev + [Chunk(0, SpawnPointOf(parts, prev[n - 2]))]
  }

  /** `s` is a chain of template-0 chunks starting at `origin`: chunk 0 sits at
      the origin and chunk i > 0 at chunk i-1's spawn point. */
  ghost predicate IsStartChain(parts: seq<LevelPart>, origin: Vec3, s: seq<Chunk>)
    requires |parts| > 0
  {
    && |s| >= 1
    && (forall i :: 0 <= i < |s| ==> s[i].template == 0)
    && s[0].position == origin
    && (forall i :: 1 <= i < |s| ==> s[i].position == SpawnPointOf(parts, s[i - 1]))
  }

  /** The start run is exactly the start chain of its length: it is one, and
      every start chain of length n is it. */
  lemma {:induction false} StartRunIsTheChain(parts: seq<LevelPart>, origin: Vec3, s: seq<Chunk>, n: nat)
    requires |parts| > 0 && n >= 1
    ensures IsStartChain(parts, origin, StartRun(parts, origin, n))
    ensures |s| == n && IsStartChain(parts, origin, s) ==> s == StartRun(parts, origin, n)
    decreases n
  {
    var r := StartRun(parts, origin, n);
    if n > 1 {
      var prev := StartRun(parts, origin, n - 1);
      StartRunIsTheChain(parts, origin, if |s| == n then s[..n - 1] else [], n - 1);
      assert r == prev + [Chunk(0, SpawnPointOf(parts, prev[n - 2]))];
      assert forall i :: 0 <= i < n - 1 ==> r[i] == prev[i];
      if |s| == n && IsStartChain(parts, origin, s) {
        var p := s[..n - 1];
        assert IsStartChain(parts, origin, p);
        assert p == prev;
        assert s == p + [s[n - 1]];
        assert s[n - 1] == Chunk(0, SpawnPointOf(parts, prev[n - 2]));
      }
    } else {
      if |s| == n && IsStartChain(parts, origin, s) {
        assert s == [Chunk(0, origin)];
      }
    }
  }

  /** One milestone step of the empty-chunk spawn weight: it grows by `inc`
      only while it is below `max`. */
  function StepChance(c: int, inc: int, max: int): (r: int)
    ensures inc >= 0 ==> c <= r
    ensures c < max + inc ==> r < max + inc
    ensures c >= max ==> r == c
  {
    if c < max then c + inc else c
  }

  /** The spawn weight after n milestones, starting from c0. */
  function ChanceAfter(n: nat, c0: int, inc: int, max: int): int {
    if n == 0 then c0 else StepChance(ChanceAfter(n - 1, c0, inc, max), inc, max)
  }

  /** With a non-negative increase the weight never goes down. */
  lemma {:induction false} ChanceNeverDecreases(n: nat, m: nat, c0: int, inc: int, max: int)
    requires inc >= 0 && n <= m
    ensures ChanceAfter(n, c0, inc, max) <= ChanceAfter(m, c0, inc, max)
  {
    if n < m {
      ChanceNeverDecreases(n, m - 1, c0, inc, max);
    }
  }

  /** Starting below `max + inc`, the weight stays below `max + inc`: the cap
      is overshot by less than one increase, never more. */
  lemma {:induction false} ChanceBounded(n: nat, c0: int, inc: int, max: int)
    requires c0 < max + inc
    ensures ChanceAfter(n, c0, inc, max) < max + inc
  {
    if n > 0 {
      ChanceBounded(n - 1, c0, inc, max);
    }
  }

  /** The number of milestones after which a weight starting at c stops
      growing. */
  function StepsToCap(c: int, inc: int, max: int): nat
    requires inc > 0
    decreases max - c
  {
    if c >= max then 0 else 1 + StepsToCap(c + inc, inc, max)
  }

  function Min(a: nat, b: nat): nat {
    if a <= b then a else b
  }

  /** Closed form: each milestone adds `inc` until the cap is reached, from
      then on the weight stays put. */
  lemma {:induction false} ChanceClosedForm(n: nat, c0: int, inc: int, max: int)
    requires inc > 0
    ensures ChanceAfter(n, c0, inc, max) == c0 + inc * Min(n, StepsToCap(c0, inc, max))
  {
    if n > 0 {
      ChanceClosedForm(n - 1, c0, inc, max);
      var k := Min(n - 1, StepsToCap(c0, inc, max));
      var c := c0 + inc * k;
      if k < StepsToCap(c0, inc, max) {
        ReachCapAfter(k, c0, inc, max);
        assert c < max;
        assert c + inc == c0 + inc * (k + 1);
      } else {
        ReachCapAfter(k, c0, inc, max);
        assert c >= max;
      }
    }
  }

  /** Below the step count the weight is still under the cap; at it, it has
      reached the cap. */
  lemma {:induction false} ReachCapAfter(k: nat, c0: int, inc: int, max: int)
    requires inc > 0 && k <= StepsToCap(c0, inc, max)
    ensures k < StepsToCap(c0, inc, max) ==> c0 + inc * k < max
    ensures k == StepsToCap(c0, inc, max) ==> c0 + inc * k >= max
  {
    if k > 0 {
      ReachCapAfter(k - 1, c0 + inc, inc, max);
      assert c0 + inc + inc * (k - 1) == c0 + inc * k;
    }
  }

  /** One milestone step of the game speed: it grows by `inc` only while it is
      below `max`. */
  function StepSpeed(s: real, inc: real, max: real): (r: real)
    ensures inc >= 0.0 ==> s <= r
    ensures s < max + inc ==> r < max + inc
    ensures s >= max ==> r == s
  {
    if s < max then s + inc else s
  }

  /** The game speed after n milestones, starting from s0. */
  function SpeedAfter(n: nat, s0: real, inc: real, max: real): real {
    if n == 0 then s0 else StepSpeed(SpeedAfter(n - 1, s0, inc, max), inc, max)
  }

  /** With a non-negative increase the speed never goes down. */
  lemma {:induction false} SpeedNeverDecreases(n: nat, m: nat, s0: real, inc: real, max: real)
    requires inc >= 0.0 && n <= m
    ensures SpeedAfter(n, s0, inc, max) <= SpeedAfter(m, s0, inc, max)
  {
    if n < m {
      SpeedNeverDecreases(n, m - 1, s0, inc, max);
    }
  }

  /** Starting below `max + inc`, the speed stays below `max + inc`. */
  lemma {:induction false} SpeedBounded(n: nat, s0: real, inc: real, max: real)
    requires s0 < max + inc
    ensures SpeedAfter(n, s0, inc, max) < max + inc
  {
    if n > 0 {
      SpeedBounded(n - 1, s0, inc, max);
    }
  }

  /** Once the speed has reached the cap, later milestones leave it alone. */
  lemma {:induction false} SpeedSaturates(n: nat, m: nat, s0: real, inc: real, max: real)
    requires n <= m && SpeedAfter(n, s0, inc, max) >= max
    ensures SpeedAfter(m, s0, inc, max) == SpeedAfter(n, s0, inc, max)
  {
    if n < m {
      SpeedSaturates(n, m - 1, s0, inc, max);
    }
  }

  /** The time of milestone k (counting from 0): the first is at one
      interval, each next one an interval later. */
  function MilestoneTime(k: nat, interval: real): real {
    interval * ((k + 1) as real)
  }

  /** With a positive interval the milestone times strictly increase. */
  lemma {:induction false} MilestonesIncrease(j: nat, k: nat, interval: real)
    requires interval > 0.0 && j < k
    ensures MilestoneTime(j, interval) < MilestoneTime(k, interval)
  {
    if j < k - 1 {
      MilestonesIncrease(j, k - 1, interval);
    }
    assert MilestoneTime(k, interval) == MilestoneTime(k - 1, interval) + interval;
  }

  /** The object the manager speeds up: it moves the track by `moveSpeed`. */
  class MoveObjectScript {
    var moveSpeed: Vec3

    constructor (moveSpeed: Vec3)
      ensures this.moveSpeed == moveSpeed
    {
      this.moveSpeed := moveSpeed;
    }
  }

  /** The game manager. The serialized configuration is constant; the
      spawned chunks, the spawn weight, the game speed and the next milestone
      are the state it updates. */
  class GameManager {
    const moveScript: MoveObjectScript
    var originalMoveSpeed: Vec3

    /** The position of `chunkParent`, where the first chunk is placed. */
    const chunkParentPosition: Vec3

    var spawnedChunks: seq<Chunk>
    const levelParts: seq<LevelPart>

    const levelStartLength: int
    var gameSpeed: real
    const speedIncreaseAmount: real
    const maxSpeed: real
    var emptyChunkSpawnChance: int
    const spawnChanceIncreaseAmount: int
    const maxEmptySpawnChance: int
    const timeInterval: real
    var currentTimeMilestone: real

    /** Milestones fired since `Awake`, and the weight and speed at `Awake`. */
    ghost var milestones: nat
    ghost var initialSpawnChance: int
    ghost var initialGameSpeed: real

    /** The manager after it has woken: the level has a first chunk, every
        chunk names a template, and the difficulty is where `milestones`
        steps from its starting values lead. */
    ghost predicate Valid()
      reads this, moveScript
    {
      && |levelParts| > 0
      && |spawnedChunks| >= 1
      && (forall i :: 0 <= i < |spawnedChunks| ==> spawnedChunks[i].template < |levelParts|)
      && currentTimeMilestone == MilestoneTime(milestones, timeInterval)
      && emptyChunkSpawnChance == ChanceAfter(milestones, initialSpawnChance, spawnChanceIncreaseAmount, maxEmptySpawnChance)
      && gameSpeed == SpeedAfter(milestones, initialGameSpeed, speedIncreaseAmount, maxSpeed)
      && (|| moveScript.moveSpeed == Scale(originalMoveSpeed, gameSpeed)
          || (moveScript.moveSpeed == originalMoveSpeed && gameSpeed == initialGameSpeed))
    }

    /** The spawn point of the most recently placed chunk. */
    function LastSpawnPoint(): Vec3
      reads this, moveScript
      requires Valid()
    {
      SpawnPointOf(levelParts, spawnedChunks[|spawnedChunks| - 1])
    }

    /** The component as the scene loads it, before `Awake`. */
    constructor (moveScript: MoveObjectScript, chunkParentPosition: Vec3, levelParts: seq<LevelPart>,
                 levelStartLength: int, gameSpeed: real, speedIncreaseAmount: real, maxSpeed: real,
                 emptyChunkSpawnChance: int, spawnChanceIncreaseAmount: int, maxEmptySpawnChance: int,
                 timeInterval: real)
      ensures this.moveScript == moveScript && this.chunkParentPosition == chunkParentPosition
      ensures this.levelParts == levelParts && this.levelStartLength == levelStartLength
      ensures this.gameSpeed == gameSpeed && this.speedIncreaseAmount == speedIncreaseAmount
      ensures this.maxSpeed == maxSpeed && this.emptyChunkSpawnChance == emptyChunkSpawnChance
      ensures this.spawnChanceIncreaseAmount == spawnChanceIncreaseAmount
      ensures this.maxEmptySpawnChance == maxEmptySpawnChance && this.timeInterval == timeInterval
      ensures spawnedChunks == []
    {
      this.moveScript := moveScript;
      this.chunkParentPosition := chunkParentPosition;
      this.levelParts := levelParts;
      this.levelStartLength := levelStartLength;
      this.gameSpeed := gameSpeed;
      this.speedIncreaseAmount := speedIncreaseAmount;
      this.maxSpeed := maxSpeed;
      this.emptyChunkSpawnChance := emptyChunkSpawnChance;
      this.spawnChanceIncreaseAmount := spawnChanceIncreaseAmount;
      this.maxEmptySpawnChance := maxEmptySpawnChance;
      this.timeInterval := timeInterval;
      spawnedChunks := [];
    }

    /** Remembers the track's move speed, schedules the first milestone one
        interval in, and lays out the start of the level. */
    method Awake()
      requires |levelParts| > 0 && spawnedChunks == []
      modifies this
      ensures Valid()
      ensures originalMoveSpeed == moveScript.moveSpeed
      ensures currentTimeMilestone == timeInterval
      ensures milestones == 0
      ensures gameSpeed == old(gameSpeed) && emptyChunkSpawnChance == old(emptyChunkSpawnChance)
      ensures spawnedChunks == StartRun(levelParts, chunkParentPosition, if levelStartLength < 1 then 1 else levelStartLength)
    {
      originalMoveSpeed := moveScript.moveSpeed;
      currentTimeMilestone := timeInterval;
      milestones := 0;
      initialSpawnChance := emptyChunkSpawnChance;
      initialGameSpeed := gameSpeed;
      SpawnLevelStart();
    }

    /** Places template 0 at the chunk parent, then `levelStartLength - 1`
        more, each at the previous chunk's spawn point. */
    method SpawnLevelStart()
      requires |levelParts| > 0 && spawnedChunks == []
      modifies this`spawnedChunks
      ensures spawnedChunks == StartRun(levelParts, chunkParentPosition, if levelStartLength < 1 then 1 else levelStartLength)
    {
      var _ := SpawnChunk(0, chunkParentPosition);
      var i := 1;
      while i < levelStartLength
        invariant 1 <= i && (i <= levelStartLength || i == 1)
        invariant spawnedChunks == StartRun(levelParts, chunkParentPosition, i)
      {
        var _ := SpawnChunk(0, SpawnPointOf(levelParts, spawnedChunks[i - 1]));
        i := i + 1;
      }
    }

    /** Instantiates template i at `spawnPosition`, appends it to the spawned
        chunks and returns its spawn point. */
    method SpawnChunk(i: int, spawnPosition: Vec3) returns (spawnPoint: Vec3)
      requires 0 <= i < |levelParts|
      modifies this`spawnedChunks
      ensures spawnedChunks == old(spawnedChunks) + [Chunk(i, spawnPosition)]
      ensures spawnPoint == SpawnPointOf(levelParts, Chunk(i, spawnPosition))
    {
      var chunk := Chunk(i, spawnPosition);
      spawnedChunks := spawnedChunks + [chunk];
      spawnPoint := SpawnPointOf(levelParts, chunk);
    }

    /** A uniformly drawn template index, from the raw generator output `u`. */
    function RandomChunkNumber(u: nat): (r: nat)
      requires |levelParts| > 0
      ensures r < |levelParts|
    {
      RandomRange(0, |levelParts|, u)
    }

    /** Every template, template 0 included, can be the random pick. */
    lemma RandomChunkNumberCovers(t: nat)
      requires t < |levelParts|
      ensures RandomChunkNumber(t) == t
    {
      RandomRangeCovers(0, |levelParts|, t);
    }

    /** The template a spawn decision places, given the weight draw `rnd` and
        the raw output `u` for the random pick. */
    function ChosenTemplate(rnd: int, u: nat): (r: nat)
      requires |levelParts| > 0
      ensures r < |levelParts|
      ensures rnd < 0 || rnd > 10 ==> r == 0
    {
      if rnd >= 0 && rnd <= 10 then RandomChunkNumber(u) else 0
    }

    /** Moves the track at the original speed scaled by `speed`. */
    method ChangeMoveSpeed(speed: real)
      modifies moveScript
      ensures moveScript.moveSpeed == Scale(originalMoveSpeed, speed)
    {
      moveScript.moveSpeed := Scale(originalMoveSpeed, speed);
    }

    /** One difficulty milestone: the empty-chunk weight and the game speed
        each step up while below their maximum, the track speed follows the
        game speed, and the next milestone is one interval later. */
    method ChangeGameIntensity()
      requires Valid()
      modifies this`emptyChunkSpawnChance, this`gameSpeed, this`currentTimeMilestone, this`milestones, moveScript
      ensures Valid()
      ensures milestones == old(milestones) + 1
      ensures emptyChunkSpawnChance == StepChance(old(emptyChunkSpawnChance), spawnChanceIncreaseAmount, maxEmptySpawnChance)
      ensures gameSpeed == StepSpeed(old(gameSpeed), speedIncreaseAmount, maxSpeed)
      ensures old(gameSpeed) < maxSpeed ==> moveScript.moveSpeed == Scale(originalMoveSpeed, gameSpeed)
      ensures old(gameSpeed) >= maxSpeed ==> moveScript.moveSpeed == old(moveScript.moveSpeed)
      ensures currentTimeMilestone == old(currentTimeMilestone) + timeInterval
    {
      if emptyChunkSpawnChance < maxEmptySpawnChance {
        emptyChunkSpawnChance := emptyChunkSpawnChance + spawnChanceIncreaseAmount;
      }
      if gameSpeed < maxSpeed {
        gameSpeed := gameSpeed + speedIncreaseAmount;
        ChangeMoveSpeed(gameSpeed);
      }
      assert MilestoneTime(milestones + 1, timeInterval) == MilestoneTime(milestones, timeInterval) + timeInterval;
      currentTimeMilestone := currentTimeMilestone + timeInterval;
      milestones := milestones + 1;
    }

    /** One frame at time `now`: at most one milestone, then, when the middle
        point is close enough to the last chunk, exactly one new chunk at its
        spawn point. `u1` is the raw output behind the weight draw and `u2`
        the one behind the random template. */
    method Update(now: real, closeEnough: bool, u1: nat, u2: nat)
      requires Valid()
      modifies this`emptyChunkSpawnChance, this`gameSpeed, this`currentTimeMilestone, this`milestones,
               this`spawnedChunks, moveScript
      ensures Valid()
      ensures milestones == old(milestones) + (if now >= old(currentTimeMilestone) then 1 else 0)
      ensures now >= old(currentTimeMilestone) ==>
                && emptyChunkSpawnChance == StepChance(old(emptyChunkSpawnChance), spawnChanceIncreaseAmount, maxEmptySpawnChance)
                && gameSpeed == StepSpeed(old(gameSpeed), speedIncreaseAmount, maxSpeed)
                && currentTimeMilestone == old(currentTimeMilestone) + timeInterval
                && (old(gameSpeed) < maxSpeed ==> moveScript.moveSpeed == Scale(originalMoveSpeed, gameSpeed))
                && (old(gameSpeed) >= maxSpeed ==> moveScript.moveSpeed == old(moveScript.moveSpeed))
      ensures now < old(currentTimeMilestone) ==>
                && emptyChunkSpawnChance == old(emptyChunkSpawnChance) && gameSpeed == old(gameSpeed)
                && currentTimeMilestone == old(currentTimeMilestone)
                && moveScript.moveSpeed == old(moveScript.moveSpeed)
      ensures closeEnough ==>
                spawnedChunks == old(spawnedChunks)
                  + [Chunk(ChosenTemplate(RandomRange(0, emptyChunkSpawnChance, u1), u2), old(LastSpawnPoint()))]
      ensures !closeEnough ==> spawnedChunks == old(spawnedChunks)
    {
      if now >= currentTimeMilestone {
        ChangeGameIntensity();
      }
      if closeEnough {
        var last := SpawnPointOf(levelParts, spawnedChunks[|spawnedChunks| - 1]);
        var rnd := RandomRange(0, emptyChunkSpawnChance, u1);
        if rnd >= 0 && rnd <= 10 {
          var _ := SpawnChunk(RandomChunkNumber(u2), last);
        } else {
          var _ := SpawnChunk(0, last);
        }
      }
    }
  }

  /** The spawn decision runs after the milestone, so the weight draw is taken
      over the stepped weight. A weight of at most 11 sends every draw to the
      random branch; above 11 the draw 11 places template 0. */
  lemma {:induction false} DrawBranches(chance: int, u: nat)
    ensures chance <= 11 ==> 0 <= RandomRange(0, chance, u) <= 10
    ensures chance > 11 ==> RandomRange(0, chance, 11) == 11
  {
    if chance > 11 {
      RandomRangeCovers(0, chance, 11);
    }
  }
}
