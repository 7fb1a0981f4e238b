/** A player's state machine (grounded, jumping, taunting, stunned, dead) and
    the controller bookkeeping its death feeds: counting the players still in
    the race, opening the tie window, marking a tie and ending the game. */
module Players {
  import opened Common

  datatype Color = Color(r: real, g: real, b: real, a: real)

  /* ---------------------------------------------------------------------
     The player's flags as a value, and the handlers as transitions on it.
     --------------------------------------------------------------------- */

  /** The flags the player's handlers read and write. */
  datatype PlayerFlags = PlayerFlags(
    active: bool, canMove: bool, canJump: bool, tauntIntro: bool,
    isTaunting: bool, stunned: bool, onGround: bool, canCheckOnGround: bool)

  /** What can happen to a player. Handlers that start a coroutine are split
      in two: the part before the wait, and a later event for the part after. */
  datatype Event =
    | Jump                              // OnJump
    | GroundCheckDelayEnd               // SetCanCheckOnGround, after its wait
    | Tick(groundHit: bool, downPressed: bool)
                                        // Update: ground re-check, then a taunt on down input
    | TauntStart                        // Taunt, up to the wait of TauntSequence
    | TauntEnd                          // TauntSequence, after its wait
    | StunStart                         // GetStunned, up to the wait of StunTimer
    | StunEnd                           // StunTimer, after its wait
    | Death                             // PlayerDeath (the player's own flags)
    | Initialise                        // InitialisePlayer

  /** The guard of OnJump. */
  predicate JumpAllowed(f: PlayerFlags) {
    f.onGround && f.canJump && f.active && !f.stunned
  }

  /** The guard under which FixedUpdate calls MovePlayer. */
  predicate MayMove(f: PlayerFlags) {
    f.canMove && f.active
  }

  /** Taunt: nothing if already taunting; otherwise movement and jumping are
      switched off and the taunt sequence begins. */
  function StartTaunt(f: PlayerFlags): PlayerFlags {
    if f.isTaunting then f else f.(canMove := false, canJump := false, isTaunting := true)
  }

  /** The flags after event e. Only a death changes `active`, and it only
      ever clears it. */
  function Apply(f: PlayerFlags, e: Event): (r: PlayerFlags)
    ensures r.active == (f.active && e != Death)
  {
    match e
    case Jump =>
      if JumpAllowed(f) then f.(onGround := false, canCheckOnGround := false) else f
    case GroundCheckDelayEnd =>
      f.(canCheckOnGround := true)
    case Tick(groundHit, downPressed) =>
      if !f.active then f
      else
        var g := if !f.onGround && f.canCheckOnGround then f.(onGround := groundHit) else f;
        if g.onGround && !g.stunned && downPressed then StartTaunt(g) else g
    case TauntStart =>
      StartTaunt(f)
    case TauntEnd =>
      f.(canMove := if f.tauntIntro then f.canMove else true, canJump := true, isTaunting := false)
    case StunStart =>
      f.(canMove := false, stunned := true)
    case StunEnd =>
      f.(canMove := true, stunned := false)
    case Death =>
      f.(active := false, canMove := false)
    case Initialise =>
      f.(onGround := true, canJump := true, tauntIntro := true)
  }

  /** The flags after a sequence of events, in order. */
  function Run(f: PlayerFlags, es: seq<Event>): PlayerFlags
    decreases |es|
  {
    if es == [] then f else Run(Apply(f, es[0]), es[1..])
  }

  /** A player is alive after a run exactly when it was alive before and the
      run holds no death: nothing ever sets `active` back to true. */
  lemma {:induction false} ActiveAfterRun(f: PlayerFlags, es: seq<Event>)
    ensures Run(f, es).active <==> f.active && forall i :: 0 <= i < |es| ==> es[i] != Death
    decreases |es|
  {
    if es != [] {
      ActiveAfterRun(Apply(f, es[0]), es[1..]);
      assert forall i :: 1 <= i < |es| ==> es[i] == es[1..][i - 1];
    }
  }

  /** After a death no later event lets the player move again, a stun that
      ends afterwards (and sets `canMove`) included. */
  lemma {:induction false} DeadNeverMoves(f: PlayerFlags, es: seq<Event>, k: nat)
    requires k < |es| && es[k] == Death
    ensures !MayMove(Run(f, es))
  {
    ActiveAfterRun(f, es);
  }

  /** OnJump changes the flags exactly when its guard holds, and then the
      player is airborne and may not re-check the ground yet. */
  lemma JumpEffect(f: PlayerFlags)
    ensures Apply(f, Jump) != f <==> JumpAllowed(f)
    ensures JumpAllowed(f) ==> !Apply(f, Jump).onGround && !Apply(f, Jump).canCheckOnGround
  {
  }

  /** Only the end of the ground-check delay sets `canCheckOnGround` back:
      a run without that event leaves it false. */
  lemma {:induction false} GroundCheckStaysOff(f: PlayerFlags, es: seq<Event>)
    requires !f.canCheckOnGround
    requires forall i :: 0 <= i < |es| ==> es[i] != GroundCheckDelayEnd
    ensures !Run(f, es).canCheckOnGround
    decreases |es|
  {
    if es != [] {
      assert es[0] != GroundCheckDelayEnd;
      assert forall i :: 0 <= i < |es| - 1 ==> es[1..][i] == es[i + 1];
      GroundCheckStaysOff(Apply(f, es[0]), es[1..]);
    }
  }

  /** The ground flag changes under a frame only through the re-check, which
      runs only while alive, airborne and allowed to re-check. */
  lemma TickGroundRecheck(f: PlayerFlags, hit: bool, down: bool)
    ensures Apply(f, Tick(hit, down)).onGround != f.onGround ==>
              f.active && !f.onGround && f.canCheckOnGround && hit
    ensures !f.active ==> Apply(f, Tick(hit, down)) == f
  {
  }

  /** A taunt started and finished from a non-taunting state leaves jumping
      on, the taunt over, movement on only outside the join phase, and every
      other flag as it was. A taunt while taunting does nothing. */
  lemma TauntRoundTrip(f: PlayerFlags)
    ensures f.isTaunting ==> Apply(f, TauntStart) == f
    ensures !f.isTaunting ==>
              Apply(Apply(f, TauntStart), TauntEnd) == f.(canMove := !f.tauntIntro, canJump := true, isTaunting := false)
  {
  }

  /** A stun started and finished leaves the player unstunned and able to
      move, whatever it was before, and every other flag as it was. */
  lemma StunRoundTrip(f: PlayerFlags)
    ensures Apply(Apply(f, StunStart), StunEnd) == f.(canMove := true, stunned := false)
  {
  }

  /* ---------------------------------------------------------------------
     The roster bookkeeping of a death, as a value.
     --------------------------------------------------------------------- */

  /** What a death does to the match, decided from the mode, the number of
      players still active after it, and whether a tie window is open. */
  datatype DeathAction = EndGame | OpenTieWindow | MarkTied | NoChange

  function DeathDecision(singleplayer: bool, actives: nat, checkingForTie: bool): (r: DeathAction)
    ensures r == EndGame <==> singleplayer
    ensures r == OpenTieWindow <==> !singleplayer && actives == 1
    ensures r == MarkTied <==> !singleplayer && actives == 0 && checkingForTie
  {
    if singleplayer then EndGame
    else if actives == 1 then OpenTieWindow
    else if actives == 0 && checkingForTie then MarkTied
    else NoChange
  }

  /** The controller's record of a match: which roster entries are active,
      the mode and tie flags, the `GameEnd` calls made so far (their
      arguments, in order) and the tie windows still open. */
  datatype Roster = Roster(
    alive: seq<bool>, singleplayer: bool, checkingForTie: bool, tied: bool,
    gameEnds: seq<bool>, openWindows: nat)

  /** Roster entry k dies. Only entry k leaves the race; the mode never
      changes; at most one game end is added after the earlier ones; windows
      only open; and a tie, once marked, stays. */
  function Die(m: Roster, k: nat): (r: Roster)
    requires k < |m.alive|
    ensures r.alive == m.alive[k := false] && r.singleplayer == m.singleplayer
    ensures |m.gameEnds| <= |r.gameEnds| <= |m.gameEnds| + 1 && r.gameEnds[..|m.gameEnds|] == m.gameEnds
    ensures r.openWindows >= m.openWindows && (m.tied ==> r.tied)
  {
    var alive := m.alive[k := false];
    var m1 := m.(alive := alive);
    match DeathDecision(m.singleplayer, CountTrue(alive), m.checkingForTie)
    case EndGame => m1.(gameEnds := m.gameEnds + [false])
    case OpenTieWindow => m1.(checkingForTie := true, openWindows := m.openWindows + 1)
    case MarkTied => m1.(tied := true)
    case NoChange => m1
  }

  /** A tie window's wait is over: the window closes and the game ends. */
  function TieWindowEnd(m: Roster): (r: Roster)
    requires m.openWindows > 0
    ensures r.alive == m.alive && r.singleplayer == m.singleplayer && r.tied == m.tied
    ensures !r.checkingForTie && r.openWindows < m.openWindows
    ensures |r.gameEnds| == |m.gameEnds| + 1 && r.gameEnds[..|m.gameEnds|] == m.gameEnds && !r.gameEnds[|m.gameEnds|]
  {
    m.(checkingForTie := false, gameEnds := m.gameEnds + [false], openWindows := m.openWindows - 1)
  }

  /** Singleplayer: every death ends the game, and the tie flags stay. */
  lemma SingleplayerDeathEnds(m: Roster, k: nat)
    requires m.singleplayer && k < |m.alive|
    ensures Die(m, k).gameEnds == m.gameEnds + [false]
    ensures Die(m, k).tied == m.tied && Die(m, k).checkingForTie == m.checkingForTie
  {
  }

  /** `tied` is only ever raised by a multiplayer death that leaves nobody
      active while a tie window is open. */
  lemma TieOnlyInWindow(m: Roster, k: nat)
    requires k < |m.alive| && !m.tied
    ensures Die(m, k).tied <==> !m.singleplayer && m.checkingForTie && CountTrue(m.alive[k := false]) == 0
  {
  }

  /** The last two active players die, the second while the window the first
      opened is still open: the match is tied, and no game end has happened
      yet (it comes when the window closes). */
  lemma {:induction false} LastTwoDieInWindowTie(m: Roster, i: nat, j: nat)
    requires !m.singleplayer && i < |m.alive| && j < |m.alive| && i != j
    requires m.alive[i] && m.alive[j] && CountTrue(m.alive) == 2
    ensures Die(Die(m, i), j).tied
    ensures Die(Die(m, i), j).gameEnds == m.gameEnds
    ensures CountTrue(Die(Die(m, i), j).alive) == 0
  {
    CountTrueClear(m.alive, i);
    var a1 := m.alive[i := false];
    assert a1[j];
    CountTrueClear(a1, j);
  }

  /** The window closes before the second death: the game ends once, when it
      closes, and the later death leaves `tied` as it was. */
  lemma {:induction false} SecondDeathAfterWindowNoTie(m: Roster, i: nat, j: nat)
    requires !m.singleplayer && i < |m.alive| && j < |m.alive| && i != j
    requires m.alive[i] && m.alive[j] && CountTrue(m.alive) == 2
    ensures Die(m, i).openWindows > 0 &&
            var r := Die(TieWindowEnd(Die(m, i)), j);
              r.tied == m.tied && !r.checkingForTie && r.gameEnds == m.gameEnds + [false]
  {
    CountTrueClear(m.alive, i);
    var a1 := m.alive[i := false];
    assert a1[j];
    CountTrueClear(a1, j);
  }

  /** Three active players, two die: the first death changes nothing but the
      roster, the second opens the window, and when it closes the game ends
      untied with the third still active and alone. */
  lemma {:induction false} ThreePlayersOneSurvivor(m: Roster, i: nat, j: nat, l: nat)
    requires !m.singleplayer && !m.tied && !m.checkingForTie
    requires i < |m.alive| && j < |m.alive| && l < |m.alive| && i != j && j != l && i != l
    requires m.alive[i] && m.alive[j] && m.alive[l] && CountTrue(m.alive) == 3
    ensures Die(m, i) == m.(alive := m.alive[i := false])
    ensures Die(Die(m, i), j).openWindows > 0 &&
            var r := TieWindowEnd(Die(Die(m, i), j));
              && !r.tied && r.gameEnds == m.gameEnds + [false]
              && r.alive[l] && CountTrue(r.alive) == 1 && !r.alive[i] && !r.alive[j]
  {
    CountTrueClear(m.alive, i);
    var a1 := m.alive[i := false];
    assert a1[j];
    CountTrueClear(a1, j);
  }

  /** A death of a player already dead is counted again: with one other player
      active it opens a second tie window, so the game will end twice. */
  lemma {:induction false} RepeatedDeathReopensWindow(m: Roster, k: nat)
    requires !m.singleplayer && k < |m.alive| && CountTrue(m.alive[k := false]) == 1
    ensures Die(Die(m, k), k).openWindows == m.openWindows + 2
  {
    assert m.alive[k := false][k := false] == m.alive[k := false];
  }

  /* ---------------------------------------------------------------------
     The objects: the match controller and the player component.
     --------------------------------------------------------------------- */

  /** The `active` flags of a list of players, in roster order. */
  function ActiveFlags(ps: seq<Player>): seq<bool>
    reads ps
  {
    seq(|ps|, i reads ps requires 0 <= i < |ps| => ps[i].active)
  }

  /** The controller members the player component uses. */
  class MatchController {
    var players: seq<Player>
    var singleplayerMode: bool
    var checkingForTie: bool
    var tied: bool
    var godMode: bool
    var spawnLocations: seq<Vec3>
    /** The argument of every `GameEnd` call, in order. */
    var gameEndCalls: seq<bool>
    /** Tie windows opened by a death and not yet past their wait. */
    ghost var openTieWindows: nat

    constructor (singleplayerMode: bool, godMode: bool, spawnLocations: seq<Vec3>)
      ensures this.singleplayerMode == singleplayerMode && this.godMode == godMode
      ensures this.spawnLocations == spawnLocations
      ensures players == [] && !checkingForTie && !tied && gameEndCalls == [] && openTieWindows == 0
    {
      this.singleplayerMode := singleplayerMode;
      this.godMode := godMode;
      this.spawnLocations := spawnLocations;
      players := [];
      checkingForTie := false;
      tied := false;
      gameEndCalls := [];
      openTieWindows := 0;
    }

    /** Starts the end-of-game sequence; the sequence itself is presentation. */
    method GameEnd(won: bool)
      modifies this`gameEndCalls
      ensures gameEndCalls == old(gameEndCalls) + [won]
    {
      gameEndCalls := gameEndCalls + [won];
    }
  }

  /** The player component. */
  class Player {
    const manager: MatchController
    const possibleColors: seq<Color>
    const moveSpeed: real
    var playerColor: Color
    var position: Vec3

    var active: bool
    var canMove: bool
    var canJump: bool
    var tauntIntro: bool
    var isTaunting: bool
    var stunned: bool
    var onGround: bool
    var canCheckOnGround: bool
    var leftWall: bool
    var rightWall: bool

    var moveInput: Vec2
    var currentInputVector: Vec2

    /** The coroutines started and not yet past their wait. */
    ghost var pendingStunTimers: nat
    ghost var pendingGroundChecks: nat

    function Flags(): PlayerFlags
      reads this
    {
      PlayerFlags(active, canMove, canJump, tauntIntro, isTaunting, stunned, onGround, canCheckOnGround)
    }

    /** The component as the scene creates it: the public and serialized
        flags start as configured in the scene (`active` defaults to true),
        the private ones off. */
    constructor (manager: MatchController, possibleColors: seq<Color>, moveSpeed: real,
                 active: bool, canMove: bool, canJump: bool, tauntIntro: bool,
                 stunned: bool, onGround: bool, leftWall: bool)
      ensures this.manager == manager && this.possibleColors == possibleColors && this.moveSpeed == moveSpeed
      ensures Flags() == PlayerFlags(active, canMove, canJump, tauntIntro, false, stunned, onGround, false)
      ensures this.leftWall == leftWall && !rightWall
      ensures pendingStunTimers == 0 && pendingGroundChecks == 0
    {
      this.manager := manager;
      this.possibleColors := possibleColors;
      this.moveSpeed := moveSpeed;
      this.active := active;
      this.canMove := canMove;
      this.canJump := canJump;
      this.tauntIntro := tauntIntro;
      isTaunting := false;
      this.stunned := stunned;
      this.onGround := onGround;
      canCheckOnGround := false;
      this.leftWall := leftWall;
      rightWall := false;
      moveInput := Vec2(0.0, 0.0);
      currentInputVector := Vec2(0.0, 0.0);
      pendingStunTimers := 0;
      pendingGroundChecks := 0;
    }

    /** Joins the match: the player enters the roster, stands on the ground
        able to jump in the join phase, and takes the spawn location and
        colour of its join slot when that slot is one of the first four.
        `playerCount` is the input manager's count, this player included. */
    method InitialisePlayer(playerCount: int)
      requires 0 <= playerCount - 1 <= 3 ==>
                 playerCount - 1 < |manager.spawnLocations| && playerCount - 1 < |possibleColors|
      modifies manager`players, this`onGround, this`canJump, this`tauntIntro, this`position, this`playerColor
      ensures manager.players == old(manager.players) + [this]
      ensures Flags() == Apply(old(Flags()), Initialise)
      ensures 0 <= playerCount - 1 <= 3 ==>
                position == manager.spawnLocations[playerCount - 1] && playerColor == possibleColors[playerCount - 1]
      ensures !(0 <= playerCount - 1 <= 3) ==> position == old(position) && playerColor == old(playerColor)
    {
      var playersJoined := playerCount - 1;
      manager.players := manager.players + [this];
      onGround := true;
      canJump := true;
      tauntIntro := true;
      if 0 <= playersJoined <= 3 {
        position := manager.spawnLocations[playersJoined];
        playerColor := possibleColors[playersJoined];
      }
    }

    /** The input system's new movement vector. */
    method OnMove(value: Vec2)
      modifies this`moveInput
      ensures moveInput == value
    {
      moveInput := value;
    }

    /** One frame. For a live player: re-checks the ground while airborne and
        allowed to, records the wall casts, taunts on down input while
        grounded and not stunned, and when airborne over another player stuns
        it. `groundHit`, `leftHit`, `rightHit` are the box-cast results and
        `below` the player the downward player cast hits, if any. */
    method Update(groundHit: bool, leftHit: bool, rightHit: bool, below: Player?)
      requires below != this
      modifies this`onGround, this`leftWall, this`rightWall, this`canMove, this`canJump, this`isTaunting
      modifies if below == null then {} else {below}
      ensures Flags() == Apply(old(Flags()), Tick(groundHit, moveInput.y < 0.0))
      ensures old(active) ==> leftWall == leftHit && rightWall == rightHit
      ensures !old(active) ==> leftWall == old(leftWall) && rightWall == old(rightWall)
      ensures below != null && old(active) && !onGround ==>
                && below.Flags() == Apply(old(below.Flags()), StunStart)
                && below.pendingStunTimers == old(below.pendingStunTimers) + 1
      ensures below != null && !(old(active) && !onGround) ==> unchanged(below)
      ensures below != null ==>
                && below.position == old(below.position) && below.playerColor == old(below.playerColor)
                && below.moveInput == old(below.moveInput) && below.currentInputVector == old(below.currentInputVector)
                && below.leftWall == old(below.leftWall) && below.rightWall == old(below.rightWall)
                && below.pendingGroundChecks == old(below.pendingGroundChecks)
    {
      if active {
        if !onGround && canCheckOnGround {
          onGround := groundHit;
        }
        leftWall := leftHit;
        rightWall := rightHit;
        if onGround && !stunned {
          if moveInput.y < 0.0 {
            Taunt();
          }
        }
        if !onGround {
          if below != null {
            JumpOnPlayer(below);
          }
        }
      }
    }

    /** Bounces off the player below and stuns it. */
    method JumpOnPlayer(other: Player)
      requires other != this
      modifies other`canMove, other`stunned, other`pendingStunTimers
      ensures other.Flags() == Apply(old(other.Flags()), StunStart)
      ensures other.pendingStunTimers == old(other.pendingStunTimers) + 1
    {
      other.GetStunned();
    }

    /** The physics step: moves the player only while it may move.
        `smoothed` is the smoothing filter's next input vector and `dt` the
        frame time; the result is the horizontal movement applied. */
    method FixedUpdate(smoothed: Vec2, dt: real) returns (movementX: real)
      modifies this`currentInputVector, this`position
      ensures !MayMove(Flags()) ==>
                movementX == 0.0 && position == old(position) && currentInputVector == old(currentInputVector)
      ensures MayMove(Flags()) ==> MoveEffect(smoothed, dt, movementX)
      ensures leftWall ==> movementX >= 0.0
      ensures rightWall ==> movementX <= 0.0
      ensures position == Add(old(position), Vec3(movementX * moveSpeed * dt, 0.0, 0.0))
    {
      if canMove && active {
        movementX := MovePlayer(smoothed, dt);
      } else {
        movementX := 0.0;
      }
    }

    /** The guard of MovePlayer: input toward a free side, or no input with
        both sides free. */
    predicate MoveGuard()
      reads this
    {
      || (!leftWall && moveInput.x < 0.0)
      || (!rightWall && moveInput.x > 0.0)
      || (!leftWall && !rightWall && moveInput.x == 0.0)
    }

    /** What MovePlayer does to the input vector and the position, with
        `movementX` the horizontal movement it applies: nothing without its
        guard; with it, the input vector is smoothed when grounded or
        steering, and the movement is the vector's x, zeroed toward a touched
        wall. */
    twostate predicate MoveEffect(smoothed: Vec2, dt: real, movementX: real)
      reads this
    {
      && (!old(MoveGuard()) ==>
            movementX == 0.0 && position == old(position) && currentInputVector == old(currentInputVector))
      && (old(MoveGuard()) ==>
            && currentInputVector == (if onGround || moveInput.x != 0.0 then smoothed else old(currentInputVector))
            && movementX == (if (leftWall && currentInputVector.x < 0.0) || (rightWall && currentInputVector.x > 0.0)
                             then 0.0 else currentInputVector.x))
      && position == Add(old(position), Vec3(movementX * moveSpeed * dt, 0.0, 0.0))
    }

    /** Moves the player horizontally by the smoothed input, never toward a
        wall it touches. */
    method MovePlayer(smoothed: Vec2, dt: real) returns (movementX: real)
      modifies this`currentInputVector, this`position
      ensures MoveEffect(smoothed, dt, movementX)
      ensures leftWall ==> movementX >= 0.0
      ensures rightWall ==> movementX <= 0.0
      ensures position == Add(old(position), Vec3(movementX * moveSpeed * dt, 0.0, 0.0))
    {
      movementX := 0.0;
      if MoveGuard() {
        if onGround {
          currentInputVector := smoothed;
        } else if !onGround && moveInput.x != 0.0 {
          currentInputVector := smoothed;
        }
        movementX := currentInputVector.x;
        if (leftWall && movementX < 0.0) || (rightWall && movementX > 0.0) {
          movementX := 0.0;
        }
        position := Add(position, Vec3(movementX * moveSpeed * dt, 0.0, 0.0));
      } else {
        assert movementX * moveSpeed * dt == 0.0;
        assert Add(position, Vec3(0.0, 0.0, 0.0)) == position;
      }
    }

    /** Starts a taunt unless one is running. */
    method Taunt()
      modifies this`canMove, this`canJump, this`isTaunting
      ensures Flags() == Apply(old(Flags()), TauntStart)
    {
      if !isTaunting {
        canMove := false;
        canJump := false;
        isTaunting := true;
      }
    }

    /** The rest of a taunt sequence, after its wait: the horizontal input is
        zeroed when the player can move, movement is restored outside the join
        phase, jumping is restored and the taunt is over. */
    method TauntSequenceEnd()
      requires isTaunting
      modifies this`canMove, this`canJump, this`isTaunting, this`currentInputVector
      ensures Flags() == Apply(old(Flags()), TauntEnd)
      ensures currentInputVector == if old(canMove) then old(currentInputVector).(x := 0.0) else old(currentInputVector)
    {
      if canMove {
        currentInputVector := currentInputVector.(x := 0.0);
      }
      if !tauntIntro {
        canMove := true;
      }
      canJump := true;
      isTaunting := false;
    }

    /** Jumps when grounded, allowed to jump, alive and not stunned; the ground
        is not re-checked until the delay started here is over. */
    method OnJump()
      modifies this`onGround, this`canCheckOnGround, this`pendingGroundChecks
      ensures Flags() == Apply(old(Flags()), Jump)
      ensures pendingGroundChecks == old(pendingGroundChecks) + (if JumpAllowed(old(Flags())) then 1 else 0)
    {
      if onGround && canJump && active && !stunned {
        canCheckOnGround := false;
        onGround := false;
        pendingGroundChecks := pendingGroundChecks + 1;
      }
    }

    /** The delay after a jump is over: the ground may be re-checked. */
    method SetCanCheckOnGroundEnd()
      requires pendingGroundChecks > 0
      modifies this`canCheckOnGround, this`pendingGroundChecks
      ensures Flags() == Apply(old(Flags()), GroundCheckDelayEnd)
      ensures pendingGroundChecks == old(pendingGroundChecks) - 1
    {
      canCheckOnGround := true;
      pendingGroundChecks := pendingGroundChecks - 1;
    }

    /** Another player landed on this one: it cannot move and is stunned
        until the timer started here runs out. */
    method GetStunned()
      modifies this`canMove, this`stunned, this`pendingStunTimers
      ensures Flags() == Apply(old(Flags()), StunStart)
      ensures pendingStunTimers == old(pendingStunTimers) + 1
    {
      canMove := false;
      stunned := true;
      pendingStunTimers := pendingStunTimers + 1;
    }

    /** A stun timer ran out: the player can move and is no longer stunned,
        even if another stun is still running. */
    method StunTimerEnd()
      requires pendingStunTimers > 0
      modifies this`canMove, this`stunned, this`pendingStunTimers
      ensures Flags() == Apply(old(Flags()), StunEnd)
      ensures pendingStunTimers == old(pendingStunTimers) - 1
    {
      canMove := true;
      stunned := false;
      pendingStunTimers := pendingStunTimers - 1;
    }

    /** The number of roster players that are still active. */
    method CountActivePlayers() returns (actives: nat)
      ensures actives == CountTrue(ActiveFlags(manager.players))
    {
      var ps := manager.players;
      actives := 0;
      var i := 0;
      while i < |ps|
        invariant 0 <= i <= |ps|
        invariant actives == CountTrue(ActiveFlags(ps)[..i])
      {
        assert ActiveFlags(ps)[..i + 1][..i] == ActiveFlags(ps)[..i];
        if ps[i].active {
          actives := actives + 1;
        }
        i := i + 1;
      }
      assert ActiveFlags(ps)[..i] == ActiveFlags(ps);
    }

    /** What the controller does about a death, decided by `DeathDecision`
        from the number of roster players active now. */
    twostate predicate DeathReaction()
      reads manager, manager.players
    {
      var action := DeathDecision(manager.singleplayerMode, CountTrue(ActiveFlags(manager.players)),
                                  old(manager.checkingForTie));
      && manager.gameEndCalls == old(manager.gameEndCalls) + (if action == EndGame then [false] else [])
      && manager.checkingForTie == (action == OpenTieWindow || old(manager.checkingForTie))
      && manager.tied == (action == MarkTied || old(manager.tied))
      && manager.openTieWindows == old(manager.openTieWindows) + (if action == OpenTieWindow then 1 else 0)
    }

    /** The effect of a death: this player is out (and, in the roster, only
        the entries that are this player change), and the controller reacts
        to the count of active players that follows. */
    twostate predicate DeathEffect()
      reads this, manager, manager.players
    {
      && Flags() == Apply(old(Flags()), Death)
      && manager.players == old(manager.players)
      && (forall i :: 0 <= i < |manager.players| ==>
            manager.players[i].active == (manager.players[i] != this && old(manager.players[i].active)))
      && DeathReaction()
    }

    /** The player is out: it stops, and the controller reacts. */
    method PlayerDeath()
      modifies this`active, this`canMove,
               manager`gameEndCalls, manager`checkingForTie, manager`tied, manager`openTieWindows
      ensures DeathEffect()
    {
      active := false;
      canMove := false;
      ReactToDeath();
    }

    /** The second half of PlayerDeath: singleplayer ends the game; in
        multiplayer, one player left opens the tie window, and none left while
        it is open marks the match tied. */
    method ReactToDeath()
      modifies manager`gameEndCalls, manager`checkingForTie, manager`tied, manager`openTieWindows
      ensures DeathReaction()
    {
      if manager.singleplayerMode {
        manager.GameEnd(false);
      } else {
        var actives := CountActivePlayers();
        if actives == 1 {
          LastPlayerLeftSequenceStart();
        } else if actives == 0 {
          if manager.checkingForTie {
            manager.tied := true;
          }
        }
      }
    }

    /** LastPlayerLeftSequence up to its wait: the tie window opens. */
    method LastPlayerLeftSequenceStart()
      modifies manager`checkingForTie, manager`openTieWindows
      ensures manager.checkingForTie
      ensures manager.openTieWindows == old(manager.openTieWindows) + 1
    {
      manager.checkingForTie := true;
      manager.openTieWindows := manager.openTieWindows + 1;
    }

    /** LastPlayerLeftSequence after its wait: the tie window closes, and only
        then the game ends. */
    method LastPlayerLeftSequenceEnd()
      requires manager.openTieWindows > 0
      modifies manager`checkingForTie, manager`gameEndCalls, manager`openTieWindows
      ensures !manager.checkingForTie
      ensures manager.gameEndCalls == old(manager.gameEndCalls) + [false]
      ensures manager.openTieWindows == old(manager.openTieWindows) - 1
      ensures RosterOf(manager) == TieWindowEnd(old(RosterOf(manager)))
    {
      manager.checkingForTie := false;
      manager.GameEnd(false);
      manager.openTieWindows := manager.openTieWindows - 1;
    }

    /** A trigger contact: an obstacle kills the player unless god mode is on;
        anything else changes nothing. */
    method OnTriggerEnter(hitObstacle: bool)
      modifies this`active, this`canMove,
               manager`gameEndCalls, manager`checkingForTie, manager`tied, manager`openTieWindows
      ensures hitObstacle && !manager.godMode ==> DeathEffect()
      ensures !(hitObstacle && !manager.godMode) ==> unchanged(this, manager)
    {
      if hitObstacle {
        if !manager.godMode {
          PlayerDeath();
        }
      }
    }
  }

  /** The controller's state read as a `Roster` value. */
  ghost function RosterOf(m: MatchController): Roster
    reads m, m.players
  {
    Roster(ActiveFlags(m.players), m.singleplayerMode, m.checkingForTie, m.tied, m.gameEndCalls, m.openTieWindows)
  }

  /** A death of the player at roster index k, the only index holding it, is
      `Die` on the controller's roster value: the tie scenarios proved about
      `Die` are about the class. */
  twostate lemma DeathIsDie(p: Player, k: nat)
    requires k < |old(p.manager.players)| && old(p.manager.players)[k] == p
    requires forall i :: 0 <= i < |old(p.manager.players)| && i != k ==> old(p.manager.players)[i] != p
    requires p.DeathEffect() && p.manager.singleplayerMode == old(p.manager.singleplayerMode)
    ensures RosterOf(p.manager) == Die(old(RosterOf(p.manager)), k)
  {
    var ps := p.manager.players;
    var before := old(ActiveFlags(p.manager.players));
    assert ActiveFlags(ps) == before[k := false];
  }
}
