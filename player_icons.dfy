/** The lobby's row of player icons: the first n are shown, the rest hidden. */
module Icons {
  import opened Common

  /** The icon states for n players out of `len` icons. */
  function IconStates(len: nat, n: int): seq<bool> {
    seq(len, i => i < n)
  }

  /** The number of icons shown is the player count, clamped to [0, len]. */
  lemma {:induction false} IconsShown(len: nat, n: int)
    ensures CountTrue(IconStates(len, n)) == if n <= 0 then 0 else if n >= len then len else n
  {
    if len > 0 {
      IconsShown(len - 1, n);
      assert IconStates(len, n)[..len - 1] == IconStates(len - 1, n);
    }
  }

  /** The icon component; each element of `playerIcons` is whether that
      icon object is active. */
  class PlayerIcons {
    const playerIcons: array<bool>

    constructor (playerIcons: array<bool>)
      ensures this.playerIcons == playerIcons
    {
      this.playerIcons := playerIcons;
    }

    /** Hides every icon, then shows the first `activePlayers`. A count above
        the number of icons would index past the array. */
    method UpdatePlayerIcons(activePlayers: int)
      requires activePlayers <= playerIcons.Length
      modifies playerIcons
      ensures forall i :: 0 <= i < playerIcons.Length ==> playerIcons[i] == (i < activePlayers)
      ensures playerIcons[..] == IconStates(playerIcons.Length, activePlayers)
    {
      var i := 0;
      while i < playerIcons.Length
        invariant 0 <= i <= playerIcons.Length
        invariant forall j :: 0 <= j < i ==> !playerIcons[j]
      {
        playerIcons[i] := false;
        i := i + 1;
      }
      i := 0;
      while i < activePlayers
        invariant 0 <= i <= playerIcons.Length
        invariant i == 0 || i <= activePlayers
        invariant forall j :: 0 <= j < playerIcons.Length ==> playerIcons[j] == (j < i)
      {
        playerIcons[i] := true;
        i := i + 1;
      }
    }
  }
}
