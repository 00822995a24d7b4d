// The game record and its per-frame update, mutating its fields in the same
// order as the Go implementation. `State` gives the fields as a `Frame`, and
// `Update` is proved to perform `Simulation.Step` on it.
module DoodleJump {
  import opened Simulation

  class Game {
    var playerX: real
    var playerY: real
    var playerSpeedY: real
    var facingRight: bool
    var platforms: seq<Platform>
    var highestPlatformY: real

    function State(): Frame
      reads this
    {
      Frame(playerX, playerY, playerSpeedY, facingRight, platforms, highestPlatformY)
    }

    /** NewGame: the player stands on the floor line, facing right, with four
      * platforms and the watermark at the topmost one. */
    constructor ()
      ensures State() == Initial()
      ensures Playable(State())
    {
      platforms := [
        Platform((ScreenWidth / 2) as real, 550.0),
        Platform(0.0, 500.0),
        Platform(200.0, 400.0),
        Platform(300.0, 300.0)
      ];
      playerX := (ScreenWidth / 2) as real;
      playerY := ScreenHeight as real - 60.0;
      playerSpeedY := 0.0;
      facingRight := true;
      highestPlatformY := 300.0;
    }

    /** One frame. `keys` are the arrow keys held, `sprites` the image sizes,
      * and `rolls(k)` the value rand.Intn returns for the k-th platform
      * spawned in this frame. The blocks of the frame are the methods below,
      * called in the source's order. */
    method Update(keys: Keys, sprites: Sprites, rolls: nat -> int)
      requires sprites.platformDx < ScreenWidth
      requires RollsInRange(rolls, sprites)
      modifies this
      ensures State() == Step(old(State()), keys, sprites, rolls)
      ensures MidlineY <= playerY <= FloorY
      ensures Playable(old(State())) ==> Playable(State())
    {
      ghost var start := State();
      ApplyGravity();
      LandOnPlatforms(sprites);
      Move(keys);
      ScrollCamera(sprites, rolls);
      if Playable(start) {
        StepPreservesPlayable(start, keys, sprites, rolls);
      }
    }

    /** Gravity integration and floor bounce. */
    method ApplyGravity()
      modifies this
      ensures State() == Fall(old(State()))
    {
      playerY := playerY + playerSpeedY;
      playerSpeedY := playerSpeedY + Gravity;

      if playerY >= ScreenHeight as real - 60.0 {
        playerY := ScreenHeight as real - 60.0;
        playerSpeedY := JumpSpeed;
      }
    }

    /** The swept landing test against every platform, in list order. */
    method LandOnPlatforms(sprites: Sprites)
      modifies this
      ensures State() == LandOn(old(State()), sprites)
    {
      ghost var start := State();
      var i := 0;
      while i < |platforms|
        invariant 0 <= i <= |platforms|
        invariant State() == start.(playerY := playerY, playerSpeedY := playerSpeedY)
        invariant (playerY, playerSpeedY) == Landed(platforms[..i], playerX, start.playerY, start.playerSpeedY, sprites)
      {
        var platform := platforms[i];
        var playerWidth := sprites.playerDx as real * PlayerScale;
        var playerHeight := sprites.playerDy as real * PlayerScale;
        var platformWidth := sprites.platformDx as real;

        if playerSpeedY > 0.0
          && playerY + playerHeight > platform.y
          && playerY + playerHeight - playerSpeedY < platform.y
          && playerX + playerWidth > platform.x
          && playerX < platform.x + platformWidth
        {
          playerY := platform.y - playerHeight;
          playerSpeedY := JumpSpeed;
        }
        assert platforms[..i + 1][..i] == platforms[..i];
        i := i + 1;
      }
      assert platforms[..i] == platforms;
    }

    /** Left and right movement with screen wrap. */
    method Move(keys: Keys)
      modifies this
      ensures State() == Steer(old(State()), keys)
    {
      if keys.left {
        playerX := playerX - 5.0;
        facingRight := false;

        if playerX < -40.0 {
          playerX := 480.0;
        }
      }

      if keys.right {
        playerX := playerX + 5.0;
        facingRight := true;

        if playerX > 520.0 {
          playerX := 0.0;
        }
      }
    }

    /** Camera scroll, platform generation and pruning, when the player has
      * climbed above the midline. */
    method ScrollCamera(sprites: Sprites, rolls: nat -> int)
      requires sprites.platformDx < ScreenWidth
      requires RollsInRange(rolls, sprites)
      modifies this
      ensures State() == Scroll(old(State()), sprites, rolls)
    {
      if playerY < MidlineY {
        var offset := MidlineY - playerY;
        playerY := MidlineY;
        ShiftPlatforms(offset);
        highestPlatformY := highestPlatformY + offset;
        SpawnPlatforms(sprites, rolls);
        PrunePlatforms();
      }
    }

    /** Moves every platform down by `offset`, in place. */
    method ShiftPlatforms(offset: real)
      modifies this
      ensures State() == old(State()).(platforms := Shifted(old(platforms), offset))
    {
      ghost var before := platforms;
      var j := 0;
      while j < |platforms|
        invariant 0 <= j <= |platforms| == |before|
        invariant State() == old(State()).(platforms := platforms)
        invariant forall t :: 0 <= t < j ==> platforms[t] == before[t].(y := before[t].y + offset)
        invariant forall t :: j <= t < |before| ==> platforms[t] == before[t]
      {
        platforms := platforms[j := platforms[j].(y := platforms[j].y + offset)];
        j := j + 1;
      }
      assert platforms == Shifted(before, offset);
    }

    /** Appends a row of platforms per 100-px band while the watermark is above
      * the top of the screen. */
    method SpawnPlatforms(sprites: Sprites, rolls: nat -> int)
      requires sprites.platformDx < ScreenWidth
      requires RollsInRange(rolls, sprites)
      modifies this
      ensures var (spawned, h) := Spawned(old(highestPlatformY), rolls, 0);
        State() == old(State()).(platforms := old(platforms) + spawned, highestPlatformY := h)
    {
      ghost var before := platforms;
      ghost var watermark := highestPlatformY;
      var k: nat := 0;
      while highestPlatformY > 0.0
        invariant State() == old(State()).(platforms := platforms, highestPlatformY := highestPlatformY)
        invariant platforms + Spawned(highestPlatformY, rolls, k).0 == before + Spawned(watermark, rolls, 0).0
        invariant Spawned(highestPlatformY, rolls, k).1 == Spawned(watermark, rolls, 0).1
        decreases highestPlatformY.Floor
      {
        var newPlatform := Platform(rolls(k) as real, highestPlatformY - 100.0);
        platforms := platforms + [newPlatform];
        highestPlatformY := highestPlatformY - 100.0;
        k := k + 1;
      }
    }

    /** Rebuilds the platform list without the platforms below the screen. */
    method PrunePlatforms()
      modifies this
      ensures State() == old(State()).(platforms := Kept(old(platforms)))
    {
      var newPlatforms := [];
      var n := 0;
      while n < |platforms|
        invariant 0 <= n <= |platforms|
        invariant State() == old(State())
        invariant newPlatforms == Kept(platforms[..n])
      {
        var platform := platforms[n];
        if platform.y < ScreenHeight as real {
          newPlatforms := newPlatforms + [platform];
        }
        assert platforms[..n + 1][..n] == platforms[..n];
        n := n + 1;
      }
      assert platforms[..n] == platforms;
      platforms := newPlatforms;
    }
  }
}
