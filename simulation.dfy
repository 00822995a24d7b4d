// The per-frame rules of the platformer, stated as pure functions over a
// snapshot of the game's simulation fields. The class in game.dfy is proved
// to perform exactly `Step` on its fields; the lemmas here say what `Step`
// and each of its phases guarantee.
module Simulation {

  // ---------------------------------------------------------------------------
  // Constants of the game (main.go: screenWidth, screenHeight, gravity,
  // jumpSpeed, playerScale, and the literals used by Update).
  // ---------------------------------------------------------------------------

  const ScreenWidth: int := 480
  const ScreenHeight: int := 640
  const Gravity: real := 0.4
  const JumpSpeed: real := -18.0
  const PlayerScale: real := 0.25

  /** screenHeight - 60: the floor line the player bounces off. */
  const FloorY: real := 580.0
  /** screenHeight / 2: the camera keeps the player at or below this line. */
  const MidlineY: real := 320.0
  /** Horizontal distance moved per frame while an arrow key is held. */
  const StepX: real := 5.0
  const WrapLeftLimit: real := -40.0
  const WrapLeftTo: real := 480.0
  const WrapRightLimit: real := 520.0
  const WrapRightTo: real := 0.0
  /** Vertical spacing of the platform rows generated above the screen. */
  const BandHeight: real := 100.0

  datatype Option<T> = None | Some(value: T)

  /** A platform's top-left corner; all platforms share one image size. */
  datatype Platform = Platform(x: real, y: real)

  /** The simulation fields of the game record. */
  datatype Frame = Frame(
    playerX: real,
    playerY: real,
    playerSpeedY: real,
    facingRight: bool,
    platforms: seq<Platform>,
    highestPlatformY: real)

  /** The two arrow keys polled each frame. */
  datatype Keys = Keys(left: bool, right: bool)

  /** Native pixel sizes of the player and platform images. */
  datatype Sprites = Sprites(playerDx: nat, playerDy: nat, platformDx: nat)
  {
    function PlayerWidth(): real { playerDx as real * PlayerScale }
    function PlayerHeight(): real { playerDy as real * PlayerScale }
    function PlatformWidth(): real { platformDx as real }
  }

  /** Every x a spawned platform may take: rand.Intn(screenWidth - platformDx). */
  ghost predicate RollsInRange(rolls: nat -> int, s: Sprites)
  {
    forall k: nat :: 0 <= rolls(k) < ScreenWidth - s.platformDx
  }

  // ---------------------------------------------------------------------------
  // Initial state (NewGame)
  // ---------------------------------------------------------------------------

  /** The dimension-independent facts every frame of a running game satisfies. */
  predicate Playable(f: Frame)
  {
    && MidlineY <= f.playerY <= FloorY
    && WrapLeftLimit <= f.playerX <= WrapRightLimit
    && (forall p :: p in f.platforms ==> p.y < ScreenHeight as real)
    && f.highestPlatformY > -BandHeight
  }

  function Initial(): (r: Frame)
    ensures Playable(r)
    ensures r.playerY == FloorY && r.playerSpeedY == 0.0 && r.facingRight
    ensures |r.platforms| == 4 && r.highestPlatformY == r.platforms[3].y
  {
    Frame(
      (ScreenWidth / 2) as real, FloorY, 0.0, true,
      [ Platform((ScreenWidth / 2) as real, 550.0),
        Platform(0.0, 500.0),
        Platform(200.0, 400.0),
        Platform(300.0, 300.0) ],
      300.0)
  }

  // ---------------------------------------------------------------------------
  // Phases 1 and 2: gravity integration and floor bounce
  // ---------------------------------------------------------------------------

  function Fall(f: Frame): (r: Frame)
    // the floor line caps the player
    ensures r.playerY <= FloorY
    // a bounce happens exactly when the integrated position reaches the floor
    ensures f.playerY + f.playerSpeedY >= FloorY <==> (r.playerY == FloorY && r.playerSpeedY == JumpSpeed)
    // otherwise position and speed follow semi-implicit Euler integration
    ensures f.playerY + f.playerSpeedY < FloorY ==>
      r.playerY == f.playerY + f.playerSpeedY && r.playerSpeedY == f.playerSpeedY + Gravity
    // nothing but the vertical state changes
    ensures r == f.(playerY := r.playerY, playerSpeedY := r.playerSpeedY)
  {
    var y := f.playerY + f.playerSpeedY;
    var v := f.playerSpeedY + Gravity;
    if y >= FloorY then f.(playerY := FloorY, playerSpeedY := JumpSpeed)
    else f.(playerY := y, playerSpeedY := v)
  }

  // ---------------------------------------------------------------------------
  // Phase 3: swept landing test against every platform
  // ---------------------------------------------------------------------------

  /** The landing guard of one loop iteration, for a player at (x, y) falling at v. */
  predicate Lands(p: Platform, x: real, y: real, v: real, s: Sprites)
    // only a falling player lands, and the snap target lies strictly above y
    ensures Lands(p, x, y, v, s) ==> v > 0.0 && p.y - s.PlayerHeight() < y
  {
    && v > 0.0
    && y + s.PlayerHeight() > p.y
    && y + s.PlayerHeight() - v < p.y
    && x + s.PlayerWidth() > p.x
    && x < p.x + s.PlatformWidth()
  }

  /** The vertical state after the landing loop has visited every platform of
    * `ps` in order, starting from position y and speed v. */
  function Landed(ps: seq<Platform>, x: real, y: real, v: real, s: Sprites): (r: (real, real))
    // the loop never moves the player down, and any change ends in a jump
    ensures r.0 <= y
    ensures r == (y, v) || r.1 == JumpSpeed
    decreases |ps|
  {
    if ps == [] then (y, v)
    else
      var (y', v') := Landed(ps[..|ps| - 1], x, y, v, s);
      var p := ps[|ps| - 1];
      if Lands(p, x, y', v', s) then (p.y - s.PlayerHeight(), JumpSpeed) else (y', v')
  }

  /** Reference definition: the index of the first platform whose guard holds
    * for the vertical state the loop starts from. */
  function FirstLanding(ps: seq<Platform>, x: real, y: real, v: real, s: Sprites): (r: Option<nat>)
    ensures r.Some? ==> r.value < |ps| && Lands(ps[r.value], x, y, v, s)
    ensures r.Some? ==> forall j :: 0 <= j < r.value ==> !Lands(ps[j], x, y, v, s)
    ensures r.None? ==> forall j :: 0 <= j < |ps| ==> !Lands(ps[j], x, y, v, s)
  {
    if ps == [] then None
    else if Lands(ps[0], x, y, v, s) then Some(0)
    else match FirstLanding(ps[1..], x, y, v, s)
      case None => None
      case Some(j) => Some(j + 1)
  }

  /** Appending a platform changes the first landing only when there was none. */
  lemma {:induction false} FirstLandingSnoc(ps: seq<Platform>, p: Platform, x: real, y: real, v: real, s: Sprites)
    ensures FirstLanding(ps + [p], x, y, v, s) ==
      match FirstLanding(ps, x, y, v, s)
      case Some(j) => Some(j)
      case None => if Lands(p, x, y, v, s) then Some(|ps|) else None
    decreases |ps|
  {
    if ps == [] {
      assert ([] + [p])[1..] == [];
    } else {
      assert (ps + [p])[0] == ps[0];
      assert (ps + [p])[1..] == ps[1..] + [p];
      FirstLandingSnoc(ps[1..], p, x, y, v, s);
    }
  }

  /** At most one landing happens per frame, and the first qualifying platform
    * in list order decides it: after a snap the speed is negative, so no later
    * platform's guard can hold. */
  lemma {:induction false} LandingIsFirstMatch(ps: seq<Platform>, x: real, y: real, v: real, s: Sprites)
    ensures Landed(ps, x, y, v, s) ==
      match FirstLanding(ps, x, y, v, s)
      case None => (y, v)
      case Some(j) => (ps[j].y - s.PlayerHeight(), JumpSpeed)
    decreases |ps|
  {
    if ps != [] {
      var init, last := ps[..|ps| - 1], ps[|ps| - 1];
      assert ps == init + [last];
      LandingIsFirstMatch(init, x, y, v, s);
      FirstLandingSnoc(init, last, x, y, v, s);
    }
  }

  /** A landing never moves the player down and always ends in a jump. */
  lemma {:induction false} LandingRaises(ps: seq<Platform>, x: real, y: real, v: real, s: Sprites)
    ensures var (y', v') := Landed(ps, x, y, v, s);
      (y' == y && v' == v) || (y' < y && v' == JumpSpeed)
    ensures var (y', v') := Landed(ps, x, y, v, s);
      (y' == y && v' == v) <==> (forall j :: 0 <= j < |ps| ==> !Lands(ps[j], x, y, v, s))
  {
    LandingIsFirstMatch(ps, x, y, v, s);
  }

  function LandOn(f: Frame, s: Sprites): (r: Frame)
    // the landing loop only ever raises the player (or leaves it alone)
    ensures r.playerY <= f.playerY
    ensures (r.playerY == f.playerY && r.playerSpeedY == f.playerSpeedY) || (r.playerY < f.playerY && r.playerSpeedY == JumpSpeed)
    // the platforms, x, facing direction and watermark are untouched
    ensures r == f.(playerY := r.playerY, playerSpeedY := r.playerSpeedY)
  {
    LandingRaises(f.platforms, f.playerX, f.playerY, f.playerSpeedY, s);
    var (y, v) := Landed(f.platforms, f.playerX, f.playerY, f.playerSpeedY, s);
    f.(playerY := y, playerSpeedY := v)
  }

  /** The swept guard, read in terms of the state before the frame. In a frame
    * without a floor bounce the guard runs on y0 + v0 and v0 + 0.4, so its
    * "bottom edge before the step" term is y0 + h - 0.4: the bottom edge
    * before the step may lie up to 0.4 below the platform top. */
  lemma GuardBeforeStep(f: Frame, p: Platform, s: Sprites)
    requires f.playerY + f.playerSpeedY < FloorY
    ensures var g := Fall(f);
      Lands(p, g.playerX, g.playerY, g.playerSpeedY, s) <==>
        && f.playerSpeedY + Gravity > 0.0
        && f.playerY + f.playerSpeedY + s.PlayerHeight() > p.y
        && f.playerY + s.PlayerHeight() < p.y + Gravity
        && f.playerX + s.PlayerWidth() > p.x
        && f.playerX < p.x + s.PlatformWidth()
  {
  }

  /** A concrete frame whose bottom edge was already 0.2 below the platform top
    * before its step, and which still lands on that platform. */
  lemma GuardAdmitsOverlap()
    ensures var f := Frame(0.0, 100.0, 1.0, true, [Platform(0.0, 109.8)], 0.0);
      var s := Sprites(40, 40, 40);
      && f.playerY + s.PlayerHeight() > 109.8
      && LandOn(Fall(f), s).playerY == 109.8 - s.PlayerHeight()
  {
  }

  // ---------------------------------------------------------------------------
  // Phase 4: left and right movement with screen wrap
  // ---------------------------------------------------------------------------

  function MoveLeft(x: real): (r: real)
    ensures x - StepX >= WrapLeftLimit ==> r == x - StepX
    ensures x - StepX < WrapLeftLimit ==> r == WrapLeftTo
    // a left step never leaves the player past the left wrap line
    ensures r >= WrapLeftLimit
  {
    var x' := x - StepX;
    if x' < WrapLeftLimit then WrapLeftTo else x'
  }

  function MoveRight(x: real): (r: real)
    ensures x + StepX <= WrapRightLimit ==> r == x + StepX
    ensures x + StepX > WrapRightLimit ==> r == WrapRightTo
    // a right step never leaves the player past the right wrap line
    ensures r <= WrapRightLimit
  {
    var x' := x + StepX;
    if x' > WrapRightLimit then WrapRightTo else x'
  }

  function Steer(f: Frame, keys: Keys): (r: Frame)
    // the right key is handled last, so it decides the facing direction
    ensures r.facingRight == (if keys.right then true else if keys.left then false else f.facingRight)
    ensures keys.left && !keys.right ==> r.playerX == MoveLeft(f.playerX)
    ensures !keys.left && keys.right ==> r.playerX == MoveRight(f.playerX)
    ensures keys.left && keys.right ==> r.playerX == MoveRight(MoveLeft(f.playerX))
    ensures !keys.left && !keys.right ==> r.playerX == f.playerX
    // the wrap band [-40, 520] is closed under horizontal movement
    ensures WrapLeftLimit <= f.playerX <= WrapRightLimit ==> WrapLeftLimit <= r.playerX <= WrapRightLimit
    // vertical state, platforms and watermark are untouched
    ensures r == f.(playerX := r.playerX, facingRight := r.facingRight)
  {
    var f1 := if keys.left then f.(playerX := MoveLeft(f.playerX), facingRight := false) else f;
    if keys.right then f1.(playerX := MoveRight(f1.playerX), facingRight := true) else f1
  }

  // ---------------------------------------------------------------------------
  // Phase 5: camera scroll
  // ---------------------------------------------------------------------------

  function Shifted(ps: seq<Platform>, offset: real): (r: seq<Platform>)
    ensures |r| == |ps|
    ensures forall i :: 0 <= i < |ps| ==> r[i].x == ps[i].x && r[i].y == ps[i].y + offset
  {
    seq(|ps|, i requires 0 <= i < |ps| => ps[i].(y := ps[i].y + offset))
  }

  // ---------------------------------------------------------------------------
  // Phase 6: spawning rows of platforms in bands of 100 px
  // ---------------------------------------------------------------------------

  /** The platforms the spawn loop appends, in order, and the watermark it
    * leaves, when started from watermark h with the k-th roll next. */
  function Spawned(h: real, rolls: nat -> int, k: nat): (r: (seq<Platform>, real))
    // the loop stops with the watermark at or below the top of the screen,
    // and appends nothing exactly when it starts there
    ensures r.1 <= 0.0
    ensures h <= 0.0 <==> r.0 == []
    decreases if h > 0.0 then h.Floor + 1 else 0
  {
    if h <= 0.0 then ([], h)
    else
      var (rest, h') := Spawned(h - BandHeight, rolls, k + 1);
      ([Platform(rolls(k) as real, h - BandHeight)] + rest, h')
  }

  /** The i-th spawned platform sits at y = h - 100 * (i + 1), (i + 1) bands
    * above the starting watermark on screen, and takes the (k + i)-th roll as
    * x; the watermark decreases by one band per platform and ends at or below
    * 0, and within one band of 0 when it started less than one band below 0. */
  lemma {:induction false} SpawnedShape(h: real, rolls: nat -> int, k: nat)
    ensures var (ps, h') := Spawned(h, rolls, k);
      && h' == h - BandHeight * |ps| as real
      && h' <= 0.0
      && (h > -BandHeight ==> h' > -BandHeight)
      && (h <= 0.0 <==> ps == [])
      && (forall i :: 0 <= i < |ps| ==>
            ps[i] == Platform(rolls(k + i) as real, h - BandHeight * (i + 1) as real))
    decreases if h > 0.0 then h.Floor + 1 else 0
  {
    if h > 0.0 {
      SpawnedShape(h - BandHeight, rolls, k + 1);
      var (rest, h') := Spawned(h - BandHeight, rolls, k + 1);
      var ps := [Platform(rolls(k) as real, h - BandHeight)] + rest;
      forall i | 1 <= i < |ps|
        ensures ps[i] == Platform(rolls(k + i) as real, h - BandHeight * (i + 1) as real)
      {
        assert ps[i] == rest[i - 1];
      }
    }
  }

  /** Every spawned platform lies horizontally within the screen. */
  lemma {:induction false} SpawnedOnScreen(h: real, rolls: nat -> int, k: nat, s: Sprites)
    requires RollsInRange(rolls, s)
    ensures forall p :: p in Spawned(h, rolls, k).0 ==>
      0.0 <= p.x && p.x + s.PlatformWidth() < ScreenWidth as real
  {
    SpawnedShape(h, rolls, k);
    var ps := Spawned(h, rolls, k).0;
    forall p | p in ps ensures 0.0 <= p.x && p.x + s.PlatformWidth() < ScreenWidth as real {
      var i :| 0 <= i < |ps| && ps[i] == p;
      assert 0 <= rolls(k + i) < ScreenWidth - s.platformDx;
    }
  }

  // ---------------------------------------------------------------------------
  // Phase 7: pruning platforms that have scrolled off the bottom
  // ---------------------------------------------------------------------------

  predicate OnScreen(p: Platform) { p.y < ScreenHeight as real }

  /** What the accumulating filter loop keeps after visiting all of `ps`. */
  function Kept(ps: seq<Platform>): (r: seq<Platform>)
    ensures |r| <= |ps|
    decreases |ps|
  {
    if ps == [] then []
    else
      var last := ps[|ps| - 1];
      Kept(ps[..|ps| - 1]) + (if OnScreen(last) then [last] else [])
  }

  /** Filtering distributes over concatenation: the relative order of the
    * surviving platforms is the order of the input. */
  lemma {:induction false} KeptConcat(a: seq<Platform>, b: seq<Platform>)
    ensures Kept(a + b) == Kept(a) + Kept(b)
    decreases |b|
  {
    if b == [] {
      assert a + b == a;
    } else {
      var init, last := b[..|b| - 1], b[|b| - 1];
      assert (a + b)[..|a + b| - 1] == a + init;
      KeptConcat(a, init);
    }
  }

  /** A platform survives the filter exactly when it is in the input and on screen. */
  lemma {:induction false} KeptMembers(ps: seq<Platform>)
    ensures forall p :: p in Kept(ps) <==> p in ps && OnScreen(p)
    decreases |ps|
  {
    if ps != [] {
      var init, last := ps[..|ps| - 1], ps[|ps| - 1];
      assert ps == init + [last];
      KeptMembers(init);
    }
  }

  /** A list whose platforms are all on screen passes the filter unchanged. */
  lemma {:induction false} KeptAllOnScreen(ps: seq<Platform>)
    requires forall i :: 0 <= i < |ps| ==> OnScreen(ps[i])
    ensures Kept(ps) == ps
    decreases |ps|
  {
    if ps != [] {
      KeptAllOnScreen(ps[..|ps| - 1]);
    }
  }

  function Scroll(f: Frame, s: Sprites, rolls: nat -> int): (r: Frame)
    // the camera pins a player above the midline to the midline
    ensures f.playerY < MidlineY ==> r.playerY == MidlineY
    // a player at or below the midline leaves everything untouched
    ensures f.playerY >= MidlineY ==> r == f
    // only the vertical position, the platforms and the watermark change
    ensures r == f.(playerY := r.playerY, platforms := r.platforms, highestPlatformY := r.highestPlatformY)
  {
    if f.playerY < MidlineY then
      var offset := MidlineY - f.playerY;
      var spawned := Spawned(f.highestPlatformY + offset, rolls, 0);
      f.(playerY := MidlineY,
         platforms := Kept(Shifted(f.platforms, offset) + spawned.0),
         highestPlatformY := spawned.1)
    else f
  }

  /** What a scroll frame does to the platform list: the previous platforms,
    * each moved down by the same offset, come first in their own order, then
    * the newly spawned rows, both with the off-screen ones dropped. */
  lemma ScrollEffect(f: Frame, s: Sprites, rolls: nat -> int)
    requires f.playerY < MidlineY
    ensures var offset := MidlineY - f.playerY;
      Scroll(f, s, rolls).platforms ==
        Kept(Shifted(f.platforms, offset)) + Kept(Spawned(f.highestPlatformY + offset, rolls, 0).0)
    ensures forall p :: p in Scroll(f, s, rolls).platforms ==> OnScreen(p)
  {
    var offset := MidlineY - f.playerY;
    var all := Shifted(f.platforms, offset) + Spawned(f.highestPlatformY + offset, rolls, 0).0;
    assert Scroll(f, s, rolls).platforms == Kept(all);
    KeptConcat(Shifted(f.platforms, offset), Spawned(f.highestPlatformY + offset, rolls, 0).0);
    KeptMembers(all);
  }

  /** What a scroll frame does to the watermark: it moves down by the scroll
    * offset, then up one band per spawned row, ending one band or less above 0. */
  lemma ScrollWatermark(f: Frame, s: Sprites, rolls: nat -> int)
    requires f.playerY < MidlineY
    ensures var offset := MidlineY - f.playerY;
      Scroll(f, s, rolls).highestPlatformY ==
        f.highestPlatformY + offset - BandHeight * |Spawned(f.highestPlatformY + offset, rolls, 0).0| as real
    ensures f.highestPlatformY > -BandHeight ==> -BandHeight < Scroll(f, s, rolls).highestPlatformY <= 0.0
  {
    var offset := MidlineY - f.playerY;
    var spawned := Spawned(f.highestPlatformY + offset, rolls, 0);
    assert Scroll(f, s, rolls).highestPlatformY == spawned.1;
    SpawnedShape(f.highestPlatformY + offset, rolls, 0);
  }

  /** A previous platform, moved down by the scroll offset, survives the
    * frame exactly when it is still above the bottom of the screen. */
  lemma ShiftedSurvivors(ps: seq<Platform>, offset: real)
    ensures forall i :: 0 <= i < |ps| ==>
      (Platform(ps[i].x, ps[i].y + offset) in Kept(Shifted(ps, offset)) <==> ps[i].y + offset < ScreenHeight as real)
  {
    var shifted := Shifted(ps, offset);
    KeptMembers(shifted);
    forall i | 0 <= i < |ps|
      ensures Platform(ps[i].x, ps[i].y + offset) in Kept(shifted) <==> ps[i].y + offset < ScreenHeight as real
    {
      assert shifted[i] == Platform(ps[i].x, ps[i].y + offset);
    }
  }

  // ---------------------------------------------------------------------------
  // The whole frame
  // ---------------------------------------------------------------------------

  /** One call of Update: the seven phases in their fixed order. */
  function Step(f: Frame, keys: Keys, s: Sprites, rolls: nat -> int): (r: Frame)
    // after any frame the player is between the midline and the floor line
    ensures MidlineY <= r.playerY <= FloorY
  {
    Scroll(Steer(LandOn(Fall(f), s), keys), s, rolls)
  }

  /** A frame preserves the invariant that the initial state establishes. */
  lemma StepPreservesPlayable(f: Frame, keys: Keys, s: Sprites, rolls: nat -> int)
    requires Playable(f)
    ensures Playable(Step(f, keys, s, rolls))
  {
    var g := Steer(LandOn(Fall(f), s), keys);
    if g.playerY < MidlineY {
      ScrollEffect(g, s, rolls);
      ScrollWatermark(g, s, rolls);
    }
  }

  /** A frame in which the player neither reaches the floor, lands, steers nor
    * climbs above the midline is pure gravity integration. */
  lemma FreeFall(f: Frame, s: Sprites, rolls: nat -> int)
    requires f.playerY + f.playerSpeedY < FloorY
    requires MidlineY <= f.playerY + f.playerSpeedY
    requires forall j :: 0 <= j < |f.platforms| ==>
      !Lands(f.platforms[j], f.playerX, f.playerY + f.playerSpeedY, f.playerSpeedY + Gravity, s)
    ensures Step(f, Keys(false, false), s, rolls) ==
      f.(playerY := f.playerY + f.playerSpeedY, playerSpeedY := f.playerSpeedY + Gravity)
  {
    var g := Fall(f);
    LandingRaises(g.platforms, g.playerX, g.playerY, g.playerSpeedY, s);
  }

  /** The game starts with the player on the floor line at rest, so the first
    * frame with no key held is a bounce, and no platform is landed on. */
  lemma FirstFrameBounces(s: Sprites, rolls: nat -> int)
    ensures Step(Initial(), Keys(false, false), s, rolls) == Initial().(playerSpeedY := JumpSpeed)
  {
    var f := Fall(Initial());
    assert f == Initial().(playerSpeedY := JumpSpeed);
    LandingRaises(f.platforms, f.playerX, f.playerY, f.playerSpeedY, s);
  }
}
