/**
 * The courtroom scene set up and drawn by the `main` loop of src/main.rs:
 * the texture keys it loads, the wall border with its door gap, the carpet
 * tile selection, and the randomly placed jury and audience.
 */
module Scene {
  import opened Wrappers
  import opened Enums
  import opened Drawing

  /** The keys the actor texture map is filled with before the loop starts. */
  const LoadedTextures: set<PersonType> :=
    {Gnome(GnomeType.NoType), CatKid(CatKidType.NoType), Chick(ChickType.NoType), DuckBoy(DuckType.NoType), Fox,
     Person1, Person2, Person3, Person4, Person5, Person6, Person7, Person8,
     Person9, Person10, Person11, Person12, Person13, Person14, Person15}

  /** Every appearance that can be drawn finds its texture, so the map lookup never fails. */
  lemma TexturesCoverDrawable(p: PersonType)
    ensures SpriteOf(p).Success? ==> TextureKey(p) in LoadedTextures
    ensures IsPlaceholder(p) || p.Fox? || IsHuman(p) <==> p in LoadedTextures
  {
  }

  // ------------------------------------------------------------------ walls

  /** The outer wall tile of grid cell (x, y) of the 13x13 room, if any: a door gap at (5..7, 12). */
  function BorderWall(x: int, y: int): Option<WallType> {
    if (x, y) == (0, 0) then Some(TallUpperLeftCornerWall)
    else if (x, y) == (12, 0) then Some(TallUpperRightCornerWall)
    else if (x, y) == (0, 12) then Some(TallLowerLeftCornerWall)
    else if (x, y) == (12, 12) then Some(TallLowerRightCornerWall)
    else if (x == 0 || x == 12) && 1 <= y <= 11 then Some(TallVerticalWall)
    else if y == 0 && 1 <= x <= 11 then Some(TallTopBottomWall)
    else if y == 12 && 1 <= x <= 11 && !(5 <= x <= 7) then Some(TallTopBottomWall)
    else None
  }

  /** The room's walls are exactly the cells of its edge, less the door gap. */
  lemma BorderIsEdgeLessDoor(x: int, y: int)
    ensures BorderWall(x, y).Some? <==>
      0 <= x <= 12 && 0 <= y <= 12 && (x == 0 || x == 12 || y == 0 || y == 12) && !(y == 12 && 5 <= x <= 7)
  {
  }

  /** A draw that puts, into the cell its destination covers, that cell's border wall. */
  predicate IsBorderDraw(c: DrawCommand) {
    c.Blit? &&
    var x, y := c.dest.x / Cell, c.dest.y / Cell;
    BorderWall(x, y).Some? && c == DrawWall(BorderWall(x, y).value, x, y)
  }

  /** The wall draws of one courtroom frame: the four corners, the top and bottom rows, then the sides. */
  method DrawWalls() returns (cmds: seq<DrawCommand>)
    ensures |cmds| == 45
    ensures forall c | c in cmds :: IsBorderDraw(c)
    ensures forall x, y | BorderWall(x, y).Some? :: DrawWall(BorderWall(x, y).value, x, y) in cmds
  {
    cmds := [DrawWall(TallUpperLeftCornerWall, 0, 0), DrawWall(TallUpperRightCornerWall, 12, 0),
             DrawWall(TallLowerLeftCornerWall, 0, 12), DrawWall(TallLowerRightCornerWall, 12, 12)];
    for i := 1 to 12
      invariant |cmds| == 4 + (i - 1) + (if i <= 5 then i - 1 else if i <= 8 then 4 else i - 4)
      invariant forall c | c in cmds :: IsBorderDraw(c)
      invariant forall x, y | BorderWall(x, y).Some? && (x == 0 || x == 12) && (y == 0 || y == 12) ::
        DrawWall(BorderWall(x, y).value, x, y) in cmds
      invariant forall x, y | BorderWall(x, y).Some? && 1 <= x < i && (y == 0 || y == 12) ::
        DrawWall(BorderWall(x, y).value, x, y) in cmds
    {
      cmds := cmds + [DrawWall(TallTopBottomWall, i, 0)];
      if i < 5 || i > 7 {
        cmds := cmds + [DrawWall(TallTopBottomWall, i, 12)];
      }
    }
    for i := 1 to 12
      invariant |cmds| == 23 + 2 * (i - 1)
      invariant forall c | c in cmds :: IsBorderDraw(c)
      invariant forall x, y | BorderWall(x, y).Some? && (y == 0 || y == 12) :: DrawWall(BorderWall(x, y).value, x, y) in cmds
      invariant forall x, y | BorderWall(x, y).Some? && 1 <= y < i :: DrawWall(BorderWall(x, y).value, x, y) in cmds
    {
      cmds := cmds + [DrawWall(TallVerticalWall, 0, i), DrawWall(TallVerticalWall, 12, i)];
    }
  }

  // ---------------------------------------------------------------- carpet

  /**
   * The carpet tile of cell (x, y) of the 11x11 rug: corner tiles at its four
   * corners, inner corners and an open tile where the aisle leaves through
   * the bottom edge, edge tiles along its sides, open carpet inside.
   */
  function CarpetFor(x: int, y: int): (c: CarpetType)
    ensures 2 <= x <= 10 && 2 <= y <= 10 ==> c == NoWalls
    ensures x == 1 && 2 <= y <= 10 ==> c == LeftWall
    ensures x == 11 && 2 <= y <= 10 ==> c == RightWall
    ensures y == 1 && 2 <= x <= 10 ==> c == TopWall
    ensures y == 11 && 2 <= x <= 10 && !(5 <= x <= 7) ==> c == BottomWall
    ensures (x, y) == (1, 1) ==> c == LeftTopWall
    ensures (x, y) == (1, 11) ==> c == LeftBottomWall
    ensures (x, y) == (11, 1) ==> c == RightTopWall
    ensures (x, y) == (11, 11) ==> c == RightBottomWall
    ensures y == 11 && 5 <= x <= 7 ==> c == [BottomLeftCornerWall, NoWalls, BottomRightCornerWall][x - 5]
  {
    match (x, y)
    case (1, 1) => LeftTopWall
    case (1, 11) => LeftBottomWall
    case (11, 1) => RightTopWall
    case (11, 11) => RightBottomWall
    case (5, 11) => BottomLeftCornerWall
    case (6, 11) => NoWalls
    case (7, 11) => BottomRightCornerWall
    case (x, _) =>
      if x == 1 then LeftWall
      else if x == 11 then RightWall
      else if y == 1 then TopWall
      else if y == 11 then BottomWall
      else NoWalls
  }

  /** The aisle below the rug, through the door gap: (5, 12), (6, 12), (7, 12). */
  const AisleDraws: seq<DrawCommand> :=
    [DrawCarpet(LeftWall, 5, 12), DrawCarpet(NoWalls, 6, 12), DrawCarpet(RightWall, 7, 12)]

  /** The carpet draws of one courtroom frame, column by column, then the aisle. */
  method DrawCarpets() returns (cmds: seq<DrawCommand>)
    ensures |cmds| == 11 * 11 + 3
    ensures forall x, y | 1 <= x <= 11 && 1 <= y <= 11 :: cmds[(x - 1) * 11 + (y - 1)] == DrawCarpet(CarpetFor(x, y), x, y)
    ensures cmds[11 * 11..] == AisleDraws
  {
    cmds := [];
    for x := 1 to 12
      invariant |cmds| == (x - 1) * 11
      invariant forall a, b | 1 <= a < x && 1 <= b <= 11 :: cmds[(a - 1) * 11 + (b - 1)] == DrawCarpet(CarpetFor(a, b), a, b)
    {
      for y := 1 to 12
        invariant |cmds| == (x - 1) * 11 + (y - 1)
        invariant forall a, b | 1 <= a < x && 1 <= b <= 11 :: cmds[(a - 1) * 11 + (b - 1)] == DrawCarpet(CarpetFor(a, b), a, b)
        invariant forall b | 1 <= b < y :: cmds[(x - 1) * 11 + (b - 1)] == DrawCarpet(CarpetFor(x, b), x, b)
      {
        cmds := cmds + [DrawCarpet(CarpetFor(x, y), x, y)];
      }
    }
    cmds := cmds + AisleDraws;
  }

  // ----------------------------------------------------------- the crowd

  /** A sampled actor: position on the canvas and appearance. */
  datatype Actor = Actor(x: int, y: int, kind: PersonType)

  /**
   * The generator's `gen_range(lo..=hi)`, as a reduction of an arbitrary raw
   * draw onto the range; every value of the range is the image of some raw draw.
   */
  function GenRange(raw: nat, lo: int, hi: int): (v: int)
    requires lo <= hi
    ensures lo <= v <= hi
  {
    lo + raw % (hi - lo + 1)
  }

  lemma GenRangeCovers(lo: int, hi: int, v: int)
    requires lo <= v <= hi
    ensures GenRange(v - lo, lo, hi) == v
  {
  }

  /** The region a crowd is sampled in, bounds inclusive. */
  datatype Area = Area(xLo: int, xHi: int, yLo: int, yHi: int)

  const JuryArea := Area(48, 156, 48, 96)
  const AudienceArea := Area(48, 550, 260, 540)

  /** The actor that draws `raw[3 * i]`, `raw[3 * i + 1]`, `raw[3 * i + 2]` (x, y, appearance) produces. */
  function SampledActor(raw: seq<nat>, i: nat, area: Area, colored: bool): Actor
    requires 3 * i + 2 < |raw| && area.xLo <= area.xHi && area.yLo <= area.yHi
  {
    Actor(GenRange(raw[3 * i], area.xLo, area.xHi), GenRange(raw[3 * i + 1], area.yLo, area.yHi),
          RandPerson(GenRange(raw[3 * i + 2], 1, 15), colored))
  }

  /** The `for` loop that pushes `count` sampled actors, consuming three raw draws each. */
  method SampleCrowd(raw: seq<nat>, count: nat, area: Area, colored: bool) returns (crowd: seq<Actor>)
    requires area.xLo <= area.xHi && area.yLo <= area.yHi && |raw| >= 3 * count
    ensures |crowd| == count
    ensures forall i | 0 <= i < count :: crowd[i] == SampledActor(raw, i, area, colored)
  {
    crowd := [];
    for i := 0 to count
      invariant |crowd| == i
      invariant forall k | 0 <= k < i :: crowd[k] == SampledActor(raw, k, area, colored)
    {
      var x := GenRange(raw[3 * i], area.xLo, area.xHi);
      var y := GenRange(raw[3 * i + 1], area.yLo, area.yHi);
      var kind := RandPerson(GenRange(raw[3 * i + 2], 1, 15), colored);
      crowd := crowd + [Actor(x, y, kind)];
    }
  }

  /** Every sampled actor lies in its area, is a human, and (monochrome) is never a coloured-only one. */
  lemma SampledActorBounds(raw: seq<nat>, i: nat, area: Area, colored: bool)
    requires 3 * i + 2 < |raw| && area.xLo <= area.xHi && area.yLo <= area.yHi
    ensures var a := SampledActor(raw, i, area, colored);
      && area.xLo <= a.x <= area.xHi && area.yLo <= a.y <= area.yHi
      && IsHuman(a.kind) && (!colored ==> a.kind !in ColouredOnly)
  {
  }

  /** An actor `draw_person` draws: inside the canvas, with a texture, not a placeholder. */
  predicate Drawn(a: Actor) {
    DrawPerson(LoadedTextures, a.kind, a.x, a.y).Success? && DrawPerson(LoadedTextures, a.kind, a.x, a.y).value.Some?
  }

  /** A human inside the canvas is always drawn. */
  lemma HumanInCanvasDrawn(a: Actor)
    requires IsHuman(a.kind) && 0 <= a.x <= CanvasLimit && 0 <= a.y <= CanvasLimit
    ensures Drawn(a)
  {
    TexturesCoverDrawable(a.kind);
  }

  /** The twelve jurors: monochrome humans in [48, 156] x [48, 96], every one of them drawn. */
  method SampleJury(raw: seq<nat>) returns (jury: seq<Actor>)
    requires |raw| >= 36
    ensures |jury| == 12
    ensures forall a | a in jury :: 48 <= a.x <= 156 && 48 <= a.y <= 96 && a.kind !in ColouredOnly && Drawn(a)
  {
    jury := SampleCrowd(raw, 12, JuryArea, false);
    forall a | a in jury
      ensures 48 <= a.x <= 156 && 48 <= a.y <= 96 && a.kind !in ColouredOnly && Drawn(a)
    {
      var i :| 0 <= i < 12 && jury[i] == a;
      SampledActorBounds(raw, i, JuryArea, false);
      HumanInCanvasDrawn(a);
    }
  }

  /** The hundred audience members: coloured humans in [48, 550] x [260, 540], every one of them drawn. */
  method SampleAudience(raw: seq<nat>) returns (audience: seq<Actor>)
    requires |raw| >= 300
    ensures |audience| == 100
    ensures forall a | a in audience :: 48 <= a.x <= 550 && 260 <= a.y <= 540 && Drawn(a)
  {
    audience := SampleCrowd(raw, 100, AudienceArea, true);
    forall a | a in audience
      ensures 48 <= a.x <= 550 && 260 <= a.y <= 540 && Drawn(a)
    {
      var i :| 0 <= i < 100 && audience[i] == a;
      SampledActorBounds(raw, i, AudienceArea, true);
      HumanInCanvasDrawn(a);
    }
  }

  /** The actors placed by hand: the judge, the defense lawyer, Steve, King and Petrocelli. */
  const ScriptedActors: seq<Actor> :=
    [Actor(291, 48, Gnome(GnomeType.WalkingForward1)),
     Actor(448, 210, Person1), Actor(496, 210, Person4), Actor(400, 210, Person5), Actor(128, 210, Person12)]

  lemma ScriptedActorsDrawn()
    ensures forall a | a in ScriptedActors :: Drawn(a)
  {
    TexturesCoverDrawable(Gnome(GnomeType.WalkingForward1));
    forall a | a in ScriptedActors[1..] ensures Drawn(a) {
      HumanInCanvasDrawn(a);
    }
  }

  /** The source link of the credits screen, drawn centred on (300, 375) at font size 20. */
  const SourceLink := "https://github.com/tazz4843/monster-storybook"

  /** A left click on the centre of the credits link opens it, whatever width the font gives the text. */
  lemma CreditsLinkClick(measured: int)
    requires measured >= 2
    ensures var r := DrawText(SourceLink, 20, 300, 375, Some(SourceLink), measured, 300, 375, true);
      r.cursor == Some(PointingHand) && r.launched == Some(SourceLink)
  {
  }
}
