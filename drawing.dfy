/**
 * The sprite-atlas tables and blit geometry of src/drawing.rs. Each draw
 * function returns the draw command it would hand to the graphics library,
 * or the reason the source panics.
 */
module Drawing {
  import opened Wrappers
  import opened Enums

  /** Side of one grid cell on the canvas, in pixels. */
  const Cell := 48
  /** Largest coordinate `draw_person` still draws at, on both axes. */
  const CanvasLimit := 624

  datatype Rect = Rect(x: int, y: int, width: int, height: int)

  /** The texture a blit reads from: one of the three shared atlases or an actor's texture. */
  datatype Texture = WallAtlas | CarpetAtlas | PropAtlas | ActorTexture(key: PersonType)

  datatype DrawCommand =
    | Blit(texture: Texture, source: Rect, dest: Rect)
    | Label(text: string, x: int, y: int, fontSize: int)

  datatype DrawError =
    | PlaceholderDrawn(kind: PersonType)  // the `NoType` panic
    | TextureMissing(key: PersonType)     // the `expect` on the texture map

  /** A 16x16 atlas cell at a multiple of 16 on both axes. */
  predicate IsAtlasCell(r: Rect) {
    r.width == 16 && r.height == 16 && r.x >= 0 && r.y >= 0 && r.x % 16 == 0 && r.y % 16 == 0
  }

  /** The 48x48 canvas cell of grid position (x, y). */
  function CellRect(x: int, y: int): Rect {
    Rect(x * Cell, y * Cell, Cell, Cell)
  }

  predicate Disjoint(a: Rect, b: Rect) {
    a.x + a.width <= b.x || b.x + b.width <= a.x || a.y + a.height <= b.y || b.y + b.height <= a.y
  }

  /** Cells of distinct grid positions never overlap, so no tile hides another of its layer. */
  lemma CellsDisjoint(x1: int, y1: int, x2: int, y2: int)
    requires (x1, y1) != (x2, y2)
    ensures Disjoint(CellRect(x1, y1), CellRect(x2, y2))
  {
  }

  // ---------------------------------------------------------------- walls

  function WallSource(w: WallType): (r: Rect)
    ensures IsAtlasCell(r)
    ensures WallInAtlas(r.x, r.y) == Some(w)
  {
    match w
    case TallLeftRightWall => Rect(16, 48, 16, 16)
    case TallVerticalWall => Rect(0, 16, 16, 16)
    case TallUpperLeftCornerWall => Rect(0, 0, 16, 16)
    case TallUpperRightCornerWall => Rect(32, 0, 16, 16)
    case TallLowerLeftCornerWall => Rect(0, 32, 16, 16)
    case TallLowerRightCornerWall => Rect(32, 32, 16, 16)
    case TallTopBottomWall => Rect(16, 0, 16, 16)
    case ShortLeftWall => Rect(64, 48, 16, 16)
    case ShortLeftRightWall => Rect(0, 48, 16, 16)
    case ShortRightWall => Rect(32, 48, 16, 16)
    case ShortWall => Rect(48, 48, 16, 16)
    case TallLeftWall => Rect(64, 0, 16, 16)
    case TallRightWall => Rect(96, 0, 16, 16)
    case TallWall => Rect(80, 0, 16, 16)
    case Floor => Rect(16, 16, 16, 16)
  }

  /** Reads the wall atlas back: which wall tile, if any, sits at an atlas position. */
  function WallInAtlas(x: int, y: int): Option<WallType> {
    match (x, y)
    case (16, 48) => Some(TallLeftRightWall)
    case (0, 16) => Some(TallVerticalWall)
    case (0, 0) => Some(TallUpperLeftCornerWall)
    case (32, 0) => Some(TallUpperRightCornerWall)
    case (0, 32) => Some(TallLowerLeftCornerWall)
    case (32, 32) => Some(TallLowerRightCornerWall)
    case (16, 0) => Some(TallTopBottomWall)
    case (64, 48) => Some(ShortLeftWall)
    case (0, 48) => Some(ShortLeftRightWall)
    case (32, 48) => Some(ShortRightWall)
    case (48, 48) => Some(ShortWall)
    case (64, 0) => Some(TallLeftWall)
    case (96, 0) => Some(TallRightWall)
    case (80, 0) => Some(TallWall)
    case (16, 16) => Some(Floor)
    case _ => None
  }

  /** `draw_wall`: the tile's atlas cell blitted into grid cell (x, y). */
  function DrawWall(w: WallType, x: int, y: int): (c: DrawCommand)
    ensures c.Blit? && c.texture == WallAtlas && IsAtlasCell(c.source)
    ensures c.dest == Rect(x * 48, y * 48, 48, 48)
    ensures WallInAtlas(c.source.x, c.source.y) == Some(w)
  {
    Blit(WallAtlas, WallSource(w), CellRect(x, y))
  }

  // --------------------------------------------------------------- carpets

  function CarpetSource(t: CarpetType): (r: Rect)
    ensures IsAtlasCell(r)
    ensures CarpetInAtlas(r.x, r.y) == Some(t)
  {
    match t
    case NoWalls => Rect(16, 16, 16, 16)
    case LeftWall => Rect(0, 16, 16, 16)
    case RightWall => Rect(32, 16, 16, 16)
    case TopWall => Rect(16, 0, 16, 16)
    case BottomWall => Rect(16, 32, 16, 16)
    case LeftTopWall => Rect(0, 0, 16, 16)
    case LeftBottomWall => Rect(0, 32, 16, 16)
    case RightTopWall => Rect(32, 0, 16, 16)
    case RightBottomWall => Rect(32, 32, 16, 16)
    case LeftRightWall => Rect(48, 64, 16, 16)
    case TopBottomWall => Rect(80, 80, 16, 16)
    case UpperRightCornerWall => Rect(32, 80, 16, 16)
    case UpperLeftCornerWall => Rect(0, 80, 16, 16)
    case BottomRightCornerWall => Rect(0, 48, 16, 16)
    case BottomLeftCornerWall => Rect(32, 48, 16, 16)
  }

  /** Reads the carpet atlas back. */
  function CarpetInAtlas(x: int, y: int): Option<CarpetType> {
    match (x, y)
    case (16, 16) => Some(NoWalls)
    case (0, 16) => Some(LeftWall)
    case (32, 16) => Some(RightWall)
    case (16, 0) => Some(TopWall)
    case (16, 32) => Some(BottomWall)
    case (0, 0) => Some(LeftTopWall)
    case (0, 32) => Some(LeftBottomWall)
    case (32, 0) => Some(RightTopWall)
    case (32, 32) => Some(RightBottomWall)
    case (48, 64) => Some(LeftRightWall)
    case (80, 80) => Some(TopBottomWall)
    case (32, 80) => Some(UpperRightCornerWall)
    case (0, 80) => Some(UpperLeftCornerWall)
    case (0, 48) => Some(BottomRightCornerWall)
    case (32, 48) => Some(BottomLeftCornerWall)
    case _ => None
  }

  /** `draw_carpet`: the tile's atlas cell blitted into grid cell (x, y). */
  function DrawCarpet(t: CarpetType, x: int, y: int): (c: DrawCommand)
    ensures c.Blit? && c.texture == CarpetAtlas && IsAtlasCell(c.source)
    ensures c.dest == Rect(x * 48, y * 48, 48, 48)
    ensures CarpetInAtlas(c.source.x, c.source.y) == Some(t)
  {
    Blit(CarpetAtlas, CarpetSource(t), CellRect(x, y))
  }

  // ----------------------------------------------------------------- props

  function PropSource(p: PropType): (r: Rect)
    ensures IsAtlasCell(r)
    ensures PropInAtlas(r.x, r.y) == Some(p)
  {
    match p
    case SmallChair => Rect(80, 0, 16, 16)
    case LargePinkChair => Rect(16, 32, 16, 16)
    case LargeRedChair => Rect(32, 32, 16, 16)
    case LargeBlueChair => Rect(48, 32, 16, 16)
    case SmallTable => Rect(96, 0, 16, 16)
    case LargeTable => Rect(112, 0, 16, 16)
  }

  /** Reads the prop atlas back. */
  function PropInAtlas(x: int, y: int): Option<PropType> {
    match (x, y)
    case (80, 0) => Some(SmallChair)
    case (16, 32) => Some(LargePinkChair)
    case (32, 32) => Some(LargeRedChair)
    case (48, 32) => Some(LargeBlueChair)
    case (96, 0) => Some(SmallTable)
    case (112, 0) => Some(LargeTable)
    case _ => None
  }

  /** `draw_prop`: the prop's atlas cell blitted into grid cell (x, y). */
  function DrawProp(p: PropType, x: int, y: int): (c: DrawCommand)
    ensures c.Blit? && c.texture == PropAtlas && IsAtlasCell(c.source)
    ensures c.dest == Rect(x * 48, y * 48, 48, 48)
    ensures PropInAtlas(c.source.x, c.source.y) == Some(p)
  {
    Blit(PropAtlas, PropSource(p), CellRect(x, y))
  }

  /** Distinct tiles of one atlas never share a source region. */
  lemma AtlasTablesInjective(w1: WallType, w2: WallType, c1: CarpetType, c2: CarpetType, p1: PropType, p2: PropType)
    ensures WallSource(w1) == WallSource(w2) ==> w1 == w2
    ensures CarpetSource(c1) == CarpetSource(c2) ==> c1 == c2
    ensures PropSource(p1) == PropSource(p2) ==> p1 == p2
  {
    var _, _, _ := WallSource(w1), CarpetSource(c1), PropSource(p1);
    var _, _, _ := WallSource(w2), CarpetSource(c2), PropSource(p2);
  }

  // ---------------------------------------------------------------- actors

  /**
   * The key under which an actor's texture is registered: the family
   * placeholder for the four animal families, the appearance itself otherwise.
   */
  function TextureKey(p: PersonType): PersonType {
    match p
    case Gnome(_) => Gnome(GnomeType.NoType)
    case CatKid(_) => CatKid(CatKidType.NoType)
    case Chick(_) => Chick(ChickType.NoType)
    case DuckBoy(_) => DuckBoy(DuckType.NoType)
    case _ => p
  }

  /** What `draw_person` blits for one appearance: its source region, texture key and drawn size. */
  datatype Sprite = Sprite(source: Rect, key: PersonType, width: int, height: int)

  /** The per-appearance table of `draw_person`; a placeholder is the `NoType` panic. */
  function SpriteOf(p: PersonType): (r: Result<Sprite, DrawError>)
    ensures r.Failure? <==> IsPlaceholder(p)
    ensures r.Failure? ==> r.error == PlaceholderDrawn(p)
    ensures r.Success? ==> r.value.key == TextureKey(p) && r.value.source.y == 0
    ensures r.Success? && IsHuman(p) ==>
      r.value.source.x == 0 && r.value.width == 2 * r.value.source.width && r.value.height == 2 * r.value.source.height
    ensures r.Success? && (p.Chick? || p.DuckBoy?) ==>
      r.value.source.width == 12 && r.value.source.height == 17 && r.value.width == 24 && r.value.height == 34
    ensures r.Success? && (p.Gnome? || p.Fox?) ==>
      r.value.source.width == 16 && r.value.source.height == 16 && r.value.width == 48 && r.value.height == 48
    ensures r.Success? && p.CatKid? ==>
      r.value.source.width == 15 && r.value.source.height == 17 && r.value.width == 48 && r.value.height == 48
  {
    match p
    case Gnome(g) =>
      if g == GnomeType.NoType then Failure(PlaceholderDrawn(p))
      else
        var offset := match g
          case IdleRight => 80
          case WalkingRight => 64
          case WalkingForward1 => 0
          case WalkingForward2 => 16
          case WalkingBackward1 => 32
          case WalkingBackward2 => 48
          case NoType => 0;
        Success(Sprite(Rect(offset, 0, 16, 16), Gnome(GnomeType.NoType), 48, 48))
    case CatKid(c) =>
      if c == CatKidType.NoType then Failure(PlaceholderDrawn(p))
      else Success(Sprite(Rect(if c == CatKidType.WalkingForward1 then 0 else 16, 0, 15, 17),
                          CatKid(CatKidType.NoType), 48, 48))
    case Chick(c) =>
      if c == ChickType.NoType then Failure(PlaceholderDrawn(p))
      else Success(Sprite(Rect(if c == ChickType.WalkingForward1 then 0 else 13, 0, 12, 17),
                          Chick(ChickType.NoType), 24, 34))
    case DuckBoy(d) =>
      if d == DuckType.NoType then Failure(PlaceholderDrawn(p))
      else Success(Sprite(Rect(if d == DuckType.WalkingForward1 then 0 else 13, 0, 12, 17),
                          DuckBoy(DuckType.NoType), 24, 34))
    case Fox => Success(Sprite(Rect(0, 0, 16, 16), Fox, 48, 48))
    case Person1 => Success(Sprite(Rect(0, 0, 11, 18), Person1, 22, 36))
    case Person2 => Success(Sprite(Rect(0, 0, 14, 19), Person2, 28, 38))
    case Person3 => Success(Sprite(Rect(0, 0, 14, 19), Person3, 28, 38))
    case Person4 => Success(Sprite(Rect(0, 0, 13, 19), Person4, 26, 38))
    case Person5 => Success(Sprite(Rect(0, 0, 13, 19), Person5, 26, 38))
    case Person6 => Success(Sprite(Rect(0, 0, 14, 19), Person6, 28, 38))
    case Person7 => Success(Sprite(Rect(0, 0, 14, 19), Person7, 28, 38))
    case Person8 => Success(Sprite(Rect(0, 0, 14, 19), Person8, 28, 38))
    case Person9 => Success(Sprite(Rect(0, 0, 13, 19), Person9, 26, 38))
    case Person10 => Success(Sprite(Rect(0, 0, 13, 19), Person10, 26, 38))
    case Person11 => Success(Sprite(Rect(0, 0, 13, 19), Person11, 26, 38))
    case Person12 => Success(Sprite(Rect(0, 0, 14, 19), Person12, 28, 38))
    case Person13 => Success(Sprite(Rect(0, 0, 14, 19), Person13, 28, 38))
    case Person14 => Success(Sprite(Rect(0, 0, 14, 19), Person14, 28, 38))
    case Person15 => Success(Sprite(Rect(0, 0, 14, 19), Person15, 28, 38))
  }

  /** The texture key is the family placeholder exactly for the animal families. */
  lemma TextureKeyNormalises(p: PersonType)
    ensures IsPlaceholder(TextureKey(p)) <==> p.Gnome? || p.CatKid? || p.Chick? || p.DuckBoy?
    ensures p.Fox? || IsHuman(p) ==> TextureKey(p) == p
    ensures TextureKey(TextureKey(p)) == TextureKey(p)
  {
  }

  /** Within a family, distinct animation frames read distinct atlas columns. */
  lemma FamilyFramesDistinct(p: PersonType, q: PersonType)
    requires SpriteOf(p).Success? && SpriteOf(q).Success? && p != q
    requires (p.Gnome? && q.Gnome?) || (p.CatKid? && q.CatKid?) || (p.Chick? && q.Chick?) || (p.DuckBoy? && q.DuckBoy?)
    ensures SpriteOf(p).value.source.x != SpriteOf(q).value.source.x
  {
  }

  /** The atlas columns of each family's frames. */
  lemma FamilyFrameOffsets(p: PersonType)
    requires SpriteOf(p).Success?
    ensures p.Gnome? ==> SpriteOf(p).value.source.x in {0, 16, 32, 48, 64, 80}
    ensures p.CatKid? ==> SpriteOf(p).value.source.x in {0, 16}
    ensures p.Chick? || p.DuckBoy? ==> SpriteOf(p).value.source.x in {0, 13}
  {
  }

  /** Outside the canvas [0, 624] x [0, 624] `draw_person` draws nothing. */
  predicate OffCanvas(x: int, y: int) {
    x < 0 || y < 0 || x > CanvasLimit || y > CanvasLimit
  }

  /**
   * `draw_person` given the set of keys its texture map holds: nothing off
   * the canvas, the placeholder panic, the texture lookup, then one blit
   * whose destination starts at (x, y).
   */
  function DrawPerson(textures: set<PersonType>, p: PersonType, x: int, y: int): (r: Result<Option<DrawCommand>, DrawError>)
    ensures r == Success(None) <==> OffCanvas(x, y)
    ensures !OffCanvas(x, y) && IsPlaceholder(p) ==> r == Failure(PlaceholderDrawn(p))
    ensures !OffCanvas(x, y) && !IsPlaceholder(p) ==>
      (r.Failure? <==> TextureKey(p) !in textures) &&
      (r.Failure? ==> r.error == TextureMissing(TextureKey(p)))
    ensures r.Success? && r.value.Some? ==>
      var c := r.value.value;
      c.Blit? && c.texture == ActorTexture(TextureKey(p)) && c.dest.x == x && c.dest.y == y &&
      Success(Sprite(c.source, TextureKey(p), c.dest.width, c.dest.height)) == SpriteOf(p)
  {
    if OffCanvas(x, y) then Success(None)
    else match SpriteOf(p)
      case Failure(e) => Failure(e)
      case Success(s) =>
        if s.key !in textures then Failure(TextureMissing(s.key))
        else Success(Some(Blit(ActorTexture(s.key), s.source, Rect(x, y, s.width, s.height))))
  }

  // ----------------------------------------------------------------- labels

  datatype Cursor = DefaultCursor | PointingHand

  /** What one `draw_text` call does: the label it draws and, for a link, the hit test's effects. */
  datatype LabelOutcome = LabelOutcome(draw: DrawCommand, hitbox: Option<Rect>, cursor: Option<Cursor>, launched: Option<string>)

  /** Rust's `/ 2` on i32, which rounds toward zero. */
  function Half(n: int): (h: int)
    ensures n >= 0 ==> 0 <= 2 * h <= n && n - 2 * h <= 1
    ensures n < 0 ==> n <= 2 * h <= 0 && 2 * h - n <= 1
  {
    if n >= 0 then n / 2 else -((-n) / 2)
  }

  /** The point (px, py) lies in `r`, all four edges included, as raylib 3's point-in-rectangle test decides. */
  predicate Contains(r: Rect, px: int, py: int) {
    r.x <= px <= r.x + r.width && r.y <= py <= r.y + r.height
  }

  /**
   * `draw_text` with the library's text width `measured`, the mouse position
   * and whether the left button was pressed this frame.
   */
  function DrawText(text: string, fontSize: int, x: int, y: int, link: Option<string>,
                    measured: int, mouseX: int, mouseY: int, leftPressed: bool): (r: LabelOutcome)
    ensures r.draw == Label(text, x - Half(measured), y - Half(fontSize), fontSize)
    ensures link.None? ==> r.hitbox.None? && r.cursor.None? && r.launched.None?
    ensures link.Some? ==> r.hitbox == Some(Rect(r.draw.x, r.draw.y, 2 * Half(measured), 2 * Half(fontSize)))
    ensures link.Some? ==> (r.cursor == Some(PointingHand) <==> Contains(r.hitbox.value, mouseX, mouseY))
    ensures link.Some? ==> (r.cursor == Some(DefaultCursor) <==> !Contains(r.hitbox.value, mouseX, mouseY))
    ensures r.launched.Some? <==> link.Some? && leftPressed && Contains(r.hitbox.value, mouseX, mouseY)
    ensures r.launched.Some? ==> r.launched == link
  {
    var dx := Half(measured);
    var dy := Half(fontSize);
    var draw := Label(text, x - dx, y - dy, fontSize);
    match link
    case None => LabelOutcome(draw, None, None, None)
    case Some(url) =>
      var hitbox := Rect(x - dx, y - dy, dx * 2, dy * 2);
      if Contains(hitbox, mouseX, mouseY) then
        LabelOutcome(draw, Some(hitbox), Some(PointingHand), if leftPressed then Some(url) else None)
      else
        LabelOutcome(draw, Some(hitbox), Some(DefaultCursor), None)
  }

  /**
   * A link's hitbox is centred on the requested point and, for non-negative
   * metrics, is at most one pixel narrower and shorter than the measured text.
   */
  lemma HitboxCentred(text: string, fontSize: int, x: int, y: int, url: string,
                      measured: int, mouseX: int, mouseY: int, leftPressed: bool)
    requires measured >= 0 && fontSize >= 0
    ensures var h := DrawText(text, fontSize, x, y, Some(url), measured, mouseX, mouseY, leftPressed).hitbox.value;
      && 2 * (x - h.x) == h.width && 2 * (y - h.y) == h.height
      && measured - 1 <= h.width <= measured && fontSize - 1 <= h.height <= fontSize
  {
  }
}
