/** The closed enumerations of the scene and the appearance sampler (src/enums.rs). */
module Enums {

  /** Furniture tiles of the prop atlas. */
  datatype PropType = SmallChair | LargePinkChair | LargeRedChair | LargeBlueChair
                    | SmallTable | LargeTable

  /** Wall tiles of the building-interior atlas. */
  datatype WallType =
    | TallUpperLeftCornerWall | TallUpperRightCornerWall
    | TallLowerRightCornerWall | TallLowerLeftCornerWall
    | TallVerticalWall | TallLeftRightWall | TallTopBottomWall
    | TallLeftWall | TallRightWall | TallWall
    | ShortLeftWall | ShortRightWall | ShortWall | ShortLeftRightWall
    | Floor

  /** Carpet tiles of the carpet atlas. */
  datatype CarpetType =
    | NoWalls
    | LeftWall | RightWall | TopWall | BottomWall
    | LeftTopWall | LeftBottomWall
    | RightTopWall | RightBottomWall
    | LeftRightWall | TopBottomWall
    | UpperRightCornerWall | UpperLeftCornerWall
    | BottomRightCornerWall | BottomLeftCornerWall

  /** Animation frames of the animal-like families. `NoType` only keys a family's texture. */
  datatype GnomeType = NoType | WalkingForward1 | WalkingForward2
                     | WalkingBackward1 | WalkingBackward2 | WalkingRight | IdleRight
  datatype CatKidType = NoType | WalkingForward1 | WalkingForward2
  datatype ChickType = NoType | WalkingForward1 | WalkingForward2
  datatype DuckType = NoType | WalkingForward1 | WalkingForward2

  /** The appearance of an actor. */
  datatype PersonType =
    | Gnome(gnome: GnomeType)
    | CatKid(catKid: CatKidType)
    | Chick(chick: ChickType)
    | DuckBoy(duck: DuckType)
    | Fox
    | Person1 | Person2 | Person3 | Person4 | Person5
    | Person6 | Person7 | Person8 | Person9 | Person10
    | Person11 | Person12 | Person13 | Person14 | Person15

  /** The fifteen individually drawn humans, `Humans[n - 1]` being `Person<n>`. */
  const Humans: seq<PersonType> :=
    [Person1, Person2, Person3, Person4, Person5,
     Person6, Person7, Person8, Person9, Person10,
     Person11, Person12, Person13, Person14, Person15]

  predicate IsHuman(p: PersonType) {
    p in Humans
  }

  /** The placeholder sub-variants that exist only to key a family's texture. */
  predicate IsPlaceholder(p: PersonType) {
    || p == Gnome(GnomeType.NoType)
    || p == CatKid(CatKidType.NoType)
    || p == Chick(ChickType.NoType)
    || p == DuckBoy(DuckType.NoType)
  }

  /** Palette swap used when the crowd is drawn without colour: drawn number to replacement number. */
  const MonochromeSwap: map<int, int> :=
    map[4 := 2, 5 := 3, 9 := 6, 10 := 8, 11 := 7, 13 := 12, 15 := 14]

  /** The humans that only a coloured draw can produce. */
  const ColouredOnly: set<PersonType> :=
    {Person4, Person5, Person9, Person10, Person11, Person13, Person15}

  /**
   * `rand_person` given the integer `n` its generator drew from 1..=15.
   * Coloured draws give `Person<n>`; monochrome draws apply `MonochromeSwap`;
   * any other number falls through to `Fox`.
   */
  function RandPerson(n: int, colored: bool): (p: PersonType)
    ensures 1 <= n <= 15 && colored ==> p == Humans[n - 1]
    ensures !colored && n in MonochromeSwap ==> p == Humans[MonochromeSwap[n] - 1]
    ensures 1 <= n <= 15 && n !in MonochromeSwap ==> p == Humans[n - 1]
    ensures !colored ==> p !in ColouredOnly
    ensures 1 <= n <= 15 <==> IsHuman(p)
    ensures !(1 <= n <= 15) ==> p == Fox
    ensures !IsPlaceholder(p)
  {
    match n
    case 1 => Person1
    case 2 => Person2
    case 3 => Person3
    case 4 => if colored then Person4 else Person2
    case 5 => if colored then Person5 else Person3
    case 6 => Person6
    case 7 => Person7
    case 8 => Person8
    case 9 => if colored then Person9 else Person6
    case 10 => if colored then Person10 else Person8
    case 11 => if colored then Person11 else Person7
    case 12 => Person12
    case 13 => if colored then Person13 else Person12
    case 14 => Person14
    case 15 => if colored then Person15 else Person14
    case _ => Fox
  }

  /** A coloured draw can produce every one of the fifteen humans. */
  lemma ColouredCoversHumans(q: PersonType)
    requires IsHuman(q)
    ensures exists n :: 1 <= n <= 15 && RandPerson(n, true) == q
  {
    var k :| 0 <= k < |Humans| && Humans[k] == q;
    assert RandPerson(k + 1, true) == q;
  }

  /** A monochrome draw produces exactly the humans outside `ColouredOnly`. */
  lemma MonochromeImage(q: PersonType)
    ensures (exists n :: 1 <= n <= 15 && RandPerson(n, false) == q) <==> IsHuman(q) && q !in ColouredOnly
  {
    if IsHuman(q) && q !in ColouredOnly {
      var k :| 0 <= k < |Humans| && Humans[k] == q;
      assert k + 1 !in MonochromeSwap;
      assert RandPerson(k + 1, false) == q;
    }
  }
}
