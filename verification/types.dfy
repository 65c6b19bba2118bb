/** The records of `types.ts`: pattern categories, difficulty tiers, pattern
    items, levels and the player's statistics. */
module Types {

  datatype Option<T> = None | Some(value: T) {
    function GetOr(default: T): T {
      match this
      case Some(v) => v
      case None => default
    }
  }

  /** The eleven pattern categories, in declaration order. */
  datatype PatternType =
    | Color | Shape | Size | Number | Emoji | Rotation
    | Alphabet | Quantity | Nature | Fruit | Mirror

  /** `Object.values(PatternType)`: the categories in declaration order. */
  const AllTypes: seq<PatternType> :=
    [Color, Shape, Size, Number, Emoji, Rotation, Alphabet, Quantity, Nature, Fruit, Mirror]

  /** The enum's string value, used inside generated ids. */
  function TypeName(t: PatternType): string {
    match t
    case Color => "COLOR"
    case Shape => "SHAPE"
    case Size => "SIZE"
    case Number => "NUMBER"
    case Emoji => "EMOJI"
    case Rotation => "ROTATION"
    case Alphabet => "ALPHABET"
    case Quantity => "QUANTITY"
    case Nature => "NATURE"
    case Fruit => "FRUIT"
    case Mirror => "MIRROR"
  }

  datatype Difficulty = Beginner | Intermediate | Advanced

  datatype ShapeName = Circle | Square | Triangle | Star | Heart | Arrow | Dot | Sun | Moon | Cloud

  function ShapeText(s: ShapeName): string {
    match s
    case Circle => "circle"
    case Square => "square"
    case Triangle => "triangle"
    case Star => "star"
    case Heart => "heart"
    case Arrow => "arrow"
    case Dot => "dot"
    case Sun => "sun"
    case Moon => "moon"
    case Cloud => "cloud"
  }

  datatype ItemSize = Sm | Md | Lg

  function SizeText(s: ItemSize): string {
    match s
    case Sm => "sm"
    case Md => "md"
    case Lg => "lg"
  }

  /** `value?: number | string`. */
  datatype Value = Num(n: int) | Str(s: string)

  /** A pattern item; every attribute but `id` is optional. */
  datatype Item = Item(
    id: string,
    color: Option<string>,
    shape: Option<ShapeName>,
    size: Option<ItemSize>,
    value: Option<Value>,
    rotation: Option<int>,
    emoji: Option<string>)

  datatype Level = Level(
    id: int,
    groupType: PatternType,
    levelInGroup: int,
    difficulty: Difficulty,
    isBoss: bool,
    sequence: seq<Item>,
    options: seq<Item>,
    correctAnswerId: string,
    instruction: string)

  datatype DailyStats = DailyStats(
    dateKey: string,
    completedToday: int,
    perfectToday: int,
    bossesToday: int)

  datatype UserStats = UserStats(
    stars: int,
    streak: int,
    bestStreak: int,
    completedLevels: seq<int>,
    unlockedGroups: seq<PatternType>,
    lastPlayed: string,
    xp: int,
    badges: seq<string>,
    fastestSolveMs: Option<int>,
    bossesCompleted: int,
    perfectCompletions: int,
    daily: DailyStats)

  /** What the game screen reports when a level is solved. */
  datatype LevelResult = LevelResult(mistakes: nat, usedHint: bool, solveMs: int)
}
