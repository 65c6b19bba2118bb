/** `generateLevels` of constants.ts: eleven categories times ten levels, each
    with a stimulus sequence, a correct item and up to three visually distinct
    options. Every `Math.random()` the source draws is an explicit parameter. */
module Generator {
  import opened Types
  import opened Text
  import opened Seqs
  import opened Shuffling
  import opened Visual

  /** Level index within a category to difficulty tier. */
  function GetDifficulty(index: int): (d: Difficulty)
    ensures d == Beginner <==> index <= 3
    ensures d == Intermediate <==> 4 <= index <= 7
    ensures d == Advanced <==> 8 <= index
  {
    if index <= 3 then Beginner
    else if index <= 7 then Intermediate
    else Advanced
  }

  const Shapes: seq<ShapeName> := [Circle, Square, Triangle, Star, Heart, Sun, Moon, Cloud]

  const Colors: seq<string> := [
    "bg-red-400", "bg-blue-400", "bg-green-400", "bg-yellow-400", "bg-purple-400",
    "bg-pink-400", "bg-orange-400", "bg-indigo-400", "bg-teal-400"]

  const EmojiSets: seq<seq<string>> := [
    ["🦁", "🐯", "🐘", "🦒"],
    ["🍎", "🍌", "🍇", "🍓"],
    ["🚗", "🚀", "🚁", "🚲"],
    ["⚽", "🏀", "🎾", "🏐"],
    ["🍦", "🍩", "🍕", "🍔"],
    ["🐶", "🐱", "🐭", "🐹"]]

  const Rotations: seq<int> := [0, 90, 180, 270]

  const Fruits: seq<string> := ["🍎", "🍌", "🍇", "🍒", "🍓", "🍍"]

  const NatureShapes: seq<ShapeName> := [Sun, Cloud, Moon, Star]

  /** `[0, 1, ..., 7]`: the pool the base items A-D are drawn from. */
  const LevelPoolIndices: seq<nat> := [0, 1, 2, 3, 4, 5, 6, 7]

  /** `Array.from({ length: 15 }, (_, k) => k + 4)`: the distractor indices 4..18. */
  function DistractorPool(): (r: seq<nat>)
    ensures |r| == 15
    ensures forall k :: 0 <= k < 15 ==> r[k] == k + 4
  {
    seq(15, k requires 0 <= k < 15 => k + 4)
  }

  const CorrectId := "opt-correct"

  const BossPrefix := "BOSS ROUND: "

  /** The random draws one level consumes, in the order the source draws them. */
  datatype LevelDraws = LevelDraws(
    colors: Draw,
    shapes: Draw,
    emojiSet: nat,
    emojis: Draw,
    rotations: Draw,
    pool: Draw,
    distractors: Draw,
    options: Draw)

  /** The shuffled palettes of one level. */
  datatype Palette = Palette(
    colors: seq<string>,
    shapes: seq<ShapeName>,
    emojis: seq<string>,
    rotations: seq<int>)

  predicate PaletteOk(p: Palette) {
    && |p.colors| == 9 && NoDups(p.colors)
    && |p.shapes| == 8 && NoDups(p.shapes)
    && |p.emojis| == 4 && NoDups(p.emojis)
    && |p.rotations| == 4 && NoDups(p.rotations)
    && (forall k :: 0 <= k < 4 ==> p.rotations[k] in Rotations)
    && (forall k :: 0 <= k < 9 ==> p.colors[k] != "")
    && (forall k :: 0 <= k < 4 ==> p.emojis[k] != "")
  }

  lemma ShuffleNoDups<T>(a: seq<T>, draw: Draw)
    requires NoDups(a)
    ensures NoDups(Shuffle(a, draw))
  {
    if |a| > 0 {
      ShuffleDownNoDups(a, |a| - 1, draw);
    }
  }

  /** `shuffle(COLORS)`, `shuffle(SHAPES)`, the shuffled emoji set and `shuffle([0, 90, 180, 270])`. */
  function LevelPalette(d: LevelDraws): (p: Palette)
    ensures PaletteOk(p)
  {
    var p := Palette(Shuffle(Colors, d.colors), Shuffle(Shapes, d.shapes),
                     Shuffle(EmojiSets[d.emojiSet % |EmojiSets|], d.emojis), Shuffle(Rotations, d.rotations));
    LevelPaletteOk(d, p);
    p
  }

  lemma LevelPaletteOk(d: LevelDraws, p: Palette)
    requires p == Palette(Shuffle(Colors, d.colors), Shuffle(Shapes, d.shapes),
                          Shuffle(EmojiSets[d.emojiSet % |EmojiSets|], d.emojis), Shuffle(Rotations, d.rotations))
    ensures PaletteOk(p)
  {
    ShuffledColors(d.colors);
    ShuffledEmojis(d.emojiSet % |EmojiSets|, d.emojis);
    ShapesAndRotationsNoDups();
    ShuffleNoDups(Shapes, d.shapes);
    ShuffleNoDups(Rotations, d.rotations);
    RotationsStayRotations(d.rotations);
  }

  lemma ShuffledColors(draw: Draw)
    ensures |Shuffle(Colors, draw)| == 9 && NoDups(Shuffle(Colors, draw))
    ensures forall k :: 0 <= k < 9 ==> Shuffle(Colors, draw)[k] != ""
  {
    ColorsNoDups();
    ShuffleNoDups(Colors, draw);
    NonEmptyStayNonEmpty(Colors, draw);
  }

  lemma ShuffledEmojis(e: nat, draw: Draw)
    requires e < |EmojiSets|
    ensures |Shuffle(EmojiSets[e], draw)| == 4 && NoDups(Shuffle(EmojiSets[e], draw))
    ensures forall k :: 0 <= k < 4 ==> Shuffle(EmojiSets[e], draw)[k] != ""
  {
    EmojiSetsNoDups(e);
    ShuffleNoDups(EmojiSets[e], draw);
    NonEmptyStayNonEmpty(EmojiSets[e], draw);
  }

  /** Shuffling a list of non-empty strings leaves every entry non-empty. */
  lemma NonEmptyStayNonEmpty(a: seq<string>, draw: Draw)
    requires forall k :: 0 <= k < |a| ==> a[k] != ""
    ensures forall k :: 0 <= k < |a| ==> Shuffle(a, draw)[k] != ""
  {
    var s := Shuffle(a, draw);
    forall k | 0 <= k < |a|
      ensures s[k] != ""
    {
      ShuffleMembers(a, draw, s[k]);
    }
  }

  lemma ColorsNoDups()
    ensures NoDups(Colors)
    ensures forall k :: 0 <= k < |Colors| ==> Colors[k] != ""
  {
    forall a, b | 0 <= a < b < 9
      ensures Colors[a] != Colors[b]
    {
      assert Colors[a][3] != Colors[b][3] || Colors[a][4] != Colors[b][4] || Colors[a][5] != Colors[b][5];
    }
  }

  lemma ShapesAndRotationsNoDups()
    ensures NoDups(Shapes) && NoDups(Rotations)
  {
  }

  lemma EmojiSetsNoDups(k: nat)
    requires k < |EmojiSets|
    ensures |EmojiSets[k]| == 4
    ensures NoDups(EmojiSets[k])
    ensures forall a :: 0 <= a < 4 ==> EmojiSets[k][a] != ""
  {
    var e := EmojiSets[k];
    assert forall a :: 0 <= a < 4 ==> |e[a]| == 1;
    forall a, b | 0 <= a < b < 4
      ensures e[a] != e[b]
    {
      assert e[a][0] != e[b][0];
    }
  }

  lemma RotationsStayRotations(draw: Draw)
    ensures forall k :: 0 <= k < 4 ==> Shuffle(Rotations, draw)[k] in Rotations
  {
    forall k | 0 <= k < 4
      ensures Shuffle(Rotations, draw)[k] in Rotations
    {
      ShuffleMembers(Rotations, draw, Shuffle(Rotations, draw)[k]);
    }
  }

  function NatureColor(s: ShapeName): string {
    if s == Sun then "bg-yellow-300"
    else if s == Moon then "bg-slate-600"
    else if s == Cloud then "bg-blue-100"
    else "bg-yellow-400"
  }

  /** `String.fromCharCode(code)` for a code point in the Basic Latin range. */
  function FromCharCode(code: int): string
    requires 0 <= code < 128
  {
    [code as char]
  }

  /** `createBaseItem(poolIdx)` of level `i` of category `t`. The id's
      `Math.random()` suffix is dropped; it never reaches the visual key. */
  function BaseItem(t: PatternType, i: nat, poolIdx: nat, pal: Palette): Item
    requires PaletteOk(pal)
  {
    var id := "item-" + TypeName(t) + "-" + IntToString(i) + "-" + IntToString(poolIdx);
    var item := Item(id, None, None, Some(Md), None, None, None);
    match t
    case Color => item.(color := Some(pal.colors[poolIdx % 9]), shape := Some(Circle))
    case Shape => item.(shape := Some(pal.shapes[poolIdx % 8]), color := Some("bg-indigo-400"))
    case Size =>
      item.(size := Some([Sm, Md, Lg][poolIdx % 3]), color := Some("bg-green-400"), shape := Some(Square))
    case Number => item.(value := Some(Num((poolIdx + 1) + i * 2)), color := Some("bg-orange-400"))
    case Emoji => item.(emoji := Some(pal.emojis[poolIdx % 4]))
    case Rotation =>
      item.(shape := Some(Arrow), rotation := Some(pal.rotations[poolIdx % 4]), color := Some("bg-blue-500"))
    case Alphabet =>
      var startChar := 65 + i % 10;
      item.(value := Some(Str(FromCharCode(startChar + poolIdx % (26 - i % 10)))), color := Some("bg-pink-400"))
    case Quantity => item.(shape := Some(Dot), value := Some(Num((poolIdx + i) % 9 + 1)), color := Some("bg-slate-700"))
    case Nature =>
      var s := NatureShapes[(poolIdx + i) % 4];
      item.(shape := Some(s), color := Some(NatureColor(s)))
    case Fruit => item.(emoji := Some(Fruits[(poolIdx + i) % 6]))
    case Mirror => item.(color := Some(pal.colors[(poolIdx + i) % 9]), shape := Some(pal.shapes[(poolIdx + i) % 8]))
  }

  /** A generated stimulus: the sequence shown, the item that continues it and the prompt. */
  datatype Stimulus = Stimulus(sequence: seq<Item>, correct: Item, instruction: string)

  /** The recurrence a NUMBER level follows. */
  datatype NumberRule =
    | Step(d: int)
    | Doubling
    | GrowingIncrement
    | SumOfLastTwo
    | DoublePlusOne

  /** The five values `nums + [next]` obey `rule` at every step. */
  predicate Obeys(rule: NumberRule, nums: seq<int>, next: int) {
    |nums| == 4 &&
    var f := nums + [next];
    match rule
    case Step(d) => forall k :: 0 <= k < 4 ==> f[k + 1] == f[k] + d
    case Doubling => forall k :: 0 <= k < 4 ==> f[k + 1] == 2 * f[k]
    case GrowingIncrement => forall k :: 0 <= k < 4 ==> f[k + 1] == f[k] + k + 1
    case SumOfLastTwo => forall k :: 0 <= k < 3 ==> f[k + 2] == f[k] + f[k + 1]
    case DoublePlusOne => forall k :: 0 <= k < 4 ==> f[k + 1] == 2 * f[k] + 1
  }

  /** Which recurrence level `i` of NUMBER uses, by tier and residue. */
  function RuleFor(i: int): NumberRule {
    match GetDifficulty(i)
    case Beginner => if i % 2 == 0 then Step(1) else Step(2)
    case Intermediate => if i % 3 == 0 then Step(3) else if i % 3 == 1 then Step(5) else Doubling
    case Advanced => if i % 3 == 0 then GrowingIncrement else if i % 3 == 1 then SumOfLastTwo else DoublePlusOne
  }

  datatype Progression = Progression(nums: seq<int>, next: int, instruction: string)

  /** Four terms counting up by `d` from `start`, and the fifth. */
  function Arithmetic(start: int, d: int, prompt: string): (p: Progression)
    requires start >= 2 && d >= 1
    ensures Obeys(Step(d), p.nums, p.next)
    ensures forall k :: 0 <= k < 4 ==> 2 <= p.nums[k] < p.next
  {
    Progression([start, start + d, start + 2 * d, start + 3 * d], start + 4 * d, prompt)
  }

  function Doubled(start: int, prompt: string): (p: Progression)
    requires start >= 2
    ensures Obeys(Doubling, p.nums, p.next)
    ensures forall k :: 0 <= k < 4 ==> 2 <= p.nums[k] < p.next
  {
    Progression([start, start * 2, start * 4, start * 8], start * 16, prompt)
  }

  function Growing(start: int, prompt: string): (p: Progression)
    requires start >= 2
    ensures Obeys(GrowingIncrement, p.nums, p.next)
    ensures forall k :: 0 <= k < 4 ==> 2 <= p.nums[k] < p.next
  {
    var n2 := start + 1;
    var n3 := n2 + 2;
    var n4 := n3 + 3;
    Progression([start, n2, n3, n4], n4 + 4, prompt)
  }

  function Fibonacci(a: int, b: int, prompt: string): (p: Progression)
    requires a >= 2 && b >= 2
    ensures Obeys(SumOfLastTwo, p.nums, p.next)
    ensures forall k :: 0 <= k < 4 ==> 2 <= p.nums[k] < p.next
  {
    var c := a + b;
    var d := b + c;
    Progression([a, b, c, d], c + d, prompt)
  }

  function DoubledPlusOne(start: int, prompt: string): (p: Progression)
    requires start >= 2
    ensures Obeys(DoublePlusOne, p.nums, p.next)
    ensures forall k :: 0 <= k < 4 ==> 2 <= p.nums[k] < p.next
  {
    var n2 := start * 2 + 1;
    var n3 := n2 * 2 + 1;
    var n4 := n3 * 2 + 1;
    Progression([start, n2, n3, n4], n4 * 2 + 1, prompt)
  }

  /** The numbers and prompt of NUMBER level `i`. */
  function NumberProgression(i: int): (p: Progression)
    requires 1 <= i <= 10
    ensures Obeys(RuleFor(i), p.nums, p.next)
    ensures forall k :: 0 <= k < 4 ==> 2 <= p.nums[k] < p.next
  {
    match GetDifficulty(i)
    case Beginner =>
      if i % 2 == 0 then Arithmetic(2 + i % 4, 1, "Count up by 1. What number is next?")
      else Arithmetic(2 + i % 3, 2, "Skip-count by 2. What comes next?")
    case Intermediate =>
      if i % 3 == 0 then Arithmetic(3 + i % 3, 3, "Count up by 3. Find the next number!")
      else if i % 3 == 1 then Arithmetic(5 + i % 2, 5, "Count up by 5. What's next?")
      else Doubled(2 + i % 2, "Double each number. Which one comes next?")
    case Advanced =>
      if i % 3 == 0 then Growing(2 + i % 3, "Add 1, then 2, then 3... what's next?")
      else if i % 3 == 1 then Fibonacci(2 + i % 3, 3 + i % 2, "Add the last two numbers each time. Next?")
      else DoubledPlusOne(2 + i % 3, "Double and add 1 each step. What's next?")
  }

  function NumberItem(id: string, v: int): Item {
    Item(id, Some("bg-orange-400"), None, Some(Md), Some(Num(v)), None, None)
  }

  /** The NUMBER branch: the progression's values as orange number tiles. */
  function NumberStimulus(i: int): (st: Stimulus)
    requires 1 <= i <= 10
    ensures |st.sequence| == 4
    ensures st.correct.value.Some? && st.correct.value.value.Num? && st.correct.value.value.n > 2
    ensures Obeys(RuleFor(i), NumberValues(st.sequence), st.correct.value.value.n)
    ensures forall k :: 0 <= k < 4 ==>
      st.sequence[k].value.Some? && st.sequence[k].value.value.Num? && st.sequence[k].value.value.n >= 2
  {
    var p := NumberProgression(i);
    var prefix := "num-seq-" + TypeName(Number) + "-" + IntToString(i) + "-";
    var st := Stimulus(
      seq(4, k requires 0 <= k < 4 => NumberItem(prefix + IntToString(k), p.nums[k])),
      NumberItem("num-correct-" + TypeName(Number) + "-" + IntToString(i), p.next),
      p.instruction);
    assert NumberValues(st.sequence) == p.nums;
    st
  }

  /** The numeric values of a sequence of number tiles (0 for a tile without one). */
  function NumberValues(s: seq<Item>): (r: seq<int>)
    ensures |r| == |s|
  {
    seq(|s|, k requires 0 <= k < |s| =>
      if s[k].value.Some? && s[k].value.value.Num? then s[k].value.value.n else 0)
  }

  function ColorStimulus(tier: Difficulty, a: Item, b: Item, c: Item, pal: Palette): Stimulus
    requires PaletteOk(pal)
  {
    var c1 := a.(shape := Some(Circle), color := Some(pal.colors[0]));
    var c2 := b.(shape := Some(Circle), color := Some(pal.colors[1]));
    var c3 := c.(shape := Some(Circle), color := Some(pal.colors[2]));
    match tier
    case Beginner => Stimulus([c1, c2, c1, c2], c1, "Find the next repeating color.")
    case Intermediate => Stimulus([c1, c2, c3, c1, c2], c3, "Three colors repeat in order. What's next?")
    case Advanced => Stimulus([c1, c1, c2, c2, c3, c3], c1, "Each color appears twice. Which color returns now?")
  }

  function ShapeStimulus(tier: Difficulty, a: Item, b: Item, c: Item, pal: Palette): Stimulus
    requires PaletteOk(pal)
  {
    var s1 := a.(shape := Some(pal.shapes[0]), color := Some("bg-indigo-400"));
    var s2 := b.(shape := Some(pal.shapes[1]), color := Some("bg-indigo-400"));
    var s3 := c.(shape := Some(pal.shapes[2]), color := Some("bg-indigo-400"));
    match tier
    case Beginner => Stimulus([s1, s2, s1, s2], s1, "Which shape repeats next?")
    case Intermediate => Stimulus([s1, s2, s3, s1, s2], s3, "Follow the 3-shape cycle.")
    case Advanced => Stimulus([s1, s2, s2, s1, s2], s2, "One shape appears twice each cycle. Pick next.")
  }

  /** The four size variants of a tier, built from a small, a medium and a large square. */
  function SizeVariants(tier: Difficulty, small: Item, medium: Item, large: Item): (r: seq<Stimulus>)
    ensures |r| == 4
  {
    match tier
    case Beginner => [
      Stimulus([small, medium, large], small, "Small, medium, large... then what?"),
      Stimulus([large, medium, small], large, "Big to small then repeat. What's next?"),
      Stimulus([small, small, medium], medium, "Two small, two medium... choose next size."),
      Stimulus([medium, large, medium, large], medium, "Middle and large alternate. What's next?")]
    case Intermediate => [
      Stimulus([small, medium, large, medium], small, "Size goes up then down. What comes next?"),
      Stimulus([large, medium, small, medium], large, "Size goes down then up. Pick next."),
      Stimulus([small, medium, medium, large, large], small, "Each step repeats before growing. Next size?"),
      Stimulus([small, large, medium, small, large], medium, "Follow the size jump pattern.")]
    case Advanced => [
      Stimulus([small, small, medium, medium, large, large], small, "Pairs of sizes loop back. Which starts again?"),
      Stimulus([small, large, small, large, medium, large], small, "Two-size bounce with a middle twist. Next?"),
      Stimulus([small, medium, large, large, medium, small], small, "Mirror the size pattern. What follows?"),
      Stimulus([medium, small, large, medium, small], large, "Three-size sequence repeats. Pick next.")]
  }

  /** Level `i` of SIZE takes variant `(i - 1) % 4` of its tier. */
  function SizeStimulus(tier: Difficulty, i: int, a: Item, b: Item, c: Item): Stimulus
    requires 1 <= i
  {
    var small := a.(shape := Some(Square), color := Some("bg-green-400"), size := Some(Sm));
    var medium := b.(shape := Some(Square), color := Some("bg-green-400"), size := Some(Md));
    var large := c.(shape := Some(Square), color := Some("bg-green-400"), size := Some(Lg));
    SizeVariants(tier, small, medium, large)[(i - 1) % 4]
  }

  function EmojiStimulus(tier: Difficulty, a: Item, b: Item, c: Item, pal: Palette): Stimulus
    requires PaletteOk(pal)
  {
    var e1 := a.(emoji := Some(pal.emojis[0]), color := None, shape := None);
    var e2 := b.(emoji := Some(pal.emojis[1]), color := None, shape := None);
    var e3 := c.(emoji := Some(pal.emojis[2]), color := None, shape := None);
    match tier
    case Beginner => Stimulus([e1, e2, e1, e2], e1, "Which emoji comes next in the repeat?")
    case Intermediate => Stimulus([e1, e2, e3, e1, e2], e3, "Emoji team repeats in order. What's next?")
    case Advanced => Stimulus([e1, e1, e2, e2, e3, e3], e1, "Each emoji appears twice. Which one returns?")
  }

  function RotationStimulus(tier: Difficulty, a: Item, b: Item, c: Item, d: Item): Stimulus {
    var r1 := a.(shape := Some(Arrow), color := Some("bg-blue-500"), rotation := Some(0));
    var r2 := b.(shape := Some(Arrow), color := Some("bg-blue-500"), rotation := Some(90));
    var r3 := c.(shape := Some(Arrow), color := Some("bg-blue-500"), rotation := Some(180));
    var r4 := d.(shape := Some(Arrow), color := Some("bg-blue-500"), rotation := Some(270));
    match tier
    case Beginner => Stimulus([r1, r2, r3], r4, "Arrow turns a quarter turn each step. Next?")
    case Intermediate => Stimulus([r1, r3, r1, r3], r1, "Arrow flips between opposite directions.")
    case Advanced => Stimulus([r1, r2, r4, r1, r2], r4, "Turn pattern repeats: up, right, left...")
  }

  function Letter(item: Item, code: int): Item
    requires 0 <= code < 128
  {
    item.(value := Some(Str(FromCharCode(code))), color := Some("bg-pink-400"))
  }

  function AlphabetStimulus(tier: Difficulty, i: int, a: Item, b: Item, c: Item, d: Item): Stimulus
    requires 1 <= i <= 10
  {
    var start := 65 + i % 8;
    match tier
    case Beginner =>
      Stimulus([Letter(a, start), Letter(b, start + 1), Letter(c, start + 2)], Letter(d, start + 3),
               "Move one letter forward each time.")
    case Intermediate =>
      Stimulus([Letter(a, start), Letter(b, start + 2), Letter(c, start + 4)], Letter(d, start + 6),
               "Skip one letter each step. What's next?")
    case Advanced =>
      Stimulus([Letter(a, start), Letter(b, start + 1), Letter(c, start + 3), Letter(d, start + 4)], Letter(a, start + 6),
               "Two-letter blocks jump forward. Find next letter.")
  }

  function Count(item: Item, n: int): Item {
    item.(value := Some(Num(n)), color := Some("bg-slate-700"))
  }

  function QuantityStimulus(tier: Difficulty, i: int, a: Item, b: Item, c: Item, d: Item): Stimulus {
    var q := 1 + i % 3;
    match tier
    case Beginner =>
      Stimulus([Count(a, q), Count(b, q + 1), Count(c, q + 2)], Count(d, q + 3),
               "Count the amount. Which count comes next?")
    case Intermediate =>
      Stimulus([Count(a, q), Count(b, q + 2), Count(c, q + 4), Count(d, q + 6)], Count(a, q + 8),
               "Count by twos using quantity.")
    case Advanced =>
      Stimulus([Count(a, q), Count(b, q + 1), Count(c, q + 3), Count(d, q + 6)], Count(a, q + 10),
               "Add bigger amounts each step: +1, +2, +3...")
  }

  function NatureStimulus(tier: Difficulty, a: Item, b: Item, c: Item, d: Item): Stimulus {
    var sun := a.(shape := Some(Sun), color := Some("bg-yellow-300"));
    var cloud := b.(shape := Some(Cloud), color := Some("bg-blue-100"));
    var moon := c.(shape := Some(Moon), color := Some("bg-slate-600"));
    var star := d.(shape := Some(Star), color := Some("bg-yellow-400"));
    match tier
    case Beginner => Stimulus([sun, cloud, sun, cloud], sun, "Weather cycle repeats. Which sky icon is next?")
    case Intermediate => Stimulus([sun, cloud, moon, star, sun, cloud], moon, "Day to night cycle repeats. What's next?")
    case Advanced => Stimulus([sun, moon, sun, moon, star], sun, "Two-part sky rhythm with a sparkle break. Next?")
  }

  function FruitStimulus(tier: Difficulty, i: nat, a: Item, b: Item, c: Item): Stimulus {
    var f1 := a.(emoji := Some(Fruits[(i + 0) % 6]), color := None, shape := None);
    var f2 := b.(emoji := Some(Fruits[(i + 1) % 6]), color := None, shape := None);
    var f3 := c.(emoji := Some(Fruits[(i + 2) % 6]), color := None, shape := None);
    match tier
    case Beginner => Stimulus([f1, f2, f1, f2], f1, "Fruit pair repeats. Which fruit comes next?")
    case Intermediate => Stimulus([f1, f2, f3, f1, f2], f3, "Three-fruit basket pattern. Find next fruit.")
    case Advanced => Stimulus([f1, f1, f2, f2, f3, f3], f1, "Each fruit appears twice in order.")
  }

  function MirrorStimulus(tier: Difficulty, a: Item, b: Item, c: Item): Stimulus {
    match tier
    case Beginner => Stimulus([a, b, b], a, "Mirror it: left side and right side must match.")
    case Intermediate => Stimulus([a, b, c, b], a, "Complete the mirror around the center.")
    case Advanced => Stimulus([a, b, c, c, b], a, "Symmetry challenge: finish the reflected side.")
  }

  /** The per-category templates, built from the base items A-D. */
  function Template(t: PatternType, i: int, a: Item, b: Item, c: Item, d: Item, pal: Palette): Stimulus
    requires 1 <= i <= 10
    requires PaletteOk(pal)
  {
    var tier := GetDifficulty(i);
    match t
    case Color => ColorStimulus(tier, a, b, c, pal)
    case Shape => ShapeStimulus(tier, a, b, c, pal)
    case Size => SizeStimulus(tier, i, a, b, c)
    case Emoji => EmojiStimulus(tier, a, b, c, pal)
    case Rotation => RotationStimulus(tier, a, b, c, d)
    case Alphabet => AlphabetStimulus(tier, i, a, b, c, d)
    case Quantity => QuantityStimulus(tier, i, a, b, c, d)
    case Nature => NatureStimulus(tier, a, b, c, d)
    case Fruit => FruitStimulus(tier, i, a, b, c)
    case Mirror => MirrorStimulus(tier, a, b, c)
    // the source's `default` arm; NUMBER never reaches this switch
    case Number => Stimulus([a, b, c], d, "Find the missing piece!")
  }

  /** The stimulus of level `i` of category `t` before the boss prefix. */
  function LevelStimulus(t: PatternType, i: int, pal: Palette, pool: seq<nat>): Stimulus
    requires 1 <= i <= 10
    requires PaletteOk(pal)
    requires |pool| == 8
  {
    if t == Number then NumberStimulus(i)
    else
      Template(t, i, BaseItem(t, i, pool[0], pal), BaseItem(t, i, pool[1], pal),
               BaseItem(t, i, pool[2], pal), BaseItem(t, i, pool[3], pal), pal)
  }

  /** `BOSS ROUND: ` in front of the tier's prompt on boss levels. */
  function BossInstruction(isBoss: bool, instruction: string): (r: string)
    ensures isBoss ==> (|r| == |BossPrefix| + |instruction| && r[..|BossPrefix|] == BossPrefix
      && r[|BossPrefix|..] == instruction)
    ensures !isBoss ==> r == instruction
  {
    if isBoss then BossPrefix + instruction else instruction
  }

  /** The options' looks are pairwise different. */
  predicate DistinctLooks(s: seq<Item>) {
    forall a, b :: 0 <= a < b < |s| ==> Key(s[a]) != Key(s[b])
  }

  function KeysOf(s: seq<Item>): set<VisualKey> {
    set x | x in s :: Key(x)
  }

  /** Appending an item with an unseen look keeps the looks distinct, and adds its key. */
  lemma AppendLooks(acc: seq<Item>, x: Item)
    requires DistinctLooks(acc)
    requires Key(x) !in KeysOf(acc)
    ensures DistinctLooks(acc + [x])
    ensures KeysOf(acc + [x]) == KeysOf(acc) + {Key(x)}
  {
    var next := acc + [x];
    forall a, b | 0 <= a < b < |next|
      ensures Key(next[a]) != Key(next[b])
    {
      if b == |acc| {
        assert next[a] in acc;
      }
    }
  }

  function WrongId(k: nat): string {
    "opt-wrong-" + IntToString(k)
  }

  /** Renaming a candidate with an unseen look and appending it keeps the looks distinct. */
  lemma NameOption(acc: seq<Item>, c: Item)
    requires DistinctLooks(acc)
    requires Key(c) !in KeysOf(acc)
    ensures DistinctLooks(acc + [c.(id := WrongId(|acc|))])
  {
    var named := c.(id := WrongId(|acc|));
    assert Key(named) == Key(c);
    AppendLooks(acc, named);
  }

  lemma PrefixOfPrefix<T>(acc: seq<T>, x: T, r: seq<T>)
    requires |acc| + 1 <= |r|
    requires r[..|acc| + 1] == acc + [x]
    ensures r[..|acc|] == acc
    ensures r[|acc|] == x
  {
    assert r[..|acc| + 1][..|acc|] == r[..|acc|];
    assert r[..|acc| + 1][|acc|] == x;
  }

  /** The option loop: candidates in order, skipping any whose look is taken,
      stopping once three options exist. */
  function SelectOptions(acc: seq<Item>, cands: seq<Item>): (r: seq<Item>)
    requires |acc| <= 3
    requires DistinctLooks(acc)
    ensures |acc| <= |r| <= 3
    ensures r[..|acc|] == acc
    ensures DistinctLooks(r)
    ensures forall k :: |acc| <= k < |r| ==> r[k].id == WrongId(k)
    decreases |cands|
  {
    if |cands| == 0 || |acc| >= 3 then acc
    else
      var c := cands[0];
      if Key(c) in KeysOf(acc) then SelectOptions(acc, cands[1..])
      else
        var named := c.(id := WrongId(|acc|));
        NameOption(acc, c);
        var r := SelectOptions(acc + [named], cands[1..]);
        PrefixOfPrefix(acc, named, r);
        r
  }

  /** The NUMBER distractor candidates around the correct value. */
  function NumberCandidates(correct: int, tier: Difficulty): seq<int> {
    [correct + 1, correct + 2, correct + 3,
     if correct - 1 > 1 then correct - 1 else 1,
     if correct - 2 > 1 then correct - 2 else 1,
     correct + (if tier == Advanced then 5 else 4)]
  }

  /** `shuffle(candidates).filter((val, idx, arr) => arr.indexOf(val) === idx && val !== correct)`. */
  function NumberDistractorValues(correct: int, tier: Difficulty, draw: Draw): (r: seq<int>)
    ensures NoDups(r)
    ensures correct !in r
    ensures forall v :: v in r ==> v in NumberCandidates(correct, tier)
    ensures forall v :: v in NumberCandidates(correct, tier) && v != correct ==> v in r
    ensures correct >= 0 ==> forall v :: v in r ==> v >= 1
  {
    var cands := NumberCandidates(correct, tier);
    CandidatesAtLeastOne(correct, tier);
    ShuffleSameMembers(cands, draw);
    Without(Dedupe(Shuffle(cands, draw)), correct)
  }

  lemma CandidatesAtLeastOne(correct: int, tier: Difficulty)
    ensures correct >= 0 ==> forall v :: v in NumberCandidates(correct, tier) ==> v >= 1
  {
  }

  lemma ShuffleSameMembers<T>(a: seq<T>, draw: Draw)
    ensures forall v :: v in Shuffle(a, draw) <==> v in a
  {
    forall v ensures v in Shuffle(a, draw) <==> v in a {
      ShuffleMembers(a, draw, v);
    }
  }

  /** NUMBER distractors: one item per remaining candidate value. */
  function NumberDistractors(correct: int, tier: Difficulty, draw: Draw): (r: seq<Item>)
  {
    var vals := NumberDistractorValues(correct, tier, draw);
    seq(|vals|, k requires 0 <= k < |vals| => NumberItem("opt-number-" + IntToString(vals[k]), vals[k]))
  }

  /** Other categories: base items for the shuffled pool indices 4 to 18. */
  function PoolDistractors(t: PatternType, i: nat, pal: Palette, draw: Draw): (r: seq<Item>)
    requires PaletteOk(pal)
  {
    var idxs := Shuffle(DistractorPool(), draw);
    seq(15, k requires 0 <= k < 15 => BaseItem(t, i, idxs[k], pal))
  }

  /** The candidates the option loop walks through, in order. */
  function Candidates(t: PatternType, i: nat, correct: Item, pal: Palette, d: LevelDraws): (r: seq<Item>)
    requires 1 <= i <= 10
    requires PaletteOk(pal)
  {
    if t == Number && correct.value.Some? && correct.value.value.Num? then
      NumberDistractors(correct.value.value.n, GetDifficulty(i), d.distractors)
    else
      PoolDistractors(t, i, pal, d.distractors)
  }

  /** The options before the final shuffle: the correct item first, then distractors. */
  function RawOptions(t: PatternType, i: nat, correct: Item, pal: Palette, d: LevelDraws): (r: seq<Item>)
    requires 1 <= i <= 10
    requires PaletteOk(pal)
    ensures 1 <= |r| <= 3
    ensures r[0] == correct.(id := CorrectId)
    ensures DistinctLooks(r)
    ensures forall k :: 1 <= k < |r| ==> r[k].id == WrongId(k)
  {
    var first := [correct.(id := CorrectId)];
    var r := SelectOptions(first, Candidates(t, i, correct, pal, d));
    assert r[0] == r[..1][0];
    r
  }

  /** The sequence as stored: every item renamed `seq-<type>-<i>-<idx>`. */
  function RenameSequence(s: seq<Item>, t: PatternType, i: int): (r: seq<Item>)
    ensures |r| == |s|
    ensures forall k :: 0 <= k < |s| ==> r[k].(id := s[k].id) == s[k]
  {
    seq(|s|, k requires 0 <= k < |s| =>
      s[k].(id := "seq-" + TypeName(t) + "-" + IntToString(i) + "-" + IntToString(k)))
  }

  /** One level of the catalog: body of the inner loop of `generateLevels`. */
  function BuildLevel(id: int, t: PatternType, i: int, d: LevelDraws): Level
    requires 1 <= i <= 10
  {
    var difficulty := GetDifficulty(i);
    var isBoss := i % 5 == 0;
    var pal := LevelPalette(d);
    var pool := Shuffle(LevelPoolIndices, d.pool);
    var st := LevelStimulus(t, i, pal, pool);
    Level(
      id, t, i, difficulty, isBoss,
      RenameSequence(st.sequence, t, i),
      Shuffle(RawOptions(t, i, st.correct, pal, d), d.options),
      CorrectId,
      BossInstruction(isBoss, st.instruction))
  }

  /** `generateLevels()`: level `k` (0-based) is level `k % 10 + 1` of the
      `k / 10`-th category and draws its randomness from `draws(k)`. */
  function GenerateLevels(draws: nat -> LevelDraws): (levels: seq<Level>)
    ensures |levels| == 110
  {
    seq(110, k requires 0 <= k < 110 => BuildLevel(k + 1, CategoryOf(k), k % 10 + 1, draws(k)))
  }

  /** The category of the `k`-th generated level: ten levels per category, in
      declaration order. */
  function CategoryOf(k: nat): PatternType
    requires k < 110
  {
    AllTypes[k / 10]
  }
}
