/** Properties of the catalog `generateLevels` builds: every level offers
    exactly three options that look pairwise different, exactly one of which
    is the correct answer, and the catalog's ids, tiers and boss rounds follow
    the category-major layout. */
module Catalog {
  import opened Types
  import opened Text
  import opened Seqs
  import opened Shuffling
  import opened Visual
  import opened Generator

  lemma KeysOfCons(s: seq<Item>)
    requires |s| > 0
    ensures KeysOf(s) == {Key(s[0])} + KeysOf(s[1..])
  {
    assert forall x :: x in s <==> x == s[0] || x in s[1..];
  }

  /** The option loop fills up to three options whenever the candidates offer
      enough looks that are not taken yet: `unseen` is any set of such looks. */
  lemma {:induction false} SelectFills(acc: seq<Item>, cands: seq<Item>, unseen: set<VisualKey>)
    requires |acc| <= 3
    requires DistinctLooks(acc)
    requires unseen <= KeysOf(cands)
    requires unseen !! KeysOf(acc)
    requires |unseen| + |acc| >= 3
    ensures |SelectOptions(acc, cands)| == 3
    decreases |cands|
  {
    // with no candidates left `unseen` is empty, so `acc` is already full
    if |acc| < 3 && |cands| > 0 {
      var c := cands[0];
      KeysOfCons(cands);
      if Key(c) in KeysOf(acc) {
        SelectFills(acc, cands[1..], unseen);
      } else {
        var named := c.(id := WrongId(|acc|));
        assert Key(named) == Key(c);
        AppendLooks(acc, named);
        SelectFills(acc + [named], cands[1..], unseen - {Key(c)});
      }
    }
  }

  /** Three candidates with pairwise different looks are enough: whichever
      of them looks like the correct item, the other two fill the options. */
  lemma ThreeLooksFill(first: Item, cands: seq<Item>, x: Item, y: Item, z: Item)
    requires x in cands && y in cands && z in cands
    requires Key(x) != Key(y) && Key(x) != Key(z) && Key(y) != Key(z)
    ensures |SelectOptions([first], cands)| == 3
  {
    var looks := {Key(x), Key(y), Key(z)};
    assert |looks| == 3;
    var unseen := looks - {Key(first)};
    assert |unseen| >= 2;
    assert KeysOf([first]) == {Key(first)};
    SelectFills([first], cands, unseen);
  }

  lemma ShapeTextInjective(a: ShapeName, b: ShapeName)
    requires a != b
    ensures ShapeText(a) != ShapeText(b)
  {
  }

  /** Three base items of one category from the distractor range 4..18 look
      pairwise different. */
  predicate LookApart(t: PatternType, i: nat, pal: Palette, p: nat, q: nat, s: nat)
    requires PaletteOk(pal)
  {
    && Key(BaseItem(t, i, p, pal)) != Key(BaseItem(t, i, q, pal))
    && Key(BaseItem(t, i, p, pal)) != Key(BaseItem(t, i, s, pal))
    && Key(BaseItem(t, i, q, pal)) != Key(BaseItem(t, i, s, pal))
  }

  /** Pool indices from 4..18 whose base items look pairwise different. */
  lemma PoolWitnesses(t: PatternType, i: nat, pal: Palette) returns (p: nat, q: nat, s: nat)
    requires t != Number
    requires 1 <= i <= 10
    requires PaletteOk(pal)
    ensures 4 <= p <= 18 && 4 <= q <= 18 && 4 <= s <= 18
    ensures LookApart(t, i, pal, p, q, s)
  {
    p, q, s := 4, 5, 6;
    match t {
      case Color => ColorPoolApart(i, pal);
      case Shape => ShapePoolApart(i, pal);
      case Size =>
        p, q, s := 6, 7, 8;
        SizePoolApart(i, pal);
      case Emoji => EmojiPoolApart(i, pal);
      case Rotation => RotationPoolApart(i, pal);
      case Alphabet => AlphabetPoolApart(i, pal);
      case Quantity => QuantityPoolApart(i, pal);
      case Nature => NaturePoolApart(i, pal);
      case Fruit => FruitPoolApart(i, pal);
      case Mirror => MirrorPoolApart(i, pal);
    }
  }

  lemma ColorPoolApart(i: nat, pal: Palette)
    requires 1 <= i <= 10
    requires PaletteOk(pal)
    ensures LookApart(Color, i, pal, 4, 5, 6)
  {
    var x, y, z := BaseItem(Color, i, 4, pal), BaseItem(Color, i, 5, pal), BaseItem(Color, i, 6, pal);
    assert Key(x).color != Key(y).color && Key(x).color != Key(z).color && Key(y).color != Key(z).color;
  }

  lemma ShapePoolApart(i: nat, pal: Palette)
    requires 1 <= i <= 10
    requires PaletteOk(pal)
    ensures LookApart(Shape, i, pal, 4, 5, 6)
  {
    ShapeTextInjective(pal.shapes[4], pal.shapes[5]);
    ShapeTextInjective(pal.shapes[4], pal.shapes[6]);
    ShapeTextInjective(pal.shapes[5], pal.shapes[6]);
  }

  lemma SizePoolApart(i: nat, pal: Palette)
    requires 1 <= i <= 10
    requires PaletteOk(pal)
    ensures LookApart(Size, i, pal, 6, 7, 8)
  {
    hide BaseItem, Key;
    SizeAt(i, 6, pal);
    SizeAt(i, 7, pal);
    SizeAt(i, 8, pal);
  }

  /** Pool index `p` of a SIZE level has size `p % 3` of small, medium, large. */
  lemma SizeAt(i: nat, p: nat, pal: Palette)
    requires PaletteOk(pal)
    ensures Key(BaseItem(Size, i, p, pal)).size == SizeText([Sm, Md, Lg][p % 3])
  {
    assert BaseItem(Size, i, p, pal).size == Some([Sm, Md, Lg][p % 3]);
  }

  lemma EmojiPoolApart(i: nat, pal: Palette)
    requires 1 <= i <= 10
    requires PaletteOk(pal)
    ensures LookApart(Emoji, i, pal, 4, 5, 6)
  {
    var x, y, z := BaseItem(Emoji, i, 4, pal), BaseItem(Emoji, i, 5, pal), BaseItem(Emoji, i, 6, pal);
    assert Key(x).emoji != Key(y).emoji && Key(x).emoji != Key(z).emoji && Key(y).emoji != Key(z).emoji;
  }

  lemma RotationPoolApart(i: nat, pal: Palette)
    requires 1 <= i <= 10
    requires PaletteOk(pal)
    ensures LookApart(Rotation, i, pal, 4, 5, 6)
  {
    var x, y, z := BaseItem(Rotation, i, 4, pal), BaseItem(Rotation, i, 5, pal), BaseItem(Rotation, i, 6, pal);
    assert x.rotation == Some(pal.rotations[0]) && y.rotation == Some(pal.rotations[1]);
    assert z.rotation == Some(pal.rotations[2]);
    RightAngle(pal.rotations[0]);
    RightAngle(pal.rotations[1]);
    RightAngle(pal.rotations[2]);
    DistinctRotationsLookDifferent(x, y);
    DistinctRotationsLookDifferent(x, z);
    DistinctRotationsLookDifferent(y, z);
  }

  lemma AlphabetPoolApart(i: nat, pal: Palette)
    requires 1 <= i <= 10
    requires PaletteOk(pal)
    ensures LookApart(Alphabet, i, pal, 4, 5, 6)
  {
    var x, y, z := BaseItem(Alphabet, i, 4, pal), BaseItem(Alphabet, i, 5, pal), BaseItem(Alphabet, i, 6, pal);
    AlphabetLetter(i, 4, pal);
    AlphabetLetter(i, 5, pal);
    AlphabetLetter(i, 6, pal);
    assert Key(x).value[0] != Key(y).value[0] && Key(x).value[0] != Key(z).value[0] && Key(y).value[0] != Key(z).value[0];
  }

  /** Pool index `p` of an ALPHABET level shows the letter `p` places after its start letter. */
  lemma AlphabetLetter(i: nat, p: nat, pal: Palette)
    requires 1 <= i <= 10 && 4 <= p <= 6
    requires PaletteOk(pal)
    ensures Key(BaseItem(Alphabet, i, p, pal)).value == [(65 + i % 10 + p) as char]
  {
    var start := 65 + i % 10;
    assert p % (26 - i % 10) == p;
    assert BaseItem(Alphabet, i, p, pal).value == Some(Str(FromCharCode(start + p)));
  }

  lemma QuantityPoolApart(i: nat, pal: Palette)
    requires 1 <= i <= 10
    requires PaletteOk(pal)
    ensures LookApart(Quantity, i, pal, 4, 5, 6)
  {
    var x, y, z := BaseItem(Quantity, i, 4, pal), BaseItem(Quantity, i, 5, pal), BaseItem(Quantity, i, 6, pal);
    DistinctNumbersLookDifferent(x, y);
    DistinctNumbersLookDifferent(x, z);
    DistinctNumbersLookDifferent(y, z);
  }

  lemma NaturePoolApart(i: nat, pal: Palette)
    requires 1 <= i <= 10
    requires PaletteOk(pal)
    ensures LookApart(Nature, i, pal, 4, 5, 6)
  {
    hide BaseItem, Key;
    ShiftsDiffer(i, 4, 4, 5, 6);
    var a, b, c := NatureShapes[(4 + i) % 4], NatureShapes[(5 + i) % 4], NatureShapes[(6 + i) % 4];
    NatureShapeAt(i, 4, pal);
    NatureShapeAt(i, 5, pal);
    NatureShapeAt(i, 6, pal);
    ShapeTextInjective(a, b);
    ShapeTextInjective(a, c);
    ShapeTextInjective(b, c);
  }

  /** Pool index `p` of a NATURE level shows the nature shape `(p + i) % 4`. */
  lemma NatureShapeAt(i: nat, p: nat, pal: Palette)
    requires PaletteOk(pal)
    ensures Key(BaseItem(Nature, i, p, pal)).shape == ShapeText(NatureShapes[(p + i) % 4])
  {
    assert BaseItem(Nature, i, p, pal).shape == Some(NatureShapes[(p + i) % 4]);
  }

  lemma FruitPoolApart(i: nat, pal: Palette)
    requires 1 <= i <= 10
    requires PaletteOk(pal)
    ensures LookApart(Fruit, i, pal, 4, 5, 6)
  {
    var x, y, z := BaseItem(Fruit, i, 4, pal), BaseItem(Fruit, i, 5, pal), BaseItem(Fruit, i, 6, pal);
    ShiftsDiffer(i, 6, 4, 5, 6);
    FruitsDistinct();
    assert x.emoji == Some(Fruits[(4 + i) % 6]) && y.emoji == Some(Fruits[(5 + i) % 6]) && z.emoji == Some(Fruits[(6 + i) % 6]);
    assert Key(x).emoji != Key(y).emoji && Key(x).emoji != Key(z).emoji && Key(y).emoji != Key(z).emoji;
  }

  lemma MirrorPoolApart(i: nat, pal: Palette)
    requires 1 <= i <= 10
    requires PaletteOk(pal)
    ensures LookApart(Mirror, i, pal, 4, 5, 6)
  {
    hide BaseItem, Key;
    ShiftsDiffer(i, 9, 4, 5, 6);
    MirrorColorAt(i, 4, pal);
    MirrorColorAt(i, 5, pal);
    MirrorColorAt(i, 6, pal);
  }

  /** Pool index `p` of a MIRROR level is painted palette colour `(p + i) % 9`. */
  lemma MirrorColorAt(i: nat, p: nat, pal: Palette)
    requires PaletteOk(pal)
    ensures Key(BaseItem(Mirror, i, p, pal)).color == pal.colors[(p + i) % 9]
  {
    assert BaseItem(Mirror, i, p, pal).color == Some(pal.colors[(p + i) % 9]);
  }

  /** Three offsets less than `n` apart land on three different residues. */
  lemma ShiftsDiffer(i: nat, n: nat, a: nat, b: nat, c: nat)
    requires n == 4 || n == 6 || n == 9
    requires a < b < c < a + n
    ensures (a + i) % n != (b + i) % n
    ensures (a + i) % n != (c + i) % n
    ensures (b + i) % n != (c + i) % n
  {
    ResiduesDiffer(a + i, b + i, n);
    ResiduesDiffer(a + i, c + i, n);
    ResiduesDiffer(b + i, c + i, n);
  }

  lemma ResiduesDiffer(u: nat, v: nat, n: nat)
    requires n == 4 || n == 6 || n == 9
    requires u < v < u + n
    ensures u % n != v % n
  {
    // a literal modulus keeps the arithmetic linear
    if n == 4 {
      assert u % 4 != v % 4;
    } else if n == 6 {
      assert u % 6 != v % 6;
    } else {
      assert u % 9 != v % 9;
    }
  }

  lemma FruitsDistinct()
    ensures NoDups(Fruits)
    ensures forall k :: 0 <= k < |Fruits| ==> Fruits[k] != ""
  {
    assert forall k :: 0 <= k < 6 ==> |Fruits[k]| == 1;
    forall a, b | 0 <= a < b < 6
      ensures Fruits[a] != Fruits[b]
    {
      assert Fruits[a][0] != Fruits[b][0];
    }
  }

  /** The four right angles are their own normal form. */
  lemma RightAngle(r: int)
    requires r in Rotations
    ensures NormalizedRotation(Some(r)) == r
  {
  }

  /** Every base item of the distractor range 4..18 is among the candidates. */
  lemma PoolItemOffered(t: PatternType, i: nat, correct: Item, pal: Palette, d: LevelDraws, p: nat)
    requires t != Number
    requires 1 <= i <= 10
    requires PaletteOk(pal)
    requires 4 <= p <= 18
    ensures BaseItem(t, i, p, pal) in Candidates(t, i, correct, pal, d)
  {
    var idxs := Shuffle(DistractorPool(), d.distractors);
    assert DistractorPool()[p - 4] == p;
    ShuffleMembers(DistractorPool(), d.distractors, p);
    var k :| 0 <= k < |idxs| && idxs[k] == p;
    assert Candidates(t, i, correct, pal, d)[k] == BaseItem(t, i, p, pal);
  }

  /** A value the distractor filter keeps is offered as a number tile. */
  lemma NumberOffered(i: nat, correct: Item, pal: Palette, d: LevelDraws, v: int)
    requires 1 <= i <= 10
    requires PaletteOk(pal)
    requires correct.value.Some? && correct.value.value.Num?
    requires v in NumberDistractorValues(correct.value.value.n, GetDifficulty(i), d.distractors)
    ensures NumberItem("opt-number-" + IntToString(v), v) in Candidates(Number, i, correct, pal, d)
  {
    var vals := NumberDistractorValues(correct.value.value.n, GetDifficulty(i), d.distractors);
    var k :| 0 <= k < |vals| && vals[k] == v;
    assert Candidates(Number, i, correct, pal, d)[k] == NumberItem("opt-number-" + IntToString(v), v);
  }

  /** The option loop always reaches three options: at most one look of the
      candidates can coincide with the correct item's. */
  lemma RawOptionsFull(t: PatternType, i: nat, correct: Item, pal: Palette, d: LevelDraws)
    requires 1 <= i <= 10
    requires PaletteOk(pal)
    requires t == Number ==> correct.value.Some? && correct.value.value.Num? && correct.value.value.n >= 0
    ensures |RawOptions(t, i, correct, pal, d)| == 3
  {
    var first := correct.(id := CorrectId);
    var cands := Candidates(t, i, correct, pal, d);
    if t == Number {
      var c := correct.value.value.n;
      var tier := GetDifficulty(i);
      var x := NumberItem("opt-number-" + IntToString(c + 1), c + 1);
      var y := NumberItem("opt-number-" + IntToString(c + 2), c + 2);
      var z := NumberItem("opt-number-" + IntToString(c + 3), c + 3);
      assert c + 1 in NumberCandidates(c, tier) && c + 2 in NumberCandidates(c, tier) && c + 3 in NumberCandidates(c, tier);
      NumberOffered(i, correct, pal, d, c + 1);
      NumberOffered(i, correct, pal, d, c + 2);
      NumberOffered(i, correct, pal, d, c + 3);
      DistinctNumbersLookDifferent(x, y);
      DistinctNumbersLookDifferent(x, z);
      DistinctNumbersLookDifferent(y, z);
      ThreeLooksFill(first, cands, x, y, z);
    } else {
      var p, q, s := PoolWitnesses(t, i, pal);
      PoolItemOffered(t, i, correct, pal, d, p);
      PoolItemOffered(t, i, correct, pal, d, q);
      PoolItemOffered(t, i, correct, pal, d, s);
      ThreeLooksFill(first, cands, BaseItem(t, i, p, pal), BaseItem(t, i, q, pal), BaseItem(t, i, s, pal));
    }
  }

  lemma WrongIsNotCorrect(k: nat)
    ensures WrongId(k) != CorrectId
  {
    assert WrongId(k)[4] == 'w' && CorrectId[4] == 'c';
  }

  /** What a level promises of its options: exactly three, pairwise different
      looks, and an option carries `correctId` exactly when it has the answer's
      look, which one does. */
  predicate OptionsOk(opts: seq<Item>, answer: VisualKey, correctId: string) {
    && |opts| == 3
    && DistinctLooks(opts)
    && (forall j :: 0 <= j < 3 ==> (opts[j].id == correctId <==> Key(opts[j]) == answer))
    && (exists j :: 0 <= j < 3 && opts[j].id == correctId)
  }

  /** The final `shuffle(options)` keeps three pairwise different looks, and
      an option carries the correct id exactly when it looks like the first
      (correct) option. */
  lemma ShuffledOptions(raw: seq<Item>, draw: Draw)
    requires |raw| == 3
    requires DistinctLooks(raw)
    requires raw[0].id == CorrectId
    requires raw[1].id != CorrectId && raw[2].id != CorrectId
    ensures OptionsOk(Shuffle(raw, draw), Key(raw[0]), CorrectId)
  {
    hide Key;
    var opts := Shuffle(raw, draw);
    var p := ShuffleOrder(3, draw);
    ShuffleIsApply(raw, draw);
    assert forall j :: 0 <= j < 3 ==> opts[j] == raw[p[j]];
    forall a, b | 0 <= a < b < 3
      ensures Key(opts[a]) != Key(opts[b])
    {
      assert p[a] != p[b];
    }
    assert 0 in p;
    var j :| 0 <= j < 3 && p[j] == 0;
    assert opts[j].id == CorrectId;
  }

  /** The item that continues level `i` of category `t` (before it is renamed `opt-correct`). */
  function AnswerOf(t: PatternType, i: int, d: LevelDraws): Item
    requires 1 <= i <= 10
  {
    LevelStimulus(t, i, LevelPalette(d), Shuffle(LevelPoolIndices, d.pool)).correct
  }

  /** The options before the shuffle: the correct item first, two others. */
  lemma RawOptionsReady(t: PatternType, i: int, correct: Item, pal: Palette, d: LevelDraws)
    requires 1 <= i <= 10
    requires PaletteOk(pal)
    requires t == Number ==> correct.value.Some? && correct.value.value.Num? && correct.value.value.n >= 0
    ensures var raw := RawOptions(t, i, correct, pal, d);
      && |raw| == 3 && DistinctLooks(raw) && Key(raw[0]) == Key(correct)
      && raw[0].id == CorrectId && raw[1].id != CorrectId && raw[2].id != CorrectId
  {
    hide Candidates;
    RawOptionsFull(t, i, correct, pal, d);
    WrongIsNotCorrect(1);
    WrongIsNotCorrect(2);
  }

  lemma BuildLevelParts(id: int, t: PatternType, i: int, d: LevelDraws)
    requires 1 <= i <= 10
    ensures BuildLevel(id, t, i, d).options
      == Shuffle(RawOptions(t, i, AnswerOf(t, i, d), LevelPalette(d), d), d.options)
    ensures BuildLevel(id, t, i, d).correctAnswerId == CorrectId
  {
  }

  /** One level's option set: exactly three options with pairwise different
      looks; an option carries `correctAnswerId` exactly when it looks like the
      answer, and one does. */
  lemma BuildLevelOptions(id: int, t: PatternType, i: int, d: LevelDraws)
    requires 1 <= i <= 10
    ensures OptionsOk(BuildLevel(id, t, i, d).options, Key(AnswerOf(t, i, d)), BuildLevel(id, t, i, d).correctAnswerId)
  {
    var correct := AnswerOf(t, i, d);
    var raw := RawOptions(t, i, correct, LevelPalette(d), d);
    RawOptionsReady(t, i, correct, LevelPalette(d), d);
    ShuffledOptions(raw, d.options);
    BuildLevelParts(id, t, i, d);
  }

  /** The prompt of level `i` of category `t` before the boss prefix. */
  function PromptOf(t: PatternType, i: int, d: LevelDraws): string
    requires 1 <= i <= 10
  {
    LevelStimulus(t, i, LevelPalette(d), Shuffle(LevelPoolIndices, d.pool)).instruction
  }

  /** The stimulus of level `i` of category `t`, before its items are renamed. */
  function SequenceOf(t: PatternType, i: int, d: LevelDraws): seq<Item>
    requires 1 <= i <= 10
  {
    LevelStimulus(t, i, LevelPalette(d), Shuffle(LevelPoolIndices, d.pool)).sequence
  }

  lemma GeneratedLevel(draws: nat -> LevelDraws, k: nat)
    requires k < 110
    ensures GenerateLevels(draws)[k] == BuildLevel(k + 1, CategoryOf(k), k % 10 + 1, draws(k))
  {
    // the level's construction plays no part in reading the table
    hide BuildLevel;
  }

  /** The record fields `generateLevels` fills in for level `i` of category `t`. */
  lemma BuildLevelFields(id: int, t: PatternType, i: int, d: LevelDraws)
    requires 1 <= i <= 10
    ensures var lv := BuildLevel(id, t, i, d);
      && lv.id == id && lv.groupType == t && lv.levelInGroup == i
      && lv.difficulty == GetDifficulty(i)
      && (lv.isBoss <==> i % 5 == 0)
      && lv.instruction == BossInstruction(lv.isBoss, PromptOf(t, i, d))
      && lv.correctAnswerId == CorrectId
      && |lv.sequence| == |SequenceOf(t, i, d)|
      && (forall j :: 0 <= j < |lv.sequence| ==> lv.sequence[j].(id := SequenceOf(t, i, d)[j].id) == SequenceOf(t, i, d)[j])
  {
  }

  /** Level `k` of the catalog (0-based): its id, category, position, tier,
      boss flag and prompt. */
  lemma CatalogLayout(draws: nat -> LevelDraws, k: nat)
    requires k < 110
    ensures var lv := GenerateLevels(draws)[k];
      && lv.id == k + 1
      && lv.groupType == CategoryOf(k)
      && lv.levelInGroup == k % 10 + 1
      && lv.difficulty == GetDifficulty(lv.levelInGroup)
      && (lv.isBoss <==> lv.levelInGroup == 5 || lv.levelInGroup == 10)
      && lv.instruction == BossInstruction(lv.isBoss, PromptOf(lv.groupType, lv.levelInGroup, draws(k)))
      && lv.correctAnswerId == CorrectId
      && |lv.sequence| == |SequenceOf(lv.groupType, lv.levelInGroup, draws(k))|
      && (forall j :: 0 <= j < |lv.sequence| ==>
            lv.sequence[j].(id := SequenceOf(lv.groupType, lv.levelInGroup, draws(k))[j].id)
              == SequenceOf(lv.groupType, lv.levelInGroup, draws(k))[j])
  {
    hide *;
    GeneratedLevel(draws, k);
    BuildLevelFields(k + 1, CategoryOf(k), k % 10 + 1, draws(k));
  }

  /** Every level of the catalog offers exactly three options with pairwise
      different looks; an option carries `correctAnswerId` exactly when it
      looks like the item that continues the sequence, and one does. */
  lemma CatalogOptions(draws: nat -> LevelDraws, k: nat)
    requires k < 110
    ensures var lv := GenerateLevels(draws)[k];
      OptionsOk(lv.options, Key(AnswerOf(CategoryOf(k), k % 10 + 1, draws(k))), lv.correctAnswerId)
  {
    hide BuildLevel;
    GeneratedLevel(draws, k);
    BuildLevelOptions(k + 1, CategoryOf(k), k % 10 + 1, draws(k));
  }

  /** Renaming the tiles keeps their values. */
  lemma RenamedValues(r: seq<Item>, s: seq<Item>)
    requires |r| == |s|
    requires forall j :: 0 <= j < |s| ==> r[j].(id := s[j].id) == s[j]
    ensures NumberValues(r) == NumberValues(s)
  {
    forall j | 0 <= j < |s|
      ensures NumberValues(r)[j] == NumberValues(s)[j]
    {
      assert r[j].value == s[j].value;
    }
  }

  /** A NUMBER level's stimulus does not depend on the draws. */
  lemma NumberLevelStimulus(i: int, d: LevelDraws)
    requires 1 <= i <= 10
    ensures SequenceOf(Number, i, d) == NumberStimulus(i).sequence
    ensures AnswerOf(Number, i, d) == NumberStimulus(i).correct
  {
    hide NumberStimulus, Template, BaseItem;
  }

  /** The NUMBER levels (ids 31-40) show four numbers that, followed by the
      answer's value, obey the recurrence of their tier and residue. */
  lemma CatalogNumberLevels(draws: nat -> LevelDraws, k: nat)
    requires 30 <= k < 40
    ensures CategoryOf(k) == Number
    ensures var lv := GenerateLevels(draws)[k];
      var answer := AnswerOf(Number, k % 10 + 1, draws(k));
      && answer.value.Some? && answer.value.value.Num?
      && Obeys(RuleFor(k % 10 + 1), NumberValues(lv.sequence), answer.value.value.n)
  {
    hide *;
    var i := k % 10 + 1;
    var st := NumberStimulus(i);
    NumberCategory(k);
    NumberLevelStimulus(i, draws(k));
    CatalogLayout(draws, k);
    RenamedValues(GenerateLevels(draws)[k].sequence, st.sequence);
  }

  /** Levels 31 to 40 of the catalog are the NUMBER levels. */
  lemma NumberCategory(k: nat)
    requires 30 <= k < 40
    ensures CategoryOf(k) == Number
  {
    assert k / 10 == 3;
  }

  /** The tiles of a NUMBER level all show a number, at least 2. */
  lemma CatalogNumberTiles(draws: nat -> LevelDraws, k: nat)
    requires 30 <= k < 40
    ensures var lv := GenerateLevels(draws)[k];
      forall j :: 0 <= j < |lv.sequence| ==>
        lv.sequence[j].value.Some? && lv.sequence[j].value.value.Num? && lv.sequence[j].value.value.n >= 2
  {
    hide *;
    var i := k % 10 + 1;
    var st := NumberStimulus(i);
    NumberCategory(k);
    NumberLevelStimulus(i, draws(k));
    CatalogLayout(draws, k);
    var lv := GenerateLevels(draws)[k];
    assert lv.groupType == Number && lv.levelInGroup == i;
    var sq := SequenceOf(Number, i, draws(k));
    assert sq == st.sequence;
    assert |lv.sequence| == |sq|;
    assert forall j :: 0 <= j < |sq| ==> lv.sequence[j].(id := sq[j].id) == sq[j];
    RenamedTiles(lv.sequence, sq);
  }

  /** Renaming keeps tiles that all show a number of at least 2. */
  lemma RenamedTiles(r: seq<Item>, s: seq<Item>)
    requires |r| == |s|
    requires forall j :: 0 <= j < |s| ==> r[j].(id := s[j].id) == s[j]
    requires forall j :: 0 <= j < |s| ==> s[j].value.Some? && s[j].value.value.Num? && s[j].value.value.n >= 2
    ensures forall j :: 0 <= j < |r| ==> r[j].value.Some? && r[j].value.value.Num? && r[j].value.value.n >= 2
  {
    forall j | 0 <= j < |r|
      ensures r[j].value == s[j].value
    {
      assert r[j].(id := s[j].id) == s[j];
    }
  }
}
