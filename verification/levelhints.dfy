/** How the local fallback hints of geminiService.ts fit the NUMBER levels
    that constants.ts generates. */
module LevelHints {
  import opened Types
  import opened Generator
  import opened Catalog
  import opened Hints
  import opened Seqs
  import opened Shuffling
  import opened Visual

  /** The numbers a hint request sees on the `k`-th level are its tiles' values. */
  lemma NumberLevelNumbers(draws: nat -> LevelDraws, k: nat)
    requires 30 <= k < 40
    ensures var lv := GenerateLevels(draws)[k];
      var answer := AnswerOf(Number, k % 10 + 1, draws(k));
      && lv.groupType == Number
      && LocalHint(lv) == NumberHint(NumberValues(lv.sequence))
      && answer.value.Some? && answer.value.value.Num?
      && Obeys(RuleFor(k % 10 + 1), NumberValues(lv.sequence), answer.value.value.n)
      && NumberValues(lv.sequence)[0] >= 2
  {
    hide *;
    var lv := GenerateLevels(draws)[k];
    CatalogNumberLevels(draws, k);
    CatalogNumberTiles(draws, k);
    CatalogLayout(draws, k);
    NumbersInAllNumbers(lv.sequence);
    assert LocalHint(lv) == NumberHint(NumbersIn(lv.sequence)) by {
      LocalHintOnNumbers(lv);
    }
    ObeysLength(RuleFor(k % 10 + 1), NumberValues(lv.sequence), AnswerOf(Number, k % 10 + 1, draws(k)).value.value.n);
    NumberValuesFirst(lv.sequence);
  }

  /** `LocalHint` on a NUMBER level reads the tiles' numbers. */
  lemma LocalHintOnNumbers(lv: Level)
    requires lv.groupType == Number
    ensures LocalHint(lv) == NumberHint(NumbersIn(lv.sequence))
  {
  }

  lemma NumberValuesFirst(s: seq<Item>)
    requires |NumberValues(s)| > 0 && s[0].value.Some? && s[0].value.value.Num?
    ensures NumberValues(s)[0] == s[0].value.value.n
  {
  }

  lemma ObeysLength(rule: NumberRule, nums: seq<int>, next: int)
    requires Obeys(rule, nums, next)
    ensures |nums| == 4
  {
  }

  /** The only run of growing steps that ends at 12 starts at 2. */
  lemma GrowingToTwelve(nums: seq<int>)
    requires Obeys(GrowingIncrement, nums, 12)
    ensures nums[0] == 2
  {
    var f := nums + [12];
    assert f[4] == f[3] + 4 && f[3] == f[2] + 3 && f[2] == f[1] + 2 && f[1] == f[0] + 1;
  }

  /** On every NUMBER level but the ninth the fallback hint names the rule
      the level's numbers follow. */
  lemma CatalogNumberHints(draws: nat -> LevelDraws, k: nat)
    requires 30 <= k < 40
    requires k % 10 + 1 != 9
    ensures LocalHint(GenerateLevels(draws)[k]) == HintForRule(RuleFor(k % 10 + 1))
  {
    var i := k % 10 + 1;
    assert RuleFor(i) != GrowingIncrement;
    hide *;
    var lv := GenerateLevels(draws)[k];
    var answer := AnswerOf(Number, i, draws(k));
    NumberLevelNumbers(draws, k);
    NumberHintMatchesRule(RuleFor(i), NumberValues(lv.sequence), answer.value.value.n);
  }

  /** The ninth NUMBER level shows 2, 3, 5, 8 and expects 12 (add 1, 2, 3,
      then 4), but its fallback hint says to add the last two numbers, which
      gives 13: a value the level's distractor filter always keeps, though
      only the draws decide whether it is offered. */
  lemma NinthNumberLevelHint(draws: nat -> LevelDraws)
    ensures var lv := GenerateLevels(draws)[38];
      var answer := AnswerOf(Number, 9, draws(38));
      && RuleFor(9) == GrowingIncrement
      && NumberValues(lv.sequence) == [2, 3, 5, 8]
      && answer.value == Some(Num(12))
      && LocalHint(lv) == SumHint
      && 5 + 8 == 13 && 13 in NumberDistractorValues(12, GetDifficulty(9), draws(38).distractors)
  {
    NinthRule();
    hide *;
    var lv := GenerateLevels(draws)[38];
    NumberLevelNumbers(draws, 38);
    NinthAnswer(draws(38));
    var nums := NumberValues(lv.sequence);
    GrowingToTwelve(nums);
    GrowingFromTwoReadsAsSum(nums, 12);
  }

  lemma NinthRule()
    ensures RuleFor(9) == GrowingIncrement
    ensures 13 in NumberCandidates(12, GetDifficulty(9))
  {
    assert GetDifficulty(9) == Advanced;
    assert NumberCandidates(12, Advanced)[0] == 13;
  }

  lemma NinthAnswer(d: LevelDraws)
    ensures AnswerOf(Number, 9, d).value == Some(Num(12))
  {
    NumberLevelStimulus(9, d);
    assert NumberProgression(9).next == 12;
  }

  /** Some option of the level shows the number `v`. */
  predicate Offers(lv: Level, v: int) {
    exists j :: 0 <= j < |lv.options| && lv.options[j].value == Some(Num(v))
  }

  /** The ninth NUMBER level's distractor values under two candidate
      shuffles: left in place, 13 comes first; rotated by the all-zero
      oracle, 13 comes last. */
  lemma NinthDistractorValues()
    ensures NumberDistractorValues(12, Advanced, IdentityDraw()) == [13, 14, 15, 11, 10, 17]
    ensures NumberDistractorValues(12, Advanced, ZeroDraw()) == [14, 15, 11, 10, 17, 13]
  {
    hide *;
    NinthValuesInPlace();
    NinthValuesRotated();
  }

  lemma NinthValuesInPlace()
    ensures NumberDistractorValues(12, Advanced, IdentityDraw()) == [13, 14, 15, 11, 10, 17]
  {
    var first: seq<int> := [13, 14, 15, 11, 10, 17];
    hide *;
    DistractorValuesOfCandidates(12, Advanced, IdentityDraw());
    NinthCandidates();
    SixNoDups(first);
    ShuffleIdentity(first);
    DedupeOfNoDups(first);
    WithoutAbsent(first, 12);
  }

  lemma NinthValuesRotated()
    ensures NumberDistractorValues(12, Advanced, ZeroDraw()) == [14, 15, 11, 10, 17, 13]
  {
    var first: seq<int> := [13, 14, 15, 11, 10, 17];
    var last: seq<int> := [14, 15, 11, 10, 17, 13];
    hide *;
    DistractorValuesOfCandidates(12, Advanced, ZeroDraw());
    NinthCandidates();
    SixNoDups(last);
    ShuffleZero(first);
    assert first[1..] + [first[0]] == last;
    DedupeOfNoDups(last);
    WithoutAbsent(last, 12);
  }

  lemma NinthCandidates()
    ensures NumberCandidates(12, Advanced) == [13, 14, 15, 11, 10, 17]
  {
  }

  lemma DistractorValuesOfCandidates(correct: int, tier: Difficulty, draw: Draw)
    ensures NumberDistractorValues(correct, tier, draw) == Without(Dedupe(Shuffle(NumberCandidates(correct, tier), draw)), correct)
  {
  }

  lemma SixNoDups(s: seq<int>)
    requires s == [13, 14, 15, 11, 10, 17] || s == [14, 15, 11, 10, 17, 13]
    ensures NoDups(s) && 12 !in s
  {
  }

  /** The option loop takes a candidate whose look is not taken yet. */
  lemma SelectTakes(acc: seq<Item>, cands: seq<Item>)
    requires |acc| < 3 && DistinctLooks(acc)
    requires |cands| > 0 && Key(cands[0]) !in KeysOf(acc)
    ensures DistinctLooks(acc + [cands[0].(id := WrongId(|acc|))])
    ensures SelectOptions(acc, cands) == SelectOptions(acc + [cands[0].(id := WrongId(|acc|))], cands[1..])
  {
    NameOption(acc, cands[0]);
  }

  /** The option loop stops once three options exist. */
  lemma SelectFull(acc: seq<Item>, cands: seq<Item>)
    requires |acc| == 3 && DistinctLooks(acc)
    ensures SelectOptions(acc, cands) == acc
  {
  }

  /** The option loop with two fresh looks in front keeps the answer and
      those two. */
  lemma SelectFirstTwo(c: Item, items: seq<Item>)
    requires |items| >= 2
    requires Key(items[0]) != Key(c) && Key(items[1]) != Key(c) && Key(items[1]) != Key(items[0])
    ensures SelectOptions([c], items) == [c, items[0].(id := WrongId(1)), items[1].(id := WrongId(2))]
  {
    hide *;
    var a := items[0].(id := WrongId(1));
    var b := items[1].(id := WrongId(2));
    KeyNormalisation(items[0], WrongId(1), 0, 0);
    KeysOfFew(c, a);
    SelectTakes([c], items);
    assert [c] + [a] == [c, a];
    assert items[1..][0] == items[1];
    SelectTakes([c, a], items[1..]);
    assert [c, a] + [b] == [c, a, b];
    SelectFull([c, a, b], items[1..][1..]);
  }

  /** The looks of one and of two items. */
  lemma KeysOfFew(x: Item, y: Item)
    ensures KeysOf([x]) == {Key(x)} && DistinctLooks([x])
    ensures KeysOf([x, y]) == {Key(x), Key(y)}
  {
    hide Key;
  }

  /** The ninth NUMBER level's options before the shuffle, for distractor
      values `vals`: the answer, then the first two values. */
  lemma NinthRawOptions(d: LevelDraws, vals: seq<int>)
    requires NumberDistractorValues(12, Advanced, d.distractors) == vals
    requires |vals| >= 2 && vals[0] != vals[1] && vals[0] > 0 && vals[1] > 0 && vals[0] != 12 && vals[1] != 12
    ensures var raw := RawOptions(Number, 9, AnswerOf(Number, 9, d), LevelPalette(d), d);
      |raw| == 3 && raw[0].value == Some(Num(12))
      && raw[1].value == Some(Num(vals[0])) && raw[2].value == Some(Num(vals[1]))
  {
    hide *;
    var correct := AnswerOf(Number, 9, d);
    NinthAnswer(d);
    var items := NumberDistractors(12, Advanced, d.distractors);
    NumberOptionsFrom(correct, 9, LevelPalette(d), d);
    NumberDistractorTiles(12, Advanced, d.distractors);
    var c := correct.(id := CorrectId);
    DistinctNumbersLookDifferent(items[0], c);
    DistinctNumbersLookDifferent(items[1], c);
    DistinctNumbersLookDifferent(items[1], items[0]);
    SelectFirstTwo(c, items);
  }

  /** The options of a NUMBER level before the shuffle are picked from the
      tiles of its distractor values. */
  lemma NumberOptionsFrom(correct: Item, i: int, pal: Palette, d: LevelDraws)
    requires 1 <= i <= 10 && PaletteOk(pal)
    requires correct.value.Some? && correct.value.value.Num?
    ensures RawOptions(Number, i, correct, pal, d)
      == SelectOptions([correct.(id := CorrectId)], NumberDistractors(correct.value.value.n, GetDifficulty(i), d.distractors))
  {
  }

  /** One number tile per distractor value, in order. */
  lemma NumberDistractorTiles(correct: int, tier: Difficulty, draw: Draw)
    ensures var vals := NumberDistractorValues(correct, tier, draw);
      var items := NumberDistractors(correct, tier, draw);
      |items| == |vals| && forall k :: 0 <= k < |items| ==> items[k].value == Some(Num(vals[k]))
  {
  }

  /** Whether the ninth NUMBER level offers 13 depends on the draws: with the
      candidates left in place it does, and with every candidate swapped
      down with the first it does not. */
  lemma NinthLevelMayOfferThirteen(draws: nat -> LevelDraws)
    ensures draws(38).distractors == IdentityDraw() ==> Offers(GenerateLevels(draws)[38], 13)
    ensures draws(38).distractors == ZeroDraw() ==> !Offers(GenerateLevels(draws)[38], 13)
  {
    hide *;
    var d := draws(38);
    var lv := GenerateLevels(draws)[38];
    var raw := RawOptions(Number, 9, AnswerOf(Number, 9, d), LevelPalette(d), d);
    NumberCategory(38);
    GeneratedLevel(draws, 38);
    BuildLevelParts(39, Number, 9, d);
    assert lv.options == Shuffle(raw, d.options);
    NinthDistractorValues();
    if d.distractors == IdentityDraw() {
      NinthRawOptions(d, [13, 14, 15, 11, 10, 17]);
      ShuffleMembers(raw, d.options, raw[1]);
      var j :| 0 <= j < |lv.options| && lv.options[j] == raw[1];
      OffersAt(lv, 13, j);
    }
    if d.distractors == ZeroDraw() {
      NinthRawOptions(d, [14, 15, 11, 10, 17, 13]);
      forall j | 0 <= j < |lv.options|
        ensures lv.options[j].value != Some(Num(13))
      {
        ShuffleMembers(raw, d.options, lv.options[j]);
      }
      NotOffered(lv, 13);
    }
  }

  lemma OffersAt(lv: Level, v: int, j: nat)
    requires j < |lv.options| && lv.options[j].value == Some(Num(v))
    ensures Offers(lv, v)
  {
  }

  lemma NotOffered(lv: Level, v: int)
    requires forall j :: 0 <= j < |lv.options| ==> lv.options[j].value != Some(Num(v))
    ensures !Offers(lv, v)
  {
  }
}
