/** The rules the level templates of constants.ts follow: each prompt names a
    rhythm (a repeating cycle, pairs, a mirror, or numbers growing by fixed
    gaps), and the row of tiles followed by the correct answer keeps it. */
module Patterns {
  import opened Types
  import opened Visual
  import opened Generator
  import opened Catalog
  import opened Shuffling

  /** The rhythm a template's prompt describes. */
  datatype Rule =
      /** Every tile looks like the one `period` places earlier. */
    | Cycle(period: nat)
      /** The tiles come in pairs that look alike. */
    | Pairs
      /** The row, at least two tiles long, reads the same backwards. */
    | Reflect
      /** The tiles' numbers grow by `gaps`, one gap per step. */
    | Steps(gaps: seq<int>)

  /** The number a tile shows: its count, the code of its single letter, or
      its arrow's angle. */
  function Measure(item: Item): int {
    match item.value
    case Some(Num(n)) => n
    case Some(Str(s)) => if |s| == 1 then s[0] as int else 0
    case None => item.rotation.GetOr(0)
  }

  /** The row `f` keeps `rule`, comparing tiles by how they look. */
  predicate Follows(f: seq<Item>, rule: Rule) {
    match rule
    case Cycle(p) => 0 < p < |f| && forall k :: p <= k < |f| ==> Key(f[k]) == Key(f[k - p])
    case Pairs => |f| % 2 == 0 && forall k :: 0 < k < |f| && k % 2 == 1 ==> Key(f[k]) == Key(f[k - 1])
    case Reflect => |f| >= 2 && forall k :: 0 <= k < |f| ==> Key(f[k]) == Key(f[|f| - 1 - k])
    case Steps(g) => |f| == |g| + 1 && forall k :: 0 <= k < |g| ==> Measure(f[k + 1]) == Measure(f[k]) + g[k]
  }

  /** The rules of the four SIZE variants of a tier, in the order level `i` picks them by `(i - 1) % 4`. */
  function SizeRules(tier: Difficulty): seq<Rule> {
    match tier
    case Beginner => [Cycle(3), Cycle(3), Pairs, Cycle(2)]
    case Intermediate => [Cycle(4), Cycle(4), Cycle(5), Cycle(3)]
    case Advanced => [Cycle(6), Cycle(6), Cycle(6), Cycle(3)]
  }

  /** The rule the prompt of level `i` of category `t` announces. */
  function IntendedRule(t: PatternType, i: int): Rule
    requires 1 <= i <= 10
  {
    var tier := GetDifficulty(i);
    match t
    case Color => (match tier case Beginner => Cycle(2) case Intermediate => Cycle(3) case Advanced => Cycle(6))
    case Shape => (match tier case Beginner => Cycle(2) case Intermediate => Cycle(3) case Advanced => Cycle(3))
    case Size => SizeRules(tier)[(i - 1) % 4]
    case Emoji => (match tier case Beginner => Cycle(2) case Intermediate => Cycle(3) case Advanced => Cycle(6))
    case Rotation =>
      (match tier case Beginner => Steps([90, 90, 90]) case Intermediate => Cycle(2) case Advanced => Cycle(3))
    case Alphabet =>
      (match tier
       case Beginner => Steps([1, 1, 1])
       case Intermediate => Steps([2, 2, 2])
       case Advanced => Steps([1, 2, 1, 2]))
    case Quantity =>
      (match tier
       case Beginner => Steps([1, 1, 1])
       case Intermediate => Steps([2, 2, 2, 2])
       case Advanced => Steps([1, 2, 3, 4]))
    case Nature => (match tier case Beginner => Cycle(2) case Intermediate => Cycle(4) case Advanced => Cycle(5))
    case Fruit => (match tier case Beginner => Cycle(2) case Intermediate => Cycle(3) case Advanced => Cycle(6))
    case Mirror => Reflect
    case Number => Cycle(0)
  }

  /** The row as the player should complete it. */
  function Completed(st: Stimulus): seq<Item> {
    st.sequence + [st.correct]
  }

  lemma ColorFollows(tier: Difficulty, a: Item, b: Item, c: Item, pal: Palette)
    requires PaletteOk(pal)
    ensures Follows(Completed(ColorStimulus(tier, a, b, c, pal)),
                    match tier case Beginner => Cycle(2) case Intermediate => Cycle(3) case Advanced => Cycle(6))
  {
    hide Key;
  }

  lemma ShapeFollows(tier: Difficulty, a: Item, b: Item, c: Item, pal: Palette)
    requires PaletteOk(pal)
    ensures Follows(Completed(ShapeStimulus(tier, a, b, c, pal)),
                    match tier case Beginner => Cycle(2) case Intermediate => Cycle(3) case Advanced => Cycle(3))
  {
    hide Key;
  }

  lemma SizeFollows(tier: Difficulty, i: int, a: Item, b: Item, c: Item)
    requires 1 <= i
    ensures Follows(Completed(SizeStimulus(tier, i, a, b, c)), SizeRules(tier)[(i - 1) % 4])
  {
    var small := a.(shape := Some(Square), color := Some("bg-green-400"), size := Some(Sm));
    var medium := b.(shape := Some(Square), color := Some("bg-green-400"), size := Some(Md));
    var large := c.(shape := Some(Square), color := Some("bg-green-400"), size := Some(Lg));
    match tier
    case Beginner => SizeBeginnerFollows(small, medium, large);
    case Intermediate => SizeIntermediateFollows(small, medium, large);
    case Advanced => SizeAdvancedFollows(small, medium, large);
  }

  lemma SizeBeginnerFollows(small: Item, medium: Item, large: Item)
    ensures forall v :: 0 <= v < 4 ==>
      Follows(Completed(SizeVariants(Beginner, small, medium, large)[v]), SizeRules(Beginner)[v])
  {
    hide Key;
  }

  lemma SizeIntermediateFollows(small: Item, medium: Item, large: Item)
    ensures forall v :: 0 <= v < 4 ==>
      Follows(Completed(SizeVariants(Intermediate, small, medium, large)[v]), SizeRules(Intermediate)[v])
  {
    hide Key;
  }

  lemma SizeAdvancedFollows(small: Item, medium: Item, large: Item)
    ensures forall v :: 0 <= v < 4 ==>
      Follows(Completed(SizeVariants(Advanced, small, medium, large)[v]), SizeRules(Advanced)[v])
  {
    hide Key;
  }

  lemma EmojiFollows(tier: Difficulty, a: Item, b: Item, c: Item, pal: Palette)
    requires PaletteOk(pal)
    ensures Follows(Completed(EmojiStimulus(tier, a, b, c, pal)),
                    match tier case Beginner => Cycle(2) case Intermediate => Cycle(3) case Advanced => Cycle(6))
  {
    hide Key;
  }

  lemma RotationFollows(tier: Difficulty, a: Item, b: Item, c: Item, d: Item)
    requires a.value.None? && b.value.None? && c.value.None? && d.value.None?
    ensures Follows(Completed(RotationStimulus(tier, a, b, c, d)),
                    match tier case Beginner => Steps([90, 90, 90]) case Intermediate => Cycle(2) case Advanced => Cycle(3))
  {
    hide Key;
  }

  lemma AlphabetFollows(tier: Difficulty, i: int, a: Item, b: Item, c: Item, d: Item)
    requires 1 <= i <= 10
    ensures Follows(Completed(AlphabetStimulus(tier, i, a, b, c, d)),
                    match tier
                    case Beginner => Steps([1, 1, 1])
                    case Intermediate => Steps([2, 2, 2])
                    case Advanced => Steps([1, 2, 1, 2]))
  {
    hide Key;
  }

  lemma QuantityFollows(tier: Difficulty, i: int, a: Item, b: Item, c: Item, d: Item)
    ensures Follows(Completed(QuantityStimulus(tier, i, a, b, c, d)),
                    match tier
                    case Beginner => Steps([1, 1, 1])
                    case Intermediate => Steps([2, 2, 2, 2])
                    case Advanced => Steps([1, 2, 3, 4]))
  {
    hide Key;
  }

  lemma NatureFollows(tier: Difficulty, a: Item, b: Item, c: Item, d: Item)
    ensures Follows(Completed(NatureStimulus(tier, a, b, c, d)),
                    match tier case Beginner => Cycle(2) case Intermediate => Cycle(4) case Advanced => Cycle(5))
  {
    hide Key;
  }

  lemma FruitFollows(tier: Difficulty, i: nat, a: Item, b: Item, c: Item)
    ensures Follows(Completed(FruitStimulus(tier, i, a, b, c)),
                    match tier case Beginner => Cycle(2) case Intermediate => Cycle(3) case Advanced => Cycle(6))
  {
    hide Key;
  }

  lemma MirrorFollows(tier: Difficulty, a: Item, b: Item, c: Item)
    ensures Follows(Completed(MirrorStimulus(tier, a, b, c)), Reflect)
  {
    hide Key;
  }

  /** The rotation base items carry no value, so their measure is their angle. */
  lemma RotationBaseValue(i: nat, p: nat, pal: Palette)
    requires PaletteOk(pal)
    ensures BaseItem(Rotation, i, p, pal).value.None?
  {
  }

  /** Every template, completed with its answer, follows the rule its prompt announces. */
  lemma StimulusFollowsRule(t: PatternType, i: int, pal: Palette, pool: seq<nat>)
    requires t != Number
    requires 1 <= i <= 10
    requires PaletteOk(pal)
    requires |pool| == 8
    ensures Follows(Completed(LevelStimulus(t, i, pal, pool)), IntendedRule(t, i))
  {
    var a, b, c, d := BaseItem(t, i, pool[0], pal), BaseItem(t, i, pool[1], pal),
                      BaseItem(t, i, pool[2], pal), BaseItem(t, i, pool[3], pal);
    var tier := GetDifficulty(i);
    assert LevelStimulus(t, i, pal, pool) == Template(t, i, a, b, c, d, pal);
    match t
    case Color => ColorFollows(tier, a, b, c, pal);
    case Shape => ShapeFollows(tier, a, b, c, pal);
    case Size => SizeFollows(tier, i, a, b, c);
    case Emoji => EmojiFollows(tier, a, b, c, pal);
    case Rotation =>
      RotationBaseValue(i, pool[0], pal);
      RotationBaseValue(i, pool[1], pal);
      RotationBaseValue(i, pool[2], pal);
      RotationBaseValue(i, pool[3], pal);
      RotationFollows(tier, a, b, c, d);
    case Alphabet => AlphabetFollows(tier, i, a, b, c, d);
    case Quantity => QuantityFollows(tier, i, a, b, c, d);
    case Nature => NatureFollows(tier, a, b, c, d);
    case Fruit => FruitFollows(tier, i, a, b, c);
    case Mirror => MirrorFollows(tier, a, b, c);
  }

  /** Two rows whose tiles look alike and show the same numbers keep the same rules. */
  lemma FollowsAlike(f: seq<Item>, g: seq<Item>, rule: Rule)
    requires |f| == |g|
    requires forall j :: 0 <= j < |f| ==> Key(f[j]) == Key(g[j]) && Measure(f[j]) == Measure(g[j])
    requires Follows(g, rule)
    ensures Follows(f, rule)
  {
    hide Key, Measure;
  }

  /** Renaming the tiles (`seq-...` ids) changes neither their looks nor their numbers. */
  lemma FollowsRenamed(r: seq<Item>, s: seq<Item>, x: Item, rule: Rule)
    requires |r| == |s|
    requires forall j :: 0 <= j < |s| ==> r[j].(id := s[j].id) == s[j]
    requires Follows(s + [x], rule)
    ensures Follows(r + [x], rule)
  {
    var f, g := r + [x], s + [x];
    forall j | 0 <= j < |f|
      ensures Key(f[j]) == Key(g[j]) && Measure(f[j]) == Measure(g[j])
    {
      if j < |r| {
        KeyNormalisation(r[j], s[j].id, 0, 0);
      }
    }
    FollowsAlike(f, g, rule);
  }

  /** The row and answer a level of category `t` is built from follow its rule. */
  lemma LevelFollowsRule(t: PatternType, i: int, d: LevelDraws)
    requires t != Number
    requires 1 <= i <= 10
    ensures Follows(SequenceOf(t, i, d) + [AnswerOf(t, i, d)], IntendedRule(t, i))
  {
    var pal, pool := LevelPalette(d), Shuffle(LevelPoolIndices, d.pool);
    assert Completed(LevelStimulus(t, i, pal, pool)) == SequenceOf(t, i, d) + [AnswerOf(t, i, d)];
    StimulusFollowsRule(t, i, pal, pool);
  }

  /** Level `k` of the catalog, if it is not a NUMBER level, completed with
      its answer follows the rule its prompt announces. */
  lemma CatalogFollowsRule(draws: nat -> LevelDraws, k: nat)
    requires k < 110
    requires CategoryOf(k) != Number
    ensures Follows(GenerateLevels(draws)[k].sequence + [AnswerOf(CategoryOf(k), k % 10 + 1, draws(k))],
                    IntendedRule(CategoryOf(k), k % 10 + 1))
  {
    hide *;
    var t, i, d := CategoryOf(k), k % 10 + 1, draws(k);
    var lv := GenerateLevels(draws)[k];
    CatalogLayout(draws, k);
    LevelFollowsRule(t, i, d);
    FollowsRenamed(lv.sequence, SequenceOf(t, i, d), AnswerOf(t, i, d), IntendedRule(t, i));
  }

  /** When the rule fixes a look (a cycle, pairs or a mirror), a row completes
      it exactly with the tiles that look like the intended answer. */
  lemma LookDetermined(s: seq<Item>, x: Item, y: Item, rule: Rule)
    requires !rule.Steps?
    requires Follows(s + [y], rule)
    ensures Follows(s + [x], rule) <==> Key(x) == Key(y)
  {
    hide Key;
    var f, g := s + [x], s + [y];
    var n := |s|;
    assert forall j :: 0 <= j < n ==> f[j] == s[j] && g[j] == s[j];
    assert f[n] == x && g[n] == y;
    match rule
    case Cycle(p) =>
      assert Key(y) == Key(s[n - p]);
    case Pairs =>
      assert Key(y) == Key(s[n - 1]);
    case Reflect =>
      assert Key(g[0]) == Key(g[n]);
  }

  /** The parts of `OptionsOk` the rule lemmas use. */
  lemma OptionsOkParts(opts: seq<Item>, answer: VisualKey, correctId: string)
    requires OptionsOk(opts, answer, correctId)
    ensures |opts| == 3
    ensures forall j :: 0 <= j < 3 ==> (opts[j].id == correctId <==> Key(opts[j]) == answer)
  {
  }

  /** On a level whose rule fixes the look, exactly one of the three options
      continues the row by the rule: the one carrying the correct id. */
  lemma OnlyAnswerFollows(draws: nat -> LevelDraws, k: nat)
    requires k < 110
    requires CategoryOf(k) != Number
    requires !IntendedRule(CategoryOf(k), k % 10 + 1).Steps?
    ensures var lv := GenerateLevels(draws)[k];
      |lv.options| == 3 &&
      forall j :: 0 <= j < 3 ==>
        (Follows(lv.sequence + [lv.options[j]], IntendedRule(CategoryOf(k), k % 10 + 1))
         <==> lv.options[j].id == lv.correctAnswerId)
  {
    hide *;
    var rule := IntendedRule(CategoryOf(k), k % 10 + 1);
    var lv := GenerateLevels(draws)[k];
    var answer := AnswerOf(CategoryOf(k), k % 10 + 1, draws(k));
    CatalogFollowsRule(draws, k);
    CatalogOptions(draws, k);
    OptionsOkParts(lv.options, Key(answer), lv.correctAnswerId);
    forall j | 0 <= j < 3
      ensures Follows(lv.sequence + [lv.options[j]], rule) <==> lv.options[j].id == lv.correctAnswerId
    {
      LookDetermined(lv.sequence, lv.options[j], answer, rule);
    }
  }
}
