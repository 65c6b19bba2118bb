/** The hint service of geminiService.ts: the trimming applied to a model
    reply, the local fallback hints and the choice between the two. The model
    call itself is a parameter: the reply it produced, or that it threw. */
module Hints {
  import opened Types
  import opened Text
  import opened Generator

  /** Replies the service rejects as too vague, compared in lower case. */
  const GenericHints: set<string> := {"look at the pattern one more time", "what do you see repeating", "look for what repeats"}

  /** Hints are cut to this many words. */
  const MaxHintWords := 12

  const Ellipsis := "..."

  predicate IsQuote(c: char) {
    c == '"'
  }

  /** `hint.replace(/^"+|"+$/g, "")`: the leading and the trailing run of
      double quotes removed. */
  function StripQuotes(s: string): (r: string)
    ensures StrippedBy(s, r, IsQuote)
    ensures |r| <= |s|
    ensures |r| == 0 || (r[0] != '"' && r[|r| - 1] != '"')
    ensures (|s| == 0 || (s[0] != '"' && s[|s| - 1] != '"')) ==> r == s
  {
    Strip(s, IsQuote)
  }

  /** The reply with quotes and surrounding white space removed. */
  function Cleaned(hint: string): string {
    Trim(StripQuotes(hint))
  }

  /** `trimHint(hint)`: quotes and surrounding white space removed; a hint of
      more than twelve words keeps its first twelve, joined by single spaces,
      followed by `...`. */
  function TrimHint(hint: string): string {
    var cleaned := Cleaned(hint);
    var words := Words(cleaned);
    if |words| <= MaxHintWords then cleaned
    else Join(words[..MaxHintWords], " ") + Ellipsis
  }

  /** A trimmed hint never has more than twelve words. */
  lemma TrimHintWordCount(hint: string)
    ensures |Words(TrimHint(hint))| <= MaxHintWords
  {
    hide Words, Join, Cleaned;
    var words := Words(Cleaned(hint));
    if |words| > MaxHintWords {
      TrimHintLong(hint);
    }
  }

  /** A long hint keeps its first eleven words verbatim and the twelfth
      followed by the ellipsis. */
  lemma TrimHintLong(hint: string)
    requires |Words(Cleaned(hint))| > MaxHintWords
    ensures var words := Words(Cleaned(hint));
      Words(TrimHint(hint)) == words[..MaxHintWords - 1] + [words[MaxHintWords - 1] + Ellipsis]
  {
    hide Words, Join, Cleaned, IsSpace;
    var words := Words(Cleaned(hint));
    var kept := words[..MaxHintWords];
    var marked := kept[..MaxHintWords - 1] + [kept[MaxHintWords - 1] + Ellipsis];
    JoinExtendLast(kept, " ", Ellipsis);
    EllipsisWord(kept[MaxHintWords - 1]);
    assert forall k :: 0 <= k < |marked| ==> IsWord(marked[k]) by {
      forall k | 0 <= k < |marked|
        ensures IsWord(marked[k])
      {
        if k < MaxHintWords - 1 {
          assert marked[k] == words[k];
        }
      }
    }
    WordsOfJoin(marked);
    assert marked == words[..MaxHintWords - 1] + [words[MaxHintWords - 1] + Ellipsis];
  }

  /** A word followed by the ellipsis is still one word. */
  lemma EllipsisWord(w: string)
    requires IsWord(w)
    ensures IsWord(w + Ellipsis)
  {
    var e := w + Ellipsis;
    forall k | 0 <= k < |e|
      ensures !IsSpace(e[k])
    {
      if k >= |w| {
        assert e[k] == '.';
      } else {
        assert e[k] == w[k];
      }
    }
  }

  /** A hint of at most twelve words comes back exactly as cleaned: its
      inner spacing untouched, no white space left at either end. */
  lemma TrimHintShort(hint: string)
    requires |Words(Cleaned(hint))| <= MaxHintWords
    ensures TrimHint(hint) == Cleaned(hint)
    ensures Words(TrimHint(hint)) == Words(Cleaned(hint))
    ensures var r := TrimHint(hint);
      |r| == 0 || (!IsSpace(r[0]) && !IsSpace(r[|r| - 1]))
  {
    hide Words, Join, Trim, StripQuotes, StrippedBy, IsSpace;
  }

  /** White space only: every character satisfies `IsSpace`. */
  predicate AllSpace(s: string) {
    forall k :: 0 <= k < |s| ==> IsSpace(s[k])
  }

  lemma TrimEmpty(s: string)
    ensures Trim(s) == "" <==> AllSpace(s)
  {
    var t := DropLeading(s, IsSpace);
    if !AllSpace(s) {
      var k :| 0 <= k < |s| && !IsSpace(s[k]);
      assert |t| > 0;
      assert !IsSpace(t[0]);
    }
  }

  /** A trimmed hint is empty exactly when the reply, quotes removed, is
      white space only. */
  lemma TrimHintEmpty(hint: string)
    ensures TrimHint(hint) == "" <==> AllSpace(StripQuotes(hint))
  {
    TrimEmpty(StripQuotes(hint));
    TrimHintOfNothing();
    hide Words, Join, Trim, StripQuotes, StrippedBy, IsSpace, AllSpace;
  }

  // The fixed hints of `localHintForLevel`.
  const DoublesHint := "Each number doubles. What comes next?"
  const SumHint := "Add the last two numbers to get next."
  const ChangeHint := "Check how much each number changes each step."
  const DefaultHint := "Say the pattern out loud. Then choose next piece."

  function CountUpHint(d: int): string {
    "Count up by " + IntToString(d) + " each step."
  }

  /** The numbers among the tiles' values, in order (tiles without a number are skipped). */
  function NumbersIn(s: seq<Item>): (r: seq<int>)
    ensures |r| <= |s|
    ensures forall x :: x in r <==> exists j :: 0 <= j < |s| && s[j].value == Some(Num(x))
    decreases |s|
  {
    if |s| == 0 then []
    else
      var rest := NumbersIn(s[1..]);
      assert forall x :: (exists j :: 0 <= j < |s| - 1 && s[1..][j].value == Some(Num(x)))
                     <==> (exists j :: 1 <= j < |s| && s[j].value == Some(Num(x))) by {
        forall x
          ensures (exists j :: 0 <= j < |s| - 1 && s[1..][j].value == Some(Num(x)))
                  ==> (exists j :: 1 <= j < |s| && s[j].value == Some(Num(x)))
        {
          if j :| 0 <= j < |s| - 1 && s[1..][j].value == Some(Num(x)) {
            assert s[j + 1].value == Some(Num(x));
          }
        }
        forall x
          ensures (exists j :: 1 <= j < |s| && s[j].value == Some(Num(x)))
                  ==> (exists j :: 0 <= j < |s| - 1 && s[1..][j].value == Some(Num(x)))
        {
          if j :| 1 <= j < |s| && s[j].value == Some(Num(x)) {
            assert s[1..][j - 1].value == Some(Num(x));
          }
        }
      }
      (if s[0].value.Some? && s[0].value.value.Num? then [s[0].value.value.n] else []) + rest
  }

  /** When every tile holds a number nothing is skipped. */
  lemma {:induction false} NumbersInAllNumbers(s: seq<Item>)
    requires forall j :: 0 <= j < |s| ==> s[j].value.Some? && s[j].value.value.Num?
    ensures NumbersIn(s) == NumberValues(s)
    decreases |s|
  {
    if |s| > 0 {
      NumbersInAllNumbers(s[1..]);
      assert NumberValues(s) == [s[0].value.value.n] + NumberValues(s[1..]);
    }
  }

  /** Successive differences of `nums`. */
  function Diffs(nums: seq<int>): (d: seq<int>)
    requires |nums| >= 1
    ensures |d| == |nums| - 1
    ensures forall k :: 0 <= k < |d| ==> nums[k + 1] == nums[k] + d[k]
  {
    seq(|nums| - 1, k requires 0 <= k < |nums| - 1 => nums[k + 1] - nums[k])
  }

  /** The NUMBER branch of `localHintForLevel`: a constant step, doubling and
      adding the last two are recognised in that order. */
  function NumberHint(nums: seq<int>): string {
    if |nums| >= 4 then
      var diffs := Diffs(nums);
      if forall k :: 0 <= k < |diffs| ==> diffs[k] == diffs[0] then CountUpHint(diffs[0])
      else if forall k :: 0 <= k < |nums| - 1 ==> nums[k + 1] == nums[k] * 2 then DoublesHint
      else if nums[2] == nums[0] + nums[1] && nums[3] == nums[1] + nums[2] then SumHint
      else ChangeHint
    else ChangeHint
  }

  /** The fallback for the categories other than NUMBER. */
  function FixedHint(t: PatternType): string {
    match t
    case Color => "Say the colors aloud. Which color repeats next?"
    case Shape => "Point to each shape in order and find the repeat."
    case Size => "Watch size order: small, medium, large. What follows?"
    case Rotation => "Notice arrow turns. Keep turning same amount each time."
    case Alphabet => "Say letters aloud and move forward in alphabet."
    case Quantity => "Count the dots and compare each step."
    case Mirror => "Fold it in your mind. Right side matches left."
    case _ => DefaultHint
  }

  /** `localHintForLevel(level)`. */
  function LocalHint(level: Level): string {
    if level.groupType == Number then NumberHint(NumbersIn(level.sequence))
    else FixedHint(level.groupType)
  }

  /** Non-empty and ending in `.` or `?`. */
  predicate Sentence(h: string) {
    |h| > 0 && (h[|h| - 1] == '.' || h[|h| - 1] == '?')
  }

  lemma ColorShapeSizeHints()
    ensures Sentence(FixedHint(Color)) && Sentence(FixedHint(Shape)) && Sentence(FixedHint(Size))
  {
  }

  lemma RotationAlphabetQuantityHints()
    ensures Sentence(FixedHint(Rotation)) && Sentence(FixedHint(Alphabet)) && Sentence(FixedHint(Quantity))
  {
  }

  lemma MirrorAndDefaultHints()
    ensures Sentence(FixedHint(Mirror)) && Sentence(DefaultHint)
  {
  }

  /** Every local hint is a sentence: non-empty and ending in `.` or `?`. */
  lemma LocalHintIsSentence(level: Level)
    ensures Sentence(LocalHint(level))
  {
    var t := level.groupType;
    if t == Number {
      NumberHintIsSentence(NumbersIn(level.sequence));
    } else {
      match t {
        case Color => ColorShapeSizeHints();
        case Shape => ColorShapeSizeHints();
        case Size => ColorShapeSizeHints();
        case Rotation => RotationAlphabetQuantityHints();
        case Alphabet => RotationAlphabetQuantityHints();
        case Quantity => RotationAlphabetQuantityHints();
        case Mirror => MirrorAndDefaultHints();
        case Emoji => MirrorAndDefaultHints();
        case Nature => MirrorAndDefaultHints();
        case Fruit => MirrorAndDefaultHints();
      }
    }
  }

  /** Outside NUMBER the hint depends on the category alone, and EMOJI,
      NATURE and FRUIT get the default one; a NUMBER level showing fewer than
      four numbers gets the generic change hint. */
  lemma LocalHintDefaults(level: Level)
    ensures level.groupType != Number ==> LocalHint(level) == LocalHint(level.(sequence := []))
    ensures level.groupType in {Emoji, Nature, Fruit} ==> LocalHint(level) == DefaultHint
    ensures level.groupType == Number && |NumbersIn(level.sequence)| < 4 ==> LocalHint(level) == ChangeHint
  {
  }

  lemma NumberHintIsSentence(nums: seq<int>)
    ensures Sentence(NumberHint(nums))
  {
    SumAndChangeHints();
    if |nums| >= 4 {
      var d := Diffs(nums)[0];
      var h := CountUpHint(d);
      assert h == ("Count up by " + IntToString(d)) + " each step.";
      assert h[|h| - 1] == '.';
    }
  }

  lemma SumAndChangeHints()
    ensures Sentence(DoublesHint) && Sentence(SumHint) && Sentence(ChangeHint)
  {
  }

  /** A sentence ending in `.` or `?` is never one of the generic replies,
      whatever its letter case. */
  lemma SentenceNotGeneric(h: string)
    requires Sentence(h)
    ensures LowerAscii(h) !in GenericHints
  {
    var l := LowerAscii(h);
    assert l[|l| - 1] == h[|h| - 1];
    forall g | g in GenericHints
      ensures l != g
    {
      assert g[|g| - 1] in "egs";
    }
  }

  /** The hint the local fallback gives for each recurrence. */
  function HintForRule(rule: NumberRule): string {
    match rule
    case Step(d) => CountUpHint(d)
    case Doubling => DoublesHint
    case SumOfLastTwo => SumHint
    case GrowingIncrement => ChangeHint
    case DoublePlusOne => ChangeHint
  }

  /** For positive numbers the fallback names the rule they follow, except
      for the growing increment started at 2, whose terms 2, 3, 5, 8 also
      add up like a sum of the last two. */
  lemma NumberHintMatchesRule(rule: NumberRule, nums: seq<int>, next: int)
    requires Obeys(rule, nums, next)
    requires nums[0] > 0
    requires !(rule == GrowingIncrement && nums[0] == 2)
    ensures NumberHint(nums) == HintForRule(rule)
  {
    var f := nums + [next];
    assert forall k :: 0 <= k < 4 ==> f[k] == nums[k];
    var diffs := Diffs(nums);
    match rule {
      case Step(d) =>
        assert f[1] == f[0] + d && f[2] == f[1] + d && f[3] == f[2] + d;
        assert forall k :: 0 <= k < |diffs| ==> diffs[k] == d;
      case Doubling =>
        assert f[1] == 2 * f[0] && f[2] == 2 * f[1] && f[3] == 2 * f[2];
        assert diffs[1] != diffs[0];
        assert forall k :: 0 <= k < 3 ==> nums[k + 1] == nums[k] * 2;
      case SumOfLastTwo =>
        assert f[2] == f[0] + f[1] && f[3] == f[1] + f[2];
        assert diffs[2] != diffs[0];
        assert nums[3] != nums[2] * 2;
      case GrowingIncrement =>
        assert f[1] == f[0] + 1 && f[2] == f[1] + 2 && f[3] == f[2] + 3;
        assert diffs[1] != diffs[0];
        assert nums[3] != nums[2] * 2;
        assert nums[2] != nums[0] + nums[1];
      case DoublePlusOne =>
        assert f[1] == 2 * f[0] + 1 && f[2] == 2 * f[1] + 1 && f[3] == 2 * f[2] + 1;
        assert diffs[1] != diffs[0];
        assert nums[1] != nums[0] * 2;
        assert nums[2] != nums[0] + nums[1];
    }
  }

  /** The exception: 2, 3, 5, 8 gets the sum hint, which leads to 13 while
      the rule's next term is 12. */
  lemma GrowingFromTwoReadsAsSum(nums: seq<int>, next: int)
    requires Obeys(GrowingIncrement, nums, next)
    requires nums[0] == 2
    ensures nums == [2, 3, 5, 8] && next == 12
    ensures NumberHint(nums) == SumHint
    ensures next != nums[2] + nums[3]
  {
    var f := nums + [next];
    assert f[1] == f[0] + 1 && f[2] == f[1] + 2 && f[3] == f[2] + 3 && f[4] == f[3] + 4;
    assert nums == [f[0], f[1], f[2], f[3]];
    var diffs := Diffs(nums);
    assert diffs[1] != diffs[0];
    assert nums[1] != nums[0] * 2;
  }

  /** What the model call did: it replied with `response.text`, possibly
      missing, or it threw. */
  datatype Reply = Replied(text: Option<string>) | Threw

  /** JavaScript truthiness of an optional string: present and non-empty. */
  predicate Truthy(v: Option<string>) {
    v.Some? && v.value != ""
  }

  /** `getHintFromGemini(level)`: `apiKey` and `geminiKey` are the two
      environment variables and `reply` what the model call did. Without a
      key, on an error, or when the trimmed reply is empty or generic, the
      local hint is returned. */
  function ResolveHint(level: Level, apiKey: Option<string>, geminiKey: Option<string>, reply: Reply): (r: string)
    ensures |r| > 0
    ensures LowerAscii(r) !in GenericHints
    ensures !Truthy(apiKey) && !Truthy(geminiKey) ==> r == LocalHint(level)
    ensures reply.Threw? ==> r == LocalHint(level)
    ensures r == LocalHint(level) || (reply.Replied? && reply.text.Some? && r == TrimHint(reply.text.value))
  {
    LocalHintIsSentence(level);
    SentenceNotGeneric(LocalHint(level));
    if !Truthy(apiKey) && !Truthy(geminiKey) then LocalHint(level)
    else
      match reply
      case Threw => LocalHint(level)
      case Replied(text) =>
        var modelHint := ModelHint(text);
        if modelHint == "" then LocalHint(level)
        else if LowerAscii(modelHint) in GenericHints then LocalHint(level)
        else modelHint
  }

  lemma TrimHintOfNothing()
    ensures Words("") == []
    ensures TrimHint("") == ""
  {
    assert StripQuotes("") == "";
    assert Cleaned("") == "";
    assert Words("") == [];
  }

  /** `trimHint(response.text || "")`: a missing reply trims to nothing. */
  function ModelHint(text: Option<string>): string {
    TrimHint(if Truthy(text) then text.value else "")
  }

  /** A reply's text is trimmed; a missing text gives the empty hint. */
  lemma ModelHintTrims(text: Option<string>)
    ensures text.Some? ==> ModelHint(text) == TrimHint(text.value)
    ensures text.None? ==> ModelHint(text) == ""
  {
    TrimHintOfNothing();
    hide TrimHint, Cleaned, Trim, StripQuotes, Strip, StrippedBy, Words, Join, IsSpace;
  }

  /** With a key, a reply that trims to a non-empty, non-generic hint is
      what the child sees, and it has at most twelve words. */
  lemma ResolveHintUsesModel(level: Level, apiKey: Option<string>, geminiKey: Option<string>, text: string)
    requires Truthy(apiKey) || Truthy(geminiKey)
    requires TrimHint(text) != "" && LowerAscii(TrimHint(text)) !in GenericHints
    ensures ResolveHint(level, apiKey, geminiKey, Replied(Some(text))) == TrimHint(text)
    ensures |Words(ResolveHint(level, apiKey, geminiKey, Replied(Some(text))))| <= MaxHintWords
  {
    TrimHintWordCount(text);
    ModelHintTrims(Some(text));
    hide Trim, StripQuotes, StrippedBy, Words, Join;
  }
}
