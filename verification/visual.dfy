/** `getVisualKey` of constants.ts: the normalised tuple of an item's displayed
    attributes. Two items look the same exactly when their keys are equal. */
module Visual {
  import opened Types
  import opened Text

  /** JavaScript's `%` for a positive divisor: the remainder takes the sign
      of the dividend. */
  function JsRem(a: int, b: int): (r: int)
    requires b > 0
    ensures -b < r < b
    ensures a >= 0 ==> r >= 0
    ensures a < 0 ==> r <= 0
  {
    if a >= 0 then a % b else -((-a) % b)
  }

  /** `(rotation % 360 + 360) % 360`, and 0 for a missing rotation. */
  function NormalizedRotation(rotation: Option<int>): (deg: int)
    ensures 0 <= deg < 360
    ensures rotation.Some? ==> deg == rotation.value % 360
    ensures rotation.None? ==> deg == 0
  {
    match rotation
    case None => 0
    case Some(r) =>
      var deg := JsRem(JsRem(r, 360) + 360, 360);
      assert deg == r % 360 by { JsRemRotation(r); }
      deg
  }

  lemma JsRemRotation(r: int)
    ensures JsRem(JsRem(r, 360) + 360, 360) == r % 360
  {
    var t := JsRem(r, 360);
    if r >= 0 {
      assert t == r % 360;
      assert (t + 360) % 360 == t;
    } else {
      var m := (-r) % 360;
      assert t == -m;
      assert -r == ((-r) / 360) * 360 + m;
      assert r == -((-r) / 360) * 360 - m;
      if m == 0 {
        assert r % 360 == 0;
      } else {
        assert r == (-((-r) / 360) - 1) * 360 + (360 - m);
        assert r % 360 == 360 - m;
      }
    }
  }

  /** The six parts of the key. The source joins them with `|`; the tuple
      stands for that string as long as no part contains `|`, which holds for
      every colour, shape, emoji, value and size the game uses. */
  datatype VisualKey = VisualKey(
    shape: string,
    color: string,
    emoji: string,
    value: string,
    size: string,
    rotation: string)

  /** `s || fallback` for an optional string: missing and empty both fall back. */
  function TextOr(s: Option<string>, fallback: string): string {
    match s
    case Some(t) => if t == "" then fallback else t
    case None => fallback
  }

  /** `String(item.value || 'none')`: 0 and the empty string are falsy too. */
  function ValueText(v: Option<Value>): (t: string)
    ensures v.Some? && v.value.Num? && v.value.n != 0 ==> t == IntToString(v.value.n)
    ensures v.Some? && v.value.Str? && v.value.s != "" ==> t == v.value.s
    ensures v.None? || v == Some(Num(0)) || v == Some(Str("")) ==> t == "none"
  {
    match v
    case None => "none"
    case Some(Num(n)) => if n == 0 then "none" else IntToString(n)
    case Some(Str(s)) => if s == "" then "none" else s
  }

  function Key(item: Item): VisualKey {
    VisualKey(
      match item.shape case Some(s) => ShapeText(s) case None => "none",
      TextOr(item.color, "none"),
      TextOr(item.emoji, "none"),
      ValueText(item.value),
      match item.size case Some(s) => SizeText(s) case None => "md",
      IntToString(NormalizedRotation(item.rotation)))
  }

  /** Two items look alike exactly when their keys agree. */
  predicate LookAlike(a: Item, b: Item) {
    Key(a) == Key(b)
  }

  /** The key ignores the id, identifies rotations a whole number of turns
      apart, and reads a missing rotation as 0 and a missing size as `md`. */
  lemma KeyNormalisation(item: Item, id: string, r: int, turns: int)
    ensures Key(item.(id := id)) == Key(item)
    ensures Key(item.(rotation := Some(r + 360 * turns))) == Key(item.(rotation := Some(r)))
    ensures Key(item.(rotation := None)) == Key(item.(rotation := Some(0)))
    ensures Key(item.(size := None)) == Key(item.(size := Some(Md)))
    ensures Key(item.(value := Some(Num(0)))) == Key(item.(value := None))
  {
    assert (r + 360 * turns) % 360 == r % 360;
  }

  /** Items of one rendering family whose values differ look different. */
  lemma DistinctNumbersLookDifferent(a: Item, b: Item)
    requires a.value.Some? && a.value.value.Num? && a.value.value.n != 0
    requires b.value.Some? && b.value.value.Num? && b.value.value.n != 0
    requires a.value.value.n != b.value.value.n
    ensures Key(a) != Key(b)
  {
    if Key(a) == Key(b) {
      IntToStringInjective(a.value.value.n, b.value.value.n);
    }
  }

  /** Arrows whose normalised rotations differ look different. */
  lemma DistinctRotationsLookDifferent(a: Item, b: Item)
    requires NormalizedRotation(a.rotation) != NormalizedRotation(b.rotation)
    ensures Key(a) != Key(b)
  {
    if Key(a) == Key(b) {
      IntToStringInjective(NormalizedRotation(a.rotation), NormalizedRotation(b.rotation));
    }
  }
}
