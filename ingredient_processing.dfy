/**
 * What processIngredients computes: each `{quantity, item}` array becomes the
 * trimmed text "quantity item", each non-empty string passes through, and
 * everything else, including a text that PHP calls empty, is dropped.
 */
module IngredientProcessing {
  import opened Wrappers
  import opened PhpValues

  /** An ingredients-field item `['value' => text]`. */
  datatype IngredientItem = IngredientItem(value: string)

  const QuantityKey: Key := StrKey("quantity")
  const ItemKey: Key := StrKey("item")

  /** The text one input entry contributes, if any. */
  function IngredientText(v: Value): Option<string> {
    if v.Arr? && Isset(v, QuantityKey) && Isset(v, ItemKey) then
      var text := Trim(ToPhpString(Element(v, QuantityKey)) + " " + ToPhpString(Element(v, ItemKey)));
      if !IsEmpty(Str(text)) then Some(text) else None
    else if v.Str? && !IsEmpty(v) then Some(v.s)
    else None
  }

  /** The result of processIngredients(ingredients). */
  function Processed(ingredients: seq<Value>): seq<IngredientItem> {
    if ingredients == [] then []
    else
      var last := ingredients[|ingredients| - 1];
      Processed(ingredients[..|ingredients| - 1])
        + match IngredientText(last) case Some(t) => [IngredientItem(t)] case None => []
  }

  // ---------------------------------------------------------------------------
  // One entry

  /**
   * A `{quantity, item}` array yields the text "quantity item" with only trim
   * characters removed from its two ends, and yields nothing exactly when
   * that trimmed text is "" or "0".
   */
  lemma PairText(v: Value)
    requires v.Arr? && Isset(v, QuantityKey) && Isset(v, ItemKey)
    ensures var combined := ToPhpString(Element(v, QuantityKey)) + " " + ToPhpString(Element(v, ItemKey));
            && (IngredientText(v).None? <==> Trim(combined) == "" || Trim(combined) == "0")
            && (IngredientText(v).Some? ==>
                  exists p, q :: AllTrimChars(p) && AllTrimChars(q) && combined == p + IngredientText(v).value + q)
  {
    TrimSplits(ToPhpString(Element(v, QuantityKey)) + " " + ToPhpString(Element(v, ItemKey)));
  }

  /** A non-empty string yields itself unchanged; an empty one ("" or "0") yields nothing. */
  lemma StringText(s: string)
    ensures IngredientText(Str(s)) == if s == "" || s == "0" then None else Some(s)
  {
  }

  /** An array missing either key, and every value that is neither an array nor a string, yields nothing. */
  lemma DroppedText(v: Value)
    requires !v.Str?
    requires !(v.Arr? && Isset(v, QuantityKey) && Isset(v, ItemKey))
    ensures IngredientText(v) == None
  {
  }

  /** Any text an entry yields is non-empty per empty() and, for a pair, starts and ends on a non-trim character. */
  lemma IngredientTextShape(v: Value)
    ensures IngredientText(v).Some? ==> !IsEmpty(Str(IngredientText(v).value))
    ensures IngredientText(v).Some? && v.Arr? ==>
              var t := IngredientText(v).value;
              !IsTrimChar(t[0]) && !IsTrimChar(t[|t| - 1])
  {
    if v.Arr? && Isset(v, QuantityKey) && Isset(v, ItemKey) {
      TrimSplits(ToPhpString(Element(v, QuantityKey)) + " " + ToPhpString(Element(v, ItemKey)));
    }
  }

  /** "0 " followed by trim characters only trims to "0". */
  lemma ZeroTextTrims(item: string)
    requires AllTrimChars(item)
    ensures Trim("0" + " " + item) == "0"
  {
    var text := "0" + " " + item;
    assert TrimLeft(text) == text;
    assert text == "0" + (" " + item);
    assert AllTrimChars(" " + item);
    TrimRightDropsTrail("0", " " + item);
  }

  /**
   * A pair whose quantity is "0" and whose item is only trim characters
   * trims to "0", which empty() treats as empty, so it is dropped.
   */
  lemma ZeroPairDropped(es: seq<Entry>, item: string)
    requires Lookup(es, QuantityKey) == Some(Str("0"))
    requires Lookup(es, ItemKey) == Some(Str(item))
    requires AllTrimChars(item)
    ensures IngredientText(Arr(es)) == None
    ensures Processed([Arr(es)]) == []
  {
    var v := Arr(es);
    assert Element(v, QuantityKey) == Str("0") && Element(v, ItemKey) == Str(item);
    var text := "0" + " " + item;
    assert ToPhpString(Element(v, QuantityKey)) + " " + ToPhpString(Element(v, ItemKey)) == text;
    ZeroTextTrims(item);
    assert IngredientText(v) == None;
    assert [v][..0] == [];
  }

  // ---------------------------------------------------------------------------
  // The whole list

  /** processIngredients never returns more items than it was given. */
  lemma {:induction false} ProcessedBound(ingredients: seq<Value>)
    ensures |Processed(ingredients)| <= |ingredients|
  {
    if ingredients != [] {
      ProcessedBound(ingredients[..|ingredients| - 1]);
    }
  }

  /** Every item processIngredients returns holds a text that empty() rejects. */
  lemma {:induction false} ProcessedNonEmpty(ingredients: seq<Value>)
    ensures forall k :: 0 <= k < |Processed(ingredients)| ==> !IsEmpty(Str(Processed(ingredients)[k].value))
  {
    if ingredients != [] {
      ProcessedNonEmpty(ingredients[..|ingredients| - 1]);
      IngredientTextShape(ingredients[|ingredients| - 1]);
    }
  }

  /** processIngredients works entry by entry and keeps the input order. */
  lemma {:induction false} ProcessedAppend(a: seq<Value>, b: seq<Value>)
    ensures Processed(a + b) == Processed(a) + Processed(b)
    decreases |b|
  {
    if b == [] {
      assert a + b == a;
    } else {
      var init := b[..|b| - 1];
      ProcessedAppend(a, init);
      assert (a + b)[..|a + b| - 1] == a + init;
    }
  }

  /** Each entry contributes exactly what IngredientText says, so the whole list is their concatenation. */
  lemma ProcessedSingle(v: Value)
    ensures Processed([v]) == match IngredientText(v) case Some(t) => [IngredientItem(t)] case None => []
  {
    assert [v][..0] == [];
  }

  /** A list of non-empty strings passes through unchanged, one item per string. */
  lemma {:induction false} ProcessedStrings(ingredients: seq<Value>)
    requires forall k :: 0 <= k < |ingredients| ==> ingredients[k].Str? && !IsEmpty(ingredients[k])
    ensures |Processed(ingredients)| == |ingredients|
    ensures forall k :: 0 <= k < |ingredients| ==> Processed(ingredients)[k] == IngredientItem(ingredients[k].s)
  {
    if ingredients != [] {
      ProcessedStrings(ingredients[..|ingredients| - 1]);
    }
  }
}
