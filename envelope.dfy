/** get_envelope of the current shipping method: the package envelope of a
    cart, summing weights and heights, taking the largest width and length,
    and counting the items. */
module CartEnvelope {
  import opened Values
  import opened Services

  /** A cart line: the raw quantity and the product's measurements, None for
      a value that is not numeric. */
  datatype CartItem = CartItem(quantity: int, weight: Option<real>, width: Option<real>, length: Option<real>, height: Option<real>)

  /** is_numeric(v) ? v : 0. */
  function Num(v: Option<real>): real {
    if v.Some? then v.value else 0.0
  }

  /** A line takes part only when absint of its quantity is not 0. */
  predicate Counted(item: CartItem) {
    Abs(item.quantity) != 0
  }

  /** A measurement times absint of the quantity. */
  function Scaled(measure: real, quantity: nat): real {
    measure * quantity as real
  }

  /** The value a line pushes for one measurement, if any: nothing for a
      skipped line or a zero measurement. */
  function Pushed(item: CartItem, measure: Option<real>, perItem: bool): seq<real> {
    var q := Abs(item.quantity);
    if q == 0 || Num(measure) == 0.0 then []
    else [if perItem then Scaled(Num(measure), q) else Num(measure)]
  }

  /** The list of pushed weights (times the quantity). */
  function Weights(items: seq<CartItem>): seq<real>
    decreases |items|
  {
    if items == [] then []
    else var last := items[|items| - 1]; Weights(items[..|items| - 1]) + Pushed(last, last.weight, true)
  }

  /** The list of pushed widths. */
  function Widths(items: seq<CartItem>): seq<real>
    decreases |items|
  {
    if items == [] then []
    else var last := items[|items| - 1]; Widths(items[..|items| - 1]) + Pushed(last, last.width, false)
  }

  /** The list of pushed lengths. */
  function Lengths(items: seq<CartItem>): seq<real>
    decreases |items|
  {
    if items == [] then []
    else var last := items[|items| - 1]; Lengths(items[..|items| - 1]) + Pushed(last, last.length, false)
  }

  /** The list of pushed heights (times the quantity). */
  function Heights(items: seq<CartItem>): seq<real>
    decreases |items|
  {
    if items == [] then []
    else var last := items[|items| - 1]; Heights(items[..|items| - 1]) + Pushed(last, last.height, true)
  }

  /** The list of counted quantities. */
  function Quantities(items: seq<CartItem>): seq<int>
    decreases |items|
  {
    if items == [] then []
    else
      var q := Abs(items[|items| - 1].quantity);
      Quantities(items[..|items| - 1]) + (if q == 0 then [] else [q])
  }

  function SumInts(s: seq<int>): int
    decreases |s|
  {
    if s == [] then 0 else SumInts(s[..|s| - 1]) + s[|s| - 1]
  }

  function MaxOrZero(s: seq<real>): real {
    if s == [] then 0.0 else MaxOf(s)
  }

  /** The envelope from the pushed lists: sums of weights and heights, maxima
      of widths and lengths, 0 for a list nothing was pushed to. */
  function EnvelopeOf(items: seq<CartItem>): Envelope {
    Envelope(SumReals(Weights(items)), MaxOrZero(Widths(items)), MaxOrZero(Lengths(items)),
             SumReals(Heights(items)), SumInts(Quantities(items)))
  }

  /** Appending a line appends what it pushes to each list. */
  lemma ListsStep(items: seq<CartItem>, item: CartItem)
    ensures Weights(items + [item]) == Weights(items) + Pushed(item, item.weight, true)
    ensures Widths(items + [item]) == Widths(items) + Pushed(item, item.width, false)
    ensures Lengths(items + [item]) == Lengths(items) + Pushed(item, item.length, false)
    ensures Heights(items + [item]) == Heights(items) + Pushed(item, item.height, true)
    ensures Quantities(items + [item]) == Quantities(items) + (if Abs(item.quantity) == 0 then [] else [Abs(item.quantity)])
  {
    assert (items + [item])[..|items|] == items;
  }

  /** What a counted line pushes for a measurement: the measurement when it
      is not zero, times the quantity for weight and height. */
  lemma PushedCounted(item: CartItem, measure: Option<real>, perItem: bool)
    requires Counted(item)
    ensures Num(measure) == 0.0 ==> Pushed(item, measure, perItem) == []
    ensures Num(measure) != 0.0 && perItem ==> Pushed(item, measure, perItem) == [Scaled(Num(measure), Abs(item.quantity))]
    ensures Num(measure) != 0.0 && !perItem ==> Pushed(item, measure, perItem) == [Num(measure)]
  {
  }

  /** get_envelope: one pass over the cart lines, pushing onto five lists,
      then the sums and maxima. */
  method GetEnvelope(items: seq<CartItem>) returns (env: Envelope)
    ensures env == EnvelopeOf(items)
  {
    var weight: seq<real> := [];
    var width: seq<real> := [];
    var length: seq<real> := [];
    var height: seq<real> := [];
    var quantity: seq<int> := [];
    for i := 0 to |items|
      invariant weight == Weights(items[..i]) && width == Widths(items[..i])
      invariant length == Lengths(items[..i]) && height == Heights(items[..i])
      invariant quantity == Quantities(items[..i])
    {
      var item := items[i];
      assert items[..i + 1] == items[..i] + [item];
      ListsStep(items[..i], item);
      var itemQuantity := Abs(item.quantity);
      if itemQuantity == 0 {
        continue;
      }
      quantity := quantity + [itemQuantity];
      PushedCounted(item, item.weight, true);
      PushedCounted(item, item.width, false);
      PushedCounted(item, item.length, false);
      PushedCounted(item, item.height, true);
      var itemWeight := Num(item.weight);
      if itemWeight != 0.0 {
        weight := weight + [Scaled(itemWeight, itemQuantity)];
      }
      var itemWidth := Num(item.width);
      if itemWidth != 0.0 {
        width := width + [itemWidth];
      }
      var itemLength := Num(item.length);
      if itemLength != 0.0 {
        length := length + [itemLength];
      }
      var itemHeight := Num(item.height);
      if itemHeight != 0.0 {
        height := height + [Scaled(itemHeight, itemQuantity)];
      }
    }
    assert items[..|items|] == items;
    env := Envelope(0.0, 0.0, 0.0, 0.0, 0);
    if weight != [] {
      env := env.(weight := SumReals(weight));
    }
    if width != [] {
      env := env.(width := MaxOf(width));
    }
    if length != [] {
      env := env.(length := MaxOf(length));
    }
    if height != [] {
      env := env.(height := SumReals(height));
    }
    if quantity != [] {
      env := env.(quantity := SumInts(quantity));
    }
  }

  // ---------------------------------------------------------------------
  // Reference totals and properties
  // ---------------------------------------------------------------------

  /** Reference weight: every line's numeric weight times absint of its
      quantity, with nothing skipped. */
  function TotalWeight(items: seq<CartItem>): real
    decreases |items|
  {
    if items == [] then 0.0
    else var last := items[|items| - 1]; TotalWeight(items[..|items| - 1]) + Scaled(Num(last.weight), Abs(last.quantity))
  }

  function TotalHeight(items: seq<CartItem>): real
    decreases |items|
  {
    if items == [] then 0.0
    else var last := items[|items| - 1]; TotalHeight(items[..|items| - 1]) + Scaled(Num(last.height), Abs(last.quantity))
  }

  function TotalQuantity(items: seq<CartItem>): int
    decreases |items|
  {
    if items == [] then 0 else TotalQuantity(items[..|items| - 1]) + Abs(items[|items| - 1].quantity)
  }

  lemma SumRealsAppend(s: seq<real>, t: seq<real>)
    requires |t| <= 1
    ensures SumReals(s + t) == SumReals(s) + SumReals(t)
  {
    if t != [] {
      assert (s + t)[..|s + t| - 1] == s;
      assert [t[0]][..0] == [];
    } else {
      assert s + t == s;
    }
  }

  lemma SumIntsAppend(s: seq<int>, t: seq<int>)
    requires |t| <= 1
    ensures SumInts(s + t) == SumInts(s) + SumInts(t)
  {
    if t != [] {
      assert (s + t)[..|s + t| - 1] == s;
      assert [t[0]][..0] == [];
    } else {
      assert s + t == s;
    }
  }

  /** Skipping zero measurements and zero quantities does not change the
      totals: the envelope's weight, height and quantity are the plain sums
      over all lines. */
  lemma EnvelopeTotals(items: seq<CartItem>)
    ensures EnvelopeOf(items).weight == TotalWeight(items)
    ensures EnvelopeOf(items).height == TotalHeight(items)
    ensures EnvelopeOf(items).quantity == TotalQuantity(items)
  {
    WeightTotal(items);
    HeightTotal(items);
    QuantityTotal(items);
  }

  lemma {:induction false} WeightTotal(items: seq<CartItem>)
    ensures SumReals(Weights(items)) == TotalWeight(items)
    decreases |items|
  {
    if items != [] {
      var init := items[..|items| - 1];
      var last := items[|items| - 1];
      WeightTotal(init);
      assert items == init + [last];
      ListsStep(init, last);
      SumRealsAppend(Weights(init), Pushed(last, last.weight, true));
    }
  }

  lemma {:induction false} HeightTotal(items: seq<CartItem>)
    ensures SumReals(Heights(items)) == TotalHeight(items)
    decreases |items|
  {
    if items != [] {
      var init := items[..|items| - 1];
      var last := items[|items| - 1];
      HeightTotal(init);
      assert items == init + [last];
      ListsStep(init, last);
      SumRealsAppend(Heights(init), Pushed(last, last.height, true));
    }
  }

  lemma {:induction false} QuantityTotal(items: seq<CartItem>)
    ensures SumInts(Quantities(items)) == TotalQuantity(items)
    decreases |items|
  {
    if items != [] {
      var init := items[..|items| - 1];
      var last := items[|items| - 1];
      QuantityTotal(init);
      assert items == init + [last];
      ListsStep(init, last);
      var q := Abs(last.quantity);
      SumIntsAppend(Quantities(init), if q == 0 then [] else [q]);
    }
  }

  /** Every pushed width comes from a counted line with a non-zero width,
      and every such line pushes its width. */
  lemma {:induction false} WidthsFrom(items: seq<CartItem>)
    ensures forall x :: x in Widths(items) <==>
      exists i :: 0 <= i < |items| && Counted(items[i]) && Num(items[i].width) != 0.0 && Num(items[i].width) == x
    decreases |items|
  {
    if items != [] {
      var init := items[..|items| - 1];
      WidthsFrom(init);
      forall x
        ensures x in Widths(items) <==>
          exists i :: 0 <= i < |items| && Counted(items[i]) && Num(items[i].width) != 0.0 && Num(items[i].width) == x
      {
        if x in Widths(items) {
          if x in Widths(init) {
            var i :| 0 <= i < |init| && Counted(init[i]) && Num(init[i].width) != 0.0 && Num(init[i].width) == x;
            assert items[i] == init[i];
          } else {
            assert Counted(items[|items| - 1]);
          }
        }
        if exists i :: 0 <= i < |items| && Counted(items[i]) && Num(items[i].width) != 0.0 && Num(items[i].width) == x {
          var i :| 0 <= i < |items| && Counted(items[i]) && Num(items[i].width) != 0.0 && Num(items[i].width) == x;
          if i < |init| {
            assert init[i] == items[i];
          }
        }
      }
    }
  }

  /** The envelope width is the widest counted line with a width, or 0 when
      there is none. */
  lemma EnvelopeWidth(items: seq<CartItem>)
    ensures forall i :: 0 <= i < |items| && Counted(items[i]) && Num(items[i].width) != 0.0 ==>
      Num(items[i].width) <= EnvelopeOf(items).width
    ensures (exists i :: (0 <= i < |items| && Counted(items[i]) && Num(items[i].width) != 0.0 &&
      Num(items[i].width) == EnvelopeOf(items).width)) || EnvelopeOf(items).width == 0.0
  {
    WidthsFrom(items);
    var w := Widths(items);
    forall i | 0 <= i < |items| && Counted(items[i]) && Num(items[i].width) != 0.0
      ensures Num(items[i].width) <= EnvelopeOf(items).width
    {
      assert Num(items[i].width) in w;
    }
    if w != [] {
      assert MaxOf(w) in w;
    }
  }

  /** Every pushed length comes from a counted line with a non-zero length,
      and every such line pushes its length. */
  lemma {:induction false} LengthsFrom(items: seq<CartItem>)
    ensures forall x :: x in Lengths(items) <==>
      exists i :: 0 <= i < |items| && Counted(items[i]) && Num(items[i].length) != 0.0 && Num(items[i].length) == x
    decreases |items|
  {
    if items != [] {
      var init := items[..|items| - 1];
      LengthsFrom(init);
      forall x
        ensures x in Lengths(items) <==>
          exists i :: 0 <= i < |items| && Counted(items[i]) && Num(items[i].length) != 0.0 && Num(items[i].length) == x
      {
        if x in Lengths(items) {
          if x in Lengths(init) {
            var i :| 0 <= i < |init| && Counted(init[i]) && Num(init[i].length) != 0.0 && Num(init[i].length) == x;
            assert items[i] == init[i];
          } else {
            assert Counted(items[|items| - 1]);
          }
        }
        if exists i :: 0 <= i < |items| && Counted(items[i]) && Num(items[i].length) != 0.0 && Num(items[i].length) == x {
          var i :| 0 <= i < |items| && Counted(items[i]) && Num(items[i].length) != 0.0 && Num(items[i].length) == x;
          if i < |init| {
            assert init[i] == items[i];
          }
        }
      }
    }
  }

  /** The envelope length is the longest counted line with a length, or 0 when
      there is none. */
  lemma EnvelopeLength(items: seq<CartItem>)
    ensures forall i :: 0 <= i < |items| && Counted(items[i]) && Num(items[i].length) != 0.0 ==>
      Num(items[i].length) <= EnvelopeOf(items).length
    ensures (exists i :: (0 <= i < |items| && Counted(items[i]) && Num(items[i].length) != 0.0 &&
      Num(items[i].length) == EnvelopeOf(items).length)) || EnvelopeOf(items).length == 0.0
  {
    LengthsFrom(items);
    var ls := Lengths(items);
    forall i | 0 <= i < |items| && Counted(items[i]) && Num(items[i].length) != 0.0
      ensures Num(items[i].length) <= EnvelopeOf(items).length
    {
      assert Num(items[i].length) in ls;
    }
    if ls != [] {
      assert MaxOf(ls) in ls;
    }
  }

  /** A cart whose lines all have quantity 0 has the all-zero envelope. */
  lemma {:induction false} NothingCounted(items: seq<CartItem>)
    requires forall i :: 0 <= i < |items| ==> !Counted(items[i])
    ensures Weights(items) == Widths(items) == Lengths(items) == Heights(items) == []
    ensures Quantities(items) == []
    ensures EnvelopeOf(items) == Envelope(0.0, 0.0, 0.0, 0.0, 0)
    decreases |items|
  {
    if items != [] {
      var init := items[..|items| - 1];
      assert forall i :: 0 <= i < |init| ==> init[i] == items[i];
      NothingCounted(init);
      assert items == init + [items[|items| - 1]];
      ListsStep(init, items[|items| - 1]);
    }
  }

  /** A line with quantity 0 leaves the envelope as it was. */
  lemma SkipZeroQuantity(items: seq<CartItem>, item: CartItem)
    requires !Counted(item)
    ensures EnvelopeOf(items + [item]) == EnvelopeOf(items)
  {
    ListsStep(items, item);
    assert Weights(items) + [] == Weights(items);
    assert Widths(items) + [] == Widths(items);
    assert Lengths(items) + [] == Lengths(items);
    assert Heights(items) + [] == Heights(items);
    assert Quantities(items) + [] == Quantities(items);
  }
}
