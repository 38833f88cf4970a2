// `getOptionsPrice`: the price of the selected options of an offer, a
// `reduce` over the options starting from 0.

module OptionsPrice {

  /** An option of an offer. A missing `price` or `selected` is falsy like 0
      and is written as 0 here. */
  datatype PriceOption = PriceOption(included: bool, price: real, selected: real)

  /** The reducer's test: an included option, or one with a falsy `price` or
      `selected`, leaves the accumulator as it is. */
  predicate Skipped(o: PriceOption) {
    o.included || o.price == 0.0 || o.selected == 0.0
  }

  /** The reducer: one option's step of the sum. */
  function Add(acc: real, o: PriceOption): (r: real)
    ensures o.included ==> r == acc
    ensures o.price == 0.0 || o.selected == 0.0 ==> r == acc
    ensures !o.included && o.price != 0.0 && o.selected != 0.0 ==> r == acc + o.selected * o.price
  {
    if Skipped(o) then acc else acc + o.selected * o.price
  }

  /** The `reduce` over the options from `acc`, a left fold: it adds every
      option's contribution to its starting accumulator. */
  function Reduce(acc: real, options: seq<PriceOption>): (r: real)
    ensures r == acc + Sum(options)
    decreases |options|
  {
    if options == [] then acc else Reduce(Add(acc, options[0]), options[1..])
  }

  /** The price of the options: the sum of their contributions, 0 for none. */
  function GetOptionsPrice(options: seq<PriceOption>): (r: real)
    ensures r == Sum(options)
    ensures options == [] ==> r == 0.0
  {
    Reduce(0.0, options)
  }

  /** What one option adds to the price. */
  function Contribution(o: PriceOption): real {
    if Skipped(o) then 0.0 else o.selected * o.price
  }

  /** The reference definition: the sum of every option's contribution. */
  function Sum(options: seq<PriceOption>): real
    decreases |options|
  {
    if options == [] then 0.0 else Contribution(options[0]) + Sum(options[1..])
  }

  lemma {:induction false} SumAppend(a: seq<PriceOption>, b: seq<PriceOption>)
    ensures Sum(a + b) == Sum(a) + Sum(b)
    decreases |a|
  {
    if a == [] {
      assert a + b == b;
    } else {
      assert (a + b)[1..] == a[1..] + b;
      SumAppend(a[1..], b);
    }
  }

  /** The price of a concatenation of option lists is the sum of their prices. */
  lemma OptionsPriceAppend(a: seq<PriceOption>, b: seq<PriceOption>)
    ensures GetOptionsPrice(a + b) == GetOptionsPrice(a) + GetOptionsPrice(b)
  {
    SumAppend(a, b);
  }

  /** A single option costs `selected * price`, or nothing when it is skipped;
      no options cost nothing. */
  lemma SingleOption(o: PriceOption)
    ensures GetOptionsPrice([]) == 0.0
    ensures GetOptionsPrice([o]) == if Skipped(o) then 0.0 else o.selected * o.price
  {
  }

  /** Skipped options never change the price, wherever they are. */
  lemma {:induction false} SkippedOptionsAddNothing(a: seq<PriceOption>, o: PriceOption, b: seq<PriceOption>)
    requires Skipped(o)
    ensures GetOptionsPrice(a + [o] + b) == GetOptionsPrice(a + b)
  {
    OptionsPriceAppend(a + [o], b);
    OptionsPriceAppend(a, [o]);
    OptionsPriceAppend(a, b);
    SingleOption(o);
  }

  /** With no negative prices or quantities, the price is never negative. */
  lemma {:induction false} OptionsPriceNonNegative(options: seq<PriceOption>)
    requires forall k :: 0 <= k < |options| ==> options[k].price >= 0.0 && options[k].selected >= 0.0
    ensures GetOptionsPrice(options) >= 0.0
  {
    SumNonNegative(options);
  }

  lemma {:induction false} SumNonNegative(options: seq<PriceOption>)
    requires forall k :: 0 <= k < |options| ==> options[k].price >= 0.0 && options[k].selected >= 0.0
    ensures Sum(options) >= 0.0
    decreases |options|
  {
    if options != [] {
      SumNonNegative(options[1..]);
    }
  }

  /** The cases of the package's own tests: no options, one option, an
      included one beside a paid one, two options, and a quantity of five. */
  lemma TestedPrices()
    ensures GetOptionsPrice([]) == 0.0
    ensures GetOptionsPrice([PriceOption(false, 1.0, 1.0)]) == 1.0
    ensures GetOptionsPrice([PriceOption(true, 1.0, 1.0)]) == 0.0
    ensures GetOptionsPrice([PriceOption(false, 1.0, 1.0), PriceOption(true, 1.0, 1.0)]) == 1.0
    ensures GetOptionsPrice([PriceOption(false, 1.0, 1.0), PriceOption(false, 1.0, 1.0)]) == 2.0
    ensures GetOptionsPrice([PriceOption(false, 2.0, 5.0)]) == 10.0
  {
  }
}
