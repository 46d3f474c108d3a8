/**
 * Decorator: beverages are wrapped by condiment decorators, and each layer
 * extends the description of the beverage it wraps.
 */
module Decorator {

  /** The concrete decorators; Plain is the base CondimentDecorator behaviour. */
  datatype Condiment = Plain | Milk | Mocha

  /** A concrete component, or a condiment wrapped around another beverage. */
  datatype Beverage = Espresso | HouseBlend | Decorated(condiment: Condiment, inner: Beverage)

  /** What a condiment appends to the wrapped description. */
  function Suffix(c: Condiment): string {
    match c
    case Plain => ""
    case Milk => ", Milk"
    case Mocha => ", Mocha"
  }

  /** The description of a concrete component. */
  function Name(b: Beverage): string
    requires !b.Decorated?
  {
    if b == Espresso then "Espresso" else "House Blend Coffee"
  }

  /**
   * getDescription: every beverage describes as the name of its base followed
   * by the suffixes of its condiments, innermost first.
   */
  function Description(b: Beverage): (description: string)
    ensures description == Name(Base(b)) + Suffixes(Layers(b))
  {
    match b
    case Decorated(c, inner) =>
      SuffixesAppend(Layers(inner), c);
      Description(inner) + Suffix(c)
    case _ => Name(b)
  }

  /** A decorator's description starts with the wrapped one and adds only its own suffix. */
  lemma DecoratedExtends(c: Condiment, inner: Beverage)
    ensures var d := Description(Decorated(c, inner));
      && |d| == |Description(inner)| + |Suffix(c)|
      && d[..|Description(inner)|] == Description(inner)
      && d[|Description(inner)|..] == Suffix(c)
    ensures c == Plain ==> Description(Decorated(c, inner)) == Description(inner)
  {
  }

  /** The undecorated beverage at the centre. */
  function Base(b: Beverage): (base: Beverage)
    ensures !base.Decorated?
  {
    if b.Decorated? then Base(b.inner) else b
  }

  /** The condiments of a beverage in the order they were applied, innermost first. */
  function Layers(b: Beverage): seq<Condiment> {
    if b.Decorated? then Layers(b.inner) + [b.condiment] else []
  }

  /** Wraps a beverage in the condiments, applying the first one innermost. */
  function WrapAll(b: Beverage, layers: seq<Condiment>): Beverage
    decreases |layers|
  {
    if layers == [] then b
    else Decorated(layers[|layers| - 1], WrapAll(b, layers[..|layers| - 1]))
  }

  /** The suffixes of the condiments, concatenated in the given order. */
  function Suffixes(layers: seq<Condiment>): string
    decreases |layers|
  {
    if layers == [] then "" else Suffix(layers[0]) + Suffixes(layers[1..])
  }

  lemma {:induction false} SuffixesAppend(layers: seq<Condiment>, c: Condiment)
    ensures Suffixes(layers + [c]) == Suffixes(layers) + Suffix(c)
    decreases |layers|
  {
    if layers != [] {
      assert (layers + [c])[1..] == layers[1..] + [c];
      SuffixesAppend(layers[1..], c);
    }
  }

  /** Every beverage is its base wrapped in its layers, in order. */
  lemma {:induction false} WrapAllLayers(b: Beverage)
    ensures WrapAll(Base(b), Layers(b)) == b
  {
    if b.Decorated? {
      WrapAllLayers(b.inner);
      assert Layers(b)[..|Layers(b)| - 1] == Layers(b.inner);
    }
  }

  /** Wrapping a plain beverage and reading its layers back gives the condiments applied. */
  lemma {:induction false} LayersWrapAll(b: Beverage, layers: seq<Condiment>)
    requires !b.Decorated?
    ensures Base(WrapAll(b, layers)) == b
    ensures Layers(WrapAll(b, layers)) == layers
    decreases |layers|
  {
    if layers != [] {
      LayersWrapAll(b, layers[..|layers| - 1]);
      assert layers == layers[..|layers| - 1] + [layers[|layers| - 1]];
    }
  }

  /**
   * A nested description is the base name followed by the condiments,
   * innermost first.
   */
  lemma {:induction false} DescriptionIsBaseThenCondiments(b: Beverage, layers: seq<Condiment>)
    ensures Description(WrapAll(b, layers)) == Description(b) + Suffixes(layers)
    decreases |layers|
  {
    if layers != [] {
      var init, last := layers[..|layers| - 1], layers[|layers| - 1];
      DescriptionIsBaseThenCondiments(b, init);
      SuffixesAppend(init, last);
      assert layers == init + [last];
    }
  }

  /** The example beverages of the client code. */
  lemma ClientScenario()
    ensures Description(Espresso) == "Espresso"
    ensures Description(HouseBlend) == "House Blend Coffee"
    ensures Description(Decorated(Mocha, Espresso)) == "Espresso, Mocha"
    ensures Description(Decorated(Milk, Decorated(Mocha, Espresso))) == "Espresso, Mocha, Milk"
  {
  }
}
