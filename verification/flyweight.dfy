/**
 * Flyweight: a font factory shares one FontFlyweight object per key
 * `family + "_" + style`, preloaded with five common fonts and filled on demand.
 */
module Flyweight {

  /** getFlyweightKey: the family and the style, recoverable on either side of position |family|. */
  function FlyweightKey(family: string, style: string): (key: string)
    ensures |key| == |family| + 1 + |style|
    ensures key[..|family|] == family && key[|family|] == '_' && key[|family| + 1..] == style
  {
    family + "_" + style
  }

  /**
   * The key is unique only when the family has no underscore: then the first
   * underscore of the key is where the family ends, and both parts are recovered.
   */
  lemma FlyweightKeyDeterminesParts(family1: string, style1: string, family2: string, style2: string)
    requires '_' !in family1 && '_' !in family2
    requires FlyweightKey(family1, style1) == FlyweightKey(family2, style2)
    ensures family1 == family2 && style1 == style2
  {
    var key := FlyweightKey(family1, style1);
    assert key[|family1|] == '_';
    assert key[|family2|] == '_';
    assert |family1| == |family2|;
    assert family1 == key[..|family1|] == family2;
    assert style1 == key[|family1| + 1..] == style2;
  }

  /** Without that condition two different fonts share a key. */
  lemma FlyweightKeyCollision()
    ensures FlyweightKey("A_B", "C") == FlyweightKey("A", "B_C")
  {
  }

  /** The shared intrinsic state; its getters return the constructor's arguments. */
  class FontFlyweight {
    const fontFamily: string
    const fontStyle: string

    constructor (fontFamily: string, fontStyle: string)
      ensures this.fontFamily == fontFamily && this.fontStyle == fontStyle
    {
      this.fontFamily := fontFamily;
      this.fontStyle := fontStyle;
    }
  }

  /**
   * The registry is a plain object, so `key in registry` also holds for the
   * members it inherits from Object.prototype. Every key contains '_', and
   * these are the inherited names that do.
   */
  const ObjectPrototypeKeys: set<string> :=
    {"__proto__", "__defineGetter__", "__defineSetter__", "__lookupGetter__", "__lookupSetter__"}

  /** A key whose family is non-empty and has no underscore never names an inherited member. */
  lemma PlainKeyNotInherited(family: string, style: string)
    requires family != [] && '_' !in family
    ensures FlyweightKey(family, style) !in ObjectPrototypeKeys
  {
    var key := FlyweightKey(family, style);
    assert key[0] == family[0] != '_';
    assert forall k :: k in ObjectPrototypeKeys ==> k[0] == '_';
  }

  /** The keys loadFontFlyweights creates. */
  const PreloadedKeys: set<string> :=
    {FlyweightKey("Arial", "Regular"), FlyweightKey("Arial", "Bold"),
     FlyweightKey("Times New Roman", "Regular"), FlyweightKey("Times New Roman", "Italic"),
     FlyweightKey("Verdana", "Regular")}

  lemma PreloadedKeysUnfold()
    ensures PreloadedKeys ==
      {} + {FlyweightKey("Arial", "Regular")} + {FlyweightKey("Arial", "Bold")}
      + {FlyweightKey("Times New Roman", "Regular")} + {FlyweightKey("Times New Roman", "Italic")}
      + {FlyweightKey("Verdana", "Regular")}
  {
  }

  lemma PreloadedKeysAreFive()
    ensures |PreloadedKeys| == 5
  {
    assert "Arial_Regular" != "Arial_Bold";
  }

  /** DocumentFontFactory. */
  class DocumentFontFactory {
    var fontFlyweights: map<string, FontFlyweight>

    /**
     * Every flyweight is stored under the key of its own family and style,
     * and no own entry shadows an inherited member.
     */
    ghost predicate Valid()
      reads this
    {
      forall key :: key in fontFlyweights ==>
        && key == FlyweightKey(fontFlyweights[key].fontFamily, fontFlyweights[key].fontStyle)
        && key !in ObjectPrototypeKeys
    }

    /** The `key in this.fontFlyweights` test: an own entry or an inherited member. */
    predicate Has(key: string)
      reads this
    {
      key in fontFlyweights || key in ObjectPrototypeKeys
    }

    /** No stored family contains an underscore, so no two stored fonts can share a key. */
    ghost predicate PlainFamilies()
      reads this
    {
      forall key :: key in fontFlyweights ==> '_' !in fontFlyweights[key].fontFamily
    }

    /** A new factory holds exactly the five preloaded fonts. */
    constructor ()
      ensures Valid() && PlainFamilies() && fontFlyweights.Keys == PreloadedKeys
    {
      fontFlyweights := map[];
      new;
      LoadFontFlyweights();
    }

    /** Fills the empty registry of a new factory with the five common fonts. */
    method LoadFontFlyweights()
      requires fontFlyweights == map[]
      modifies this
      ensures Valid() && PlainFamilies()
      ensures fontFlyweights.Keys == PreloadedKeys
    {
      assert '_' !in "Arial" && '_' !in "Times New Roman" && '_' !in "Verdana";
      PlainKeyNotInherited("Arial", "Regular");
      PlainKeyNotInherited("Arial", "Bold");
      PlainKeyNotInherited("Times New Roman", "Regular");
      PlainKeyNotInherited("Times New Roman", "Italic");
      PlainKeyNotInherited("Verdana", "Regular");
      PreloadedKeysUnfold();
      CreateFontFlyweight("Arial", "Regular");
      assert fontFlyweights.Keys == {} + {FlyweightKey("Arial", "Regular")};
      CreateFontFlyweight("Arial", "Bold");
      assert fontFlyweights.Keys == {} + {FlyweightKey("Arial", "Regular")} + {FlyweightKey("Arial", "Bold")};
      CreateFontFlyweight("Times New Roman", "Regular");
      CreateFontFlyweight("Times New Roman", "Italic");
      CreateFontFlyweight("Verdana", "Regular");
    }

    /**
     * Adds a flyweight under the key unless the key is already present, as an
     * own entry or an inherited member; never overwrites.
     */
    method CreateFontFlyweight(family: string, style: string)
      requires Valid()
      modifies this
      ensures Valid()
      ensures FlyweightKey(family, style) in ObjectPrototypeKeys ==> fontFlyweights == old(fontFlyweights)
      ensures var key := FlyweightKey(family, style);
        && (key !in ObjectPrototypeKeys ==> fontFlyweights.Keys == old(fontFlyweights.Keys) + {key})
        && (forall k :: k in old(fontFlyweights) ==> fontFlyweights[k] == old(fontFlyweights)[k])
        && (!old(Has(key)) ==>
              fresh(fontFlyweights[key]) &&
              fontFlyweights[key].fontFamily == family && fontFlyweights[key].fontStyle == style)
      ensures old(PlainFamilies()) && '_' !in family ==> PlainFamilies()
    {
      var key := FlyweightKey(family, style);
      if !Has(key) {
        var flyweight := new FontFlyweight(family, style);
        fontFlyweights := fontFlyweights[key := flyweight];
      }
    }

    /**
     * The flyweight under the key, created first when absent. Existing entries
     * are never replaced, so asking again returns the same object. For a key
     * naming an inherited Object.prototype member nothing is created and that
     * member, which is no flyweight, is returned: null stands for it.
     */
    method GetFontFlyweight(family: string, style: string) returns (flyweight: FontFlyweight?)
      requires Valid()
      modifies this
      ensures Valid()
      ensures var key := FlyweightKey(family, style);
        && (key in ObjectPrototypeKeys ==> flyweight == null && fontFlyweights == old(fontFlyweights))
        && (key !in ObjectPrototypeKeys ==>
              && key in fontFlyweights && flyweight == fontFlyweights[key]
              && fontFlyweights.Keys == old(fontFlyweights.Keys) + {key}
              && (key !in old(fontFlyweights) ==> fresh(flyweight)))
        && (forall k :: k in old(fontFlyweights) ==> fontFlyweights[k] == old(fontFlyweights)[k])
      ensures flyweight != null ==>
        FlyweightKey(flyweight.fontFamily, flyweight.fontStyle) == FlyweightKey(family, style)
      ensures var key := FlyweightKey(family, style);
        !old(Has(key)) ==> flyweight != null && flyweight.fontFamily == family && flyweight.fontStyle == style
      ensures fontFlyweights.Keys == KeysAfter(old(fontFlyweights.Keys), [FontRequest(family, style)])
      ensures old(PlainFamilies()) && '_' !in family ==>
        PlainFamilies() && (flyweight != null ==> flyweight.fontFamily == family && flyweight.fontStyle == style)
    {
      var key := FlyweightKey(family, style);
      if !Has(key) {
        CreateFontFlyweight(family, style);
      }
      if key in fontFlyweights {
        flyweight := fontFlyweights[key];
        if old(PlainFamilies()) && '_' !in family {
          FlyweightKeyDeterminesParts(flyweight.fontFamily, flyweight.fontStyle, family, style);
        }
      } else {
        flyweight := null;
      }
    }
  }

  /** One call getFontFlyweight(family, style). */
  datatype FontRequest = FontRequest(family: string, style: string)

  function KeyOf(request: FontRequest): string {
    FlyweightKey(request.family, request.style)
  }

  /** The distinct keys a sequence of requests asks for. */
  function RequestedKeys(requests: seq<FontRequest>): set<string> {
    set request | request in requests :: KeyOf(request)
  }

  /**
   * The registry's keys after a sequence of requests: each adds its key when
   * absent, except a key naming an inherited member.
   */
  function KeysAfter(keys: set<string>, requests: seq<FontRequest>): set<string>
    decreases |requests|
  {
    if requests == [] then keys
    else
      var key := KeyOf(requests[0]);
      KeysAfter(keys + (if key in ObjectPrototypeKeys then {} else {key}), requests[1..])
  }

  /** Requests only ever add keys, and they add exactly the keys requested that are not inherited. */
  lemma {:induction false} KeysAfterAddsRequested(keys: set<string>, requests: seq<FontRequest>)
    ensures KeysAfter(keys, requests) == keys + (RequestedKeys(requests) - ObjectPrototypeKeys)
    decreases |requests|
  {
    if requests != [] {
      var key := KeyOf(requests[0]);
      KeysAfterAddsRequested(keys + (if key in ObjectPrototypeKeys then {} else {key}), requests[1..]);
      assert requests == [requests[0]] + requests[1..];
      assert RequestedKeys(requests) == {key} + RequestedKeys(requests[1..]);
    }
  }

  /** From a new factory, the registry never exceeds five plus the number of distinct keys requested. */
  lemma RegistryBound(requests: seq<FontRequest>)
    ensures PreloadedKeys <= KeysAfter(PreloadedKeys, requests)
    ensures |KeysAfter(PreloadedKeys, requests)| <= 5 + |RequestedKeys(requests)|
  {
    var added := RequestedKeys(requests) - ObjectPrototypeKeys;
    KeysAfterAddsRequested(PreloadedKeys, requests);
    PreloadedKeysAreFive();
    UnionBound(PreloadedKeys, added);
    assert RequestedKeys(requests) == added + (RequestedKeys(requests) * ObjectPrototypeKeys);
  }

  lemma UnionBound<T>(a: set<T>, b: set<T>)
    ensures |a + b| <= |a| + |b|
  {
    assert a + b == a + (b - a);
    assert |b - a| <= |b| by {
      assert b == (b - a) + (b * a);
    }
  }

  /** A second request for the same font returns the same object and adds nothing. */
  method RequestTwice(factory: DocumentFontFactory, family: string, style: string)
      returns (first: FontFlyweight?, second: FontFlyweight?)
    requires factory.Valid()
    modifies factory
    ensures first == second
    ensures var key := FlyweightKey(family, style);
      factory.fontFlyweights.Keys == old(factory.fontFlyweights.Keys) + (if key in ObjectPrototypeKeys then {} else {key})
  {
    first := factory.GetFontFlyweight(family, style);
    second := factory.GetFontFlyweight(family, style);
  }

  /** The example: three documents take preloaded fonts, and the registry stays at five. */
  method FontScenario() returns (font1: FontFlyweight?, font2: FontFlyweight?, font3: FontFlyweight?,
                                 registrySize: nat)
    ensures font1 != null && font2 != null && font3 != null
    ensures font1.fontFamily == "Arial" && font1.fontStyle == "Regular"
    ensures font2.fontFamily == "Times New Roman" && font2.fontStyle == "Italic"
    ensures font3.fontFamily == "Arial" && font3.fontStyle == "Bold"
    ensures registrySize == 5
  {
    PreloadedKeysAreFive();
    assert '_' !in "Arial" && '_' !in "Times New Roman";
    var factory := new DocumentFontFactory();
    font1 := factory.GetFontFlyweight("Arial", "Regular");
    assert factory.fontFlyweights.Keys == PreloadedKeys;
    font2 := factory.GetFontFlyweight("Times New Roman", "Italic");
    assert factory.fontFlyweights.Keys == PreloadedKeys;
    font3 := factory.GetFontFlyweight("Arial", "Bold");
    assert factory.fontFlyweights.Keys == PreloadedKeys;
    registrySize := |factory.fontFlyweights.Keys|;
  }

  /**
   * A request whose key names an inherited member finds that member instead of
   * creating a flyweight, and the registry keeps its five fonts.
   */
  method InheritedKeyScenario() returns (found: FontFlyweight?, registrySize: nat)
    ensures found == null
    ensures registrySize == 5
  {
    PreloadedKeysAreFive();
    var factory := new DocumentFontFactory();
    assert FlyweightKey("", "_proto__") == "__proto__";
    found := factory.GetFontFlyweight("", "_proto__");
    registrySize := |factory.fontFlyweights.Keys|;
  }

  /**
   * A new key gets a flyweight with exactly the requested family and style, even
   * an underscored one; a later request that collides with its key gets that
   * same flyweight back, not its own family and style.
   */
  method CollidingKeyScenario() returns (first: FontFlyweight?, second: FontFlyweight?)
    ensures first != null && first.fontFamily == "A_B" && first.fontStyle == "C"
    ensures second == first
  {
    var factory := new DocumentFontFactory();
    assert FlyweightKey("A_B", "C") == "A_B_C";
    assert "A_B_C" !in PreloadedKeys && "A_B_C" !in ObjectPrototypeKeys;
    first := factory.GetFontFlyweight("A_B", "C");
    FlyweightKeyCollision();
    second := factory.GetFontFlyweight("A", "B_C");
  }
}
