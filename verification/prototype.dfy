/**
 * Prototype: a cache of template shapes; clients receive clones of the cached
 * templates instead of constructing shapes themselves.
 */
module Prototype {
  import opened Text

  /** The fields of a shape. */
  datatype Figure = Circle(radius: int) | Rectangle(width: int, height: int)

  /** A shape object; clone makes a new object with the same fields. */
  class Shape {
    const figure: Figure

    constructor (figure: Figure)
      ensures this.figure == figure
    {
      this.figure := figure;
    }

    /** Circle.clone / Rectangle.clone: a new object keeping the radius, or width and height. */
    method Clone() returns (copy: Shape)
      ensures fresh(copy) && copy.figure == figure
    {
      copy := new Shape(figure);
    }
  }

  const CirclePrefix := "Drawing Circle with radius: "
  const RectanglePrefix := "Drawing Rectangle with width: "
  const HeightInfix := " and height: "

  /** The line draw() writes for a shape; its ninth character names the kind of shape. */
  function Draw(f: Figure): (line: string)
    ensures |line| > 8 && line[8] == (if f.Circle? then 'C' else 'R')
  {
    match f
    case Circle(r) => CirclePrefix + IntToString(r)
    case Rectangle(w, h) => RectanglePrefix + IntToString(w) + HeightInfix + IntToString(h)
  }

  /** The drawn line identifies the shape: different shapes never draw the same line. */
  lemma DrawInjective(f1: Figure, f2: Figure)
    requires Draw(f1) == Draw(f2)
    ensures f1 == f2
  {
    if f1.Circle? {
      CircleDrawInjective(f1.radius, f2.radius);
    } else {
      RectangleDrawInjective(f1.width, f1.height, f2.width, f2.height);
    }
  }

  lemma CircleDrawInjective(r1: int, r2: int)
    requires Draw(Circle(r1)) == Draw(Circle(r2))
    ensures r1 == r2
  {
    assert Draw(Circle(r1))[|CirclePrefix|..] == IntToString(r1);
    assert Draw(Circle(r2))[|CirclePrefix|..] == IntToString(r2);
    IntToStringInjective(r1, r2);
  }

  lemma RectangleDrawInjective(w1: int, h1: int, w2: int, h2: int)
    requires Draw(Rectangle(w1, h1)) == Draw(Rectangle(w2, h2))
    ensures w1 == w2 && h1 == h2
  {
    var line := Draw(Rectangle(w1, h1));
    var s1, s2 := IntToString(w1), IntToString(w2);
    var p := |RectanglePrefix|;
    assert line[p + |s1|] == ' ';
    assert line[p + |s2|] == ' ';
    assert forall k :: 0 <= k < |s1| ==> line[p + k] == s1[k];
    assert forall k :: 0 <= k < |s2| ==> line[p + k] == s2[k];
    assert |s1| == |s2|;
    assert s1 == line[p..p + |s1|] == s2;
    IntToStringInjective(w1, w2);
    var q := p + |s1| + |HeightInfix|;
    assert line[q..] == IntToString(h1);
    assert Draw(Rectangle(w2, h2))[q..] == IntToString(h2);
    IntToStringInjective(h1, h2);
  }

  /** The static shapes dictionary of the Prototype class. */
  class ShapeCache {
    var shapes: map<string, Shape>

    constructor ()
      ensures shapes == map[]
    {
      shapes := map[];
    }

    /** Stores new templates Circle(10) and Rectangle(10, 5), replacing earlier ones. */
    method LoadCache()
      modifies this
      ensures shapes.Keys == old(shapes.Keys) + {"Circle", "Rectangle"}
      ensures fresh(shapes["Circle"]) && shapes["Circle"].figure == Circle(10)
      ensures fresh(shapes["Rectangle"]) && shapes["Rectangle"].figure == Rectangle(10, 5)
      ensures forall key :: key in old(shapes) && key != "Circle" && key != "Rectangle" ==>
        shapes[key] == old(shapes)[key]
    {
      var circle := new Shape(Circle(10));
      var rectangle := new Shape(Rectangle(10, 5));
      shapes := shapes["Circle" := circle]["Rectangle" := rectangle];
    }

    /**
     * A clone of the template under the key. The key must be loaded: a missing
     * key fails in the original. The cache itself is not touched.
     */
    method GetShape(shapeType: string) returns (shape: Shape)
      requires shapeType in shapes
      ensures fresh(shape) && shape.figure == shapes[shapeType].figure
    {
      shape := shapes[shapeType].Clone();
    }
  }

  /** App.main: load the cache, then draw a cloned circle and a cloned rectangle. */
  method AppScenario() returns (lines: seq<string>)
    ensures lines == ["Drawing Circle with radius: 10", "Drawing Rectangle with width: 10 and height: 5"]
  {
    var cache := new ShapeCache();
    cache.LoadCache();
    var circle := cache.GetShape("Circle");
    var rectangle := cache.GetShape("Rectangle");
    assert NatToString(1) == "1";
    assert IntToString(10) == "10";
    assert IntToString(5) == "5";
    assert circle.figure == Circle(10);
    assert rectangle.figure == Rectangle(10, 5);
    lines := [Draw(circle.figure), Draw(rectangle.figure)];
    assert lines[0] == "Drawing Circle with radius: 10";
    assert lines[1] == "Drawing Rectangle with width: 10 and height: 5";
  }
}
