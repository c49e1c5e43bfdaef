/** The teaching example `Rectangle`: two dimensions and a colour, an area
    query and an in-place change into a square. Dimensions are `real`;
    Python float rounding is not modelled. */
module Rectangles {

  /** The abstract state of a rectangle object. */
  datatype Shape = Shape(longueur: real, largeur: real, couleur: string)

  /** Area of a shape. */
  function Area(s: Shape): real
  {
    s.longueur * s.largeur
  }

  /** The state after turning `s` into a square of side `cote`. */
  function Squared(s: Shape, cote: real): (r: Shape)
    ensures r.longueur == cote && r.largeur == cote
    ensures r.couleur == s.couleur
  {
    s.(longueur := cote, largeur := cote)
  }

  /** Squaring twice with the same side is squaring once. */
  lemma SquaredIdempotent(s: Shape, cote: real)
    ensures Squared(Squared(s, cote), cote) == Squared(s, cote)
  {
  }

  /** A square of side `cote` has area `cote * cote`, which is never negative,
      whatever the shape was before. */
  lemma SquaredArea(s: Shape, cote: real)
    ensures Area(Squared(s, cote)) == cote * cote
    ensures Area(Squared(s, cote)) >= 0.0
  {
  }

  class Rectangle {
    var longueur: real
    var largeur: real
    var couleur: string

    /** The object's fields as a value. */
    function State(): Shape
      reads this
    {
      Shape(longueur, largeur, couleur)
    }

    /** Stores the given dimensions and colour; the defaults are 0, 0 and
        "blanc". */
    constructor (longueur: real := 0.0, largeur: real := 0.0, couleur: string := "blanc")
      ensures State() == Shape(longueur, largeur, couleur)
    {
      this.longueur := longueur;
      this.largeur := largeur;
      this.couleur := couleur;
    }

    /** The area; as a function it cannot change any field. */
    function CalculeSurface(): (surface: real)
      reads this
      ensures surface == Area(State())
      ensures longueur >= 0.0 && largeur >= 0.0 ==> surface >= 0.0
    {
      longueur * largeur
    }

    /** Makes the rectangle a square of side `cote`, keeping its colour. */
    method ChangeCarre(cote: real)
      modifies this
      ensures State() == Squared(old(State()), cote)
      ensures CalculeSurface() == cote * cote
    {
      longueur := cote;
      largeur := cote;
      SquaredArea(old(State()), cote);
    }
  }

  /** A rectangle built with no arguments: the constructor's defaults. */
  method NewDefault() returns (r: Rectangle)
    ensures fresh(r)
    ensures r.longueur == 0.0 && r.largeur == 0.0 && r.couleur == "blanc"
    ensures r.CalculeSurface() == 0.0
  {
    r := new Rectangle();
  }

  /** Calling `ChangeCarre` twice with the same side leaves the same state
      as calling it once. */
  method ChangeCarreTwice(r: Rectangle, cote: real)
    modifies r
    ensures r.State() == Squared(old(r.State()), cote)
  {
    r.ChangeCarre(cote);
    ghost var once := r.State();
    r.ChangeCarre(cote);
    SquaredIdempotent(old(r.State()), cote);
    assert r.State() == once;
  }
}
