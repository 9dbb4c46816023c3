/**
 * A rectangle given by its position and its width and height
 * (src/geometry.rs). The two fixed arrays of length two are pairs here.
 */
module Geometry {

  datatype Rectangle<T> = Rectangle(position: (T, T), wh: (T, T)) {
    function X(): T { position.0 }
    function Y(): T { position.1 }
    function W(): T { wh.0 }
    function H(): T { wh.1 }
  }

  /** `Rectangle::new`: each accessor gives back the argument it was built from. */
  function New<T>(x: T, y: T, w: T, h: T): (r: Rectangle<T>)
    ensures r.X() == x && r.Y() == y
    ensures r.W() == w && r.H() == h
  {
    Rectangle((x, y), (w, h))
  }

  /** The four accessors determine a rectangle: rebuilding from them gives it back. */
  lemma RebuildFromAccessors<T>(r: Rectangle<T>)
    ensures New(r.X(), r.Y(), r.W(), r.H()) == r
  {
  }
}
