/** The vertex and index skeleton of a particle's fan mesh (the first half of
    Particle._buildGeometry). A rim vertex is recorded by the fraction of a
    full turn at which it sits; the superellipse coordinates and the texture
    coordinates are not computed here. */
module Geometry {

  datatype Vertex = Center | Rim(turn: real)

  /** The fan for `segments` segments: one centre vertex, then segments + 1
      rim vertices at turns i / segments for i = 0 .. segments (the last one
      closes the loop where the first one is), and one triangle
      (centre, i, i + 1) per segment. */
  method BuildFan(segments: nat) returns (positions: seq<Vertex>, indices: seq<nat>)
    requires segments >= 1
    ensures |positions| == segments + 2
    ensures positions[0] == Center
    ensures forall k :: 1 <= k < |positions| ==> positions[k] == Rim((k - 1) as real / segments as real)
    ensures positions[1] == Rim(0.0) && positions[segments + 1] == Rim(1.0)
    ensures |indices| == 3 * segments
    ensures forall t :: 0 <= t < segments ==>
              indices[3 * t] == 0 && indices[3 * t + 1] == t + 1 && indices[3 * t + 2] == t + 2
    ensures forall k :: 0 <= k < |indices| ==> indices[k] < |positions|
  {
    positions := [Center];
    var i := 0;
    while i <= segments
      invariant 0 <= i <= segments + 1
      invariant |positions| == i + 1
      invariant positions[0] == Center
      invariant forall k :: 1 <= k < |positions| ==> positions[k] == Rim((k - 1) as real / segments as real)
    {
      positions := positions + [Rim(i as real / segments as real)];
      i := i + 1;
    }

    indices := [];
    i := 1;
    while i <= segments
      invariant 1 <= i <= segments + 1
      invariant |indices| == 3 * (i - 1)
      invariant forall t :: 0 <= t < i - 1 ==>
                  indices[3 * t] == 0 && indices[3 * t + 1] == t + 1 && indices[3 * t + 2] == t + 2
    {
      indices := indices + [0, i, i + 1];
      i := i + 1;
    }

    forall k | 0 <= k < |indices|
      ensures indices[k] < |positions|
    {
      var t := k / 3;
      assert k == 3 * t || k == 3 * t + 1 || k == 3 * t + 2;
    }
  }
}
