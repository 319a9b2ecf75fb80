/** The point-cloud template of templet.js: a 512 x 512 grid written into two
    geometry buffers, and a frame counter. */
module Templet {
  import opened Grid

  /** The buffer fill of `Sketch.addMesh`: two zero-filled buffers of
      `3 * number` floats, then the nested i/j loops with a running index.
      `writes` records the point index of each iteration's writes. */
  method AddMesh() returns (positions: array<int>, coordinates: array<int>, ghost writes: seq<nat>)
    ensures fresh(positions) && fresh(coordinates) && positions != coordinates
    ensures positions.Length == 3 * NUMBER && coordinates.Length == 3 * NUMBER
    ensures PositionsFilled(positions, FILLED) && CoordinatesFilled(coordinates, FILLED)
    ensures UntouchedFrom(positions, 3 * FILLED, 0) && UntouchedFrom(coordinates, 3 * FILLED, 0)
    ensures WrittenInOrder(writes, FILLED)
  {
    positions := new int[3 * NUMBER](_ => 0);
    coordinates := new int[3 * NUMBER](_ => 0);
    writes := [];
    var index := 0;
    for i := 0 to SIDE
      invariant index == i * SIDE
      invariant PositionsFilled(positions, index) && CoordinatesFilled(coordinates, index)
      invariant UntouchedFrom(positions, 3 * index, 0) && UntouchedFrom(coordinates, 3 * index, 0)
      invariant WrittenInOrder(writes, index)
    {
      var posX := i - HALF;
      for j := 0 to SIDE
        invariant index == i * SIDE + j
        invariant PositionsFilled(positions, index) && CoordinatesFilled(coordinates, index)
        invariant UntouchedFrom(positions, 3 * index, 0) && UntouchedFrom(coordinates, 3 * index, 0)
        invariant WrittenInOrder(writes, index)
      {
        WritePoint(positions, coordinates, index, posX, i, j);
        writes := writes + [index];
        index := index + 1;
      }
    }
  }

  class Sketch {
    /** Frames rendered so far. */
    var time: int
    const positions: array<int>
    const coordinates: array<int>

    /** `new Sketch()`: sets `time` to 0, fills the buffers, then renders the
        first frame. */
    constructor ()
      ensures time == 1
      ensures fresh(positions) && fresh(coordinates)
      ensures positions.Length == 3 * NUMBER && coordinates.Length == 3 * NUMBER
      ensures PositionsFilled(positions, FILLED) && CoordinatesFilled(coordinates, FILLED)
      ensures UntouchedFrom(positions, 3 * FILLED, 0) && UntouchedFrom(coordinates, 3 * FILLED, 0)
    {
      time := 0;
      var p, c, _ := AddMesh();
      positions, coordinates := p, c;
      new;
      Render();
    }

    /** One animation frame: the counter goes up by exactly one; the buffers
        are left alone. */
    method Render()
      modifies this`time
      ensures time == old(time) + 1
    {
      time := time + 1;
    }
  }
}
