/** The point grid both sketches write into their geometry buffers, and the
    two buffer writes they use. A buffer is a zero-filled `Float32Array`; a
    point with index p and item size 3 occupies slots 3p, 3p+1, 3p+2. */
module Grid {

  /** Points per grid side. */
  const SIDE: nat := 512
  /** Offset that centres a grid row or column on 0. */
  const HALF: int := 256
  /** Points the buffers are sized for (`512 * 521`, more than the grid needs). */
  const NUMBER: nat := 512 * 521
  /** Points the loops fill. */
  const FILLED: nat := SIDE * SIDE

  function Row(p: nat): nat { p / SIDE }
  function Col(p: nat): nat { p % SIDE }

  /** Point i*512 + j lies in row i, column j. */
  lemma RowCol(i: nat, j: nat)
    requires j < SIDE
    ensures Row(i * SIDE + j) == i && Col(i * SIDE + j) == j
  {
  }

  /** Position written for point p: x = 2*(row - 256), y = 2*(column - 256). */
  function PositionX(p: nat): int { 2 * (Row(p) - HALF) }
  function PositionY(p: nat): int { 2 * (Col(p) - HALF) }

  /** Every filled point lies in the square [-512, 510] x [-512, 510], on even
      coordinates. */
  lemma PositionBounds(p: nat)
    requires p < FILLED
    ensures -512 <= PositionX(p) <= 510 && PositionX(p) % 2 == 0
    ensures -512 <= PositionY(p) <= 510 && PositionY(p) % 2 == 0
  {
  }

  /** The first n points of `positions` hold (2*(i-256), 2*(j-256), 0). */
  ghost predicate PositionsFilled(positions: array<int>, n: nat)
    reads positions
  {
    3 * n <= positions.Length
    && forall p :: 0 <= p < n ==>
         positions[3 * p] == PositionX(p) && positions[3 * p + 1] == PositionY(p)
         && positions[3 * p + 2] == 0
  }

  /** The first n points of `coordinates` hold (i, j, 0). */
  ghost predicate CoordinatesFilled(coordinates: array<int>, n: nat)
    reads coordinates
  {
    3 * n <= coordinates.Length
    && forall p :: 0 <= p < n ==>
         coordinates[3 * p] == Row(p) && coordinates[3 * p + 1] == Col(p)
         && coordinates[3 * p + 2] == 0
  }

  /** Slots from `from` on still hold the buffer's initial value. */
  ghost predicate UntouchedFrom<T>(buf: array<T>, from: nat, initial: T)
    reads buf
  {
    forall q :: from <= q < buf.Length ==> buf[q] == initial
  }

  /** The sequence of point indices written is 0, 1, ..., n-1: each point
      below n is written once, in order. */
  ghost predicate WrittenInOrder(writes: seq<nat>, n: nat) {
    |writes| == n && forall k :: 0 <= k < n ==> writes[k] == k
  }

  /** The filled buffers, read by row and column. */
  lemma FilledAt(positions: array<int>, coordinates: array<int>, i: nat, j: nat)
    requires PositionsFilled(positions, FILLED) && CoordinatesFilled(coordinates, FILLED)
    requires i < SIDE && j < SIDE
    ensures coordinates[3 * (i * SIDE + j)] == i && coordinates[3 * (i * SIDE + j) + 1] == j
    ensures coordinates[3 * (i * SIDE + j) + 2] == 0
    ensures positions[3 * (i * SIDE + j)] == 2 * (i - HALF)
    ensures positions[3 * (i * SIDE + j) + 1] == 2 * (j - HALF)
    ensures positions[3 * (i * SIDE + j) + 2] == 0
  {
  }

  /** `BufferAttribute.setXYZ` on an item size of 3: writes the three slots
      of point `index`; a typed array ignores writes past its end. */
  method SetXYZ<T>(buf: array<T>, index: nat, x: T, y: T, z: T)
    modifies buf
    ensures forall q :: 0 <= q < buf.Length ==>
      buf[q] == (if q == 3 * index then x
                 else if q == 3 * index + 1 then y
                 else if q == 3 * index + 2 then z
                 else old(buf[q]))
  {
    if 3 * index < buf.Length { buf[3 * index] := x; }
    if 3 * index + 1 < buf.Length { buf[3 * index + 1] := y; }
    if 3 * index + 2 < buf.Length { buf[3 * index + 2] := z; }
  }

  /** `BufferAttribute.setX` on an item size of 1. */
  method SetX<T>(buf: array<T>, index: nat, x: T)
    modifies buf
    ensures forall q :: 0 <= q < buf.Length ==>
      buf[q] == (if q == index then x else old(buf[q]))
  {
    if index < buf.Length { buf[index] := x; }
  }

  /** The two writes of one iteration of the grid loops, for point
      `index = i*512 + j` with `posX = i - 256`: afterwards one more point of
      each buffer is filled and nothing past it has been touched. */
  method WritePoint(positions: array<int>, coordinates: array<int>, index: nat, posX: int, i: nat, j: nat)
    requires positions != coordinates
    requires i < SIDE && j < SIDE && index == i * SIDE + j && posX == i - HALF
    requires positions.Length == 3 * NUMBER && coordinates.Length == 3 * NUMBER
    requires PositionsFilled(positions, index) && CoordinatesFilled(coordinates, index)
    requires UntouchedFrom(positions, 3 * index, 0) && UntouchedFrom(coordinates, 3 * index, 0)
    modifies positions, coordinates
    ensures PositionsFilled(positions, index + 1) && CoordinatesFilled(coordinates, index + 1)
    ensures UntouchedFrom(positions, 3 * (index + 1), 0) && UntouchedFrom(coordinates, 3 * (index + 1), 0)
  {
    RowCol(i, j);
    assert 3 * index + 2 < positions.Length;
    SetXYZ(positions, index, posX * 2, (j - HALF) * 2, 0);
    SetXYZ(coordinates, index, i, j, 0);
  }
}
