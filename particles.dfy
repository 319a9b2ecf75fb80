/** The particle sketch of app.js: the same 512 x 512 grid as the template,
    four random per-point attributes, and a render step that picks which of
    two textures the shader blends from and to as the wheel changes `move`.
    `Math.random()` is a parameter: `draw(k)` is the value of the k-th call. */
module Particles {
  import opened Grid
  import opened JsNumber

  datatype Option<T> = None | Some(value: T)

  /** A loaded texture, identified by the image it was loaded from. */
  datatype Texture = Texture(file: string)

  const T1_FILE := "./img/t1.png"
  const T2_FILE := "./img/t2.png"
  const MASK_FILE := "./img/mask.jpg"

  /** `rand(a, b)` given the value `r` that its `Math.random()` call returned:
      for r in [0, 1) and a < b the result lies in [a, b). */
  function Rand(a: real, b: real, r: real): (x: real)
    ensures 0.0 <= r < 1.0 && a < b ==> a <= x < b
  {
    ScaledFraction(b - a, r);
    a + Scale(b - a, r)
  }

  /** The product `(b - a) * Math.random()` in `rand`, named as a proof aid:
      the solver matches `ScaledFraction`'s bound against this term, not
      against the product written out. */
  function Scale(width: real, r: real): real {
    width * r
  }

  /** A positive width scaled by a fraction in [0, 1) stays in [0, width). */
  lemma ScaledFraction(width: real, r: real)
    ensures 0.0 < width && 0.0 <= r < 1.0 ==> 0.0 <= Scale(width, r) < width
  {
  }

  /** `Math.random() > 0.5 ? 1 : -1`: always one of the two unit values. */
  function Direction(r: real): (d: real)
    ensures d == 1.0 || d == -1.0
    ensures d == 1.0 <==> r > 0.5
  {
    if r > 0.5 then 1.0 else -1.0
  }

  /** The first n points of the four attribute buffers hold what the loop
      writes from the random draws 4p .. 4p+3, in the order the source calls
      `Math.random()`: offset, speed, direction, press. */
  ghost predicate AttributesFilled(offset: array<real>, speeds: array<real>, direction: array<real>,
                                   press: array<real>, draw: nat -> real, n: nat)
    reads offset, speeds, direction, press
  {
    n <= offset.Length && n <= speeds.Length && n <= direction.Length && n <= press.Length
    && forall p :: 0 <= p < n ==>
         offset[p] == Rand(-1000.0, 1000.0, draw(4 * p))
         && speeds[p] == Rand(0.4, 1.0, draw(4 * p + 1))
         && direction[p] == Direction(draw(4 * p + 2))
         && press[p] == Rand(0.4, 1.0, draw(4 * p + 3))
  }

  /** With every draw in [0, 1): offsets lie in [-1000, 1000), speeds and
      press values in [0.4, 1), directions are 1 or -1. */
  lemma AttributeBounds(offset: array<real>, speeds: array<real>, direction: array<real>,
                          press: array<real>, draw: nat -> real, p: nat)
    requires AttributesFilled(offset, speeds, direction, press, draw, FILLED)
    requires forall k :: 0.0 <= draw(k) < 1.0
    requires p < FILLED
    ensures -1000.0 <= offset[p] < 1000.0
    ensures 0.4 <= speeds[p] < 1.0 && 0.4 <= press[p] < 1.0
    ensures direction[p] == 1.0 || direction[p] == -1.0
  {
  }

  /** The four attribute writes of one loop iteration. */
  method WriteAttributes(offset: array<real>, speeds: array<real>, direction: array<real>,
                         press: array<real>, draw: nat -> real, index: nat)
    requires offset != speeds && offset != direction && offset != press
    requires speeds != direction && speeds != press && direction != press
    requires index < FILLED
    requires offset.Length == NUMBER && speeds.Length == NUMBER
    requires direction.Length == NUMBER && press.Length == NUMBER
    requires AttributesFilled(offset, speeds, direction, press, draw, index)
    requires UntouchedFrom(offset, index, 0.0) && UntouchedFrom(speeds, index, 0.0)
    requires UntouchedFrom(direction, index, 0.0) && UntouchedFrom(press, index, 0.0)
    modifies offset, speeds, direction, press
    ensures AttributesFilled(offset, speeds, direction, press, draw, index + 1)
    ensures UntouchedFrom(offset, index + 1, 0.0) && UntouchedFrom(speeds, index + 1, 0.0)
    ensures UntouchedFrom(direction, index + 1, 0.0) && UntouchedFrom(press, index + 1, 0.0)
  {
    SetX(offset, index, Rand(-1000.0, 1000.0, draw(4 * index)));
    SetX(speeds, index, Rand(0.4, 1.0, draw(4 * index + 1)));
    SetX(direction, index, Direction(draw(4 * index + 2)));
    SetX(press, index, Rand(0.4, 1.0, draw(4 * index + 3)));
  }

  /** All six buffers: the first n points filled, everything after them
      still zero. */
  ghost predicate BuffersFilled(positions: array<int>, coordinates: array<int>,
                                offset: array<real>, speeds: array<real>, direction: array<real>,
                                press: array<real>, draw: nat -> real, n: nat)
    reads positions, coordinates, offset, speeds, direction, press
  {
    PositionsFilled(positions, n) && CoordinatesFilled(coordinates, n)
    && AttributesFilled(offset, speeds, direction, press, draw, n)
    && UntouchedFrom(positions, 3 * n, 0) && UntouchedFrom(coordinates, 3 * n, 0)
    && UntouchedFrom(offset, n, 0.0) && UntouchedFrom(speeds, n, 0.0)
    && UntouchedFrom(direction, n, 0.0) && UntouchedFrom(press, n, 0.0)
  }

  /** The six writes of one iteration, for point `index = i*512 + j`. */
  method WriteParticle(positions: array<int>, coordinates: array<int>,
                       offset: array<real>, speeds: array<real>, direction: array<real>,
                       press: array<real>, draw: nat -> real, index: nat, posX: int, i: nat, j: nat)
    requires positions != coordinates
    requires offset != speeds && offset != direction && offset != press
    requires speeds != direction && speeds != press && direction != press
    requires i < SIDE && j < SIDE && index == i * SIDE + j && posX == i - HALF
    requires positions.Length == 3 * NUMBER && coordinates.Length == 3 * NUMBER
    requires offset.Length == NUMBER && speeds.Length == NUMBER
    requires direction.Length == NUMBER && press.Length == NUMBER
    requires BuffersFilled(positions, coordinates, offset, speeds, direction, press, draw, index)
    modifies positions, coordinates, offset, speeds, direction, press
    ensures BuffersFilled(positions, coordinates, offset, speeds, direction, press, draw, index + 1)
  {
    WritePoint(positions, coordinates, index, posX, i, j);
    WriteAttributes(offset, speeds, direction, press, draw, index);
  }

  /** The buffer fill of `Sketch.addMesh`: six zero-filled buffers, then the
      grid loops. */
  method AddMesh(draw: nat -> real)
    returns (positions: array<int>, coordinates: array<int>,
             offset: array<real>, speeds: array<real>, direction: array<real>, press: array<real>,
             ghost writes: seq<nat>)
    ensures fresh(positions) && fresh(coordinates) && positions != coordinates
    ensures fresh(offset) && fresh(speeds) && fresh(direction) && fresh(press)
    ensures positions.Length == 3 * NUMBER && coordinates.Length == 3 * NUMBER
    ensures offset.Length == NUMBER && speeds.Length == NUMBER
    ensures direction.Length == NUMBER && press.Length == NUMBER
    ensures BuffersFilled(positions, coordinates, offset, speeds, direction, press, draw, FILLED)
    ensures WrittenInOrder(writes, FILLED)
  {
    positions := new int[3 * NUMBER](_ => 0);
    coordinates := new int[3 * NUMBER](_ => 0);
    speeds := new real[NUMBER](_ => 0.0);
    offset := new real[NUMBER](_ => 0.0);
    direction := new real[NUMBER](_ => 0.0);
    press := new real[NUMBER](_ => 0.0);
    writes := FillGrid(positions, coordinates, offset, speeds, direction, press, draw);
  }

  /** The nested i/j loops of `addMesh` with their running index, on the six
      freshly zeroed buffers. */
  method FillGrid(positions: array<int>, coordinates: array<int>,
                  offset: array<real>, speeds: array<real>, direction: array<real>,
                  press: array<real>, draw: nat -> real)
    returns (ghost writes: seq<nat>)
    requires positions != coordinates
    requires offset != speeds && offset != direction && offset != press
    requires speeds != direction && speeds != press && direction != press
    requires positions.Length == 3 * NUMBER && coordinates.Length == 3 * NUMBER
    requires offset.Length == NUMBER && speeds.Length == NUMBER
    requires direction.Length == NUMBER && press.Length == NUMBER
    requires BuffersFilled(positions, coordinates, offset, speeds, direction, press, draw, 0)
    modifies positions, coordinates, offset, speeds, direction, press
    ensures BuffersFilled(positions, coordinates, offset, speeds, direction, press, draw, FILLED)
    ensures WrittenInOrder(writes, FILLED)
  {
    writes := [];
    var index := 0;
    for i := 0 to SIDE
      invariant index == i * SIDE
      invariant BuffersFilled(positions, coordinates, offset, speeds, direction, press, draw, index)
      invariant WrittenInOrder(writes, index)
    {
      var posX := i - HALF;
      for j := 0 to SIDE
        invariant index == i * SIDE + j
        invariant BuffersFilled(positions, coordinates, offset, speeds, direction, press, draw, index)
        invariant WrittenInOrder(writes, index)
      {
        WriteParticle(positions, coordinates, offset, speeds, direction, press, draw, index, posX, i, j);
        writes := writes + [index];
        index := index + 1;
      }
    }
  }

  /** `Math.floor(this.move + 50) % 2`: the texture the shader blends toward. */
  function NextIndex(move: real): (k: int)
    ensures -1 <= k <= 1
  {
    TruncMod((move + 50.0).Floor, 2)
  }

  /** `(Math.floor(this.move) + 1 + 50) % 2`: the texture it blends from. */
  function PrevIndex(move: real): (k: int)
    ensures -1 <= k <= 1
  {
    TruncMod(move.Floor + 1 + 50, 2)
  }

  /** Both indices address one of the two textures, and different ones,
      exactly when `Math.floor(move)` is at least -50. */
  lemma IndicesInRange(move: real)
    ensures (0 <= NextIndex(move) <= 1 && 0 <= PrevIndex(move) <= 1 && NextIndex(move) != PrevIndex(move))
            <==> move.Floor >= -50
  {
  }

  /** Below that, one of the two indices is -1, which reads `undefined` out
      of the two-element texture array, and the other is 0. */
  lemma IndicesBelowRange(move: real)
    requires move.Floor < -50
    ensures (NextIndex(move) == -1 && PrevIndex(move) == 0) || (NextIndex(move) == 0 && PrevIndex(move) == -1)
  {
  }

  /** When `move` crosses into the next unit, the texture that was being
      blended toward becomes the one blended from, so the cross-fade
      continues without a jump. */
  lemma CrossFadeContinues(move: real, move': real)
    requires move.Floor >= -50 && move'.Floor == move.Floor + 1
    ensures PrevIndex(move') == NextIndex(move)
  {
  }

  /** The model's `move + 50` is exact. In double precision the sum can round
      up to the next integer when `move` lies just below one. `sum` is an
      assumed input standing for that rounded value; the model does not
      compute the rounding. Given it, `next` repeats `prev`, so both uniforms
      get the same texture, and it differs from the exact `next`. */
  lemma RoundedSumRepeatsTexture(move: real, sum: real)
    requires move.Floor >= -50 && sum == (move.Floor + 51) as real
    ensures TruncMod(sum.Floor, 2) == PrevIndex(move)
    ensures TruncMod(sum.Floor, 2) != NextIndex(move)
  {
  }

  /** `textures[k]`: out of range, a JavaScript array yields `undefined`. */
  function TextureAt(textures: seq<Texture>, k: int): (t: Option<Texture>)
    ensures t.Some? <==> 0 <= k < |textures|
    ensures t.Some? ==> t.value == textures[k]
  {
    if 0 <= k < |textures| then Some(textures[k]) else None
  }

  /** The two texture uniforms `render` assigns are both real textures, and
      distinct, exactly when `Math.floor(move) >= -50`. */
  lemma RenderedTextures(textures: seq<Texture>, move: real)
    requires |textures| == 2 && textures[0] != textures[1]
    ensures (TextureAt(textures, PrevIndex(move)).Some? && TextureAt(textures, NextIndex(move)).Some?
             && TextureAt(textures, PrevIndex(move)) != TextureAt(textures, NextIndex(move)))
            <==> move.Floor >= -50
  {
  }

  class Vector2 {
    var x: real
    var y: real

    constructor ()
      ensures x == 0.0 && y == 0.0
    {
      x, y := 0.0, 0.0;
    }
  }

  /** The shader material's uniforms: field f stands for
      `material.uniforms.f.value`; `None` and `null` stand for the
      source's `null` initial values and for `undefined`. */
  class Uniforms {
    var progress: real
    var t1: Option<Texture>
    var t2: Option<Texture>
    var mask: Texture
    var mousePressed: real
    var mouse: Vector2?
    var transition: Option<real>
    var move: real
    var time: int

    /** The uniform values `addMesh` creates the material with. */
    constructor (t1: Texture, t2: Texture, mask: Texture)
      ensures progress == 0.0 && this.t1 == Some(t1) && this.t2 == Some(t2) && this.mask == mask
      ensures mousePressed == 0.0 && mouse == null && transition == None
      ensures move == 0.0 && time == 0
    {
      progress := 0.0;
      this.t1, this.t2, this.mask := Some(t1), Some(t2), mask;
      mousePressed := 0.0;
      mouse := null;
      transition := None;
      move, time := 0.0, 0;
    }
  }

  class Sketch {
    const textures: seq<Texture>
    const mask: Texture
    /** Frames rendered so far. */
    var time: int
    /** Scroll position, changed only by the wheel handler. */
    var move: real
    /** `settings.progress`, the GUI slider's value. */
    var progress: real
    /** The mouse's hit point on the picking plane. */
    const point: Vector2
    const uniforms: Uniforms
    const positions: array<int>
    const coordinates: array<int>
    const offset: array<real>
    const speeds: array<real>
    const direction: array<real>
    const press: array<real>

    /** `new Sketch()`: loads the textures, sets `time` and `move` to 0 and
        the slider to 0, fills the buffers and renders the first frame. */
    constructor (draw: nat -> real)
      ensures textures == [Texture(T1_FILE), Texture(T2_FILE)] && mask == Texture(MASK_FILE)
      ensures time == 1 && move == 0.0 && progress == 0.0
      ensures fresh(uniforms) && fresh(point)
      ensures fresh(positions) && fresh(coordinates) && fresh(offset)
      ensures fresh(speeds) && fresh(direction) && fresh(press)
      ensures positions.Length == 3 * NUMBER && coordinates.Length == 3 * NUMBER
      ensures offset.Length == NUMBER && speeds.Length == NUMBER
      ensures direction.Length == NUMBER && press.Length == NUMBER
      ensures uniforms.t1 == Some(textures[1]) && uniforms.t2 == Some(textures[0])
      ensures uniforms.time == 1 && uniforms.move == 0.0 && uniforms.transition == Some(0.0)
      ensures uniforms.mouse == point && uniforms.mask == mask
      ensures uniforms.progress == 0.0 && uniforms.mousePressed == 0.0
      ensures BuffersFilled(positions, coordinates, offset, speeds, direction, press, draw, FILLED)
    {
      var ts := [Texture(T1_FILE), Texture(T2_FILE)];
      var m := Texture(MASK_FILE);
      textures, mask := ts, m;
      time, move := 0, 0.0;
      progress := 0.0;
      point := new Vector2();
      uniforms := new Uniforms(ts[0], ts[1], m);
      var p, c, o, s, d, pr, _ := AddMesh(draw);
      positions, coordinates, offset, speeds, direction, press := p, c, o, s, d, pr;
      new;
      assert PrevIndex(0.0) == 1 && NextIndex(0.0) == 0;
      Render();
    }

    /** The `wheel` listener: `move` grows by `deltaY / 4000`, nothing else
        changes. */
    method Wheel(deltaY: real)
      modifies this`move
      ensures move == old(move) + deltaY / 4000.0
    {
      move := move + deltaY / 4000.0;
    }

    /** One animation frame: count it, choose the two textures from `move`
        and hand the current values to the shader. */
    method Render()
      modifies this`time, uniforms
      ensures time == old(time) + 1
      ensures uniforms.t1 == TextureAt(textures, PrevIndex(move))
      ensures uniforms.t2 == TextureAt(textures, NextIndex(move))
      ensures uniforms.transition == Some(progress)
      ensures uniforms.time == time && uniforms.move == move && uniforms.mouse == point
      ensures uniforms.progress == old(uniforms.progress) && uniforms.mask == old(uniforms.mask)
      ensures uniforms.mousePressed == old(uniforms.mousePressed)
    {
      time := time + 1;
      var next := NextIndex(move);
      var prev := PrevIndex(move);
      uniforms.t1 := TextureAt(textures, prev);
      uniforms.t2 := TextureAt(textures, next);
      uniforms.transition := Some(progress);
      uniforms.time := time;
      uniforms.move := move;
      uniforms.mouse := point;
    }
  }
}
