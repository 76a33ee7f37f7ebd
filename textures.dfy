// The museum's procedural painting textures that have integer or
// escape-time pixels, and the row-by-row RGBA8 buffer the generators fill.

module Textures {
  import opened Sequences
  import opened MuseumConfig

  newtype byte = b: int | 0 <= b < 256
  newtype u32 = n: int | 0 <= n < 0x1_0000_0000

  const U32Max: u32 := 0xFFFF_FFFF

  /// An RGBA8 pixel.
  datatype Rgba = Rgba(r: byte, g: byte, b: byte, a: byte)

  function Bytes(c: Rgba): (s: seq<byte>)
    ensures |s| == 4
  {
    [c.r, c.g, c.b, c.a]
  }

  /// The generators with integer or escape-time pixels.
  datatype Texture = GeometricTexture | CellularTexture | DigitalTexture | MinimalistTexture | FractalTexture

  /// The generator `generate_artwork_texture` picks for a style; the noise,
  /// colour-field and other float-field styles are not modelled.
  function TextureFor(style: PaintingStyle): (r: Option<Texture>)
    ensures r.Some? <==> style in {Geometric, Cellular, Digital, Minimalist, Fractal}
  {
    match style
    case Geometric => Some(GeometricTexture)
    case Cellular => Some(CellularTexture)
    case Digital => Some(DigitalTexture)
    case Minimalist => Some(MinimalistTexture)
    case Fractal => Some(FractalTexture)
    case _ => None
  }

  // Geometric: a checkerboard of 32-pixel squares.

  const Orange: Rgba := Rgba(200, 100, 50, 255)
  const Blue: Rgba := Rgba(50, 100, 200, 255)

  function GeometricPixel(x: nat, y: nat): (r: Rgba)
    ensures r == Orange <==> ((x / 32) % 2 + (y / 32) % 2) % 2 == 0
    ensures r == Orange || r == Blue
  {
    if ((x / 32) % 2 + (y / 32) % 2) % 2 == 0 then Orange else Blue
  }

  /// Moving one square across flips the colour; two squares bring it back.
  lemma CheckerboardAlternates(x: nat, y: nat)
    ensures GeometricPixel(x + 32, y) != GeometricPixel(x, y)
    ensures GeometricPixel(x, y + 32) != GeometricPixel(x, y)
    ensures GeometricPixel(x + 64, y) == GeometricPixel(x, y)
  {
    assert (x + 32) / 32 == x / 32 + 1;
    assert (x + 64) / 32 == x / 32 + 2;
    assert (y + 32) / 32 == y / 32 + 1;
  }

  // Cellular: a hash of the 16-pixel cell with saturating u32 arithmetic.

  function SatAdd(a: u32, b: u32): (r: u32)
    ensures a as int + b as int <= U32Max as int ==> r as int == a as int + b as int
    ensures a as int + b as int > U32Max as int ==> r == U32Max
  {
    if a as int + b as int > U32Max as int then U32Max else a + b
  }

  function SatMul(a: u32, b: u32): (r: u32)
    ensures a as int * b as int <= U32Max as int ==> r as int == a as int * b as int
    ensures a as int * b as int > U32Max as int ==> r == U32Max
  {
    if a as int * b as int > U32Max as int then U32Max else a * b
  }

  function CellHash(cx: u32, cy: u32): u32 {
    SatMul(SatAdd(cx, SatMul(cy, 13)), 1234567)
  }

  const Alive: Rgba := Rgba(255, 100, 100, 255)
  const Dead: Rgba := Rgba(100, 100, 255, 255)

  function CellularPixel(x: u32, y: u32): (r: Rgba)
    ensures r == Alive <==> CellHash(x / 16, y / 16) % 100 < 30
    ensures r == Alive || r == Dead
  {
    if CellHash(x / 16, y / 16) % 100 < 30 then Alive else Dead
  }

  /// Inside a 2048 by 2048 texture nothing saturates: the hash is the exact
  /// product.
  lemma CellHashExactBelow2048(cx: u32, cy: u32)
    requires cx < 128 && cy < 128
    ensures CellHash(cx, cy) as int == (cx as int + 13 * cy as int) * 1234567
  {
  }

  /// A pixel has the colour of its cell's top-left corner.
  lemma CellularCellsUniform(x: u32, y: u32)
    ensures CellularPixel(x, y) == CellularPixel(16 * (x / 16), 16 * (y / 16))
  {
    assert (16 * (x / 16)) / 16 == x / 16;
    assert (16 * (y / 16)) / 16 == y / 16;
  }

  // Digital: bit stripes every 8 pixels, with a diagonal intensity ramp.

  /// The lit channel value: 255 · ((x + y) mod 64) / 64, truncated.
  function DigitalLevel(x: nat, y: nat): (v: byte)
    ensures v as int == (255 * ((x + y) % 64)) / 64
    ensures v <= 251
  {
    ((255 * ((x + y) % 64)) / 64) as byte
  }

  function DigitalPixel(x: nat, y: nat): (r: Rgba)
    ensures r.a == 255
  {
    var bitX, bitY := (x / 8) % 2, (y / 8) % 2;
    var level := DigitalLevel(x, y);
    Rgba(if bitX == 1 then level else 0, if bitY == 1 then level else 0,
         if (bitX + bitY) % 2 == 1 then level else 0, 255)
  }

  /// Red and green are lit by their stripe bits, and blue exactly when one
  /// of the two bits is set.
  lemma DigitalChannels(x: nat, y: nat)
    ensures DigitalPixel(x, y).r == if (x / 8) % 2 == 1 then DigitalLevel(x, y) else 0
    ensures DigitalPixel(x, y).g == if (y / 8) % 2 == 1 then DigitalLevel(x, y) else 0
    ensures DigitalPixel(x, y).b == if ((x / 8) % 2 == 1) != ((y / 8) % 2 == 1) then DigitalLevel(x, y) else 0
    ensures DigitalPixel(x, y).b != 0 ==> (DigitalPixel(x, y).r == 0) != (DigitalPixel(x, y).g == 0)
  {
  }

  // Minimalist: a dark block over the middle of the canvas.

  const Ink: Rgba := Rgba(20, 20, 20, 255)
  const Paper: Rgba := Rgba(240, 240, 235, 255)

  predicate OnLine(w: u32, h: u32, x: nat, y: nat)
    requires w > 0
  {
    var nx := x as real / w as real;
    0.3 < nx < 0.7 && h as int / 3 < y < 2 * h as int / 3
  }

  function MinimalistPixel(w: u32, h: u32, x: nat, y: nat): (r: Rgba)
    requires w > 0
    ensures r == Ink <==> OnLine(w, h, x, y)
    ensures r == Ink || r == Paper
  {
    if OnLine(w, h, x, y) then Ink else Paper
  }

  /// On the 2048 by 2048 canvas the block covers the centre and leaves the
  /// corners blank.
  lemma MinimalistCentre()
    ensures MinimalistPixel(2048, 2048, 1024, 1024) == Ink
    ensures MinimalistPixel(2048, 2048, 0, 0) == Paper
    ensures MinimalistPixel(2048, 2048, 2047, 2047) == Paper
  {
    assert 1024 as real / 2048 as real == 0.5;
  }

  // Fractal: the Mandelbrot escape time, capped at 50 iterations.

  const MaxIterations: nat := 50

  /// The state of the escape loop: the orbit point and the iterations run.
  datatype Orbit = Orbit(zx: real, zy: real, iterations: nat)

  predicate Escaped(o: Orbit) {
    o.zx * o.zx + o.zy * o.zy >= 4.0
  }

  /// One iteration z := z² + c for c = (nx, ny).
  function Step(o: Orbit, nx: real, ny: real): (r: Orbit)
    ensures r.iterations == o.iterations + 1
  {
    Orbit(o.zx * o.zx - o.zy * o.zy + nx, 2.0 * o.zx * o.zy + ny, o.iterations + 1)
  }

  /// The escape loop from `o` for the point (nx, ny).
  function EscapeFrom(o: Orbit, nx: real, ny: real): (r: Orbit)
    requires o.iterations <= MaxIterations
    ensures o.iterations <= r.iterations <= MaxIterations
    ensures r.iterations < MaxIterations ==> Escaped(r)
    ensures Escaped(o) ==> r == o
    decreases MaxIterations - o.iterations
  {
    if !Escaped(o) && o.iterations < MaxIterations then EscapeFrom(Step(o, nx, ny), nx, ny)
    else o
  }

  /// The escape loop of `generate_fractal_texture` for one pixel; the
  /// loop's `zx`, `zy` and `iterations` are the fields of `o`.
  method EscapeIterations(nx: real, ny: real) returns (iterations: nat)
    ensures iterations == EscapeFrom(Orbit(nx, ny, 0), nx, ny).iterations
    ensures iterations <= MaxIterations
  {
    var o := Orbit(nx, ny, 0);
    while !Escaped(o) && o.iterations < MaxIterations
      invariant o.iterations <= MaxIterations
      invariant EscapeFrom(o, nx, ny) == EscapeFrom(Orbit(nx, ny, 0), nx, ny)
      decreases MaxIterations - o.iterations
    {
      o := Step(o, nx, ny);
    }
    iterations := o.iterations;
  }

  /// A point already outside radius 2 escapes before the first iteration.
  lemma EscapeAtOnce(nx: real, ny: real)
    requires nx * nx + ny * ny >= 4.0
    ensures EscapeFrom(Orbit(nx, ny, 0), nx, ny).iterations == 0
  {
    var o := Orbit(nx, ny, 0);
    assert Escaped(o);
  }

  /// The pixel colour for an iteration count: red and half-red grow with
  /// the count, blue shrinks.
  function FractalColor(it: nat): (r: Rgba)
    requires it <= MaxIterations
    ensures it == 0 ==> r == Rgba(0, 0, 255, 255)
    ensures it == MaxIterations ==> r == Rgba(255, 127, 0, 255)
    ensures 254 <= r.r as int + r.b as int <= 255
  {
    var cv := it as real / MaxIterations as real;
    var red := (cv * 255.0).Floor;
    var green := ((cv * 0.5) * 255.0).Floor;
    var blue := ((1.0 - cv) * 255.0).Floor;
    Rgba(red as byte, green as byte, blue as byte, 255)
  }

  /// More iterations never give less red.
  lemma FractalRedGrows(i: nat, j: nat)
    requires i <= j <= MaxIterations
    ensures FractalColor(i).r <= FractalColor(j).r
    ensures FractalColor(j).b <= FractalColor(i).b
  {
  }

  /// The point of the complex plane sampled by pixel (x, y): the canvas
  /// spans [-2, 2] on both axes.
  function PlanePoint(n: nat, size: u32): (r: real)
    requires size > 0
  {
    (n as real / size as real - 0.5) * 4.0
  }

  function FractalPixel(w: u32, h: u32, x: nat, y: nat): Rgba
    requires w > 0 && h > 0
  {
    var nx, ny := PlanePoint(x, w), PlanePoint(y, h);
    FractalColor(EscapeFrom(Orbit(nx, ny, 0), nx, ny).iterations)
  }

  // The buffer layout: four bytes per pixel, row by row.

  function Pixel(t: Texture, w: u32, h: u32, x: nat, y: nat): Rgba
    requires x < w as nat && y < h as nat
  {
    match t
    case GeometricTexture => GeometricPixel(x, y)
    case CellularTexture => CellularPixel(x as u32, y as u32)
    case DigitalTexture => DigitalPixel(x, y)
    case MinimalistTexture => MinimalistPixel(w, h, x, y)
    case FractalTexture => FractalPixel(w, h, x, y)
  }

  /// The texture's pixel function on the whole canvas; coordinates off the
  /// canvas, which the generators never visit, read as transparent black.
  function PixelsOf(t: Texture, w: u32, h: u32): (nat, nat) -> Rgba {
    (x: nat, y: nat) => if x < w as nat && y < h as nat then Pixel(t, w, h, x, y) else Rgba(0, 0, 0, 0)
  }

  /// The bytes of the first `n` pixels of row `y`.
  function Row(px: (nat, nat) -> Rgba, n: nat, y: nat): (r: seq<byte>)
    ensures |r| == 4 * n
  {
    if n == 0 then [] else Row(px, n - 1, y) + Bytes(px(n - 1, y))
  }

  /// The bytes of the first `rows` rows of a canvas `w` pixels wide.
  function Image(px: (nat, nat) -> Rgba, w: nat, rows: nat): (r: seq<byte>)
    ensures |r| == 4 * w * rows
  {
    if rows == 0 then []
    else
      var prev := Image(px, w, rows - 1);
      assert 4 * w * (rows - 1) + 4 * w == 4 * w * rows;
      prev + Row(px, w, rows - 1)
  }

  lemma {:induction false} RowAt(px: (nat, nat) -> Rgba, n: nat, x: nat, y: nat, c: nat)
    requires x < n && c < 4
    ensures Row(px, n, y)[4 * x + c] == Bytes(px(x, y))[c]
    decreases n
  {
    if x < n - 1 {
      RowAt(px, n - 1, x, y, c);
    }
  }

  /// Pixel `x` of row `y` starts `4·x` bytes after the row, which starts
  /// `4·w·y` bytes into the buffer.
  lemma OffsetInRow(w: nat, y: nat, x: nat, c: nat)
    ensures 4 * (y * w + x) + c == 4 * w * y + (4 * x + c)
  {
  }

  /// A pixel of an earlier row lies before row `rows`.
  lemma OffsetBeforeRow(w: nat, y: nat, rows: nat, x: nat, c: nat)
    requires x < w && y < rows && c < 4
    ensures 4 * (y * w + x) + c < 4 * w * rows
  {
    assert y * w + x < (y + 1) * w;
    assert (y + 1) * w <= rows * w;
  }

  /// Byte `c` of pixel (x, y) sits at offset 4·(y·w + x) + c.
  lemma {:induction false} ImageAt(px: (nat, nat) -> Rgba, w: nat, rows: nat, x: nat, y: nat, c: nat)
    requires x < w && y < rows && c < 4
    ensures 4 * (y * w + x) + c < |Image(px, w, rows)|
    ensures Image(px, w, rows)[4 * (y * w + x) + c] == Bytes(px(x, y))[c]
    decreases rows
  {
    var prev := Image(px, w, rows - 1);
    var row := Row(px, w, rows - 1);
    var i := 4 * (y * w + x) + c;
    assert Image(px, w, rows) == prev + row;
    OffsetBeforeRow(w, y, rows, x, c);
    if y == rows - 1 {
      OffsetInRow(w, y, x, c);
      RowAt(px, w, x, y, c);
      assert (prev + row)[i] == row[4 * x + c];
    } else {
      ImageAt(px, w, rows - 1, x, y, c);
      assert (prev + row)[i] == prev[i];
    }
  }

  /// One pixel as the generators compute it, running the escape loop for
  /// the fractal.
  method ComputePixel(t: Texture, w: u32, h: u32, x: nat, y: nat) returns (px: Rgba)
    requires x < w as nat && y < h as nat
    ensures px == PixelsOf(t, w, h)(x, y)
  {
    if t == FractalTexture {
      var nx := (x as real / w as real - 0.5) * 4.0;
      var ny := (y as real / h as real - 0.5) * 4.0;
      var iterations := EscapeIterations(nx, ny);
      px := FractalColor(iterations);
    } else {
      px := Pixel(t, w, h, x, y);
    }
  }

  /// The inner pixel loop of the generators: row `y`, left to right, four
  /// bytes per pixel.
  method GenerateRow(t: Texture, width: u32, height: u32, y: nat) returns (row: seq<byte>)
    requires y < height as nat
    ensures row == Row(PixelsOf(t, width, height), width as nat, y)
  {
    ghost var px := PixelsOf(t, width, height);
    row := [];
    var x: nat := 0;
    while x < width as nat
      invariant x <= width as nat
      invariant row == Row(px, x, y)
    {
      var p := ComputePixel(t, width, height, x, y);
      row := row + Bytes(p);
      x := x + 1;
    }
  }

  /// The nested pixel loops of the generators: rows top to bottom, each
  /// row left to right, four bytes per pixel; byte `c` of pixel (x, y) is
  /// at offset 4·(y·w + x) + c.
  method GenerateTexture(t: Texture, width: u32, height: u32) returns (data: seq<byte>)
    ensures data == Image(PixelsOf(t, width, height), width as nat, height as nat)
    ensures |data| == 4 * width as nat * height as nat
  {
    ghost var px := PixelsOf(t, width, height);
    data := [];
    var y: nat := 0;
    while y < height as nat
      invariant y <= height as nat
      invariant data == Image(px, width as nat, y)
    {
      var row := GenerateRow(t, width, height, y);
      data := data + row;
      y := y + 1;
    }
  }
}
