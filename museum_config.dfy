// The museum's declarative exhibit tables: the twelve wall paintings of the
// main gallery and the four sculptures of the sculpture garden.

module MuseumConfig {
  import opened Vectors

  datatype PaintingStyle =
    Abstract | Geometric | ColorField | Organic | Fractal | Minimalist |
    Digital | Noise | Cellular | Gold | Clouds | Marble

  /// `FrameType`; `Gold` is `GoldFrame` here, as a painting style is
  /// called `Gold` too.
  datatype FrameType = Wood | GoldFrame

  /// `SculptureType`; the variants that share a name with a painting style
  /// carry a suffix.
  datatype SculptureType = Twisted | GeometricSculpture | OrganicSculpture | Crystal

  datatype PaintingConfig = PaintingConfig(name: string, position: Vec3, style: PaintingStyle, frame: FrameType)

  datatype SculptureConfig = SculptureConfig(name: string, position: Vec3, kind: SculptureType)

  /// Every painting style, in declaration order.
  const AllStyles: seq<PaintingStyle> :=
    [Abstract, Geometric, ColorField, Organic, Fractal, Minimalist, Digital, Noise, Cellular, Gold, Clouds, Marble]

  const AllSculptureTypes: seq<SculptureType> := [Twisted, GeometricSculpture, OrganicSculpture, Crystal]

  /// `PaintingConfig::main_gallery`.
  const MainGallery: seq<PaintingConfig> := [
    PaintingConfig("Abstract Composition #1", Vec3(-9.0, 3.0, -14.7), Abstract, Wood),
    PaintingConfig("Geometric Harmony", Vec3(-5.85, 3.0, -25.0), Geometric, GoldFrame),
    PaintingConfig("Color Study #47", Vec3(5.85, 3.0, -25.0), ColorField, Wood),
    PaintingConfig("Organic Forms", Vec3(9.0, 3.0, -14.7), Organic, GoldFrame),
    PaintingConfig("Fractal Dreams", Vec3(14.7, 3.0, 3.0), Fractal, Wood),
    PaintingConfig("Minimalist Study", Vec3(14.7, 3.0, -3.0), Minimalist, GoldFrame),
    PaintingConfig("Digital Landscape", Vec3(14.7, 3.0, -9.0), Digital, Wood),
    PaintingConfig("Noise Patterns", Vec3(14.7, 3.0, 9.0), Noise, GoldFrame),
    PaintingConfig("Cellular Automata", Vec3(-14.7, 3.0, -9.0), Cellular, Wood),
    PaintingConfig("Wave Function", Vec3(-14.7, 3.0, -3.0), Gold, GoldFrame),
    PaintingConfig("Perlin Clouds", Vec3(-14.7, 3.0, 3.0), Clouds, Wood),
    PaintingConfig("Marble Veins", Vec3(-14.7, 3.0, 9.0), Marble, GoldFrame)
  ]

  /// `SculptureConfig::sculpture_garden`.
  const SculptureGarden: seq<SculptureConfig> := [
    SculptureConfig("Twisted Spire", Vec3(-10.5, 1.8, -10.5), Twisted),
    SculptureConfig("Geometric Assembly", Vec3(10.5, 1.8, -10.5), GeometricSculpture),
    SculptureConfig("Organic Flow", Vec3(-10.5, 1.8, 10.5), OrganicSculpture),
    SculptureConfig("Crystalline Structure", Vec3(10.5, 1.8, 10.5), Crystal)
  ]

  /// The gallery has twelve paintings with pairwise distinct names.
  lemma GalleryNamesDistinct()
    ensures |MainGallery| == 12
    ensures forall i, j :: 0 <= i < j < |MainGallery| ==> MainGallery[i].name != MainGallery[j].name
  {
  }

  /// No two paintings of the gallery share a style.
  lemma GalleryStylesDistinct()
    ensures forall i, j :: 0 <= i < j < |MainGallery| ==> MainGallery[i].style != MainGallery[j].style
  {
  }

  /// Painting `i` of the gallery has the `i`-th style.
  lemma GalleryStylesInOrder()
    ensures |MainGallery| == |AllStyles|
    ensures forall i :: 0 <= i < |MainGallery| ==> MainGallery[i].style == AllStyles[i]
  {
  }

  /// Every style is used by exactly one painting.
  lemma GalleryUsesEachStyleOnce(s: PaintingStyle)
    ensures s in AllStyles
    ensures exists i :: 0 <= i < |MainGallery| && MainGallery[i].style == s
    ensures forall i, j :: 0 <= i < j < |MainGallery| ==> MainGallery[i].style != MainGallery[j].style
  {
    GalleryStylesDistinct();
    GalleryStylesInOrder();
    match s
    case Abstract => assert AllStyles[0] == s;
    case Geometric => assert AllStyles[1] == s;
    case ColorField => assert AllStyles[2] == s;
    case Organic => assert AllStyles[3] == s;
    case Fractal => assert AllStyles[4] == s;
    case Minimalist => assert AllStyles[5] == s;
    case Digital => assert AllStyles[6] == s;
    case Noise => assert AllStyles[7] == s;
    case Cellular => assert AllStyles[8] == s;
    case Gold => assert AllStyles[9] == s;
    case Clouds => assert AllStyles[10] == s;
    case Marble => assert AllStyles[11] == s;
  }

  /// Frames alternate wood and gold, starting with wood.
  lemma FramesAlternate()
    ensures forall i :: 0 <= i < |MainGallery| ==> MainGallery[i].frame == if i % 2 == 0 then Wood else GoldFrame
  {
  }

  /// Four sculptures, one of each type, at the corners (±10.5, 1.8, ±10.5).
  lemma GardenCorners()
    ensures |SculptureGarden| == 4
    ensures forall i :: 0 <= i < 4 ==> SculptureGarden[i].kind == AllSculptureTypes[i]
    ensures forall i :: 0 <= i < 4 ==>
              var p := SculptureGarden[i].position;
              p.y == 1.8 && (p.x == 10.5 || p.x == -10.5) && (p.z == 10.5 || p.z == -10.5)
    ensures forall i, j :: 0 <= i < j < 4 ==> SculptureGarden[i].position != SculptureGarden[j].position
  {
  }
}
