// The platformer's level: platforms, boundary walls and pillars grouped in
// sections, assembled into the default level, and spawned with one cached
// material per kind of geometry.

module Level {
  import opened Vectors
  import opened Sequences

  /// `PlatformType`.
  datatype PlatformType = Ground | Standard | Challenge | SteppingStone

  /// The Tailwind palette colours the level uses.
  datatype Colour = Green600 | Amber700 | Red600 | Slate600 | Stone500

  /// `MaterialConfig`: a colour, a metallic factor and a roughness.
  datatype MaterialConfig = MaterialConfig(colour: Colour, metallic: real, roughness: real)

  /// `PlatformType::material_config`.
  function MaterialConfigOf(t: PlatformType): (c: MaterialConfig)
    ensures t == Ground ==> c == MaterialConfig(Green600, 0.0, 0.8)
    ensures t == Challenge ==> c == MaterialConfig(Red600, 0.3, 0.4)
    ensures t == Standard || t == SteppingStone ==> c == MaterialConfig(Amber700, 0.2, 0.6)
  {
    match t
    case Ground => MaterialConfig(Green600, 0.0, 0.8)
    case Standard => MaterialConfig(Amber700, 0.2, 0.6)
    case Challenge => MaterialConfig(Red600, 0.3, 0.4)
    case SteppingStone => MaterialConfig(Amber700, 0.2, 0.6)
  }

  /// Two kinds look alike exactly when they are the same kind, or are
  /// standard platforms and stepping stones.
  lemma SameConfigIff(a: PlatformType, b: PlatformType)
    ensures MaterialConfigOf(a) == MaterialConfigOf(b) <==>
              a == b || (a in {Standard, SteppingStone} && b in {Standard, SteppingStone})
  {
  }

  /// The fields of a `StandardMaterial` the level sets; the others keep
  /// Bevy's defaults, metallic 0 and roughness 0.5.
  datatype StandardMaterial = StandardMaterial(baseColour: Colour, metallic: real, roughness: real)

  /// `MaterialConfig::into_material`, before the asset is added.
  function FromConfig(c: MaterialConfig): (m: StandardMaterial)
    ensures m.baseColour == c.colour && m.metallic == c.metallic && m.roughness == c.roughness
  {
    StandardMaterial(c.colour, c.metallic, c.roughness)
  }

  const WallMaterial: StandardMaterial := StandardMaterial(Slate600, 0.0, 0.5)
  const PillarMaterial: StandardMaterial := StandardMaterial(Stone500, 0.4, 0.3)

  /// The material asset store; a handle is an index into it.
  class MaterialAssets {
    var materials: seq<StandardMaterial>

    constructor()
      ensures materials == []
    {
      materials := [];
    }

    /// `materials.add`: a new asset and its handle.
    method Add(m: StandardMaterial) returns (h: nat)
      modifies this
      ensures materials == old(materials) + [m] && h == |old(materials)|
    {
      h := |materials|;
      materials := materials + [m];
    }
  }

  /// `MaterialCache`: the handles built once for the level.
  datatype MaterialCache = MaterialCache(ground: nat, standard: nat, challenge: nat, steppingStone: nat, wall: nat, pillar: nat)

  /// Each handle of the cache names the material it was built for.
  predicate CacheBuiltIn(c: MaterialCache, ms: seq<StandardMaterial>) {
    c.ground < |ms| && ms[c.ground] == FromConfig(MaterialConfigOf(Ground)) &&
    c.standard < |ms| && ms[c.standard] == FromConfig(MaterialConfigOf(Standard)) &&
    c.challenge < |ms| && ms[c.challenge] == FromConfig(MaterialConfigOf(Challenge)) &&
    c.steppingStone < |ms| && ms[c.steppingStone] == FromConfig(MaterialConfigOf(SteppingStone)) &&
    c.wall < |ms| && ms[c.wall] == WallMaterial &&
    c.pillar < |ms| && ms[c.pillar] == PillarMaterial
  }

  /// The six handles are distinct.
  predicate DistinctHandles(c: MaterialCache) {
    |{c.ground, c.standard, c.challenge, c.steppingStone, c.wall, c.pillar}| == 6
  }

  /// `MaterialCache::new`: six new assets, in the order ground, standard,
  /// challenge, stepping stone, wall, pillar. Standard platforms and
  /// stepping stones get two assets with the same contents.
  method NewMaterialCache(assets: MaterialAssets) returns (c: MaterialCache)
    modifies assets
    ensures var n := |old(assets.materials)|;
              c == MaterialCache(n, n + 1, n + 2, n + 3, n + 4, n + 5) &&
              assets.materials == old(assets.materials) +
                [FromConfig(MaterialConfigOf(Ground)), FromConfig(MaterialConfigOf(Standard)),
                 FromConfig(MaterialConfigOf(Challenge)), FromConfig(MaterialConfigOf(SteppingStone)),
                 WallMaterial, PillarMaterial]
    ensures CacheBuiltIn(c, assets.materials) && DistinctHandles(c)
  {
    var ground := assets.Add(FromConfig(MaterialConfigOf(Ground)));
    var standard := assets.Add(FromConfig(MaterialConfigOf(Standard)));
    var challenge := assets.Add(FromConfig(MaterialConfigOf(Challenge)));
    var steppingStone := assets.Add(FromConfig(MaterialConfigOf(SteppingStone)));
    var wall := assets.Add(WallMaterial);
    var pillar := assets.Add(PillarMaterial);
    c := MaterialCache(ground, standard, challenge, steppingStone, wall, pillar);
    var n := ground;
    assert {c.ground, c.standard, c.challenge, c.steppingStone, c.wall, c.pillar} == {n, n + 1, n + 2, n + 3, n + 4, n + 5};
  }

  /// `MaterialCache::get`: the handle built for the platform's own kind.
  function Get(c: MaterialCache, t: PlatformType): (h: nat)
    ensures t == Ground ==> h == c.ground
    ensures t == Standard ==> h == c.standard
    ensures t == Challenge ==> h == c.challenge
    ensures t == SteppingStone ==> h == c.steppingStone
    ensures DistinctHandles(c) ==> h != c.wall && h != c.pillar
  {
    match t
    case Ground => c.ground
    case Standard => c.standard
    case Challenge => c.challenge
    case SteppingStone => c.steppingStone
  }

  /// The handle fetched for a kind names that kind's material, and
  /// different kinds fetch different handles.
  lemma GetBuiltFor(c: MaterialCache, ms: seq<StandardMaterial>, a: PlatformType, b: PlatformType)
    requires CacheBuiltIn(c, ms) && DistinctHandles(c)
    ensures Get(c, a) < |ms| && ms[Get(c, a)] == FromConfig(MaterialConfigOf(a))
    ensures Get(c, a) == Get(c, b) <==> a == b
  {
  }

  // ---------------------------------------------------------------------------
  // Geometry
  // ---------------------------------------------------------------------------

  /// `Platform`.
  datatype Platform = Platform(name: string, position: Vec3, size: Vec3, kind: PlatformType)

  function GroundPlatform(name: string, position: Vec3, size: Vec3): (p: Platform)
    ensures p.name == name && p.position == position && p.size == size && p.kind == Ground
  {
    Platform(name, position, size, Ground)
  }

  function StandardPlatform(name: string, position: Vec3, size: Vec3): (p: Platform)
    ensures p.name == name && p.position == position && p.size == size && p.kind == Standard
  {
    Platform(name, position, size, Standard)
  }

  function ChallengePlatform(name: string, position: Vec3, size: Vec3): (p: Platform)
    ensures p.name == name && p.position == position && p.size == size && p.kind == Challenge
  {
    Platform(name, position, size, Challenge)
  }

  /// A stepping stone is always 1.5 × 0.3 × 1.5.
  const SteppingStoneSize: Vec3 := Vec3(1.5, 0.3, 1.5)

  function SteppingStonePlatform(name: string, position: Vec3): (p: Platform)
    ensures p.name == name && p.position == position && p.size == Vec3(1.5, 0.3, 1.5) && p.kind == SteppingStone
  {
    Platform(name, position, SteppingStoneSize, SteppingStone)
  }

  /// `Wall`: a boundary box.
  datatype Wall = Wall(position: Vec3, size: Vec3)

  /// `Wall::north` runs along X: width, height, thickness.
  function NorthWall(x: real, y: real, z: real, width: real, height: real, thickness: real): (w: Wall)
    ensures w.position == Vec3(x, y, z) && w.size == Vec3(width, height, thickness)
  {
    Wall(Vec3(x, y, z), Vec3(width, height, thickness))
  }

  /// `Wall::east` and `Wall::west` run along Z: thickness, height, depth.
  function EastWall(x: real, y: real, z: real, height: real, depth: real, thickness: real): (w: Wall)
    ensures w.position == Vec3(x, y, z) && w.size == Vec3(thickness, height, depth)
  {
    Wall(Vec3(x, y, z), Vec3(thickness, height, depth))
  }

  function WestWall(x: real, y: real, z: real, height: real, depth: real, thickness: real): (w: Wall)
    ensures w.position == Vec3(x, y, z) && w.size == Vec3(thickness, height, depth)
  {
    Wall(Vec3(x, y, z), Vec3(thickness, height, depth))
  }

  /// `Pillar`: a decorative cylinder.
  datatype Pillar = Pillar(position: Vec3, radius: real, height: real)

  /// `SectionData`.
  datatype SectionData = SectionData(platforms: seq<Platform>, collectiblePositions: seq<Vec3>)

  // ---------------------------------------------------------------------------
  // Sections
  // ---------------------------------------------------------------------------

  const Tutorial: SectionData := SectionData([
      GroundPlatform("Starting Platform", Vec3(0.0, 0.0, 0.0), Vec3(12.0, 1.0, 12.0)),
      StandardPlatform("Platform 1", Vec3(8.0, 2.0, -8.0), Vec3(4.0, 0.5, 4.0)),
      StandardPlatform("Platform 2", Vec3(4.0, 4.0, -16.0), Vec3(3.0, 0.5, 3.0)),
      StandardPlatform("Platform 3", Vec3(-2.0, 6.0, -20.0), Vec3(4.0, 0.5, 4.0))
    ], [
      Vec3(8.0, 3.5, -8.0), Vec3(4.0, 5.5, -16.0), Vec3(-2.0, 7.5, -20.0)
    ])

  const SpiralAscent: SectionData := SectionData([
      StandardPlatform("Spiral 1", Vec3(-6.0, 8.0, -24.0), Vec3(3.5, 0.5, 3.5)),
      StandardPlatform("Spiral 2", Vec3(-10.0, 10.0, -28.0), Vec3(3.0, 0.5, 3.0)),
      StandardPlatform("Spiral 3", Vec3(-14.0, 12.0, -24.0), Vec3(3.5, 0.5, 3.5)),
      StandardPlatform("Spiral 4", Vec3(-10.0, 14.0, -20.0), Vec3(3.0, 0.5, 3.0)),
      StandardPlatform("Spiral 5", Vec3(-6.0, 16.0, -24.0), Vec3(3.5, 0.5, 3.5))
    ], [
      Vec3(-6.0, 9.5, -24.0), Vec3(-14.0, 13.5, -24.0), Vec3(-6.0, 17.5, -24.0)
    ])

  const GapJumps: SectionData := SectionData([
      StandardPlatform("Gap Platform 1", Vec3(-10.0, 18.0, -28.0), Vec3(3.0, 0.5, 3.0)),
      StandardPlatform("Gap Platform 2", Vec3(-10.0, 18.5, -35.0), Vec3(2.5, 0.5, 2.5)),
      StandardPlatform("Gap Platform 3", Vec3(-14.0, 19.0, -40.0), Vec3(3.0, 0.5, 3.0)),
      StandardPlatform("Gap Platform 4", Vec3(-18.0, 20.0, -35.0), Vec3(2.5, 0.5, 2.5)),
      StandardPlatform("Gap Platform 5", Vec3(-22.0, 21.0, -40.0), Vec3(3.5, 0.5, 3.5))
    ], [
      Vec3(-10.0, 20.0, -35.0), Vec3(-18.0, 21.5, -35.0), Vec3(-22.0, 22.5, -40.0)
    ])

  const NarrowBridge: SectionData := SectionData([
      ChallengePlatform("Bridge Start", Vec3(-22.0, 22.0, -36.0), Vec3(3.0, 0.5, 3.0)),
      ChallengePlatform("Bridge 1", Vec3(-22.0, 22.0, -30.0), Vec3(1.5, 0.3, 4.0)),
      ChallengePlatform("Bridge 2", Vec3(-22.0, 22.0, -24.0), Vec3(1.5, 0.3, 4.0)),
      ChallengePlatform("Bridge End", Vec3(-22.0, 22.0, -18.0), Vec3(3.0, 0.5, 3.0))
    ], [
      Vec3(-22.0, 23.5, -30.0), Vec3(-22.0, 23.5, -24.0)
    ])

  const AerialChallenge: SectionData := SectionData([
      ChallengePlatform("Aerial Start", Vec3(-22.0, 23.0, -12.0), Vec3(3.0, 0.5, 3.0)),
      ChallengePlatform("Aerial 1", Vec3(-18.0, 26.0, -8.0), Vec3(2.5, 0.5, 2.5)),
      ChallengePlatform("Aerial 2", Vec3(-14.0, 28.0, -4.0), Vec3(2.0, 0.5, 2.0)),
      ChallengePlatform("Aerial Peak", Vec3(-10.0, 30.0, 0.0), Vec3(4.0, 0.5, 4.0))
    ], [
      Vec3(-18.0, 27.5, -8.0), Vec3(-14.0, 29.5, -4.0), Vec3(-10.0, 31.5, 0.0)
    ])

  const Descent: SectionData := SectionData([
      StandardPlatform("Descent 1", Vec3(-6.0, 28.0, 4.0), Vec3(3.0, 0.5, 3.0)),
      StandardPlatform("Descent 2", Vec3(-2.0, 25.0, 8.0), Vec3(3.5, 0.5, 3.5)),
      StandardPlatform("Descent 3", Vec3(2.0, 22.0, 12.0), Vec3(3.0, 0.5, 3.0)),
      StandardPlatform("Descent 4", Vec3(6.0, 19.0, 16.0), Vec3(3.5, 0.5, 3.5)),
      StandardPlatform("Descent 5", Vec3(10.0, 16.0, 20.0), Vec3(4.0, 0.5, 4.0))
    ], [
      Vec3(-6.0, 29.5, 4.0), Vec3(2.0, 23.5, 12.0), Vec3(10.0, 17.5, 20.0)
    ])

  const ZigzagPath: SectionData := SectionData([
      StandardPlatform("Zigzag 1", Vec3(14.0, 15.0, 16.0), Vec3(3.0, 0.5, 3.0)),
      StandardPlatform("Zigzag 2", Vec3(10.0, 14.0, 12.0), Vec3(2.5, 0.5, 2.5)),
      StandardPlatform("Zigzag 3", Vec3(14.0, 13.0, 8.0), Vec3(3.0, 0.5, 3.0)),
      StandardPlatform("Zigzag 4", Vec3(10.0, 12.0, 4.0), Vec3(2.5, 0.5, 2.5)),
      StandardPlatform("Zigzag 5", Vec3(14.0, 11.0, 0.0), Vec3(3.0, 0.5, 3.0))
    ], [
      Vec3(14.0, 16.5, 16.0), Vec3(14.0, 14.5, 8.0), Vec3(14.0, 12.5, 0.0)
    ])

  const BonusArea: SectionData := SectionData([
      ChallengePlatform("Bonus Entry", Vec3(18.0, 15.0, 12.0), Vec3(2.0, 0.5, 2.0)),
      SteppingStonePlatform("Bonus Stone 1", Vec3(22.0, 17.0, 12.0)),
      SteppingStonePlatform("Bonus Stone 2", Vec3(24.0, 19.0, 8.0)),
      SteppingStonePlatform("Bonus Stone 3", Vec3(26.0, 21.0, 12.0)),
      ChallengePlatform("Bonus Reward", Vec3(22.0, 23.0, 16.0), Vec3(3.0, 0.5, 3.0))
    ], [
      Vec3(22.0, 18.5, 12.0), Vec3(26.0, 22.5, 12.0), Vec3(22.0, 24.5, 16.0)
    ])

  const ChallengeSection: SectionData := SectionData([
      ChallengePlatform("High Platform", Vec3(-8.0, 10.0, -16.0), Vec3(5.0, 0.5, 5.0))
    ], [
      Vec3(-8.0, 11.5, -16.0)
    ])

  const SteppingStones: SectionData := SectionData([
      SteppingStonePlatform("Stepping Stone 1", Vec3(-12.0, 8.0, -8.0)),
      SteppingStonePlatform("Stepping Stone 2", Vec3(-14.0, 9.0, -4.0)),
      SteppingStonePlatform("Stepping Stone 3", Vec3(-16.0, 10.0, 0.0)),
      SteppingStonePlatform("Stepping Stone 4", Vec3(-14.0, 11.0, 4.0))
    ], [
      Vec3(-12.0, 9.5, -8.0), Vec3(-14.0, 10.5, -4.0), Vec3(-16.0, 11.5, 0.0)
    ])

  const Finale: SectionData := SectionData([
      StandardPlatform("Pre-finale 1", Vec3(10.0, 10.0, -4.0), Vec3(3.0, 0.5, 3.0)),
      StandardPlatform("Pre-finale 2", Vec3(6.0, 10.0, -8.0), Vec3(3.0, 0.5, 3.0)),
      GroundPlatform("Final Platform", Vec3(0.0, 10.0, -12.0), Vec3(12.0, 1.5, 12.0))
    ], [
      Vec3(10.0, 11.5, -4.0), Vec3(6.0, 11.5, -8.0), Vec3(-4.0, 12.5, -12.0),
      Vec3(0.0, 12.5, -12.0), Vec3(4.0, 12.5, -12.0)
    ])

  /// `boundary_walls`: north and south walls 80 wide, east and west walls
  /// 80 deep, all 40 high and 2 thick.
  const BoundaryWalls: seq<Wall> := [
    NorthWall(0.0, 20.0, -50.0, 80.0, 40.0, 2.0),
    NorthWall(0.0, 20.0, 30.0, 80.0, 40.0, 2.0),
    EastWall(40.0, 20.0, -10.0, 40.0, 80.0, 2.0),
    WestWall(-40.0, 20.0, -10.0, 40.0, 80.0, 2.0)
  ]

  /// `decorative_pillars`.
  const DecorativePillars: seq<Pillar> := [
    Pillar(Vec3(15.0, 5.0, 15.0), 1.0, 10.0),
    Pillar(Vec3(-15.0, 5.0, 15.0), 1.0, 10.0),
    Pillar(Vec3(15.0, 5.0, -15.0), 1.0, 10.0),
    Pillar(Vec3(-15.0, 5.0, -15.0), 1.0, 10.0),
    Pillar(Vec3(-20.0, 10.0, -30.0), 0.8, 20.0),
    Pillar(Vec3(-5.0, 15.0, -35.0), 0.8, 30.0),
    Pillar(Vec3(-15.0, 15.0, -5.0), 1.2, 30.0),
    Pillar(Vec3(5.0, 10.0, 10.0), 1.0, 20.0),
    Pillar(Vec3(28.0, 12.0, 10.0), 0.7, 24.0)
  ]

  /// The sections in the order the level is assembled from them.
  const LevelSections: seq<SectionData> := [
    Tutorial, SpiralAscent, GapJumps, NarrowBridge, AerialChallenge, Descent,
    ZigzagPath, BonusArea, ChallengeSection, SteppingStones, Finale
  ]

  /// Every platform, and every collectible position, of the sections in
  /// order.
  function SectionPlatforms(s: SectionData): seq<Platform> { s.platforms }
  function SectionCollectibles(s: SectionData): seq<Vec3> { s.collectiblePositions }

  /// The first six sections' images, flattened, in order.
  lemma FirstSixSections<B>(f: SectionData -> seq<B>)
    ensures Flatten(Map(LevelSections[..6], f)) == f(LevelSections[0]) + f(LevelSections[1]) + f(LevelSections[2]) + f(LevelSections[3]) + f(LevelSections[4]) + f(LevelSections[5])
  {
    assert LevelSections[..0] == [];
    FlattenMapNext(LevelSections, f, 0);
    FlattenMapNext(LevelSections, f, 1);
    FlattenMapNext(LevelSections, f, 2);
    FlattenMapNext(LevelSections, f, 3);
    FlattenMapNext(LevelSections, f, 4);
    FlattenMapNext(LevelSections, f, 5);
  }

  /// The remaining five sections' images extend the first six.
  lemma LastFiveSections<B>(f: SectionData -> seq<B>)
    ensures Flatten(Map(LevelSections, f)) == Flatten(Map(LevelSections[..6], f)) + f(LevelSections[6]) + f(LevelSections[7]) + f(LevelSections[8]) + f(LevelSections[9]) + f(LevelSections[10])
  {
    FlattenMapNext(LevelSections, f, 6);
    FlattenMapNext(LevelSections, f, 7);
    FlattenMapNext(LevelSections, f, 8);
    FlattenMapNext(LevelSections, f, 9);
    FlattenMapNext(LevelSections, f, 10);
    assert LevelSections[..11] == LevelSections;
  }

  /// The level's platforms are the sections' platforms in order.
  lemma PlatformsAssembled()
    ensures Flatten(Map(LevelSections, SectionPlatforms)) ==
              Tutorial.platforms + SpiralAscent.platforms + GapJumps.platforms + NarrowBridge.platforms + AerialChallenge.platforms + Descent.platforms + ZigzagPath.platforms + BonusArea.platforms + ChallengeSection.platforms + SteppingStones.platforms + Finale.platforms
  {
    FirstSixSections(SectionPlatforms);
    LastFiveSections(SectionPlatforms);
  }

  /// The level's collectible positions are the sections' in order.
  lemma CollectiblesAssembled()
    ensures Flatten(Map(LevelSections, SectionCollectibles)) ==
              Tutorial.collectiblePositions + SpiralAscent.collectiblePositions + GapJumps.collectiblePositions + NarrowBridge.collectiblePositions + AerialChallenge.collectiblePositions + Descent.collectiblePositions + ZigzagPath.collectiblePositions + BonusArea.collectiblePositions + ChallengeSection.collectiblePositions + SteppingStones.collectiblePositions + Finale.collectiblePositions
  {
    FirstSixSections(SectionCollectibles);
    LastFiveSections(SectionCollectibles);
  }

  /// `LevelDefinition`.
  datatype LevelDefinition = LevelDefinition(platforms: seq<Platform>, walls: seq<Wall>, pillars: seq<Pillar>, collectiblePositions: seq<Vec3>)

  /// `LevelDefinition::default_level`: each section's platforms and
  /// collectible positions extend the level's, in order.
  method DefaultLevel() returns (level: LevelDefinition)
    ensures level.platforms == Flatten(Map(LevelSections, SectionPlatforms))
    ensures level.collectiblePositions == Flatten(Map(LevelSections, SectionCollectibles))
    ensures level.walls == BoundaryWalls && level.pillars == DecorativePillars
  {
    var platforms: seq<Platform> := [];
    var collectiblePositions: seq<Vec3> := [];
    platforms := platforms + Tutorial.platforms;
    collectiblePositions := collectiblePositions + Tutorial.collectiblePositions;
    platforms := platforms + SpiralAscent.platforms;
    collectiblePositions := collectiblePositions + SpiralAscent.collectiblePositions;
    platforms := platforms + GapJumps.platforms;
    collectiblePositions := collectiblePositions + GapJumps.collectiblePositions;
    platforms := platforms + NarrowBridge.platforms;
    collectiblePositions := collectiblePositions + NarrowBridge.collectiblePositions;
    platforms := platforms + AerialChallenge.platforms;
    collectiblePositions := collectiblePositions + AerialChallenge.collectiblePositions;
    platforms := platforms + Descent.platforms;
    collectiblePositions := collectiblePositions + Descent.collectiblePositions;
    platforms := platforms + ZigzagPath.platforms;
    collectiblePositions := collectiblePositions + ZigzagPath.collectiblePositions;
    platforms := platforms + BonusArea.platforms;
    collectiblePositions := collectiblePositions + BonusArea.collectiblePositions;
    platforms := platforms + ChallengeSection.platforms;
    collectiblePositions := collectiblePositions + ChallengeSection.collectiblePositions;
    platforms := platforms + SteppingStones.platforms;
    collectiblePositions := collectiblePositions + SteppingStones.collectiblePositions;
    platforms := platforms + Finale.platforms;
    collectiblePositions := collectiblePositions + Finale.collectiblePositions;
    PlatformsAssembled();
    CollectiblesAssembled();
    level := LevelDefinition(platforms, BoundaryWalls, DecorativePillars, collectiblePositions);
  }

  /// The default level has 45 platforms, 32 collectible positions, 4 walls
  /// and 9 pillars.
  lemma DefaultLevelTotals()
    ensures |Flatten(Map(LevelSections, SectionPlatforms))| == 45
    ensures |Flatten(Map(LevelSections, SectionCollectibles))| == 32
    ensures |BoundaryWalls| == 4 && |DecorativePillars| == 9
  {
    PlatformsAssembled();
    CollectiblesAssembled();
  }

  /// A collectible stands on a platform: within its x-z footprint and above
  /// its top face.
  predicate StandsOn(c: Vec3, p: Platform) {
    p.position.x - p.size.x / 2.0 <= c.x <= p.position.x + p.size.x / 2.0 &&
    p.position.z - p.size.z / 2.0 <= c.z <= p.position.z + p.size.z / 2.0 &&
    c.y > p.position.y + p.size.y / 2.0
  }

  /// For each section, the platform each of its collectibles stands on.
  const Supports: seq<seq<nat>> := [
    [1, 2, 3], [0, 2, 4], [1, 3, 4], [1, 2], [1, 2, 3], [0, 2, 4],
    [0, 2, 4], [1, 3, 4], [0], [0, 1, 2], [0, 1, 2, 2, 2]
  ]

  /// A collectible resting on a platform: standing on it, between 0.75 and
  /// 1.75 above its top face.
  predicate RestsOn(c: Vec3, p: Platform) {
    StandsOn(c, p) && 0.75 <= c.y - (p.position.y + p.size.y / 2.0) <= 1.75
  }

  /// Collectible `j` of section `s` rests on platform `sup[j]` of `s`.
  predicate SupportedBy(s: SectionData, sup: seq<nat>) {
    |sup| == |s.collectiblePositions| &&
    forall j :: 0 <= j < |sup| ==> sup[j] < |s.platforms| && RestsOn(s.collectiblePositions[j], s.platforms[sup[j]])
  }

  // The supports of each section, one section at a time.

  lemma TutorialSupported()
    ensures SupportedBy(Tutorial, [1, 2, 3])
  {
  }

  lemma SpiralAscentSupported()
    ensures SupportedBy(SpiralAscent, [0, 2, 4])
  {
  }

  lemma GapJumpsSupported()
    ensures SupportedBy(GapJumps, [1, 3, 4])
  {
  }

  lemma NarrowBridgeSupported()
    ensures SupportedBy(NarrowBridge, [1, 2])
  {
  }

  lemma AerialChallengeSupported()
    ensures SupportedBy(AerialChallenge, [1, 2, 3])
  {
  }

  lemma DescentSupported()
    ensures SupportedBy(Descent, [0, 2, 4])
  {
  }

  lemma ZigzagPathSupported()
    ensures SupportedBy(ZigzagPath, [0, 2, 4])
  {
  }

  lemma BonusAreaSupported()
    ensures SupportedBy(BonusArea, [1, 3, 4])
  {
  }

  lemma ChallengeSectionSupported()
    ensures SupportedBy(ChallengeSection, [0])
  {
  }

  lemma SteppingStonesSupported()
    ensures SupportedBy(SteppingStones, [0, 1, 2])
  {
  }

  lemma FinaleSupported()
    ensures SupportedBy(Finale, [0, 1, 2, 2, 2])
  {
  }

  /// Each section's collectibles rest on the platforms `Supports` names.
  lemma SectionSupported(i: nat)
    requires i < |LevelSections|
    ensures SupportedBy(LevelSections[i], Supports[i])
  {
    if i == 0 {
      TutorialSupported();
    } else if i == 1 {
      SpiralAscentSupported();
    } else if i == 2 {
      GapJumpsSupported();
    } else if i == 3 {
      NarrowBridgeSupported();
    } else if i == 4 {
      AerialChallengeSupported();
    } else if i == 5 {
      DescentSupported();
    } else if i == 6 {
      ZigzagPathSupported();
    } else if i == 7 {
      BonusAreaSupported();
    } else if i == 8 {
      ChallengeSectionSupported();
    } else if i == 9 {
      SteppingStonesSupported();
    } else {
      FinaleSupported();
    }
  }

  /// Every collectible of every section stands on a platform of that same
  /// section, between 0.75 and 1.75 above its top face.
  lemma CollectiblesOnPlatforms(i: nat, j: nat)
    requires i < |LevelSections| && j < |LevelSections[i].collectiblePositions|
    ensures exists k :: 0 <= k < |LevelSections[i].platforms| &&
              StandsOn(LevelSections[i].collectiblePositions[j], LevelSections[i].platforms[k])
    ensures var c := LevelSections[i].collectiblePositions[j];
            var p := LevelSections[i].platforms[Supports[i][j]];
              StandsOn(c, p) && c.y - (p.position.y + p.size.y / 2.0) <= 1.75 &&
              0.75 <= c.y - (p.position.y + p.size.y / 2.0)
  {
    SectionSupported(i);
    var s := LevelSections[i];
    var k := Supports[i][j];
    assert RestsOn(s.collectiblePositions[j], s.platforms[k]);
  }

  // ---------------------------------------------------------------------------
  // Spawning
  // ---------------------------------------------------------------------------

  /// A mesh or collider shape.
  datatype Shape = Cuboid(size: Vec3) | Cylinder(radius: real, height: real)

  /// A spawned entity: its name, translation, mesh, collider (static
  /// bodies only) and material handle.
  datatype Entity = Entity(name: string, position: Vec3, mesh: Shape, collider: Option<Shape>, material: nat)

  /// `Spawnable::spawn` of a platform, a wall and a pillar.
  function PlatformEntity(p: Platform, material: nat): (e: Entity)
    ensures e.name == p.name && e.position == p.position && e.mesh == Cuboid(p.size)
    ensures e.collider == Some(e.mesh) && e.material == material
  {
    Entity(p.name, p.position, Cuboid(p.size), Some(Cuboid(p.size)), material)
  }

  function WallEntity(w: Wall, material: nat): (e: Entity)
    ensures e.name == "Boundary Wall" && e.position == w.position && e.mesh == Cuboid(w.size)
    ensures e.collider == Some(e.mesh) && e.material == material
  {
    Entity("Boundary Wall", w.position, Cuboid(w.size), Some(Cuboid(w.size)), material)
  }

  /// A pillar is decoration only: it has no collider.
  function PillarEntity(p: Pillar, material: nat): (e: Entity)
    ensures e.name == "Decorative Pillar" && e.position == p.position && e.mesh == Cylinder(p.radius, p.height)
    ensures e.collider == None && e.material == material
  {
    Entity("Decorative Pillar", p.position, Cylinder(p.radius, p.height), None, material)
  }

  /// The entities of the platforms, walls and pillars, given the cache.
  function PlatformSpawner(c: MaterialCache): Platform -> Entity {
    (p: Platform) => PlatformEntity(p, Get(c, p.kind))
  }

  function WallSpawner(c: MaterialCache): Wall -> Entity {
    (w: Wall) => WallEntity(w, c.wall)
  }

  function PillarSpawner(c: MaterialCache): Pillar -> Entity {
    (p: Pillar) => PillarEntity(p, c.pillar)
  }

  /// `spawn_level_geometry`: builds the cache, then spawns the platforms
  /// with their kind's material, the walls with the wall material and the
  /// pillars with the pillar material, in that order.
  method SpawnLevelGeometry(level: LevelDefinition, assets: MaterialAssets) returns (c: MaterialCache, spawned: seq<Entity>)
    modifies assets
    ensures c == MaterialCache(|old(assets.materials)|, |old(assets.materials)| + 1, |old(assets.materials)| + 2,
                               |old(assets.materials)| + 3, |old(assets.materials)| + 4, |old(assets.materials)| + 5)
    ensures CacheBuiltIn(c, assets.materials) && DistinctHandles(c)
    ensures spawned == Map(level.platforms, PlatformSpawner(c)) + Map(level.walls, WallSpawner(c)) +
                       Map(level.pillars, PillarSpawner(c))
  {
    c := NewMaterialCache(assets);
    ghost var ms := assets.materials;
    spawned := [];
    var i := 0;
    while i < |level.platforms|
      invariant 0 <= i <= |level.platforms|
      invariant spawned == Map(level.platforms[..i], PlatformSpawner(c))
      invariant assets.materials == ms
    {
      MapPrefixNext(level.platforms, PlatformSpawner(c), i);
      var platform := level.platforms[i];
      var material := Get(c, platform.kind);
      spawned := spawned + [PlatformEntity(platform, material)];
      i := i + 1;
    }
    assert level.platforms[..i] == level.platforms;
    var walls: seq<Entity> := [];
    i := 0;
    while i < |level.walls|
      invariant 0 <= i <= |level.walls|
      invariant walls == Map(level.walls[..i], WallSpawner(c))
      invariant assets.materials == ms
    {
      MapPrefixNext(level.walls, WallSpawner(c), i);
      walls := walls + [WallEntity(level.walls[i], c.wall)];
      i := i + 1;
    }
    assert level.walls[..i] == level.walls;
    var pillars: seq<Entity> := [];
    i := 0;
    while i < |level.pillars|
      invariant 0 <= i <= |level.pillars|
      invariant pillars == Map(level.pillars[..i], PillarSpawner(c))
      invariant assets.materials == ms
    {
      MapPrefixNext(level.pillars, PillarSpawner(c), i);
      pillars := pillars + [PillarEntity(level.pillars[i], c.pillar)];
      i := i + 1;
    }
    assert level.pillars[..i] == level.pillars;
    spawned := spawned + walls + pillars;
  }

  /// Each spawned platform carries the material of its own kind, each wall
  /// the wall material and each pillar the pillar material.
  lemma SpawnedMaterials(level: LevelDefinition, c: MaterialCache, ms: seq<StandardMaterial>, k: nat)
    requires CacheBuiltIn(c, ms) && DistinctHandles(c)
    ensures k < |level.platforms| ==>
              var e := Map(level.platforms, PlatformSpawner(c))[k];
              e == PlatformEntity(level.platforms[k], Get(c, level.platforms[k].kind)) &&
              e.material < |ms| && ms[e.material] == FromConfig(MaterialConfigOf(level.platforms[k].kind))
    ensures k < |level.walls| ==>
              var e := Map(level.walls, WallSpawner(c))[k];
              e == WallEntity(level.walls[k], c.wall) && e.material < |ms| && ms[e.material] == WallMaterial
    ensures k < |level.pillars| ==>
              var e := Map(level.pillars, PillarSpawner(c))[k];
              e == PillarEntity(level.pillars[k], c.pillar) && e.collider == None &&
              e.material < |ms| && ms[e.material] == PillarMaterial
  {
    if k < |level.platforms| {
      MapAt(level.platforms, PlatformSpawner(c), k);
      GetBuiltFor(c, ms, level.platforms[k].kind, level.platforms[k].kind);
    }
    if k < |level.walls| {
      MapAt(level.walls, WallSpawner(c), k);
    }
    if k < |level.pillars| {
      MapAt(level.pillars, PillarSpawner(c), k);
    }
  }
}
