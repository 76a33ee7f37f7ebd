// The museum's room geometry: walls with a centred opening, the side walls
// of the two corridors, the solid walls of the main room, the corner
// pedestals of the sculpture garden and the rings of the morphing display.
// Every wall is an axis-aligned box given by its centre and its size, in the
// frame of the room or corridor it belongs to.

module RoomLayout {
  import opened Vectors
  import opened MuseumConfig
  import opened Artworks

  const CeilingHeight: real := 6.0
  const WallThickness: real := 0.3

  /// A cuboid wall: its translation and its `Cuboid` dimensions.
  datatype Box = Box(centre: Vec3, size: Vec3)

  function MinX(b: Box): real { b.centre.x - b.size.x / 2.0 }
  function MaxX(b: Box): real { b.centre.x + b.size.x / 2.0 }
  function MinZ(b: Box): real { b.centre.z - b.size.z / 2.0 }
  function MaxZ(b: Box): real { b.centre.z + b.size.z / 2.0 }

  /// A wall standing on the floor and reaching the ceiling.
  predicate FloorToCeiling(b: Box) {
    b.centre.y == CeilingHeight / 2.0 && b.size.y == CeilingHeight
  }

  // ---------------------------------------------------------------------------
  // Walls with a centred opening
  // ---------------------------------------------------------------------------

  /// A stretch of wall along its own axis: its centre and its width.
  datatype Section = Section(centre: real, width: real)

  function Lo(s: Section): real { s.centre - s.width / 2.0 }
  function Hi(s: Section): real { s.centre + s.width / 2.0 }

  predicate Covers(s: Section, u: real) { Lo(s) <= u <= Hi(s) }

  /// The two sections of a wall of length `roomSize` with a centred opening
  /// of width `opening`: each is half of what the opening leaves, centred
  /// half a section beyond the opening's edge. Together they run from the
  /// room's edge to the opening's edge on both sides.
  function WallSections(roomSize: real, opening: real): (r: (Section, Section))
    ensures r.0.width == r.1.width == (roomSize - opening) / 2.0
    ensures r.1.centre == opening / 2.0 + (roomSize - opening) / 4.0 && r.0.centre == -r.1.centre
    ensures Lo(r.0) == -roomSize / 2.0 && Hi(r.0) == -opening / 2.0
    ensures Lo(r.1) == opening / 2.0 && Hi(r.1) == roomSize / 2.0
  {
    var sectionWidth := (roomSize - opening) / 2.0;
    (Section(-opening / 2.0 - sectionWidth / 2.0, sectionWidth),
     Section(opening / 2.0 + sectionWidth / 2.0, sectionWidth))
  }

  /// Along the wall, a point is covered by a section exactly when it is not
  /// inside the opening.
  lemma SectionsCoverAllButOpening(roomSize: real, opening: real, u: real)
    requires 0.0 <= opening <= roomSize && -roomSize / 2.0 <= u <= roomSize / 2.0
    ensures var r := WallSections(roomSize, opening);
              Covers(r.0, u) || Covers(r.1, u) <==> !(-opening / 2.0 < u < opening / 2.0)
  {
  }

  /// The two sections never overlap: only their edges could meet, and they
  /// meet only when there is no opening.
  lemma SectionsDisjoint(roomSize: real, opening: real)
    requires 0.0 <= opening <= roomSize
    ensures var r := WallSections(roomSize, opening);
              Hi(r.0) <= Lo(r.1) && (Hi(r.0) == Lo(r.1) <==> opening == 0.0)
  {
  }

  /// The part of a box along X or along Z, as a section.
  function AlongX(b: Box): Section { Section(b.centre.x, b.size.x) }
  function AlongZ(b: Box): Section { Section(b.centre.z, b.size.z) }

  const SecondRoomSize: real := 20.0
  const ThirdRoomSize: real := 15.0
  const SecondRoomSouthOpening: real := 12.0
  const SecondRoomEastOpening: real := 8.0
  const ThirdRoomWestOpening: real := 8.0

  /// `create_second_room_south_wall_sections`: two sections on the line
  /// z = half - thickness/2, laid out along X around an opening of 12.
  function SecondRoomSouthWallSections(roomSize: real): (r: (Box, Box))
    ensures (AlongX(r.0), AlongX(r.1)) == WallSections(roomSize, SecondRoomSouthOpening)
    ensures MaxZ(r.0) == MaxZ(r.1) == roomSize / 2.0
    ensures r.0.size.z == r.1.size.z == WallThickness
    ensures FloorToCeiling(r.0) && FloorToCeiling(r.1)
  {
    var halfSize := roomSize / 2.0;
    var openingWidth := SecondRoomSouthOpening;
    var sectionWidth := (roomSize - openingWidth) / 2.0;
    var size := Vec3(sectionWidth, CeilingHeight, WallThickness);
    (Box(Vec3(-openingWidth / 2.0 - sectionWidth / 2.0, CeilingHeight / 2.0, halfSize - WallThickness / 2.0), size),
     Box(Vec3(openingWidth / 2.0 + sectionWidth / 2.0, CeilingHeight / 2.0, halfSize - WallThickness / 2.0), size))
  }

  /// `create_second_room_east_wall_sections`: two sections on the line
  /// x = half - thickness/2, laid out along Z around an opening of 8.
  function SecondRoomEastWallSections(roomSize: real): (r: (Box, Box))
    ensures (AlongZ(r.0), AlongZ(r.1)) == WallSections(roomSize, SecondRoomEastOpening)
    ensures MaxX(r.0) == MaxX(r.1) == roomSize / 2.0
    ensures r.0.size.x == r.1.size.x == WallThickness
    ensures FloorToCeiling(r.0) && FloorToCeiling(r.1)
  {
    var halfSize := roomSize / 2.0;
    var openingWidth := SecondRoomEastOpening;
    var sectionHeight := (roomSize - openingWidth) / 2.0;
    var size := Vec3(WallThickness, CeilingHeight, sectionHeight);
    (Box(Vec3(halfSize - WallThickness / 2.0, CeilingHeight / 2.0, -openingWidth / 2.0 - sectionHeight / 2.0), size),
     Box(Vec3(halfSize - WallThickness / 2.0, CeilingHeight / 2.0, openingWidth / 2.0 + sectionHeight / 2.0), size))
  }

  /// `create_third_room_west_wall_sections`: two sections on the line
  /// x = -half + thickness/2, laid out along Z around an opening of 8.
  function ThirdRoomWestWallSections(roomSize: real): (r: (Box, Box))
    ensures (AlongZ(r.0), AlongZ(r.1)) == WallSections(roomSize, ThirdRoomWestOpening)
    ensures MinX(r.0) == MinX(r.1) == -roomSize / 2.0
    ensures r.0.size.x == r.1.size.x == WallThickness
    ensures FloorToCeiling(r.0) && FloorToCeiling(r.1)
  {
    var halfSize := roomSize / 2.0;
    var openingWidth := ThirdRoomWestOpening;
    var sectionWidth := (roomSize - openingWidth) / 2.0;
    var size := Vec3(WallThickness, CeilingHeight, sectionWidth);
    (Box(Vec3(-halfSize + WallThickness / 2.0, CeilingHeight / 2.0, -openingWidth / 2.0 - sectionWidth / 2.0), size),
     Box(Vec3(-halfSize + WallThickness / 2.0, CeilingHeight / 2.0, openingWidth / 2.0 + sectionWidth / 2.0), size))
  }

  // ---------------------------------------------------------------------------
  // The main room
  // ---------------------------------------------------------------------------

  /// The main room is 30 wide; its entrance and its corridor opening are 12.
  const MainRoomSize: real := 30.0
  const MainRoomOpening: real := 12.0

  /// The east and west walls, solid, flush with x = ±15.
  const MainEastWall: Box := Box(Vec3(15.0 - WallThickness / 2.0, CeilingHeight / 2.0, 0.0), Vec3(WallThickness, CeilingHeight, 30.0))
  const MainWestWall: Box := Box(Vec3(-15.0 + WallThickness / 2.0, CeilingHeight / 2.0, 0.0), Vec3(WallThickness, CeilingHeight, 30.0))

  /// The north and south walls, each written out as two sections 9 wide at
  /// x = ±10.5.
  const MainNorthWall: (Box, Box) :=
    (Box(Vec3(-10.5, CeilingHeight / 2.0, -15.0 + WallThickness / 2.0), Vec3(9.0, CeilingHeight, WallThickness)),
     Box(Vec3(10.5, CeilingHeight / 2.0, -15.0 + WallThickness / 2.0), Vec3(9.0, CeilingHeight, WallThickness)))
  const MainSouthWall: (Box, Box) :=
    (Box(Vec3(-10.5, CeilingHeight / 2.0, 15.0 - WallThickness / 2.0), Vec3(9.0, CeilingHeight, WallThickness)),
     Box(Vec3(10.5, CeilingHeight / 2.0, 15.0 - WallThickness / 2.0), Vec3(9.0, CeilingHeight, WallThickness)))

  /// The main room's walls enclose [-15, 15]² with their outer faces and
  /// [-14.7, 14.7]² with their inner faces; its north and south walls are
  /// the sections of a 30-long wall with an opening of 12.
  lemma MainRoomWalls()
    ensures MainEastWall.centre.x == 15.0 - 0.15 && MainWestWall.centre.x == -(15.0 - 0.15)
    ensures MaxX(MainEastWall) == 15.0 && MinX(MainWestWall) == -15.0
    ensures MinX(MainEastWall) == 14.7 && MaxX(MainWestWall) == -14.7
    ensures (AlongX(MainNorthWall.0), AlongX(MainNorthWall.1)) == WallSections(MainRoomSize, MainRoomOpening)
    ensures (AlongX(MainSouthWall.0), AlongX(MainSouthWall.1)) == WallSections(MainRoomSize, MainRoomOpening)
    ensures MinZ(MainNorthWall.0) == -15.0 && MaxZ(MainNorthWall.0) == -14.7
    ensures MaxZ(MainSouthWall.0) == 15.0 && MinZ(MainSouthWall.0) == 14.7
  {
  }

  /// Every framed painting on a wall of the main room hangs with the back
  /// of its frame 0.015 in front of the wall's inner face: the gallery
  /// positions are on the inner faces, and the frame is pushed into the
  /// room by half its depth and that clearance.
  lemma MainRoomFramesClearWalls(i: nat)
    requires i < |MainGallery|
    ensures var p := MainGallery[i].position;
            var f := PlaceFramed(p).frame;
              (WallOf(p) == East ==> f.x + FrameDepth / 2.0 == MinX(MainEastWall) - 0.015) &&
              (WallOf(p) == West ==> f.x - FrameDepth / 2.0 == MaxX(MainWestWall) + 0.015) &&
              (WallOf(p) == North ==> f.z - FrameDepth / 2.0 == MaxZ(MainNorthWall.0) + 0.015)
  {
    var p := MainGallery[i].position;
    PaintingInFrontOfWall(p);
  }

  // ---------------------------------------------------------------------------
  // Corridors
  // ---------------------------------------------------------------------------

  /// The main corridor runs north from the main room, 20 long and 12 wide.
  const MainCorridorLength: real := 20.0
  const MainCorridorWidth: real := 12.0
  const MainCorridorCentreZ: real := -15.0 - MainCorridorLength / 2.0

  /// The third room's corridor runs east from the second room, 15 long and
  /// 8 wide, in the second room's frame.
  const ThirdCorridorLength: real := 15.0
  const ThirdCorridorWidth: real := 8.0
  const ThirdCorridorCentreX: real := 10.0 + ThirdCorridorLength / 2.0

  /// Where the rooms and corridors are placed in the world.
  const SecondRoomCentreZ: real := -45.0
  const ThirdRoomCentreX: real := 32.5

  /// `create_corridor_walls`: the left and right walls of a corridor
  /// running along Z, each a thickness inside the corridor's edge.
  function CorridorWalls(width: real, length: real, centreZ: real): (r: (Box, Box))
    ensures r.1.centre.x == width / 2.0 - 0.15 && r.0.centre.x == -r.1.centre.x
    ensures MinX(r.0) == -width / 2.0 && MaxX(r.1) == width / 2.0
    ensures MaxX(r.0) == -width / 2.0 + WallThickness && MinX(r.1) == width / 2.0 - WallThickness
    ensures MinZ(r.0) == MinZ(r.1) == centreZ - length / 2.0
    ensures MaxZ(r.0) == MaxZ(r.1) == centreZ + length / 2.0
    ensures FloorToCeiling(r.0) && FloorToCeiling(r.1)
  {
    var size := Vec3(WallThickness, CeilingHeight, length);
    (Box(Vec3(-width / 2.0 + WallThickness / 2.0, CeilingHeight / 2.0, centreZ), size),
     Box(Vec3(width / 2.0 - WallThickness / 2.0, CeilingHeight / 2.0, centreZ), size))
  }

  /// The north and south walls of the third room's corridor, which runs
  /// along X.
  function ThirdCorridorWalls(width: real, length: real, centreX: real): (r: (Box, Box))
    ensures r.1.centre.z == width / 2.0 - 0.15 && r.0.centre.z == -r.1.centre.z
    ensures MinZ(r.0) == -width / 2.0 && MaxZ(r.1) == width / 2.0
    ensures MaxZ(r.0) == -width / 2.0 + WallThickness && MinZ(r.1) == width / 2.0 - WallThickness
    ensures MinX(r.0) == MinX(r.1) == centreX - length / 2.0
    ensures MaxX(r.0) == MaxX(r.1) == centreX + length / 2.0
    ensures FloorToCeiling(r.0) && FloorToCeiling(r.1)
  {
    var size := Vec3(length, CeilingHeight, WallThickness);
    (Box(Vec3(centreX, CeilingHeight / 2.0, -width / 2.0 + WallThickness / 2.0), size),
     Box(Vec3(centreX, CeilingHeight / 2.0, width / 2.0 - WallThickness / 2.0), size))
  }

  /// The openings are as wide as the corridors through them: the outer
  /// faces of each corridor's walls meet the edges of the openings at both
  /// ends, and the corridors run exactly from one room's wall to the next.
  lemma CorridorsJoinRooms()
    ensures SecondRoomSouthOpening == MainRoomOpening == MainCorridorWidth
    ensures SecondRoomEastOpening == ThirdRoomWestOpening == ThirdCorridorWidth
    ensures var c := CorridorWalls(MainCorridorWidth, MainCorridorLength, MainCorridorCentreZ);
            var n := WallSections(MainRoomSize, MainRoomOpening);
            var s := WallSections(SecondRoomSize, SecondRoomSouthOpening);
              MinX(c.0) == Hi(n.0) == Hi(s.0) && MaxX(c.1) == Lo(n.1) == Lo(s.1) &&
              MaxZ(c.0) == -MainRoomSize / 2.0 &&
              MinZ(c.0) == SecondRoomCentreZ + SecondRoomSize / 2.0
    ensures var c := ThirdCorridorWalls(ThirdCorridorWidth, ThirdCorridorLength, ThirdCorridorCentreX);
            var e := WallSections(SecondRoomSize, SecondRoomEastOpening);
            var w := WallSections(ThirdRoomSize, ThirdRoomWestOpening);
              MinZ(c.0) == Hi(e.0) == Hi(w.0) && MaxZ(c.1) == Lo(e.1) == Lo(w.1) &&
              MinX(c.0) == SecondRoomSize / 2.0 &&
              MaxX(c.0) == ThirdRoomCentreX - ThirdRoomSize / 2.0
  {
  }

  /// The two gallery paintings in the corridor are configured on the
  /// centre lines of the corridor walls, not on their inner faces.
  lemma CorridorPaintingsOnWallCentres()
    ensures var c := CorridorWalls(MainCorridorWidth, MainCorridorLength, MainCorridorCentreZ);
              MainGallery[1].position.x == c.0.centre.x && MainGallery[2].position.x == c.1.centre.x &&
              MinZ(c.0) < MainGallery[1].position.z < MaxZ(c.0)
  {
  }

  // ---------------------------------------------------------------------------
  // The sculpture garden's pedestals
  // ---------------------------------------------------------------------------

  /// `create_corner_pedestals`: four cylinders of radius 1.2 and height 1.2.
  const CornerPedestals: seq<Vec3> := [
    Vec3(-10.5, 0.6, -10.5), Vec3(10.5, 0.6, -10.5), Vec3(-10.5, 0.6, 10.5), Vec3(10.5, 0.6, 10.5)
  ]
  const PedestalRadius: real := 1.2
  const PedestalHeight: real := 1.2

  function PedestalTop(p: Vec3): (r: real)
    ensures r == p.y + PedestalHeight / 2.0
  {
    p.y + PedestalHeight / 2.0
  }

  /// Each sculpture of the garden stands over the centre of its corner
  /// pedestal, above that pedestal's top, and within the main room.
  lemma SculpturesOnPedestals(i: nat)
    requires i < |SculptureGarden|
    ensures |CornerPedestals| == |SculptureGarden|
    ensures SculptureGarden[i].position.x == CornerPedestals[i].x
    ensures SculptureGarden[i].position.z == CornerPedestals[i].z
    ensures SculptureGarden[i].position.y > PedestalTop(CornerPedestals[i]) == 1.2
    ensures MaxX(MainWestWall) < CornerPedestals[i].x - PedestalRadius
    ensures CornerPedestals[i].x + PedestalRadius < MinX(MainEastWall)
  {
  }

  // ---------------------------------------------------------------------------
  // The morphing display's rings
  // ---------------------------------------------------------------------------

  /// A sculpture on a ring: its angle as a fraction of a full turn, its
  /// orbit radius, its height and its `MorphingSculpture` parameters.
  datatype RingMember = RingMember(turn: real, radius: real, y: real, speed: real, amplitude: real)

  /// Fragment `i` of the mandala: angle i·TAU/8 on radius 3.2, high on even
  /// indices and low on odd ones.
  function MandalaFragment(i: nat): (m: RingMember)
    requires i < 8
    ensures 0.0 <= m.turn < 1.0 && m.radius == 3.2 && m.amplitude == 0.15
    ensures 1.5 <= m.speed <= 2.55
  {
    RingMember(i as real / 8.0, 3.2, if i % 2 == 0 then 3.5 else 1.5, 1.5 + i as real * 0.15, 0.15)
  }

  /// Solid `i` of the platonic ring at angle i·TAU/5 on radius 2; its
  /// height is 2.5 plus 0.3 times the sine sample `h` of i·0.3.
  function PlatonicSolid(i: nat, h: real): (m: RingMember)
    requires i < 5 && -1.0 <= h <= 1.0
    ensures 0.0 <= m.turn < 1.0 && m.radius == 2.0 && m.amplitude == 0.25
    ensures 2.2 <= m.y <= 2.8
    ensures 1.0 <= m.speed <= 1.8
  {
    RingMember(i as real / 5.0, 2.0, 2.5 + h * 0.3, 1.0 + i as real * 0.2, 0.25)
  }

  const Mandala: seq<RingMember> := seq(8, i requires 0 <= i < 8 => MandalaFragment(i))

  /// The mandala has eight fragments evenly spaced around a full turn,
  /// whose heights alternate between 3.5 and 1.5 starting high, and whose
  /// speeds rise by 0.15 from 1.5.
  lemma MandalaRing()
    ensures |Mandala| == 8 && Mandala[0].turn == 0.0 && Mandala[0].y == 3.5 && Mandala[0].speed == 1.5
    ensures forall i :: 0 <= i < 7 ==>
              Mandala[i + 1].turn == Mandala[i].turn + 1.0 / 8.0 &&
              Mandala[i + 1].speed == Mandala[i].speed + 0.15 &&
              Mandala[i].y + Mandala[i + 1].y == 5.0 && Mandala[i].y != Mandala[i + 1].y
    ensures Mandala[7].turn + 1.0 / 8.0 == 1.0
  {
    forall i | 0 <= i < 7
      ensures Mandala[i + 1].turn == Mandala[i].turn + 1.0 / 8.0
      ensures Mandala[i + 1].speed == Mandala[i].speed + 0.15
      ensures Mandala[i].y + Mandala[i + 1].y == 5.0 && Mandala[i].y != Mandala[i + 1].y
    {
      NeighbourFragments(i);
    }
  }

  /// Neighbouring fragments differ by an eighth of a turn and 0.15 in speed,
  /// and one is high where the other is low.
  lemma NeighbourFragments(i: nat)
    requires i < 7
    ensures MandalaFragment(i + 1).turn == MandalaFragment(i).turn + 1.0 / 8.0
    ensures MandalaFragment(i + 1).speed == MandalaFragment(i).speed + 0.15
    ensures MandalaFragment(i).y + MandalaFragment(i + 1).y == 5.0
  {
    assert (i + 1) % 2 == 0 <==> i % 2 != 0;
  }

  /// The ring position of a member, from the cosine `c` and sine `s` of its
  /// angle; it lies on its orbit when (c, s) is on the unit circle.
  function RingPosition(m: RingMember, c: real, s: real): (p: Vec3)
    ensures p.y == m.y
    ensures c * c + s * s == 1.0 ==> p.x * p.x + p.z * p.z == m.radius * m.radius
  {
    var x := c * m.radius;
    var z := s * m.radius;
    assert x * x + z * z == (c * c + s * s) * (m.radius * m.radius);
    Vec3(x, m.y, z)
  }
}
