// The museum's artworks: the central installation's material cycler, the
// painting click that starts a conversation, and the placement of framed
// paintings on the walls.

module Artworks {
  import opened Vectors
  import opened Sequences
  import opened MuseumConfig
  import opened Dialogue

  // ---------------------------------------------------------------------------
  // Material cycler
  // ---------------------------------------------------------------------------

  /// The index after a click on a cycler of `n` materials.
  function NextIndex(i: nat, n: nat): (r: nat)
    requires n > 0
    ensures r < n
    ensures i < n - 1 ==> r == i + 1
    ensures i == n - 1 ==> r == 0
  {
    (i + 1) % n
  }

  /// The index after `k` clicks.
  function Clicks(i: nat, k: nat, n: nat): (r: nat)
    requires n > 0
    ensures r < n || (k == 0 && r == i)
    decreases k
  {
    if k == 0 then i else NextIndex(Clicks(i, k - 1, n), n)
  }

  /// Clicks that stay below the last material advance the index by one each.
  lemma {:induction false} ClicksBelow(i: nat, k: nat, n: nat)
    requires n > 0 && i + k < n
    ensures Clicks(i, k, n) == i + k
    decreases k
  {
    if k > 0 {
      ClicksBelow(i, k - 1, n);
    }
  }

  /// Clicking `a` times and then `b` times is clicking `a + b` times.
  lemma {:induction false} ClicksCompose(i: nat, a: nat, b: nat, n: nat)
    requires n > 0
    ensures Clicks(i, a + b, n) == Clicks(Clicks(i, a, n), b, n)
    decreases b
  {
    if b > 0 {
      ClicksCompose(i, a, b - 1, n);
    }
  }

  /// As many clicks as there are materials restore the shown material: the
  /// index climbs to the last material, wraps to the first and climbs back.
  lemma CycleRestores(i: nat, n: nat)
    requires n > 0 && i < n
    ensures Clicks(i, n, n) == i
  {
    ClicksBelow(i, n - 1 - i, n);
    ClicksCompose(i, n - 1 - i, 1, n);
    ClicksCompose(i, n - i, i, n);
    ClicksBelow(0, i, n);
  }

  /// The shown material is periodic in the number of clicks, with period
  /// the number of materials.
  lemma ClicksPeriodic(i: nat, k: nat, n: nat)
    requires n > 0 && i < n
    ensures Clicks(i, k + n, n) == Clicks(i, k, n)
  {
    ClicksCompose(i, k, n, n);
    if k > 0 {
      CycleRestores(Clicks(i, k, n), n);
    } else {
      CycleRestores(i, n);
    }
  }

  /// The central installation cycles through five materials.
  const InstallationMaterials: nat := 5

  /// The installation's `MaterialCycler` and the material the entity shows;
  /// materials are asset handles, modelled as numbers.
  class MaterialCycler {
    var materials: seq<nat>
    var currentIndex: nat
    var shown: nat

    ghost predicate Valid()
      reads this
    {
      currentIndex < |materials| && shown == materials[currentIndex]
    }

    /// Spawned showing the first material.
    constructor(ms: seq<nat>)
      requires |ms| > 0
      ensures materials == ms && currentIndex == 0 && shown == ms[0] && Valid()
    {
      materials := ms;
      currentIndex := 0;
      shown := ms[0];
    }

    /// `on_sphere_click`: advance the index and show that material.
    method Click()
      requires |materials| > 0
      modifies this
      ensures materials == old(materials)
      ensures currentIndex == NextIndex(old(currentIndex), |materials|)
      ensures shown == materials[currentIndex] && Valid()
    {
      currentIndex := (currentIndex + 1) % |materials|;
      shown := materials[currentIndex];
    }
  }

  /// Five clicks on the installation bring back the material it showed.
  lemma FiveClicksRestore(i: nat)
    requires i < InstallationMaterials
    ensures Clicks(i, InstallationMaterials, InstallationMaterials) == i
  {
    CycleRestores(i, InstallationMaterials);
  }

  // ---------------------------------------------------------------------------
  // Paintings and their dialogue
  // ---------------------------------------------------------------------------

  /// The `PaintingDialogue` component of a painting.
  datatype PaintingDialogue = PaintingDialogue(nodeName: string)

  /// `on_painting_click`: start the clicked painting's conversation unless
  /// one is already running; a click on anything without a
  /// `PaintingDialogue` does nothing.
  method OnPaintingClick(world: DialogueRunners, clicked: Option<PaintingDialogue>)
    modifies world
    ensures clicked.None? ==> world.runners == old(world.runners)
    ensures clicked.Some? ==> world.runners == StartDialogue(old(world.runners), clicked.value.nodeName).1
    ensures old(world.AtMostOneRunning()) ==> world.AtMostOneRunning()
  {
    if clicked.Some? {
      var _ := world.Start(clicked.value.nodeName);
    }
  }

  // ---------------------------------------------------------------------------
  // Wall placement of framed paintings
  // ---------------------------------------------------------------------------

  const FrameDepth: real := 0.15
  const PaintingArtDepth: real := 0.03
  /// How far the frame sits off the wall, and the painting off the frame.
  const WallClearance: real := FrameDepth / 2.0 + 0.015
  const PaintingOffset: real := FrameDepth / 2.0 + PaintingArtDepth / 2.0

  /// The wall a painting position is recognised on, tested in the source's
  /// order: beyond z = -13.5 (with the two corridor walls carved out by x),
  /// beyond z = 13.5, beyond x = 13.5, beyond x = -13.5, else none.
  datatype Wall = RightCorridor | LeftCorridor | North | South | East | West | Unrecognised

  function WallOf(p: Vec3): (w: Wall)
    ensures w == RightCorridor <==> p.z < -13.5 && 5.0 < p.x < 7.0
    ensures w == LeftCorridor <==> p.z < -13.5 && -7.0 < p.x < -5.0
    ensures w == North <==> p.z < -13.5 && !(5.0 < p.x < 7.0) && !(-7.0 < p.x < -5.0)
    ensures w == South <==> -13.5 <= p.z && p.z > 13.5
    ensures w == East <==> -13.5 <= p.z <= 13.5 && p.x > 13.5
    ensures w == West <==> -13.5 <= p.z <= 13.5 && p.x < -13.5
    ensures w == Unrecognised <==> -13.5 <= p.z <= 13.5 && -13.5 <= p.x <= 13.5
  {
    if p.z < -13.5 then
      if p.x > 5.0 && p.x < 7.0 then RightCorridor
      else if p.x < -5.0 && p.x > -7.0 then LeftCorridor
      else North
    else if p.z > 13.5 then South
    else if p.x > 13.5 then East
    else if p.x < -13.5 then West
    else Unrecognised
  }

  /// The vector `d` from wall `w` into the room, as the source writes its
  /// offsets: along -X off the east and right corridor walls, +X off the
  /// west and left corridor walls, +Z off the north wall (and by default),
  /// -Z off the south wall.
  function Offset(w: Wall, d: real): Vec3 {
    match w
    case RightCorridor => Vec3(-d, 0.0, 0.0)
    case LeftCorridor => Vec3(d, 0.0, 0.0)
    case North => Vec3(0.0, 0.0, d)
    case South => Vec3(0.0, 0.0, -d)
    case East => Vec3(-d, 0.0, 0.0)
    case West => Vec3(d, 0.0, 0.0)
    case Unrecognised => Vec3(0.0, 0.0, d)
  }

  /// The unit direction from the wall into the room.
  function InwardNormal(w: Wall): Vec3 {
    Offset(w, 1.0)
  }

  /// The rotations about Y the source uses: none, +π/2, -π/2 and π.
  datatype Rotation = Identity | PlusQuarter | MinusQuarter | HalfTurn

  /// Where a rotation sends the painting's front (local +Z): a turn of θ
  /// about Y sends it to (sin θ, 0, cos θ).
  function Facing(q: Rotation): Vec3 {
    match q
    case Identity => Vec3(0.0, 0.0, 1.0)
    case PlusQuarter => Vec3(1.0, 0.0, 0.0)
    case MinusQuarter => Vec3(-1.0, 0.0, 0.0)
    case HalfTurn => Vec3(0.0, 0.0, -1.0)
  }

  /// The rotation the source gives each wall: π/2 for the right corridor
  /// wall and -π/2 for the left one, just as for the west and east walls of
  /// the main room.
  function RotationAsWritten(w: Wall): Rotation {
    match w
    case RightCorridor => PlusQuarter
    case LeftCorridor => MinusQuarter
    case North => Identity
    case South => HalfTurn
    case East => MinusQuarter
    case West => PlusQuarter
    case Unrecognised => Identity
  }

  /// On the corridor walls the rotation as written turns the painting's
  /// front toward the wall, against both its offset and the intent "faces
  /// west toward corridor center": the right corridor painting of the
  /// gallery, "Color Study #47" at (5.85, 3, -25), shows it.
  lemma CorridorFacesWall(w: Wall)
    requires w == RightCorridor || w == LeftCorridor
    ensures Facing(RotationAsWritten(w)) == Offset(w, -1.0)
    ensures Facing(RotationAsWritten(w)) != InwardNormal(w)
  {
  }

  /// The rotation that faces each painting into the room: the corridor
  /// walls take the rotation of the room wall they run parallel to.
  function RotationFor(w: Wall): (q: Rotation)
    ensures Facing(q) == InwardNormal(w)
  {
    match w
    case RightCorridor => MinusQuarter
    case LeftCorridor => PlusQuarter
    case North => Identity
    case South => HalfTurn
    case East => MinusQuarter
    case West => PlusQuarter
    case Unrecognised => Identity
  }

  /// Where `create_framed_painting` puts a frame and its painting.
  datatype Placement = Placement(rotation: Rotation, frame: Vec3, painting: Vec3)

  /// The frame pushed `WallClearance` off wall `w` and the painting a
  /// further `PaintingOffset`, both into the room, both turned by `q`.
  function PlaceOn(w: Wall, p: Vec3, q: Rotation): (r: Placement)
    ensures r.rotation == q
    ensures Sub(r.frame, p) == Offset(w, 0.09)
    ensures Sub(r.painting, r.frame) == Offset(w, 0.09)
    ensures r.painting == Add(p, Offset(w, 0.18))
  {
    var frame := Add(p, Offset(w, WallClearance));
    Placement(q, frame, Add(frame, Offset(w, PaintingOffset)))
  }

  /// `create_framed_painting` as written: the wall the position is
  /// recognised on decides the offsets and the rotation. The painting faces
  /// into the room on the room walls, and toward the wall it hangs on on
  /// the two corridor walls.
  function PlaceFramed(p: Vec3): (r: Placement)
    ensures var w := WallOf(p);
            Sub(r.painting, p) == Offset(w, 0.18) && Sub(r.frame, p) == Offset(w, 0.09)
    ensures r.frame.y == p.y && r.painting.y == p.y
    ensures var w := WallOf(p);
            w != RightCorridor && w != LeftCorridor ==> Facing(r.rotation) == InwardNormal(w)
    ensures var w := WallOf(p);
            w == RightCorridor || w == LeftCorridor ==> Facing(r.rotation) == Offset(w, -1.0)
  {
    var w := WallOf(p);
    PlaceOn(w, p, RotationAsWritten(w))
  }

  /// The corrected placement: the same frame and painting positions, with
  /// every painting, the corridor ones included, facing into the room.
  function PlaceFramedCorrected(p: Vec3): (r: Placement)
    ensures r.frame == PlaceFramed(p).frame && r.painting == PlaceFramed(p).painting
    ensures Facing(r.rotation) == InwardNormal(WallOf(p))
  {
    var w := WallOf(p);
    PlaceOn(w, p, RotationFor(w))
  }

  /// The correction changes the rotation on the two corridor walls and
  /// nothing anywhere else.
  lemma CorrectionOnlyOnCorridors(p: Vec3)
    ensures WallOf(p) != RightCorridor && WallOf(p) != LeftCorridor ==> PlaceFramedCorrected(p) == PlaceFramed(p)
    ensures WallOf(p) == RightCorridor || WallOf(p) == LeftCorridor ==>
              PlaceFramedCorrected(p).rotation != PlaceFramed(p).rotation
  {
  }

  /// The painting ends up 0.18 into the room from where it was configured,
  /// on the side the wall faces.
  lemma PaintingInFrontOfWall(p: Vec3)
    ensures WallOf(p) == East ==> PlaceFramed(p).painting == Vec3(p.x - 0.18, p.y, p.z)
    ensures WallOf(p) == West ==> PlaceFramed(p).painting == Vec3(p.x + 0.18, p.y, p.z)
    ensures WallOf(p) == North ==> PlaceFramed(p).painting == Vec3(p.x, p.y, p.z + 0.18)
    ensures WallOf(p) == South ==> PlaceFramed(p).painting == Vec3(p.x, p.y, p.z - 0.18)
    ensures WallOf(p) == RightCorridor ==> PlaceFramed(p).painting == Vec3(p.x - 0.18, p.y, p.z)
    ensures WallOf(p) == LeftCorridor ==> PlaceFramed(p).painting == Vec3(p.x + 0.18, p.y, p.z)
  {
  }

  /// Every gallery position lands on a named wall, never the default.
  lemma GalleryOnNamedWalls()
    ensures forall i :: 0 <= i < |MainGallery| ==> WallOf(MainGallery[i].position) != Unrecognised
    ensures WallOf(MainGallery[1].position) == LeftCorridor
    ensures WallOf(MainGallery[2].position) == RightCorridor
  {
  }
}
