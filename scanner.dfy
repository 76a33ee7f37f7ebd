// The alien planet's scanner: a ray cast from the camera, with the player
// left out, decides what every scanner text reads. The ray cast itself is
// the physics engine's and is a parameter of the model; entities are
// indices, and the `Scannable` and `Name` queries are maps from them.

module Scanner {
  import opened Vectors
  import opened Sequences

  /// A `Scannable` component: the name and description a scan shows.
  datatype Scannable = Scannable(name: string, description: string)

  /// The camera's global transform, as far as the scan uses it.
  datatype Pose = Pose(translation: Vec3, forward: Vec3)

  /// A `cast_ray` request: origin, direction, maximum distance, whether
  /// shapes are solid, and the entities the filter excludes.
  datatype Ray = Ray(origin: Vec3, direction: Vec3, maxDistance: real, solid: bool, excluded: set<nat>)

  const MaxScanDistance: real := 100.0
  const Scanning: string := "Scanning..."
  const UnknownSignal: string := "Unknown Signal"

  /// A `ScannerText` node.
  class ScannerText {
    var text: string

    /// `setup_ui`: the scanner starts out scanning.
    constructor()
      ensures text == "Scanning..."
    {
      text := Scanning;
    }
  }

  /// The ray `scan_system` casts: from the camera along its forward
  /// direction, 100 long, solid, excluding the first player if there is one.
  function ScanRay(camera: Pose, players: seq<nat>): (r: Ray)
    ensures r.origin == camera.translation && r.direction == camera.forward
    ensures r.maxDistance == 100.0 && r.solid
    ensures |players| > 0 ==> r.excluded == {players[0]}
    ensures |players| == 0 ==> r.excluded == {}
  {
    var excluded := if |players| > 0 then {players[0]} else {};
    Ray(camera.translation, camera.forward, MaxScanDistance, true, excluded)
  }

  /// What the scanner reads for the ray's hit: a scannable's name and
  /// description, else an entity's name, else "Unknown Signal"; without a
  /// hit, "Scanning...".
  function ScanLabel(hit: Option<nat>, scannables: map<nat, Scannable>, names: map<nat, string>): (r: string)
    ensures hit.None? <==> r == "Scanning..."
    ensures hit.Some? && hit.value in scannables ==>
              r == "Target: " + scannables[hit.value].name + "\n" + scannables[hit.value].description
    ensures hit.Some? && hit.value !in scannables && hit.value in names ==> r == "Object: " + names[hit.value]
    ensures hit.Some? && hit.value !in scannables && hit.value !in names ==> r == "Unknown Signal"
  {
    match hit
    case None => Scanning
    case Some(e) =>
      if e in scannables then
        var r := "Target: " + scannables[e].name + "\n" + scannables[e].description;
        assert r[0] == 'T';
        r
      else if e in names then
        var r := "Object: " + names[e];
        assert r[0] == 'O';
        r
      else
        UnknownSignal
  }

  /// A scannable entity shows its scan text whatever name it carries.
  lemma ScannableFirst(e: nat, scannables: map<nat, Scannable>, names: map<nat, string>, others: map<nat, string>)
    requires e in scannables
    ensures ScanLabel(Some(e), scannables, names) == ScanLabel(Some(e), scannables, others)
  {
  }

  /// The text begins with "Target: " exactly when the ray hit a scannable
  /// entity.
  lemma TargetIffScannable(hit: Option<nat>, scannables: map<nat, Scannable>, names: map<nat, string>)
    ensures var r := ScanLabel(hit, scannables, names);
            (hit.Some? && hit.value in scannables) <==> (|r| >= 8 && r[..8] == "Target: ")
  {
    var r := ScanLabel(hit, scannables, names);
    if hit.Some? && hit.value in scannables {
      var sc := scannables[hit.value];
      assert r == "Target: " + (sc.name + "\n" + sc.description);
    } else {
      assert r[0] != 'T';
      if |r| >= 8 {
        assert r[..8][0] == r[0];
      }
    }
  }

  /// The physics engine honours the filter: a cast never reports an
  /// excluded entity.
  ghost predicate HonoursFilter(cast: Ray -> Option<nat>) {
    forall r :: cast(r).Some? ==> cast(r).value !in r.excluded
  }

  /// With a player present, the scanner never reports the player itself.
  lemma PlayerNeverScanned(camera: Pose, players: seq<nat>, cast: Ray -> Option<nat>)
    requires HonoursFilter(cast) && |players| > 0
    ensures cast(ScanRay(camera, players)) != Some(players[0])
  {
    var r := ScanRay(camera, players);
    assert players[0] in r.excluded;
  }

  /// One of the system's loops over the scanner texts: every text gets `s`.
  method SetAll(texts: seq<ScannerText>, s: string)
    modifies set t | t in texts
    ensures forall t :: t in texts ==> t.text == s
  {
    var i := 0;
    while i < |texts|
      invariant 0 <= i <= |texts|
      invariant forall j :: 0 <= j < i ==> texts[j].text == s
    {
      texts[i].text := s;
      i := i + 1;
    }
  }

  /// `scan_system`. Without a camera nothing changes; otherwise every
  /// scanner text reads the label for what the ray from the first camera
  /// hits.
  method ScanSystem(cameras: seq<Pose>, players: seq<nat>, cast: Ray -> Option<nat>,
                    scannables: map<nat, Scannable>, names: map<nat, string>, texts: seq<ScannerText>)
    modifies set t | t in texts
    ensures |cameras| == 0 ==> forall t :: t in texts ==> t.text == old(t.text)
    ensures |cameras| > 0 ==>
              forall t :: t in texts ==> t.text == ScanLabel(cast(ScanRay(cameras[0], players)), scannables, names)
  {
    if |cameras| == 0 {
      return;
    }
    var transform := cameras[0];
    var excluded: set<nat> := {};
    if |players| > 0 {
      excluded := {players[0]};
    }
    var hit := cast(Ray(transform.translation, transform.forward, MaxScanDistance, true, excluded));
    match hit {
      case Some(entity) =>
        if entity in scannables {
          var scannable := scannables[entity];
          SetAll(texts, "Target: " + scannable.name + "\n" + scannable.description);
        } else if entity in names {
          SetAll(texts, "Object: " + names[entity]);
        } else {
          SetAll(texts, UnknownSignal);
        }
      case None =>
        SetAll(texts, Scanning);
    }
  }
}
