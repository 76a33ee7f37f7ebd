// Mesh picking's on-screen label: the first pointer with a nearest hit
// names what it is looking at, with the entity's hint when it has one.
// Entities are indices; the `Name` and `Hint` queries are maps from them.

module Picking {
  import opened Sequences

  /// A `Hint` component: what happens when the entity is picked.
  datatype Hint = Hint(text: string)

  /// `Hint::new`: the text is stored as given.
  function NewHint(text: string): (h: Hint)
    ensures h.text == text
  {
    Hint(text)
  }

  const NoEntityPicked: string := "No entity picked"
  const LookingAt: string := "Looking at: "

  /// The `PickingDisplay` text node.
  class PickingDisplay {
    var text: string

    /// `setup_picking_ui`: the display starts with nothing picked.
    constructor()
      ensures text == "No entity picked"
    {
      text := NoEntityPicked;
    }
  }

  /// The position of the first pointer that has a nearest hit, or the
  /// number of pointers when none has.
  function FirstHit(pointers: seq<Option<nat>>): (r: nat)
    ensures r <= |pointers|
    ensures forall j :: 0 <= j < r ==> pointers[j].None?
    ensures r < |pointers| ==> pointers[r].Some?
  {
    if |pointers| == 0 then 0
    else if pointers[0].Some? then 0
    else
      var r := 1 + FirstHit(pointers[1..]);
      assert forall j :: 1 <= j < r ==> pointers[j] == pointers[1..][j - 1];
      r
  }

  /// What is written after "Looking at: " for a hit entity: its name, with
  /// " - " and the hint after it when it has a hint; "unknown" when it has
  /// no name, whether or not it has a hint.
  function Label(e: nat, names: map<nat, string>, hints: map<nat, Hint>): (r: string)
    ensures e in names ==> |names[e]| <= |r| && r[..|names[e]|] == names[e]
    ensures e in names && e in hints ==> r[|names[e]|..] == " - " + hints[e].text
    ensures e in names && e !in hints ==> r == names[e]
    ensures e !in names ==> r == "unknown"
  {
    if e in names then
      if e in hints then names[e] + " - " + hints[e].text else names[e]
    else "unknown"
  }

  /// The label the pointers pick, if any pointer hits something.
  function Picked(pointers: seq<Option<nat>>, names: map<nat, string>, hints: map<nat, Hint>): Option<string> {
    var i := FirstHit(pointers);
    if i == |pointers| then None else Some(Label(pointers[i].value, names, hints))
  }

  /// The display text for a picked label: "Looking at: " and the label, or
  /// "No entity picked".
  function DisplayText(picked: Option<string>): (r: string)
    ensures picked.None? <==> r == "No entity picked"
    ensures picked.Some? ==> r == "Looking at: " + picked.value
  {
    match picked
    case Some(name) =>
      var r := LookingAt + name;
      assert r[0] == 'L';
      r
    case None => NoEntityPicked
  }

  /// The search loop of `update_picking_display`: pointers are tried in
  /// order and the loop stops at the first one with a nearest hit.
  method FindPicked(pointers: seq<Option<nat>>, names: map<nat, string>, hints: map<nat, Hint>)
    returns (picked: Option<string>)
    ensures picked == Picked(pointers, names, hints)
  {
    picked := None;
    var i := 0;
    while i < |pointers|
      invariant 0 <= i <= |pointers|
      invariant forall j :: 0 <= j < i ==> pointers[j].None?
      invariant picked == None
    {
      if pointers[i].Some? {
        var entity := pointers[i].value;
        if entity in names {
          var txt := names[entity];
          if entity in hints {
            txt := txt + " - ";
            txt := txt + hints[entity].text;
          }
          picked := Some(txt);
        } else {
          picked := Some("unknown");
        }
        assert FirstHit(pointers) == i;
        return;
      }
      i := i + 1;
    }
    assert FirstHit(pointers) == |pointers|;
  }

  /// `update_picking_display`: the label is written to the display when
  /// there is exactly one; otherwise no display is touched.
  method UpdatePickingDisplay(pointers: seq<Option<nat>>, names: map<nat, string>, hints: map<nat, Hint>,
                              displays: seq<PickingDisplay>)
    modifies set d | d in displays
    ensures |displays| == 1 ==> displays[0].text == DisplayText(Picked(pointers, names, hints))
    ensures |displays| != 1 ==> forall d :: d in displays ==> d.text == old(d.text)
  {
    var picked := FindPicked(pointers, names, hints);
    if |displays| == 1 {
      var text := displays[0];
      match picked {
        case Some(name) => text.text := LookingAt + name;
        case None => text.text := NoEntityPicked;
      }
    }
  }

  /// The display reads "No entity picked" exactly when no pointer has a
  /// nearest hit.
  lemma NoHitIffDefault(pointers: seq<Option<nat>>, names: map<nat, string>, hints: map<nat, Hint>)
    ensures DisplayText(Picked(pointers, names, hints)) == "No entity picked" <==>
            forall i :: 0 <= i < |pointers| ==> pointers[i].None?
  {
    var r := FirstHit(pointers);
    if r < |pointers| {
      assert pointers[r].Some?;
    }
  }

  /// Only the first hit counts: pointers without a hit before it are
  /// skipped, and whatever the pointers after it hit is ignored.
  lemma OnlyFirstHitCounts(misses: seq<Option<nat>>, e: nat, rest: seq<Option<nat>>,
                           names: map<nat, string>, hints: map<nat, Hint>)
    requires forall i :: 0 <= i < |misses| ==> misses[i].None?
    ensures Picked(misses + [Some(e)] + rest, names, hints) == Some(Label(e, names, hints))
  {
    var p := misses + [Some(e)] + rest;
    assert p[|misses|] == Some(e);
    assert forall j :: 0 <= j < |misses| ==> p[j] == misses[j];
    assert FirstHit(p) == |misses|;
  }

  /// A hit on an entity without a name reads "Looking at: unknown", even
  /// when it carries a hint.
  lemma UnnamedIsUnknown(pointers: seq<Option<nat>>, names: map<nat, string>, hints: map<nat, Hint>)
    requires FirstHit(pointers) < |pointers| && pointers[FirstHit(pointers)].value !in names
    ensures DisplayText(Picked(pointers, names, hints)) == "Looking at: unknown"
  {
    UnknownPicked(pointers, names, hints);
    UnknownText();
  }

  lemma UnknownPicked(pointers: seq<Option<nat>>, names: map<nat, string>, hints: map<nat, Hint>)
    requires FirstHit(pointers) < |pointers| && pointers[FirstHit(pointers)].value !in names
    ensures Picked(pointers, names, hints) == Some("unknown")
  {
  }

  lemma UnknownText()
    ensures DisplayText(Some("unknown")) == "Looking at: unknown"
  {
    assert LookingAt + "unknown" == "Looking at: unknown";
  }
}
