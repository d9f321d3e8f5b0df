/** The game's per-frame card rules: the two rows of cards laid out when play
    starts, the hover lift, dragging a selected card along the drag plane and
    dropping it on button release, and turning cards toward the camera.

    The entity store is the class `World`, whose card table is a sequence of
    card records that each system rewrites one card at a time.  Each system is
    specified by a rule on one card (`Step`) applied to every card of the table
    in order (`Run`); the lemmas below state what the rules promise. */
module Game {
  import opened Engine
  import opened Resources

  /** Height of a hovered card, and of the plane a dragged card is moved on. */
  const HoverHeight: real := 2.0
  /** Height of a card at rest. */
  const RestHeight: real := 0.0
  /** Number of cards in each row of the hand. */
  const HandSize: nat := 5
  /** Depth of the pickable row, nearest the camera. */
  const PlayerRowZ: real := 4.5
  /** Depth of the second row, mirrored across the board. */
  const OpponentRowZ: real := -4.5
  /** Horizontal position of the first card of a row; cards are one unit apart. */
  const FirstX: real := -2.0

  // ---------------------------------------------------------------------------
  // Hand layout

  /** The card spawned by iteration `x` of a layout loop for the row at depth `z`. */
  function SpawnedCard(x: nat, z: real, pick: Option<Pick>): Card
  {
    Card(FromXyz(FirstX + x as real, RestHeight, z), PlayerOwned, pick)
  }

  /** The cards that the first `n` iterations of a layout loop spawn, in order. */
  function Row(n: nat, z: real, pick: Option<Pick>): (r: seq<Card>)
    ensures |r| == n
  {
    if n == 0 then [] else Row(n - 1, z, pick) + [SpawnedCard(n - 1, z, pick)]
  }

  lemma {:induction false} RowAt(n: nat, z: real, pick: Option<Pick>, i: nat)
    requires i < n
    ensures Row(n, z, pick)[i] == SpawnedCard(i, z, pick)
  {
    if i < n - 1 {
      RowAt(n - 1, z, pick, i);
    }
  }

  /** Everything the hand layout spawns: the pickable row, then the other row. */
  function Hand(): seq<Card>
  {
    Row(HandSize, PlayerRowZ, Some(FreshPick)) + Row(HandSize, OpponentRowZ, None)
  }

  /** Ten cards; the first five at x = -2 .. 2 on the row z = 4.5, pickable and
      neither hovered nor selected; the last five at the same x on the row
      z = -4.5, without picking components.  All rest at height 0, unrotated,
      and all are player-owned: none is enemy-owned. */
  lemma HandLayout()
    ensures |Hand()| == 10
    ensures forall i :: 0 <= i < 5 ==>
      Hand()[i].transform.translation == Vec3(-2.0 + i as real, 0.0, 4.5)
    ensures forall i :: 5 <= i < 10 ==>
      Hand()[i].transform.translation == Vec3(-2.0 + (i - 5) as real, 0.0, -4.5)
    ensures forall i :: 0 <= i < 10 ==>
      Hand()[i].transform.rotation == Identity && Hand()[i].owner == PlayerOwned
    ensures forall i :: 0 <= i < 10 ==>
      (Hand()[i].Pickable() <==> Hand()[i].transform.translation.z == 4.5)
    ensures forall i :: 0 <= i < 5 ==> Hand()[i].pick == Some(Pick(false, false))
  {
    var h := Hand();
    forall i | 0 <= i < 10
      ensures i < 5 ==> h[i] == SpawnedCard(i, PlayerRowZ, Some(FreshPick))
      ensures 5 <= i ==> h[i] == SpawnedCard(i - 5, OpponentRowZ, None)
    {
      if i < 5 {
        RowAt(HandSize, PlayerRowZ, Some(FreshPick), i);
      } else {
        RowAt(HandSize, OpponentRowZ, None, i - 5);
      }
    }
  }

  // ---------------------------------------------------------------------------
  // The three per-frame systems, one card at a time

  /** The height the hover system gives a card with these picking components. */
  function Elevation(p: Pick): real
  {
    if p.hovered then HoverHeight else RestHeight
  }

  /** Hover: a player-owned pickable card is lifted to the hover height when
      hovered and put back at rest otherwise; every other card is untouched. */
  function HoveredCard(c: Card): Card
  {
    if c.PlayerPickable() then
      var t := c.transform.translation;
      c.(transform := c.transform.(translation := t.(y := Elevation(c.pick.value))))
    else
      c
  }

  /** Drag and release, for a player-owned pickable card and a drag-plane hit
      `worldPos`: without a hit nothing happens; with one, a selected card is
      moved onto the hit, and then, when the left button was released this
      frame, the card's selection is cleared whether or not it was selected. */
  function FollowedCard(worldPos: Option<Vec3>, justReleased: bool, c: Card): Card
  {
    if c.PlayerPickable() && worldPos.Some? then
      var moved :=
        if c.pick.value.selected then c.(transform := c.transform.(translation := worldPos.value))
        else c;
      if justReleased then moved.(pick := Some(moved.pick.value.(selected := false)))
      else moved
    else
      c
  }

  /** Facing: every player-owned card, pickable or not, is turned from where
      it stands toward the camera; its translation is not changed. */
  function FacingCard(camera: Vec3, c: Card): Card
  {
    if c.PlayerCard() then
      c.(transform := c.transform.(rotation := LookingAt(c.transform.translation, camera)))
    else
      c
  }

  /** One system together with what it reads this frame: the drag-plane hit
      and whether the left button was just released, or the camera position. */
  datatype System =
    | Hover
    | FollowMouse(worldPos: Option<Vec3>, justReleased: bool)
    | FaceCamera(camera: Vec3)

  function Step(sys: System, c: Card): Card
  {
    match sys
    case Hover => HoveredCard(c)
    case FollowMouse(worldPos, justReleased) => FollowedCard(worldPos, justReleased, c)
    case FaceCamera(camera) => FacingCard(camera, c)
  }

  /** A system's pass over the whole card table. */
  function Run(sys: System, s: seq<Card>): (r: seq<Card>)
    ensures |r| == |s|
  {
    if s == [] then [] else [Step(sys, s[0])] + Run(sys, s[1..])
  }

  lemma {:induction false} RunAt(sys: System, s: seq<Card>, i: nat)
    requires i < |s|
    ensures Run(sys, s)[i] == Step(sys, s[i])
  {
    if i > 0 {
      RunAt(sys, s[1..], i - 1);
    }
  }

  /** Every pickable player card is at one of the two heights the hover
      system uses. */
  predicate Settled(s: seq<Card>)
  {
    forall i :: 0 <= i < |s| && s[i].PlayerPickable() ==>
      s[i].transform.translation.y == 0.0 || s[i].transform.translation.y == 2.0
  }

  // ---------------------------------------------------------------------------
  // Hover elevation

  /** A pickable player card ends at height 2 exactly when hovered and at
      height 0 exactly when not; its x and z, rotation, owner and picking
      components are kept, and any other card is left as it was. */
  lemma HoverElevation(s: seq<Card>, i: nat)
    requires i < |s|
    ensures s[i].PlayerPickable() ==>
      (Run(Hover, s)[i].transform.translation.y == 2.0 <==> s[i].pick.value.hovered)
    ensures s[i].PlayerPickable() ==>
      (Run(Hover, s)[i].transform.translation.y == 0.0 <==> !s[i].pick.value.hovered)
    ensures Run(Hover, s)[i].transform.translation.x == s[i].transform.translation.x
    ensures Run(Hover, s)[i].transform.translation.z == s[i].transform.translation.z
    ensures Run(Hover, s)[i].transform.rotation == s[i].transform.rotation
    ensures Run(Hover, s)[i].owner == s[i].owner && Run(Hover, s)[i].pick == s[i].pick
    ensures !s[i].PlayerPickable() ==> Run(Hover, s)[i] == s[i]
  {
    RunAt(Hover, s, i);
  }

  /** Running the hover system a second time changes nothing. */
  lemma HoverIdempotent(s: seq<Card>)
    ensures Run(Hover, Run(Hover, s)) == Run(Hover, s)
  {
    var h := Run(Hover, s);
    forall i | 0 <= i < |s|
      ensures Run(Hover, h)[i] == h[i]
    {
      RunAt(Hover, s, i);
      RunAt(Hover, h, i);
    }
  }

  /** After the hover system every pickable player card rests at 0 or 2. */
  lemma HoverSettles(s: seq<Card>)
    ensures Settled(Run(Hover, s))
  {
    var h := Run(Hover, s);
    forall i | 0 <= i < |h| && h[i].PlayerPickable()
      ensures h[i].transform.translation.y == 0.0 || h[i].transform.translation.y == 2.0
    {
      RunAt(Hover, s, i);
    }
  }

  // ---------------------------------------------------------------------------
  // Drag and release

  /** Without a drag-plane hit the drag system changes nothing, not even the
      selection of cards when the button was just released. */
  lemma FollowWithoutHit(s: seq<Card>, justReleased: bool)
    ensures Run(FollowMouse(None, justReleased), s) == s
  {
    forall i | 0 <= i < |s|
      ensures Run(FollowMouse(None, justReleased), s)[i] == s[i]
    {
      RunAt(FollowMouse(None, justReleased), s, i);
    }
  }

  /** With a hit `p`, a selected pickable player card is moved onto `p`
      (also in the frame its button is released); every other card keeps its
      translation.  Rotation, owner and hover state are never changed. */
  lemma FollowDrag(s: seq<Card>, p: Vec3, justReleased: bool, i: nat)
    requires i < |s|
    ensures s[i].PlayerPickable() && s[i].pick.value.selected ==>
      Run(FollowMouse(Some(p), justReleased), s)[i].transform.translation == p
    ensures !(s[i].PlayerPickable() && s[i].pick.value.selected) ==>
      Run(FollowMouse(Some(p), justReleased), s)[i].transform.translation == s[i].transform.translation
    ensures Run(FollowMouse(Some(p), justReleased), s)[i].transform.rotation == s[i].transform.rotation
    ensures Run(FollowMouse(Some(p), justReleased), s)[i].owner == s[i].owner
    ensures Run(FollowMouse(Some(p), justReleased), s)[i].Pickable() == s[i].Pickable()
    ensures s[i].Pickable() ==>
      Run(FollowMouse(Some(p), justReleased), s)[i].pick.value.hovered == s[i].pick.value.hovered
  {
    RunAt(FollowMouse(Some(p), justReleased), s, i);
  }

  /** With a hit, a release clears the selection of every pickable player card,
      selected or not; without a release no selection changes.  The system
      never selects a card, and leaves cards it does not query untouched. */
  lemma FollowRelease(s: seq<Card>, p: Vec3, justReleased: bool, i: nat)
    requires i < |s|
    ensures var c, r := s[i], Run(FollowMouse(Some(p), justReleased), s)[i];
      && (c.PlayerPickable() && justReleased ==> r.pick == Some(Pick(c.pick.value.hovered, false)))
      && (!justReleased ==> r.pick == c.pick)
      && (r.Pickable() && r.pick.value.selected ==> c.Pickable() && c.pick.value.selected)
      && (!c.PlayerPickable() ==> r == c)
  {
    RunAt(FollowMouse(Some(p), justReleased), s, i);
  }

  // ---------------------------------------------------------------------------
  // Facing the camera

  /** Every player-owned card, pickable or not, is turned from its own
      position toward the camera; translations, owners and picking components
      never change. */
  lemma FaceCameraTurns(s: seq<Card>, camera: Vec3, i: nat)
    requires i < |s|
    ensures var c, r := s[i], Run(FaceCamera(camera), s)[i];
      && r.transform.translation == c.transform.translation
      && r.owner == c.owner && r.pick == c.pick
      && (c.PlayerCard() ==> r.transform.rotation == LookingAt(c.transform.translation, camera))
      && (!c.PlayerCard() ==> r == c)
  {
    RunAt(FaceCamera(camera), s, i);
  }

  /** With the camera unchanged, facing twice is the same as facing once. */
  lemma FaceCameraIdempotent(s: seq<Card>, camera: Vec3)
    ensures Run(FaceCamera(camera), Run(FaceCamera(camera), s)) == Run(FaceCamera(camera), s)
  {
    var f := Run(FaceCamera(camera), s);
    forall i | 0 <= i < |s|
      ensures Run(FaceCamera(camera), f)[i] == f[i]
    {
      RunAt(FaceCamera(camera), s, i);
      RunAt(FaceCamera(camera), f, i);
    }
  }

  /** Both rows of the hand are turned toward the camera, the row without
      picking components included, since all its cards are player-owned. */
  lemma FaceCameraTurnsWholeHand(camera: Vec3)
    ensures forall i :: 0 <= i < 10 ==>
      Run(FaceCamera(camera), Hand())[i].transform.rotation
        == LookingAt(Hand()[i].transform.translation, camera)
  {
    HandLayout();
    forall i | 0 <= i < 10
      ensures Run(FaceCamera(camera), Hand())[i].transform.rotation
        == LookingAt(Hand()[i].transform.translation, camera)
    {
      RunAt(FaceCamera(camera), Hand(), i);
    }
  }

  // ---------------------------------------------------------------------------
  // A frame: hover and drag run in an order the schedule leaves open

  datatype Order = HoverFirst | FollowFirst

  /** The card table after one frame's hover and drag passes in the given order. */
  function Frame(order: Order, worldPos: Option<Vec3>, justReleased: bool, s: seq<Card>): seq<Card>
  {
    match order
    case HoverFirst => Run(FollowMouse(worldPos, justReleased), Run(Hover, s))
    case FollowFirst => Run(Hover, Run(FollowMouse(worldPos, justReleased), s))
  }

  /** Without a drag-plane hit both orders give the hover pass alone. */
  lemma FrameWithoutHit(order: Order, justReleased: bool, s: seq<Card>)
    ensures Frame(order, None, justReleased, s) == Run(Hover, s)
  {
    FollowWithoutHit(s, justReleased);
    FollowWithoutHit(Run(Hover, s), justReleased);
  }

  /** When the hover pass runs first, a selected pickable player card ends
      exactly on the hit: the drag overrides the hover height. */
  lemma DragWinsWhenHoverFirst(p: Vec3, justReleased: bool, s: seq<Card>, i: nat)
    requires i < |s| && s[i].PlayerPickable() && s[i].pick.value.selected
    ensures Frame(HoverFirst, Some(p), justReleased, s)[i].transform.translation == p
  {
    RunAt(Hover, s, i);
    RunAt(FollowMouse(Some(p), justReleased), Run(Hover, s), i);
  }

  /** When the drag pass runs first, a selected pickable player card takes the
      hit's x and z, but its height is the hover height of its hover state:
      the hover pass overrides the drag. */
  lemma HoverWinsWhenFollowFirst(p: Vec3, justReleased: bool, s: seq<Card>, i: nat)
    requires i < |s| && s[i].PlayerPickable() && s[i].pick.value.selected
    ensures Frame(FollowFirst, Some(p), justReleased, s)[i].transform.translation
      == Vec3(p.x, if s[i].pick.value.hovered then 2.0 else 0.0, p.z)
  {
    RunAt(FollowMouse(Some(p), justReleased), s, i);
    RunAt(Hover, Run(FollowMouse(Some(p), justReleased), s), i);
  }

  /** The order is observable: a selected card that is not hovered, dragged to
      the hit (1, 2, 0.5), ends on the hit in one order and at height 0 in
      the other. */
  lemma OrderMatters()
    ensures var c := Card(FromXyz(0.0, 0.0, 4.5), PlayerOwned, Some(Pick(false, true)));
      var p := Vec3(1.0, 2.0, 0.5);
      && Frame(HoverFirst, Some(p), false, [c])[0].transform.translation == Vec3(1.0, 2.0, 0.5)
      && Frame(FollowFirst, Some(p), false, [c])[0].transform.translation == Vec3(1.0, 0.0, 0.5)
  {
    var c := Card(FromXyz(0.0, 0.0, 4.5), PlayerOwned, Some(Pick(false, true)));
    var p := Vec3(1.0, 2.0, 0.5);
    DragWinsWhenHoverFirst(p, false, [c], 0);
    HoverWinsWhenFollowFirst(p, false, [c], 0);
  }

  /** After a frame every pickable player card rests at 0 or 2 when the hover
      pass runs last, or when there is no hit, or when the hit itself lies at
      one of those heights (a hit on the drag plane is at height 2).  With the
      hover pass first and a hit at any other height, a selected card is left
      at the hit's height. */
  lemma FrameSettles(order: Order, worldPos: Option<Vec3>, justReleased: bool, s: seq<Card>)
    requires order == FollowFirst || worldPos.None?
      || worldPos.value.y == 0.0 || worldPos.value.y == 2.0
    ensures Settled(Frame(order, worldPos, justReleased, s))
  {
    var follow := FollowMouse(worldPos, justReleased);
    match order
    case FollowFirst =>
      HoverSettles(Run(follow, s));
    case HoverFirst =>
      var h := Run(Hover, s);
      var r := Run(follow, h);
      forall i | 0 <= i < |r| && r[i].PlayerPickable()
        ensures r[i].transform.translation.y == 0.0 || r[i].transform.translation.y == 2.0
      {
        RunAt(Hover, s, i);
        RunAt(follow, h, i);
      }
  }

  // ---------------------------------------------------------------------------
  // The entity store

  /** The card entities of the scene and the translations of its cameras. */
  class World {
    /** The card entities, in spawn order. */
    var cards: seq<Card>
    /** The translation of each camera entity; the scene setup spawns one. */
    var cameras: seq<Vec3>

    constructor (cameras: seq<Vec3>)
      ensures this.cameras == cameras && cards == []
    {
      this.cameras := cameras;
      cards := [];
    }

    /** The hand layout, run once on entering play: spawns the pickable row,
        then the row without picking components, after the existing cards. */
    method DrawHand()
      modifies this`cards
      ensures cards == old(cards) + Hand()
    {
      ghost var before := cards;
      for x := 0 to HandSize
        invariant cards == before + Row(x, PlayerRowZ, Some(FreshPick))
      {
        cards := cards + [Card(FromXyz(FirstX + x as real, RestHeight, PlayerRowZ), PlayerOwned, Some(FreshPick))];
      }
      for x := 0 to HandSize
        invariant cards == before + Row(HandSize, PlayerRowZ, Some(FreshPick)) + Row(x, OpponentRowZ, None)
      {
        cards := cards + [Card(FromXyz(FirstX + x as real, RestHeight, OpponentRowZ), PlayerOwned, None)];
      }
    }

    /** Turns every player-owned card toward the single camera.  A scene with
        no camera or with several is a fatal error, excluded here. */
    method CardsLookAtCamera()
      requires |cameras| == 1
      modifies this`cards
      ensures cards == Run(FaceCamera(cameras[0]), old(cards))
    {
      var camera := cameras[0];
      ghost var before := cards;
      var i := 0;
      while i < |cards|
        invariant 0 <= i <= |cards| == |before|
        invariant forall k :: 0 <= k < i ==> cards[k] == FacingCard(camera, before[k])
        invariant forall k :: i <= k < |cards| ==> cards[k] == before[k]
      {
        var c := cards[i];
        if c.PlayerCard() {
          cards := cards[i := c.(transform := c.transform.(rotation := LookingAt(c.transform.translation, camera)))];
        }
        i := i + 1;
      }
      forall k | 0 <= k < |cards|
        ensures cards[k] == Run(FaceCamera(camera), before)[k]
      {
        RunAt(FaceCamera(camera), before, k);
      }
    }

    /** Lifts hovered pickable player cards to the hover height and puts the
        others at rest. */
    method CardHover()
      modifies this`cards
      ensures cards == Run(Hover, old(cards))
    {
      ghost var before := cards;
      var i := 0;
      while i < |cards|
        invariant 0 <= i <= |cards| == |before|
        invariant forall k :: 0 <= k < i ==> cards[k] == HoveredCard(before[k])
        invariant forall k :: i <= k < |cards| ==> cards[k] == before[k]
      {
        var c := cards[i];
        if c.PlayerPickable() {
          var t := c.transform.translation;
          if c.pick.value.hovered {
            t := t.(y := HoverHeight);
          } else {
            t := t.(y := RestHeight);
          }
          cards := cards[i := c.(transform := c.transform.(translation := t))];
        }
        i := i + 1;
      }
      forall k | 0 <= k < |cards|
        ensures cards[k] == Run(Hover, before)[k]
      {
        RunAt(Hover, before, k);
      }
    }

    /** Moves selected pickable player cards onto this frame's drag-plane hit
        `worldPos` and, on a release of the left button, clears the selection
        of every pickable player card; without a hit, does nothing.  Like the
        facing system it looks up the single camera, so a scene with no camera
        or with several is a fatal error, excluded here. */
    method CardFollowMouse(worldPos: Option<Vec3>, justReleased: bool)
      requires |cameras| == 1
      modifies this`cards
      ensures cards == Run(FollowMouse(worldPos, justReleased), old(cards))
    {
      ghost var before := cards;
      var i := 0;
      while i < |cards|
        invariant 0 <= i <= |cards| == |before|
        invariant forall k :: 0 <= k < i ==> cards[k] == FollowedCard(worldPos, justReleased, before[k])
        invariant forall k :: i <= k < |cards| ==> cards[k] == before[k]
      {
        var c := cards[i];
        if c.PlayerPickable() {
          if worldPos.Some? {
            if c.pick.value.selected {
              c := c.(transform := c.transform.(translation := worldPos.value));
            }
            if justReleased {
              c := c.(pick := Some(c.pick.value.(selected := false)));
            }
          }
          cards := cards[i := c];
        }
        i := i + 1;
      }
      forall k | 0 <= k < |cards|
        ensures cards[k] == Run(FollowMouse(worldPos, justReleased), before)[k]
      {
        RunAt(FollowMouse(worldPos, justReleased), before, k);
      }
    }

    /** One frame's hover and drag passes, in the given order. */
    method RunFrame(order: Order, worldPos: Option<Vec3>, justReleased: bool)
      requires |cameras| == 1
      modifies this`cards
      ensures cards == Frame(order, worldPos, justReleased, old(cards))
    {
      match order
      case HoverFirst =>
        CardHover();
        CardFollowMouse(worldPos, justReleased);
      case FollowFirst =>
        CardFollowMouse(worldPos, justReleased);
        CardHover();
    }
  }
}
