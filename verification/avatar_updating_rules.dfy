/** The rules that update avatars standing on special cells
    (aimmo-game/simulation/game_logic/avatar_updating_rules.py). The world map
    is given as the list of cells the rule looks at; what a pickup does to an
    avatar belongs to the pickup, so applying one is recorded, in order, as an
    effect rather than performed. */
module AvatarRules {
  import opened Wrappers

  class Avatar {
    var score: int

    constructor (score: int)
      ensures this.score == score
    {
      this.score := score;
    }
  }

  /** A map cell: the avatar standing on it, if any, and its pickup, if any. */
  datatype Cell<P> = Cell(avatar: Option<Avatar>, pickup: Option<P>)

  /** The avatars standing on the given cells. */
  ghost function Avatars<P>(cells: seq<Cell<P>>): set<Avatar> {
    set i | 0 <= i < |cells| && cells[i].avatar.Some? :: cells[i].avatar.value
  }

  /** On how many of the cells `a` stands. */
  function Occurrences<P>(cells: seq<Cell<P>>, a: Avatar): nat {
    if cells == [] then 0
    else Occurrences(cells[..|cells| - 1], a) + if cells[|cells| - 1].avatar == Some(a) then 1 else 0
  }

  /** An avatar gains score exactly when it stands on a score cell. */
  lemma {:induction false} OccurrencesPositive<P>(cells: seq<Cell<P>>, a: Avatar)
    ensures Occurrences(cells, a) > 0 <==> a in Avatars(cells)
  {
    if cells != [] {
      var init := cells[..|cells| - 1];
      OccurrencesPositive(init, a);
      if a in Avatars(init) {
        var i :| 0 <= i < |init| && init[i].avatar.Some? && init[i].avatar.value == a;
        assert cells[i] == init[i];
      }
      if a in Avatars(cells) && cells[|cells| - 1].avatar != Some(a) {
        var i :| 0 <= i < |cells| && cells[i].avatar.Some? && cells[i].avatar.value == a;
        assert init[i] == cells[i];
      }
    }
  }

  /** When no avatar stands on two of the cells, each avatar on them stands on
      exactly one. */
  lemma {:induction false} OccurrencesOnce<P>(cells: seq<Cell<P>>, a: Avatar)
    requires forall i, j | 0 <= i < j < |cells| && cells[i].avatar.Some? :: cells[i].avatar != cells[j].avatar
    requires a in Avatars(cells)
    ensures Occurrences(cells, a) == 1
  {
    var init := cells[..|cells| - 1];
    if cells[|cells| - 1].avatar == Some(a) {
      forall i | 0 <= i < |init| ensures init[i].avatar != Some(a) {
        assert init[i] == cells[i];
      }
      OccurrencesPositive(init, a);
    } else {
      var i :| 0 <= i < |cells| && cells[i].avatar.Some? && cells[i].avatar.value == a;
      assert init[i] == cells[i];
      OccurrencesOnce(init, a);
    }
  }

  /** `ScoreRule.apply`: each avatar on a score cell gains one point per score
      cell it stands on; cells without an avatar are skipped (the AttributeError
      is swallowed) and no other avatar changes. */
  method ScoreRule<P>(scoreCells: seq<Cell<P>>)
    modifies Avatars(scoreCells)
    ensures forall a | a in Avatars(scoreCells) :: a.score == old(a.score) + Occurrences(scoreCells, a)
  {
    for i := 0 to |scoreCells|
      invariant forall a | a in Avatars(scoreCells) :: a.score == old(a.score) + Occurrences(scoreCells[..i], a)
    {
      assert scoreCells[..i + 1][..i] == scoreCells[..i];
      match scoreCells[i].avatar {
        case None =>
        case Some(avatar) =>
          assert avatar in Avatars(scoreCells);
          avatar.score := avatar.score + 1;
      }
    }
    assert scoreCells[..|scoreCells|] == scoreCells;
  }

  /** One `pickup.apply(avatar)` call. */
  datatype Application<P> = Application(pickup: P, avatar: Avatar)

  /** The pickups to apply, in cell order: one for each cell with an avatar. */
  function Applications<P>(pickupCells: seq<Cell<P>>): seq<Application<P>>
    requires forall i | 0 <= i < |pickupCells| :: pickupCells[i].pickup.Some?
  {
    if pickupCells == [] then []
    else
      var last := pickupCells[|pickupCells| - 1];
      Applications(pickupCells[..|pickupCells| - 1])
        + if last.avatar.Some? then [Application(last.pickup.value, last.avatar.value)] else []
  }

  /** A pickup is applied to an avatar exactly when a pickup cell holds both. */
  lemma {:induction false} ApplicationsExactly<P>(pickupCells: seq<Cell<P>>, pickup: P, avatar: Avatar)
    requires forall i | 0 <= i < |pickupCells| :: pickupCells[i].pickup.Some?
    ensures Application(pickup, avatar) in Applications(pickupCells)
      <==> exists i | 0 <= i < |pickupCells| ::
             pickupCells[i].avatar == Some(avatar) && pickupCells[i].pickup == Some(pickup)
  {
    if pickupCells != [] {
      var n := |pickupCells| - 1;
      var init := pickupCells[..n];
      ApplicationsExactly(init, pickup, avatar);
      if exists i | 0 <= i < |init| :: init[i].avatar == Some(avatar) && init[i].pickup == Some(pickup) {
        var i :| 0 <= i < |init| && init[i].avatar == Some(avatar) && init[i].pickup == Some(pickup);
        assert pickupCells[i] == init[i];
      }
      if exists i | 0 <= i < |pickupCells| ::
           pickupCells[i].avatar == Some(avatar) && pickupCells[i].pickup == Some(pickup) {
        var i :| 0 <= i < |pickupCells| && pickupCells[i].avatar == Some(avatar) && pickupCells[i].pickup == Some(pickup);
        if i < n {
          assert init[i] == pickupCells[i];
        }
      }
    }
  }

  /** `PickupRule.apply`: walks the pickup cells and applies the cell's pickup
      to the avatar standing there; a cell without an avatar is left alone. */
  method PickupRule<P>(pickupCells: seq<Cell<P>>) returns (applied: seq<Application<P>>)
    requires forall i | 0 <= i < |pickupCells| :: pickupCells[i].pickup.Some?
    ensures applied == Applications(pickupCells)
  {
    applied := [];
    for i := 0 to |pickupCells|
      invariant applied == Applications(pickupCells[..i])
    {
      assert pickupCells[..i + 1][..i] == pickupCells[..i];
      var cell := pickupCells[i];
      if cell.avatar.Some? {
        applied := applied + [Application(cell.pickup.value, cell.avatar.value)];
      }
    }
    assert pickupCells[..|pickupCells|] == pickupCells;
  }
}
