/**
 Placing the opponent's units: all of them on the map and apart from everything else, or none at all.
 */
module RoomPlacement {
  import opened Listings
  import opened Options
  import opened RoomInvariants
  import opened RoomModel
  import opened RoomRollback

  lemma {:induction false} RetriedPositionIsValid(id: SeatId, attempt: nat, t: Terrain, alt: real,
                                                  placements: map<SeatId, GeoPos>)
    ensures var spot := Retried(id, attempt, t, alt, placements);
            spot.Some? ==> ValidAiPosition(spot.value, t, placements)
    decreases PLACEMENT_ATTEMPTS - attempt
  {
    if attempt < PLACEMENT_ATTEMPTS && !ValidAiPosition(Drawn(id, attempt, t, alt), t, placements) {
      RetriedPositionIsValid(id, attempt + 1, t, alt, placements);
    }
  }

  lemma PlacedPositionIsValid(id: SeatId, start: GeoPos, t: Terrain, placements: map<SeatId, GeoPos>)
    ensures var spot := Placed(id, start, t, placements); spot.Some? ==> ValidAiPosition(spot.value, t, placements)
  {
    RetriedPositionIsValid(id, 0, t, start.alt, placements);
  }

  /** Spacing is mutual. */
  lemma FarApartIsMutual(a: GeoPos, b: GeoPos)
    ensures FarApart(a, b) <==> FarApart(b, a)
  {
    var dx, dy := a.x - b.x, a.y - b.y;
    assert (b.x - a.x) * (b.x - a.x) == dx * dx && (b.y - a.y) * (b.y - a.y) == dy * dy;
  }

  /** The seat stands on the map, deployed and ready, clear of the given positions. */
  predicate WellPlaced(seats: Seats, id: SeatId, t: Terrain, placements: map<SeatId, GeoPos>) {
    && id in seats && seats[id].deployed && seats[id].ready && OnMap(seats[id].position, t)
    && ClearOf(seats[id].position, placements)
  }

  predicate Spaced(seats: Seats, a: SeatId, b: SeatId) {
    a in seats && b in seats && FarApart(seats[a].position, seats[b].position)
  }

  ghost predicate AllSpaced(seats: Seats, ids: seq<SeatId>) {
    forall i, j :: 0 <= i < j < |ids| ==> Spaced(seats, ids[i], ids[j])
  }

  /** Only the seats gone through have changed, and those only in where they stand. */
  ghost predicate OnlyMoved(seats: Seats, later: Seats, ids: seq<SeatId>) {
    && later.Keys == seats.Keys
    && (forall id :: id in seats && id !in ids ==> later[id] == seats[id])
    && (forall id :: id in seats ==> later[id].controller == seats[id].controller)
  }

  lemma OneMoreMoved(seats: Seats, id: SeatId, put: Seat, later: Seats, ids: seq<SeatId>)
    requires ids != [] && ids[0] == id && id in seats && put.controller == seats[id].controller
    requires OnlyMoved(seats[id := put], later, ids[1..])
    ensures OnlyMoved(seats, later, ids)
  {
  }

  lemma {:induction false} DeployingTouchesSeatsOnly(r: Room, ids: seq<SeatId>, t: Terrain,
                                                     placements: map<SeatId, GeoPos>)
    ensures var u := DeployEach(r, ids, t, placements).0; u == r.(seats := u.seats)
    decreases |ids|
  {
    if ids != [] {
      if ids[0] !in r.seats {
        DeployingTouchesSeatsOnly(r, ids[1..], t, placements);
      } else {
        var spot := Placed(ids[0], TemplatePosition(r, r.seats[ids[0]].template), t, placements);
        if spot.Some? {
          DeployingTouchesSeatsOnly(Stationed(r, ids[0], spot.value), ids[1..], t, placements[ids[0] := spot.value]);
        }
      }
    }
  }

  lemma SkippingMovesNone(seats: Seats, later: Seats, ids: seq<SeatId>)
    requires ids != [] && ids[0] !in seats && OnlyMoved(seats, later, ids[1..])
    ensures OnlyMoved(seats, later, ids)
  {
  }

  lemma {:induction false} DeployingMovesOnly(r: Room, ids: seq<SeatId>, t: Terrain, placements: map<SeatId, GeoPos>,
                                              u: Room)
    requires u == DeployEach(r, ids, t, placements).0
    ensures OnlyMoved(r.seats, u.seats, ids)
    decreases |ids|
  {
    if ids != [] {
      var id, rest := ids[0], ids[1..];
      if id !in r.seats {
        DeployingMovesOnly(r, rest, t, placements, u);
        SkippingMovesNone(r.seats, u.seats, ids);
      } else {
        var spot := Placed(id, TemplatePosition(r, r.seats[id].template), t, placements);
        if spot.Some? {
          var moved := Stationed(r, id, spot.value);
          DeployingMovesOnly(moved, rest, t, placements[id := spot.value], u);
          OneMoreMoved(r.seats, id, moved.seats[id], u.seats, ids);
        }
      }
    }
  }

  /** Each of the seats gone through is well placed, and they are spaced. */
  ghost predicate Deployed(seats: Seats, ids: seq<SeatId>, t: Terrain, placements: map<SeatId, GeoPos>) {
    AllSpaced(seats, ids) && forall id :: id in ids ==> WellPlaced(seats, id, t, placements)
  }

  lemma OneMoreDeployed(seats: Seats, ids: seq<SeatId>, t: Terrain, placements: map<SeatId, GeoPos>)
    requires ids != [] && ids[0] !in placements && WellPlaced(seats, ids[0], t, placements)
    requires Deployed(seats, ids[1..], t, placements[ids[0] := seats[ids[0]].position])
    ensures Deployed(seats, ids, t, placements)
  {
    var id, rest := ids[0], ids[1..];
    var more := placements[id := seats[id].position];
    forall other | other in rest ensures WellPlaced(seats, other, t, placements) && Spaced(seats, id, other) {
      assert WellPlaced(seats, other, t, more);
      MorePlacements(seats[other].position, placements, id, seats[id].position);
      FarApartIsMutual(seats[other].position, seats[id].position);
    }
    HeadIsSpaced(seats, ids);
  }

  lemma {:induction false} DeployingEach(r: Room, ids: seq<SeatId>, t: Terrain, placements: map<SeatId, GeoPos>,
                                         u: Room)
    requires DeployEach(r, ids, t, placements) == (u, true) && NoRepeats(ids)
    requires forall id :: id in ids ==> id in r.seats && id !in placements
    ensures Deployed(u.seats, ids, t, placements)
    decreases |ids|
  {
    if ids != [] {
      var id, rest := ids[0], ids[1..];
      var seat := r.seats[id];
      var spot := Placed(id, TemplatePosition(r, seat.template), t, placements).value;
      PlacedPositionIsValid(id, TemplatePosition(r, seat.template), t, placements);
      var moved := Stationed(r, id, spot);
      DeployingEach(moved, rest, t, placements[id := spot], u);
      DeployingMovesOnly(moved, rest, t, placements[id := spot], u);
      assert id !in rest && u.seats[id] == moved.seats[id];
      OneMoreDeployed(u.seats, ids, t, placements);
    }
  }

  lemma MorePlacements(p: GeoPos, placements: map<SeatId, GeoPos>, id: SeatId, spot: GeoPos)
    requires ClearOf(p, placements[id := spot])
    ensures FarApart(p, spot)
    ensures id !in placements || FarApart(p, placements[id]) ==> ClearOf(p, placements)
  {
    var more := placements[id := spot];
    assert FarApart(p, more[id]);
    forall other | other in placements && other != id ensures FarApart(p, placements[other]) {
      assert FarApart(p, more[other]);
    }
  }

  lemma HeadIsSpaced(seats: Seats, ids: seq<SeatId>)
    requires ids != [] && AllSpaced(seats, ids[1..])
    requires forall other :: other in ids[1..] ==> Spaced(seats, ids[0], other)
    ensures AllSpaced(seats, ids)
  {
    forall i, j | 0 <= i < j < |ids| ensures Spaced(seats, ids[i], ids[j]) {
      if i > 0 { assert Spaced(seats, ids[1..][i - 1], ids[1..][j - 1]); } else { assert ids[j] in ids[1..]; }
    }
  }

  /** Of every two different seats of which one is the opponent's, and the other is too or is deployed, the units stand
      apart. */
  predicate Apart(seats: Seats, a: SeatId, b: SeatId) {
    (HeldBy(seats, a, Ai) && b in seats && b != a && (seats[b].controller.Ai? || seats[b].deployed))
    ==> Spaced(seats, a, b)
  }

  lemma DeployedApart(seats: Seats, ids: seq<SeatId>, t: Terrain, later: Seats, a: SeatId, b: SeatId)
    requires Lists(ids, AiSeats(seats)) && OnlyMoved(seats, later, ids) && Deployed(later, ids, t, Occupied(seats))
    ensures Apart(later, a, b)
  {
    if HeldBy(later, a, Ai) && b in later && b != a && (later[b].controller.Ai? || later[b].deployed) {
      assert a in Elements(ids);
      if later[b].controller.Ai? {
        assert b in Elements(ids);
        var i :| 0 <= i < |ids| && ids[i] == a;
        var j :| 0 <= j < |ids| && ids[j] == b;
        if i < j { assert Spaced(later, ids[i], ids[j]); } else { assert Spaced(later, ids[j], ids[i]); }
        FarApartIsMutual(later[a].position, later[b].position);
      } else {
        assert b !in Elements(ids);
        assert later[b] == seats[b] && b in Occupied(seats);
        assert WellPlaced(later, a, t, Occupied(seats));
      }
    }
  }

  /** Every seat the opponent holds is deployed, ready and on the map. */
  ghost predicate OpponentStands(seats: Seats, t: Terrain) {
    forall id :: HeldBy(seats, id, Ai) ==> seats[id].deployed && seats[id].ready && OnMap(seats[id].position, t)
  }

  ghost predicate EverybodyApart(seats: Seats) { forall a, b :: Apart(seats, a, b) }

  /** No seat has come or gone, and those that are not the opponent's are as they were. */
  ghost predicate OthersUnmoved(seats: Seats, later: Seats) {
    later.Keys == seats.Keys && forall id :: id in seats && !seats[id].controller.Ai? ==> later[id] == seats[id]
  }

  lemma OpponentDeployed(seats: Seats, ids: seq<SeatId>, t: Terrain, later: Seats)
    requires Lists(ids, AiSeats(seats)) && OnlyMoved(seats, later, ids) && Deployed(later, ids, t, Occupied(seats))
    ensures OpponentStands(later, t) && EverybodyApart(later) && OthersUnmoved(seats, later)
  {
    forall a, b ensures Apart(later, a, b) { DeployedApart(seats, ids, t, later, a, b); }
    forall id ensures id in ids <==> HeldBy(seats, id, Ai) { assert id in Elements(ids) <==> id in AiSeats(seats); }
    forall id | HeldBy(later, id, Ai) ensures WellPlaced(later, id, t, Occupied(seats)) { assert id in ids; }
  }

  lemma EachIsPlacedOrRoomUnmoved(r: Room, t: Terrain, ids: seq<SeatId>, each: (Room, bool))
    requires Lists(ids, AiSeats(r.seats)) && each == DeployEach(r, ids, t, Occupied(r.seats))
    ensures each.0 == r.(seats := each.0.seats) && OthersUnmoved(r.seats, each.0.seats)
    ensures each.1 ==> OpponentStands(each.0.seats, t) && EverybodyApart(each.0.seats)
  {
    forall id | id in ids ensures id in r.seats && r.seats[id].controller.Ai? { assert id in Elements(ids); }
    DeployingTouchesSeatsOnly(r, ids, t, Occupied(r.seats));
    DeployingMovesOnly(r, ids, t, Occupied(r.seats), each.0);
    if each.1 {
      DeployingEach(r, ids, t, Occupied(r.seats), each.0);
      OpponentDeployed(r.seats, ids, t, each.0.seats);
    }
  }

  /** The opponent stands, apart from everybody, and nobody else has moved. */
  ghost predicate AllPlaced(r: Room, t: Terrain, u: Room) {
    OpponentStands(u.seats, t) && EverybodyApart(u.seats) && OthersUnmoved(r.seats, u.seats)
  }

  /** What giving up leaves behind: the room as it was, up to the bindings of its seats, or else a room in which some of
      the opponent's seats have been placed. */
  ghost predicate Unplaced(r: Room, u: Room) {
    if Readable(r) then u == RereadRoom(r) else u == r.(seats := u.seats) && OthersUnmoved(r.seats, u.seats)
  }

  lemma EachPlacedOrGivenUp(r: Room, t: Terrain, o: Orders, step: Step)
    requires Sound(Any, r) && step == OpponentPlaced(r, t, o)
    ensures if step.1.ok then AllPlaced(r, t, step.0) else Unplaced(r, step.0)
  {
    var ids := o.seats(AiSeats(r.seats));
    var each := DeployEach(r, ids, t, Occupied(r.seats));
    EachIsPlacedOrRoomUnmoved(r, t, ids, each);
    AfterPlacingIs(r, each, o, step);
  }

  lemma AfterPlacingIs(r: Room, each: (Room, bool), o: Orders, step: Step)
    requires Sound(Any, r) && each.0 == r.(seats := each.0.seats) && step == AfterPlacing(r, each, o)
    ensures step.1.ok <==> each.1
    ensures if each.1 then step.0.seats == each.0.seats
            else step.0 == if Readable(r) then RereadRoom(r) else each.0
  {
    if !each.1 { RollingBackIs(r, each.0, o, step.0); }
  }

  lemma PlacingIsTriedOrRefused(r: Room, t: Terrain, o: Orders, step: Step)
    requires step == DeployAiSeats(r, Some(t), o)
    ensures step == OpponentPlaced(r, t, o) || (step.0 == r && !step.1.ok)
  {
  }

  /** The opponent's deployment: on success every seat it holds is on the map, deployed and ready, and at least 80
      metres from every other seat it holds and every other deployed seat, and nobody else has moved. On failure the
      seats that had been placed are taken back if and only if every seat of the room would be accepted when it is
      read back. */
  lemma OpponentIsPlacedOrGivenUp(r: Room, t: Terrain, o: Orders, step: Step)
    requires Sound(Any, r) && step == DeployAiSeats(r, Some(t), o)
    ensures if step.1.ok then AllPlaced(r, t, step.0) else step.0 == r || Unplaced(r, step.0)
  {
    PlacingIsTriedOrRefused(r, t, o, step);
    EachPlacedOrGivenUp(r, t, o, OpponentPlaced(r, t, o));
  }

  /** In a standard room a failed deployment leaves nothing behind, although some seats had been placed before. */
  lemma OpponentIsPlacedOrNobodyMoved(r: Room, t: Terrain, o: Orders, step: Step)
    requires Sound(Standard, r) && step == DeployAiSeats(r, Some(t), o)
    ensures if step.1.ok then AllPlaced(r, t, step.0) else step.0 == r
  {
    StandardIsSound(r);
    StandardIsReadable(r);
    OpponentIsPlacedOrGivenUp(r, t, o, step);
  }
}
