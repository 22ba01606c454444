/**
 Two seats of a room that are bound to one unit of the scenario: how they come about, and that taking all deployments
 back leaves the room's units distinct exactly when there are none.
 */
module RoomSharedUnits {
  import opened Listings
  import opened Options
  import opened RoomInvariants
  import opened RoomModel

  /* ------------------------------------------------------------------ taking all deployments back */

  /** Two different seats are bound to one unit. */
  predicate Share(r: Room, a: SeatId, c: SeatId) {
    && a in r.seats && c in r.seats && a != c
    && SourceOf(r.bound, r.seats[a]).Some? && SourceOf(r.bound, r.seats[c]).Some?
    && SourceOf(r.bound, r.seats[a]).value.id == SourceOf(r.bound, r.seats[c]).value.id
  }

  ghost predicate NoneShare(r: Room) { forall a, c :: !Share(r, a, c) }

  /** A seat starts over with the unit it is bound to, or else with one whose number is new. */
  predicate Renewed(source: Option<Source>, unit: UnitId, from: nat, to: nat) {
    if source.Some? then unit == FromScenario(source.value.id) else unit.Allocated? && from <= unit.number < to
  }

  predicate RenewedAt(r: Room, t: Room, id: SeatId) {
    && id in r.seats && id in t.seats
    && Renewed(SourceOf(r.bound, r.seats[id]), t.seats[id].unitId, r.nextUnit, t.nextUnit)
  }

  /** Two different seats that are bound to no unit do not get the same one. */
  predicate NewApart(r: Room, t: Room, a: SeatId, c: SeatId) {
    a != c && a in r.seats && c in r.seats && SourceOf(r.bound, r.seats[a]).None? && SourceOf(r.bound, r.seats[c]).None?
    ==> !SameUnit(t.seats, a, c)
  }

  ghost predicate AllRenewed(r: Room, t: Room, ids: seq<SeatId>) {
    && (forall id :: id in ids ==> RenewedAt(r, t, id))
    && (forall a, c :: a in ids && c in ids ==> NewApart(r, t, a, c))
  }

  predicate StaysAt(seats: Seats, later: Seats, id: SeatId) {
    (id in later <==> id in seats) && (id in seats ==> later[id] == seats[id])
  }

  /** The seats gone through start over with units of their own, as far as they are bound to different ones. */
  lemma {:induction false} EachIsRenewed(r: Room, ids: seq<SeatId>, t: Room)
    requires t == ClearedEach(r, ids) && NoRepeats(ids) && forall id :: id in ids ==> id in r.seats
    ensures t.bound == r.bound && t.nextUnit >= r.nextUnit && t.seats.Keys == r.seats.Keys
    ensures forall id :: id !in ids ==> StaysAt(r.seats, t.seats, id)
    ensures AllRenewed(r, t, ids)
    decreases |ids|
  {
    if ids != [] {
      var id, rest, u := ids[0], ids[1..], ClearedOne(r, ids[0]);
      assert ids == [id] + rest && id !in rest;
      EachIsRenewed(u, rest, t);
      assert StaysAt(u.seats, t.seats, id);
      forall other | other in rest ensures RenewedAt(r, t, other) { assert RenewedAt(u, t, other); }
      forall a, c | a in ids && c in ids ensures NewApart(r, t, a, c) {
        if a in rest && c in rest {
          assert NewApart(u, t, a, c);
        } else if a in rest {
          assert RenewedAt(u, t, a);
        } else if c in rest {
          assert RenewedAt(u, t, c);
        }
      }
    }
  }

  /** Taking all deployments back gives every seat a unit of its own if and only if no two seats are bound to one. */
  lemma ClearingKeepsUnitsApartIff(r: Room, ids: seq<SeatId>, t: Room)
    requires Lists(ids, r.seats.Keys) && t == ClearedEach(r, ids)
    ensures t.seats.Keys == r.seats.Keys && (UnitsApart(t.seats) <==> NoneShare(r))
  {
    forall id ensures id in ids <==> id in r.seats { assert id in Elements(ids) <==> id in r.seats.Keys; }
    EachIsRenewed(r, ids, t);
    if NoneShare(r) {
      forall a, c | SameUnit(t.seats, a, c) ensures a == c {
        assert RenewedAt(r, t, a) && RenewedAt(r, t, c) && NewApart(r, t, a, c) && !Share(r, a, c);
      }
    }
    forall a, c | Share(r, a, c) ensures SameUnit(t.seats, a, c) {
      assert RenewedAt(r, t, a) && RenewedAt(r, t, c);
    }
  }

  /** Of two seats bound to one unit both get that unit. */
  lemma SharedUnitsCollide(r: Room, ids: seq<SeatId>, a: SeatId, b: SeatId, unit: Source)
    requires Lists(ids, r.seats.Keys) && a in r.seats && b in r.seats
    requires SourceOf(r.bound, r.seats[a]) == SourceOf(r.bound, r.seats[b]) == Some(unit)
    ensures var t := ClearedEach(r, ids);
            a in t.seats && b in t.seats && t.seats[a].unitId == t.seats[b].unitId == FromScenario(unit.id)
  {
    var t := ClearedEach(r, ids);
    forall id ensures id in ids <==> id in r.seats { assert id in Elements(ids) <==> id in r.seats.Keys; }
    EachIsRenewed(r, ids, t);
    assert RenewedAt(r, t, a) && RenewedAt(r, t, b);
  }

  lemma StartingOverSharesAsBefore(r: Room)
    ensures NoneShare(BackToStart(r)) <==> NoneShare(r)
  {
    forall a, c ensures Share(BackToStart(r), a, c) <==> Share(r, a, c) {}
  }

  lemma ConcludingKeepsSeats(r: Room, id: string)
    ensures Concluded(Same(r), id).0.seats == r.seats
  {
  }

  lemma OperationIsCarriedOut(r: Room, id: string, action: Action, revision: int, o: Orders, step: Step)
    requires step == ApplyOperation(r, id, Some(action), revision, o) && step.1.ok && !step.1.duplicate
    ensures step == Operated(r, id, action, o)
  {
  }

  lemma RedeployingClears(r: Room, id: string, revision: int, o: Orders, step: Step)
    requires step == ApplyOperation(r, id, Some(RedeployRoom), revision, o) && step.1.ok && !step.1.duplicate
    ensures step.0.seats == ClearedEach(BackToStart(r), o.seats(r.seats.Keys)).seats
  {
    OperationIsCarriedOut(r, id, RedeployRoom, revision, o, step);
    ConcludingKeepsSeats(ClearedEach(BackToStart(r), o.seats(r.seats.Keys)), id);
  }

  /** An operation that redeploys the room leaves its units distinct if and only if no two seats were bound to one
      before. */
  lemma RedeployingKeepsUnitsApartIff(r: Room, id: string, revision: int, o: Orders, step: Step)
    requires step == ApplyOperation(r, id, Some(RedeployRoom), revision, o) && step.1.ok && !step.1.duplicate
    ensures step.0.seats.Keys == r.seats.Keys && (UnitsApart(step.0.seats) <==> NoneShare(r))
  {
    var start, ids := BackToStart(r), o.seats(r.seats.Keys);
    RedeployingClears(r, id, revision, o, step);
    StartingOverSharesAsBefore(r);
    ClearingKeepsUnitsApartIff(start, ids, ClearedEach(start, ids));
  }

  /* ------------------------------------------------------------------ how a unit comes to be shared */

  /** A person bound to a unit takes it along to another place; whoever then claims the old place is bound to it too. */
  lemma TransferAndClaimShareAUnit(r: Room, user: int, source: SeatId, target: SeatId, template: Template, other: int,
                                   name: string, claimed: Template, t: Room)
    requires source in r.seats && source in r.bound.seats && r.seats[source].source == Some(r.bound.seats[source])
    requires source != target && source.kind != Commander && target.kind != Commander
    requires t == Seated(Succeed(MovedTo(r, source, target, template, user)).0, other, name, source, claimed)
    ensures source in t.seats && target in t.seats && t.bound == r.bound
    ensures t.seats[source].source == t.seats[target].source == r.seats[source].source
  {
    var moved := MovedTo(r, source, target, template, user);
    assert source !in moved.seats;
  }

  /** A person may ask for another place on the same side, and their commander may grant it. */
  predicate MayMove(r: Room, commander: int, user: int, source: SeatId, target: SeatId, template: Template) {
    && r.phase == Preparing && r.mode == Pvp && !r.vmf
    && Holds(r.seats, source, user) && source.kind != Commander && user !in r.transfers
    && Holds(r.seats, CommanderOf(source.side), commander)
    && ValidSeat(r.templates, r.limits, false, target, template)
    && target.side == source.side && target.kind != Commander && target !in r.seats
  }

  lemma WaitingStaysSeated(seats: Seats, id: SeatId)
    requires OneSeatEach(seats) && id in seats
    ensures OneSeatEach(seats[id := seats[id].(pendingTransfer := true)])
  {
    var later := seats[id := seats[id].(pendingTransfer := true)];
    forall a, c, user | Holds(later, a, user) && Holds(later, c, user) ensures a == c {
      assert Holds(seats, a, user) && Holds(seats, c, user);
    }
  }

  /** What is asked for and granted is done. */
  lemma MoveIsGranted(r: Room, commander: int, user: int, source: SeatId, target: SeatId, template: Template, o: Orders)
    requires OneSeatEach(r.seats) && MayMove(r, commander, user, source, target, template)
    ensures var asked := RequestTransfer(r, user, target, template).0;
            && asked == TransferNoted(r, source, user, target, template).0
            && ApproveTransfer(asked, commander, user, asked.revision, o)
               == Succeed(MovedTo(asked, source, target, template, user))
  {
    SeatOfIs(r.seats, source, user);
    var asked := TransferNoted(r, source, user, target, template).0;
    WaitingStaysSeated(r.seats, source);
    SeatOfIs(asked.seats, source, user);
    SeatOfIs(asked.seats, CommanderOf(source.side), commander);
  }

  /** A person who sits nowhere may take a free place on a side that is staffed far enough. */
  predicate MayClaim(r: Room, user: int, username: string, id: SeatId, template: Template) {
    && r.phase == Preparing && r.mode == Pvp && !r.vmf && user > 0 && !Blank(username)
    && ValidSeat(r.templates, r.limits, false, id, template) && id !in r.seats
    && (id != RED_COMMANDER ==> RED_COMMANDER in r.seats)
    && (id.kind != Commander ==> BLUE_COMMANDER in r.seats)
  }

  lemma ClaimIsGranted(r: Room, user: int, username: string, id: SeatId, template: Template, o: Orders)
    requires MayClaim(r, user, username, id, template) && SeatOf(r.seats, user).None?
    ensures ClaimSeat(r, user, username, id, template, o) == Succeed(Seated(r, user, username, id, template))
  {
  }

  /** Somebody who has sat nowhere and does not sit at the place moved to sits nowhere after a move. */
  lemma NobodyElseMoves(r: Room, source: SeatId, target: SeatId, template: Template, user: int, other: int)
    requires source in r.seats && r.seats[source].controller == Human(user) && other != user
    requires SeatOf(r.seats, other).None?
    ensures SeatOf(MovedTo(r, source, target, template, user).seats, other).None?
  {
    var moved := MovedTo(r, source, target, template, user);
    forall id ensures !Holds(moved.seats, id, other) { assert !Holds(r.seats, id, other); }
  }

  /** Besides, somebody else who sits nowhere may take the place that is left. */
  ghost predicate MayMoveAndClaim(r: Room, commander: int, user: int, source: SeatId, target: SeatId,
                                  template: Template, other: int, name: string) {
    && OneSeatEach(r.seats) && MayMove(r, commander, user, source, target, template)
    && other > 0 && !Blank(name) && SeatOf(r.seats, other).None?
    && ValidSeat(r.templates, r.limits, false, source, For(source.kind))
    && RED_COMMANDER in r.seats && BLUE_COMMANDER in r.seats
  }

  /** The room after three calls: a person asks for another place, the commander grants it, and somebody else claims the
      place left behind. */
  ghost function MovedAndClaimed(r: Room, commander: int, user: int, source: SeatId, target: SeatId, template: Template,
                                 other: int, name: string, o: Orders, later: Orders): Step {
    var asked := RequestTransfer(r, user, target, template).0;
    var granted := ApproveTransfer(asked, commander, user, asked.revision, o).0;
    ClaimSeat(granted, other, name, source, For(source.kind), later)
  }

  lemma NobodyElseAsks(r: Room, source: SeatId, target: SeatId, template: Template, user: int, other: int)
    requires Holds(r.seats, source, user) && SeatOf(r.seats, other).None?
    ensures other != user && SeatOf(TransferNoted(r, source, user, target, template).0.seats, other).None?
  {
    var asked := TransferNoted(r, source, user, target, template).0;
    assert !Holds(r.seats, source, other);
    forall id ensures !Holds(asked.seats, id, other) { assert !Holds(r.seats, id, other); }
  }

  lemma PlaceLeftIsClaimed(asked: Room, user: int, source: SeatId, target: SeatId, template: Template, other: int,
                           name: string, o: Orders, granted: Room)
    requires asked.phase == Preparing && asked.mode == Pvp && !asked.vmf && other > 0 && !Blank(name)
    requires source in asked.seats && asked.seats[source].controller == Human(user) && source != target
    requires ValidSeat(asked.templates, asked.limits, false, source, For(source.kind)) && source.kind != Commander
    requires RED_COMMANDER in asked.seats && BLUE_COMMANDER in asked.seats
    requires other != user && SeatOf(asked.seats, other).None?
    requires granted == Succeed(MovedTo(asked, source, target, template, user)).0
    ensures ClaimSeat(granted, other, name, source, For(source.kind), o)
         == Succeed(Seated(granted, other, name, source, For(source.kind)))
  {
    NobodyElseMoves(asked, source, target, template, user, other);
    ClaimIsGranted(granted, other, name, source, For(source.kind), o);
  }

  lemma BothAreGranted(r: Room, commander: int, user: int, source: SeatId, target: SeatId, template: Template,
                       other: int, name: string, o: Orders, later: Orders, asked: Room, granted: Room)
    requires MayMoveAndClaim(r, commander, user, source, target, template, other, name)
    requires asked == TransferNoted(r, source, user, target, template).0
    requires granted == Succeed(MovedTo(asked, source, target, template, user)).0
    ensures MovedAndClaimed(r, commander, user, source, target, template, other, name, o, later)
         == Succeed(Seated(granted, other, name, source, For(source.kind)))
  {
    MoveIsGranted(r, commander, user, source, target, template, o);
    NobodyElseAsks(r, source, target, template, user, other);
    PlaceLeftIsClaimed(asked, user, source, target, template, other, name, later, granted);
  }

  /** In whatever room in preparation a person bound to the unit of their place may move and somebody else may come,
      both end up bound to that unit. */
  lemma PermittedCallsShareAUnit(r: Room, commander: int, user: int, source: SeatId, target: SeatId, template: Template,
                                 other: int, name: string, o: Orders, later: Orders)
    requires MayMoveAndClaim(r, commander, user, source, target, template, other, name)
    requires source in r.bound.seats && r.bound.seats[source] in r.bound.units
    requires r.seats[source].source == Some(r.bound.seats[source])
    ensures var step := MovedAndClaimed(r, commander, user, source, target, template, other, name, o, later);
            step.1.ok && Share(step.0, source, target)
  {
    var asked := TransferNoted(r, source, user, target, template).0;
    var granted := Succeed(MovedTo(asked, source, target, template, user)).0;
    BothAreGranted(r, commander, user, source, target, template, other, name, o, later, asked, granted);
    TransferAndClaimShareAUnit(asked, user, source, target, template, other, name, For(source.kind),
                               Seated(granted, other, name, source, For(source.kind)));
  }

  lemma PermittedCallsCount(r: Room, commander: int, user: int, source: SeatId, target: SeatId, template: Template,
                            other: int, name: string, o: Orders, later: Orders)
    requires MayMoveAndClaim(r, commander, user, source, target, template, other, name)
    ensures var t := MovedAndClaimed(r, commander, user, source, target, template, other, name, o, later).0;
            t.operations == r.operations && t.revision == r.revision + 3
  {
    var asked := TransferNoted(r, source, user, target, template).0;
    var granted := Succeed(MovedTo(asked, source, target, template, user)).0;
    BothAreGranted(r, commander, user, source, target, template, other, name, o, later, asked, granted);
  }
}
