/**
 The opponent's roster mirrors the people on the red side, and giving up on it leaves no trace.
 */
module RoomRoster {
  import opened Listings
  import opened Options
  import opened RoomInvariants
  import opened RoomModel
  import opened RoomRollback

  /* ------------------------------------------------------------------ what installing changes */

  /** Only seats and counters differ. */
  predicate OnlySeats(r: Room, t: Room) {
    t == r.(seats := t.seats, revision := t.revision, nextUnit := t.nextUnit)
  }

  /** The same seats are held by people and placeholders, in the same way. */
  ghost predicate OthersStay(seats: Seats, later: Seats) {
    && (forall id :: id in seats && !seats[id].controller.Ai? ==> id in later && later[id] == seats[id])
    && (forall id :: id in later && !later[id].controller.Ai? ==> id in seats && later[id] == seats[id])
  }

  /** The opponent holds the seat with the given template. */
  predicate Fitted(seats: Seats, id: SeatId, template: Template) {
    HeldBy(seats, id, Ai) && seats[id].template == template
  }

  /** The opponent may take the seat. */
  predicate Free(r: Room, id: SeatId, template: Template) {
    ValidSeat(r.templates, r.limits, r.vmf, id, template) && (id in r.seats ==> r.seats[id].controller.Ai?)
  }

  /** Only one seat may have come or changed, and it is the opponent's. */
  ghost predicate OnlyGained(seats: Seats, later: Seats, id: SeatId) {
    && (id in seats ==> seats[id].controller.Ai? || later == seats)
    && (id in later && id !in seats ==> HeldBy(later, id, Ai))
    && (id in seats ==> id in later && (seats[id].controller.Ai? ==> later[id].controller.Ai?))
    && forall other :: other != id ==>
         (other in later <==> other in seats) && (other in seats ==> later[other] == seats[other])
  }

  lemma GainingLeavesOthers(seats: Seats, later: Seats, id: SeatId)
    requires OnlyGained(seats, later, id)
    ensures OthersStay(seats, later)
  {
  }

  lemma PuttingGains(r: Room, id: SeatId, template: Template)
    requires id in r.seats ==> r.seats[id].controller.Ai?
    ensures var t := Succeed(AiInstalled(r, id, template)).0; OnlySeats(r, t) && OnlyGained(r.seats, t.seats, id)
  {
  }

  lemma InstallingGains(r: Room, id: SeatId, template: Template, step: Step)
    requires id.side == Blue && step == InstallAi(r, id, template)
    ensures OnlySeats(r, step.0) && OnlyGained(r.seats, step.0.seats, id)
  {
    if id in r.seats ==> r.seats[id].controller.Ai? { PuttingGains(r, id, template); }
  }

  lemma InstallingOne(r: Room, id: SeatId, template: Template, step: Step)
    requires id.side == Blue && step == InstallAi(r, id, template)
    ensures OnlySeats(r, step.0) && OthersStay(r.seats, step.0.seats)
    ensures step.1.ok <==> Free(r, id, template)
    ensures step.1.ok ==> Fitted(step.0.seats, id, template)
    ensures forall other :: other != id ==>
              && (other in step.0.seats <==> other in r.seats)
              && (other in r.seats ==> step.0.seats[other] == r.seats[other])
  {
    InstallingGains(r, id, template, step);
    GainingLeavesOthers(r.seats, step.0.seats, id);
  }

  /** A red seat whose mirror the opponent may take. */
  predicate Mirrorable(r: Room, id: SeatId) {
    Mirrored(r.seats, id) ==> Free(r, Mirror(id), r.seats[id].template)
  }

  predicate MirrorFitted(seats: Seats, id: SeatId) {
    Mirrored(seats, id) ==> Fitted(seats, Mirror(id), seats[id].template)
  }

  lemma OthersStayMirrored(seats: Seats, later: Seats, id: SeatId)
    requires OthersStay(seats, later)
    ensures Mirrored(seats, id) <==> Mirrored(later, id)
    ensures Mirrored(seats, id) ==> later[id] == seats[id]
  {
  }

  lemma StillMirrorable(r: Room, t: Room, id: SeatId)
    requires OnlySeats(r, t) && OthersStay(r.seats, t.seats)
    ensures Mirrorable(r, id) <==> Mirrorable(t, id)
  {
    OthersStayMirrored(r.seats, t.seats, id);
  }

  lemma InstallingMirror(r: Room, id: SeatId, step: Step)
    requires Mirrored(r.seats, id) && step == InstallAi(r, Mirror(id), r.seats[id].template)
    ensures OnlySeats(r, step.0) && OthersStay(r.seats, step.0.seats) && (step.1.ok <==> Mirrorable(r, id))
    ensures step.1.ok ==> MirrorFitted(step.0.seats, id)
    ensures step.1.ok ==> forall other :: MirrorFitted(r.seats, other) ==> MirrorFitted(step.0.seats, other)
    ensures forall other, template :: Fitted(r.seats, other, template) && other != Mirror(id) ==>
              Fitted(step.0.seats, other, template)
  {
    InstallingOne(r, Mirror(id), r.seats[id].template, step);
    if step.1.ok {
      forall other | MirrorFitted(r.seats, other) ensures MirrorFitted(step.0.seats, other) {
        OthersStayMirrored(r.seats, step.0.seats, other);
        if Mirrored(r.seats, other) && Mirror(other) == Mirror(id) { assert Counterpart(Mirror(other)) == other; }
      }
    }
  }

  /** Going through the seats installs a mirror for each that needs one, or fails at one that cannot have it. */
  lemma {:induction false} InstallingAll(r: Room, ids: seq<SeatId>, step: Step)
    requires step == InstallMirrors(r, ids)
    ensures OnlySeats(r, step.0) && OthersStay(r.seats, step.0.seats)
    ensures step.1.ok <==> forall id :: id in ids ==> Mirrorable(r, id)
    ensures step.1.ok ==> forall id :: id in ids || MirrorFitted(r.seats, id) ==> MirrorFitted(step.0.seats, id)
    ensures Fitted(r.seats, BLUE_COMMANDER, For(Commander)) ==> Fitted(step.0.seats, BLUE_COMMANDER, For(Commander))
    decreases |ids|
  {
    if ids != [] {
      if Mirrored(r.seats, ids[0]) {
        var one := InstallAi(r, Mirror(ids[0]), r.seats[ids[0]].template);
        InstallingMirror(r, ids[0], one);
        if one.1.ok {
          InstallingAll(one.0, ids[1..], step);
          forall id ensures Mirrorable(r, id) <==> Mirrorable(one.0, id) { StillMirrorable(r, one.0, id); }
        }
      } else {
        InstallingAll(r, ids[1..], step);
      }
    }
  }

  /* ------------------------------------------------------------------ the exact roster */

  /** The opponent holds the blue commander's seat and the mirrors of the people on the red side, and nothing else. */
  ghost predicate ExactRoster(seats: Seats) {
    && Fitted(seats, BLUE_COMMANDER, For(Commander))
    && (forall id :: MirrorFitted(seats, id))
    && (forall id :: HeldBy(seats, id, Ai) ==> Desired(seats, id))
  }

  /** Every seat the opponent should hold can be had. */
  ghost predicate RosterPossible(r: Room) {
    Free(r, BLUE_COMMANDER, For(Commander)) && forall id :: Mirrorable(r, id)
  }

  /** People and placeholders sit as before, no longer ready perhaps. */
  predicate Reseated(seat: Seat, later: Seat) {
    later == seat.(ready := later.ready, revision := later.revision) && (later.ready ==> seat.ready)
  }

  ghost predicate OthersReseated(seats: Seats, later: Seats) {
    && (forall id :: id in seats && !seats[id].controller.Ai? ==> id in later && Reseated(seats[id], later[id]))
    && (forall id :: id in later && !later[id].controller.Ai? ==> id in seats && Reseated(seats[id], later[id]))
  }

  lemma SettledRosterIsExact(before: Room, r: Room, step: Step)
    requires step == SettleRoster(before, r)
    requires Fitted(r.seats, BLUE_COMMANDER, For(Commander)) && forall id :: MirrorFitted(r.seats, id)
    ensures step.1.ok && ExactRoster(step.0.seats) && OnlySeats(r, step.0) && OthersReseated(r.seats, step.0.seats)
  {
    var t := WithoutStale(r);
    KeepingTheDesired(r, t);
    if t != before { UnreadyKeepsRoster(t, Unready(t)); }
  }

  lemma KeepingTheDesired(r: Room, t: Room)
    requires t == WithoutStale(r)
    requires Fitted(r.seats, BLUE_COMMANDER, For(Commander)) && forall id :: MirrorFitted(r.seats, id)
    ensures ExactRoster(t.seats) && OthersStay(r.seats, t.seats)
  {
    forall id ensures MirrorFitted(t.seats, id) && (HeldBy(t.seats, id, Ai) ==> Desired(t.seats, id)) {
      assert MirrorFitted(r.seats, id);
      if Mirrored(r.seats, id) { assert Counterpart(Mirror(id)) == id && Desired(r.seats, Mirror(id)); }
    }
  }

  lemma UnreadyKeepsRoster(r: Room, t: Room)
    requires ExactRoster(r.seats) && t == Unready(r)
    ensures ExactRoster(t.seats) && OthersReseated(r.seats, t.seats)
  {
    forall id ensures MirrorFitted(t.seats, id) && (HeldBy(t.seats, id, Ai) ==> Desired(t.seats, id)) {
      assert MirrorFitted(r.seats, id);
      assert HeldBy(r.seats, id, Ai) ==> Desired(r.seats, id);
    }
  }

  lemma AfterTheMirrors(r: Room, c: Room, ids: seq<SeatId>, step: Step)
    requires OnlySeats(r, c) && OthersStay(r.seats, c.seats) && Fitted(c.seats, BLUE_COMMANDER, For(Commander))
    requires Lists(ids, c.seats.Keys) && step == AfterMirrors(r, InstallMirrors(c, ids))
    ensures OnlySeats(r, step.0) && (step.1.ok <==> forall id :: Mirrorable(r, id))
    ensures step.1.ok ==> ExactRoster(step.0.seats) && OthersReseated(r.seats, step.0.seats)
  {
    var mirrors := InstallMirrors(c, ids);
    InstallingAll(c, ids, mirrors);
    forall id ensures Mirrorable(r, id) <==> Mirrorable(c, id) { StillMirrorable(r, c, id); }
    forall id ensures id in c.seats <==> id in ids { assert id in Elements(ids) <==> id in c.seats.Keys; }
    if mirrors.1.ok {
      AllMirrorsFitted(c, ids, mirrors.0);
      SettledRosterIsExact(r, mirrors.0, step);
    }
  }

  lemma AllMirrorsFitted(c: Room, ids: seq<SeatId>, t: Room)
    requires OthersStay(c.seats, t.seats) && forall id :: id in ids ==> MirrorFitted(t.seats, id)
    requires forall id :: id in c.seats ==> id in ids
    ensures forall id :: MirrorFitted(t.seats, id)
  {
    forall id ensures MirrorFitted(t.seats, id) {
      if id !in ids { OthersStayMirrored(c.seats, t.seats, id); }
    }
  }

  /** The opponent's roster is brought up to date exactly when every seat it needs is valid and not taken by others, and
      is then exact; people and placeholders keep their seats. */
  lemma SyncedRosterIsExact(r: Room, o: Orders, step: Step)
    requires r.mode == Pve && r.phase == Preparing && step == SyncAiRoster(r, o)
    ensures step.1.ok <==> RosterPossible(r)
    ensures step.1.ok ==> ExactRoster(step.0.seats) && OthersReseated(r.seats, step.0.seats)
    ensures OnlySeats(r, step.0)
  {
    var commander := InstallAi(r, BLUE_COMMANDER, For(Commander));
    InstallingOne(r, BLUE_COMMANDER, For(Commander), commander);
    if commander.1.ok {
      var c := commander.0;
      AfterTheMirrors(r, c, o.seats(c.seats.Keys), step);
    }
  }

  /* ------------------------------------------------------------------ synchronising again */

  lemma {:induction false} NothingToInstall(r: Room, ids: seq<SeatId>)
    requires ExactRoster(r.seats) && RosterPossible(r)
    ensures InstallMirrors(r, ids) == Same(r)
    decreases |ids|
  {
    if ids != [] {
      assert MirrorFitted(r.seats, ids[0]) && Mirrorable(r, ids[0]);
      NothingToInstall(r, ids[1..]);
    }
  }

  /** An exact roster has nothing left to do: synchronising it changes nothing at all. */
  lemma ExactRosterStays(r: Room, o: Orders)
    requires r.mode == Pve && r.phase == Preparing && ExactRoster(r.seats) && RosterPossible(r)
    ensures SyncAiRoster(r, o) == Same(r)
  {
    NothingToInstall(r, o.seats(r.seats.Keys));
    forall id | id in r.seats && r.seats[id].controller.Ai? ensures Desired(r.seats, id) {
      assert HeldBy(r.seats, id, Ai);
    }
    assert WithoutStale(r).seats == r.seats;
  }

  lemma StillPossible(r: Room, t: Room, id: SeatId)
    requires OnlySeats(r, t) && OthersReseated(r.seats, t.seats) && ExactRoster(t.seats) && Mirrorable(r, id)
    ensures Mirrorable(t, id)
  {
    if Mirrored(t.seats, id) {
      assert Reseated(r.seats[id], t.seats[id]) && MirrorFitted(t.seats, id);
    }
  }

  /** A second synchronisation, in whatever order, is accepted and does nothing. */
  lemma SyncingTwiceIsSyncingOnce(r: Room, o: Orders, again: Orders)
    requires r.mode == Pve && r.phase == Preparing && SyncAiRoster(r, o).1.ok
    ensures var t := SyncAiRoster(r, o).0; SyncAiRoster(t, again) == Same(t)
  {
    var step := SyncAiRoster(r, o);
    SyncedRosterIsExact(r, o, step);
    forall id ensures Mirrorable(step.0, id) { StillPossible(r, step.0, id); }
    ExactRosterStays(step.0, again);
  }

  /* ------------------------------------------------------------------ giving up */

  lemma ModeDoesNotMatter(r: Room, t: Room)
    requires t == r.(mode := t.mode)
    ensures RosterPossible(r) <==> RosterPossible(t)
  {
    forall id ensures Mirrorable(r, id) <==> Mirrorable(t, id) {}
  }

  lemma GivingUp(r: Room, roster: Step, o: Orders, step: Step)
    requires Sound(Any, r) && step == OrBack(r, roster, o) && SameRules(r, roster.0)
    ensures step.1 == roster.1
    ensures step.0 == if roster.1.ok then roster.0
                      else if Readable(r) then RereadRoom(r).(departed := roster.0.departed) else roster.0
  {
    if !roster.1.ok { RollingBackIs(r, roster.0, o, step.0); }
  }

  /** Turning to a match against the opponent fails exactly when the roster is impossible. What had been begun is then
      undone, the mode first of all, if and only if every seat of the room would be accepted when it is read back. */
  lemma FailedModeChangeIsUndoneIff(r: Room, o: Orders, step: Step)
    requires Sound(Any, r) && r.phase == Preparing && r.mode == Pvp && !r.vmf && step == SetMode(r, Some(Pve), o)
    ensures step.1.ok <==> RosterPossible(r)
    ensures step.1.ok ==> step.0.mode == Pve && ExactRoster(step.0.seats)
    ensures !step.1.ok ==> step.0 == if Readable(r) then RereadRoom(r) else SyncAiRoster(r.(mode := Pve), o).0
    ensures !step.1.ok ==> (step.0.mode == Pvp <==> Readable(r))
  {
    var pve := r.(mode := Pve);
    var roster := SyncAiRoster(pve, o);
    SyncedRosterIsExact(pve, o, roster);
    ModeDoesNotMatter(r, pve);
    GivingUp(r, roster, o, step);
  }

  /** In a standard room that leaves nothing behind. */
  lemma FailedModeChangeChangesNothing(r: Room, o: Orders, step: Step)
    requires Sound(Standard, r) && r.phase == Preparing && r.mode == Pvp && step == SetMode(r, Some(Pve), o)
    ensures step.1.ok <==> RosterPossible(r)
    ensures !step.1.ok ==> step.0 == r
    ensures step.1.ok ==> step.0.mode == Pve && ExactRoster(step.0.seats)
  {
    SoundMeans(Standard, r);
    StandardIsSound(r);
    StandardIsReadable(r);
    FailedModeChangeIsUndoneIff(r, o, step);
  }

  lemma SeatedKeepsTheRest(r: Room, user: int, username: string, id: SeatId, template: Template, seated: Room)
    requires seated == Seated(r, user, username, id, template)
    ensures SameRules(r, seated) && seated.departed == r.departed - {user}
    ensures seated.mode == r.mode && seated.phase == r.phase
    ensures HeldBy(seated.seats, id, Human(user))
  {
    var t := Put(r, id, ClaimedSeat(r, user, username, id, template)).(nextUnit := NumberAfterClaim(r, id));
    UnreadyingKeepsTheRest(t, CommanderOf(id.side));
  }

  lemma UnreadyingKeepsTheRest(r: Room, id: SeatId)
    ensures CommanderUnready(r, id) == r.(seats := CommanderUnready(r, id).seats)
    ensures forall other, c :: HeldBy(r.seats, other, c) <==> HeldBy(CommanderUnready(r, id).seats, other, c)
  {
  }

  lemma FailedMirrorsLeaveOthers(r: Room, c: Room, ids: seq<SeatId>, step: Step)
    requires OthersStay(r.seats, c.seats) && step == AfterMirrors(r, InstallMirrors(c, ids)) && !step.1.ok
    ensures OthersStay(r.seats, step.0.seats)
  {
    InstallingAll(c, ids, InstallMirrors(c, ids));
  }

  /** A synchronisation that fails may have installed some of the opponent's seats, and has left the others alone. */
  lemma FailedSyncLeavesOthers(r: Room, o: Orders, step: Step)
    requires step == SyncAiRoster(r, o) && !step.1.ok
    ensures OthersStay(r.seats, step.0.seats)
  {
    if r.phase == Preparing {
      var commander := InstallAi(r, BLUE_COMMANDER, For(Commander));
      InstallingOne(r, BLUE_COMMANDER, For(Commander), commander);
      if commander.1.ok {
        FailedMirrorsLeaveOthers(r, commander.0, o.seats(commander.0.seats.Keys), step);
      }
    }
  }

  lemma SyncTouchesSeatsOnly(r: Room, o: Orders, step: Step)
    requires step == SyncAiRoster(r, o)
    ensures OnlySeats(r, step.0)
  {
    if r.mode == Pve && r.phase == Preparing { SyncedRosterIsExact(r, o, step); }
  }

  /** What a claim that was given up leaves behind: the room as it was, up to the bindings of its seats, or else a room
      in which the person sits. */
  ghost predicate GivenBack(r: Room, user: int, id: SeatId, t: Room) {
    if Readable(r) then t == RereadRoom(r).(departed := r.departed - {user}) else HeldBy(t.seats, id, Human(user))
  }

  /** A claim that is refused leaves the room as it was, or has been given up; what was begun is then undone if and only
      if every seat of the room would be accepted when it is read back. */
  lemma FailedClaimIsUndoneIff(r: Room, user: int, username: string, id: SeatId, template: Template, o: Orders,
                               step: Step)
    requires Sound(Any, r) && step == ClaimSeat(r, user, username, id, template, o) && !step.1.ok
    ensures step.0 == r || GivenBack(r, user, id, step.0)
  {
    if ClaimObjection(r, user, username, id, template).None? && SeatOf(r.seats, user).None? {
      var seated := Seated(r, user, username, id, template);
      SeatedKeepsTheRest(r, user, username, id, template, seated);
      FailedSeatIsGivenBack(r, user, seated, id, o, step);
    }
  }

  lemma FailedSeatIsGivenBack(r: Room, user: int, seated: Room, id: SeatId, o: Orders, step: Step)
    requires Sound(Any, r) && step == TakeSeat(r, seated, id, o) && !step.1.ok
    requires SameRules(r, seated) && seated.departed == r.departed - {user} && HeldBy(seated.seats, id, Human(user))
    ensures GivenBack(r, user, id, step.0)
  {
    var taken := Succeed(seated).0;
    var roster := SyncAiRoster(taken, o);
    if !roster.1.ok {
      FailedSyncLeavesOthers(taken, o, roster);
      SyncTouchesSeatsOnly(taken, o, roster);
    }
    GivingUp(r, roster, o, step);
  }

  /** A claim that is refused leaves a standard room as it was; at most the person is no longer among those who
      departed. */
  lemma FailedClaimChangesNothing(r: Room, user: int, username: string, id: SeatId, template: Template, o: Orders,
                                  step: Step)
    requires Sound(Standard, r) && step == ClaimSeat(r, user, username, id, template, o) && !step.1.ok
    ensures step.0 == r || step.0 == r.(departed := r.departed - {user})
  {
    StandardIsSound(r);
    StandardIsReadable(r);
    FailedClaimIsUndoneIff(r, user, username, id, template, o, step);
  }
}
