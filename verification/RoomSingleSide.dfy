/**
 The single-side mode: what its roster is exactly, that it needs bringing about only once, and what binding does.
 */
module RoomSingleSide {
  import opened Listings
  import opened Options
  import opened RoomModel

  /** Only seats and the revision differ. */
  predicate OnlyRoster(r: Room, t: Room) { t == r.(seats := t.seats, revision := t.revision) }

  function TargetTemplate(b: Binding, id: SeatId): Template
    requires Target(b, id)
  {
    For(b.units[b.seats[id]].kind)
  }

  /** The place of a target can be had: it is a valid one, and no person sits there. */
  predicate TargetPossible(r: Room, id: SeatId) {
    Target(r.bound, id) ==>
      && ValidSeat(r.templates, r.limits, r.vmf, id, TargetTemplate(r.bound, id))
      && !(id in r.seats && r.seats[id].controller.Human?)
  }

  /** A target's place holds a fixed target, bound to the unit of that place. */
  predicate TargetStands(b: Binding, seats: Seats, id: SeatId) {
    Target(b, id) ==>
      && id in seats && seats[id].controller.Placeholder? && seats[id].control == FixedTarget
      && seats[id].source == Some(b.seats[id]) && seats[id].template == TargetTemplate(b, id)
  }

  predicate SameAt(seats: Seats, later: Seats, id: SeatId) {
    (id in later <==> id in seats) && (id in seats ==> later[id] == seats[id])
  }

  lemma InstallingTarget(r: Room, id: SeatId, step: Step)
    requires r.vmf && Target(r.bound, id) && step == InstallVmf(r, id, TargetTemplate(r.bound, id), FixedTarget)
    ensures OnlyRoster(r, step.0) && (step.1.ok <==> TargetPossible(r, id))
    ensures step.1.ok ==> TargetStands(r.bound, step.0.seats, id)
    ensures forall other :: other != id ==> SameAt(r.seats, step.0.seats, other)
  {
    assert SourceId(r.bound, id, None) == Some(r.bound.seats[id]);
  }

  lemma StillPossible(r: Room, t: Room, id: SeatId, other: SeatId)
    requires OnlyRoster(r, t) && TargetPossible(r, id) && Target(r.bound, id) && TargetStands(r.bound, t.seats, id)
    requires other != id ==> SameAt(r.seats, t.seats, other)
    ensures TargetPossible(t, other) <==> TargetPossible(r, other)
  {
  }

  /** Going through the bound places installs every target among them, or fails at one that cannot be had; the other
      places are left alone. */
  lemma {:induction false} InstallingTargets(r: Room, ids: seq<SeatId>, step: Step)
    requires r.vmf && step == InstallTargets(r, ids)
    ensures OnlyRoster(r, step.0) && (step.1.ok <==> forall id :: id in ids ==> TargetPossible(r, id))
    ensures step.1.ok ==>
              forall id :: id in ids || TargetStands(r.bound, r.seats, id) ==> TargetStands(r.bound, step.0.seats, id)
    ensures forall id :: !Target(r.bound, id) ==> SameAt(r.seats, step.0.seats, id)
    decreases |ids|
  {
    if ids != [] {
      if Target(r.bound, ids[0]) {
        var one := InstallVmf(r, ids[0], TargetTemplate(r.bound, ids[0]), FixedTarget);
        InstallingTarget(r, ids[0], one);
        if one.1.ok {
          InstallingTargets(one.0, ids[1..], step);
          forall id ensures TargetPossible(one.0, id) <==> TargetPossible(r, id) {
            StillPossible(r, one.0, ids[0], id);
          }
        }
      } else {
        InstallingTargets(r, ids[1..], step);
      }
    }
  }

  /* ------------------------------------------------------------------ the automated seats */

  predicate Automatable(r: Room, kind: Kind) { Staffed(r.seats, kind) || For(kind) in r.templates }

  /** What was there has stayed, and whatever has come is an automated red seat. */
  ghost predicate OnlyAutomatedCame(seats: Seats, later: Seats) {
    && (forall id :: id in seats ==> id in later && later[id] == seats[id])
    && (forall id :: id in later && id !in seats ==>
          id.side == Red && later[id].controller.Placeholder? && later[id].control == VmfAuto)
  }

  lemma InstallingOneKind(r: Room, kind: Kind, step: Step)
    requires r.vmf && kind in AUTOMATED_KINDS && !Staffed(r.seats, kind)
    requires step == InstallVmf(r, SeatId(Red, kind, 1), For(kind), VmfAuto)
    ensures OnlyRoster(r, step.0) && (step.1.ok <==> Automatable(r, kind))
    ensures OnlyAutomatedCame(r.seats, step.0.seats) && (step.1.ok ==> Staffed(step.0.seats, kind))
    ensures forall id :: id != SeatId(Red, kind, 1) ==> (id in step.0.seats <==> id in r.seats)
  {
    var id := SeatId(Red, kind, 1);
    assert id !in r.seats;
    if step.1.ok { assert id in step.0.seats; }
  }

  lemma StaffedElsewhere(seats: Seats, later: Seats, id: SeatId, kind: Kind)
    requires id.kind != kind && forall other :: other != id ==> (other in later <==> other in seats)
    ensures Staffed(later, kind) <==> Staffed(seats, kind)
  {
    if Staffed(later, kind) {
      var other :| other in later && other.side == Red && other.kind == kind;
      assert other in seats;
    }
    if Staffed(seats, kind) {
      var other :| other in seats && other.side == Red && other.kind == kind;
      assert other in later;
    }
  }

  lemma StillAutomatable(r: Room, t: Room, installed: Kind, kind: Kind)
    requires OnlyRoster(r, t) && Automatable(r, installed) && Staffed(t.seats, installed)
    requires kind != installed ==> (Staffed(t.seats, kind) <==> Staffed(r.seats, kind))
    ensures Automatable(t, kind) <==> Automatable(r, kind)
  {
  }

  lemma StaysStaffed(seats: Seats, later: Seats, kind: Kind)
    requires OnlyAutomatedCame(seats, later) && Staffed(seats, kind)
    ensures Staffed(later, kind)
  {
    var id :| id in seats && id.side == Red && id.kind == kind;
    assert id in later;
  }

  lemma OnlyMoreCame(a: Seats, b: Seats, c: Seats)
    requires OnlyAutomatedCame(a, b) && OnlyAutomatedCame(b, c)
    ensures OnlyAutomatedCame(a, c)
  {
  }

  /** Each kind gone through is staffed in the end, or the first that cannot be ends it. */
  lemma {:induction false} InstallingKinds(r: Room, kinds: seq<Kind>, step: Step)
    requires r.vmf && step == InstallAutomated(r, kinds) && forall kind :: kind in kinds ==> kind in AUTOMATED_KINDS
    ensures OnlyRoster(r, step.0) && OnlyAutomatedCame(r.seats, step.0.seats)
    ensures step.1.ok <==> forall kind :: kind in kinds ==> Automatable(r, kind)
    ensures step.1.ok ==>
              forall kind :: kind in kinds || Staffed(r.seats, kind) ==> Staffed(step.0.seats, kind)
    decreases |kinds|
  {
    if kinds != [] {
      if Staffed(r.seats, kinds[0]) {
        InstallingKinds(r, kinds[1..], step);
      } else {
        var one := InstallVmf(r, SeatId(Red, kinds[0], 1), For(kinds[0]), VmfAuto);
        InstallingOneKind(r, kinds[0], one);
        if one.1.ok {
          InstallingKinds(one.0, kinds[1..], step);
          forall kind ensures Automatable(one.0, kind) <==> Automatable(r, kind) {
            if kind != kinds[0] { StaffedElsewhere(r.seats, one.0.seats, SeatId(Red, kinds[0], 1), kind); }
            StillAutomatable(r, one.0, kinds[0], kind);
          }
          OnlyMoreCame(r.seats, one.0.seats, step.0.seats);
          forall kind | step.1.ok && Staffed(r.seats, kind) ensures Staffed(step.0.seats, kind) {
            StaysStaffed(r.seats, step.0.seats, kind);
          }
        } else {
          assert !Automatable(r, kinds[0]);
        }
      }
    }
  }

  /* ------------------------------------------------------------------ the exact roster */

  /** The blue side is exactly the targets, and the red side has somebody of each automated kind. */
  ghost predicate ExactSides(b: Binding, seats: Seats) {
    && (forall id :: TargetStands(b, seats, id))
    && (forall id :: id in seats && id.side == Blue ==> Target(b, id))
    && (forall kind :: kind in AUTOMATED_KINDS ==> Staffed(seats, kind))
  }

  /** Every seat the mode needs can be had. */
  ghost predicate SidesPossible(r: Room) {
    && (forall id :: TargetPossible(r, id))
    && (forall kind :: kind in AUTOMATED_KINDS ==> Automatable(r, kind))
  }

  /** Red seats have stayed as they were, and the new ones are automated. */
  ghost predicate RedStays(seats: Seats, later: Seats) {
    && (forall id :: id in seats && id.side == Red ==> id in later && later[id] == seats[id])
    && (forall id :: id in later && id.side == Red && id !in seats ==>
          later[id].controller.Placeholder? && later[id].control == VmfAuto)
  }

  lemma RedStaffing(seats: Seats, later: Seats, kind: Kind)
    requires forall id: SeatId :: id.side == Red ==> SameAt(seats, later, id)
    ensures Staffed(later, kind) <==> Staffed(seats, kind)
  {
    if Staffed(later, kind) {
      var id :| id in later && id.side == Red && id.kind == kind;
      assert SameAt(seats, later, id) && id in seats;
    }
    if Staffed(seats, kind) {
      var id :| id in seats && id.side == Red && id.kind == kind;
      assert SameAt(seats, later, id) && id in later;
    }
  }

  lemma StraysGone(r: Room, targets: Room, t: Room)
    requires OnlyRoster(r, targets) && t == WithoutStrays(targets)
    requires forall id :: TargetStands(r.bound, targets.seats, id)
    requires forall id :: !Target(r.bound, id) ==> SameAt(r.seats, targets.seats, id)
    ensures forall id :: TargetStands(r.bound, t.seats, id)
    ensures forall id :: id in t.seats && id.side == Blue ==> Target(r.bound, id)
    ensures forall id: SeatId :: id.side == Red ==> SameAt(r.seats, t.seats, id)
  {
    forall id ensures TargetStands(r.bound, t.seats, id) { assert TargetStands(r.bound, targets.seats, id); }
    forall id: SeatId | id.side == Red ensures SameAt(r.seats, t.seats, id) {
      assert SameAt(r.seats, targets.seats, id);
    }
  }

  lemma AutomatedKeepsTargets(b: Binding, seats: Seats, later: Seats)
    requires OnlyAutomatedCame(seats, later) && forall id :: TargetStands(b, seats, id)
    requires forall id :: id in seats && id.side == Blue ==> Target(b, id)
    ensures forall id :: TargetStands(b, later, id)
    ensures forall id :: id in later && id.side == Blue ==> Target(b, id)
  {
    forall id ensures TargetStands(b, later, id) { assert TargetStands(b, seats, id); }
  }

  lemma AfterTheTargets(r: Room, targets: Room, step: Step)
    requires r.vmf && OnlyRoster(r, targets) && forall id :: TargetStands(r.bound, targets.seats, id)
    requires forall id :: !Target(r.bound, id) ==> SameAt(r.seats, targets.seats, id)
    requires step == InstallAutomated(WithoutStrays(targets), AUTOMATED_KINDS)
    ensures OnlyRoster(r, step.0)
    ensures step.1.ok <==> forall kind :: kind in AUTOMATED_KINDS ==> Automatable(r, kind)
    ensures step.1.ok ==> ExactSides(r.bound, step.0.seats) && RedStays(r.seats, step.0.seats)
  {
    var t := WithoutStrays(targets);
    StraysGone(r, targets, t);
    forall kind ensures Automatable(t, kind) <==> Automatable(r, kind) { RedStaffing(r.seats, t.seats, kind); }
    InstallingKinds(t, AUTOMATED_KINDS, step);
    if step.1.ok { AutomatedKeepsTargets(r.bound, t.seats, step.0.seats); }
  }

  lemma AllTargetsListed(r: Room, ids: seq<SeatId>)
    requires Lists(ids, r.bound.seats.Keys)
    ensures forall id :: Target(r.bound, id) ==> id in ids
  {
    forall id | Target(r.bound, id) ensures id in ids { assert id in Elements(ids) <==> id in r.bound.seats.Keys; }
  }

  /** The roster of the single-side mode is brought about exactly when every seat it needs can be had: then the blue
      side is exactly the fixed targets of the scenario, each bound to its unit, the red side has a seat of each
      automated kind, and no red seat that was there has changed. */
  lemma SyncedSidesAreExact(r: Room, o: Orders, step: Step)
    requires r.vmf && r.phase != Finished && step == SyncVmfRoster(r, o)
    ensures OnlyRoster(r, step.0) && (step.1.ok <==> SidesPossible(r))
    ensures step.1.ok ==> ExactSides(r.bound, step.0.seats) && RedStays(r.seats, step.0.seats)
  {
    var ids := o.seats(r.bound.seats.Keys);
    var targets := InstallTargets(r, ids);
    InstallingTargets(r, ids, targets);
    AllTargetsListed(r, ids);
    if targets.1.ok {
      forall id ensures TargetStands(r.bound, targets.0.seats, id) && TargetPossible(r, id) {
        if id !in ids { assert !Target(r.bound, id); }
      }
      AfterTheTargets(r, targets.0, InstallAutomated(WithoutStrays(targets.0), AUTOMATED_KINDS));
    }
  }

  /* ------------------------------------------------------------------ synchronising again */

  lemma {:induction false} NoTargetToInstall(r: Room, ids: seq<SeatId>)
    requires r.vmf && (forall id :: TargetStands(r.bound, r.seats, id)) && forall id :: TargetPossible(r, id)
    ensures InstallTargets(r, ids) == Same(r)
    decreases |ids|
  {
    if ids != [] {
      assert TargetStands(r.bound, r.seats, ids[0]) && TargetPossible(r, ids[0]);
      NoTargetToInstall(r, ids[1..]);
    }
  }

  lemma {:induction false} NoKindToInstall(r: Room, kinds: seq<Kind>)
    requires forall kind :: kind in kinds ==> Staffed(r.seats, kind)
    ensures InstallAutomated(r, kinds) == Same(r)
    decreases |kinds|
  {
    if kinds != [] { NoKindToInstall(r, kinds[1..]); }
  }

  /** A second synchronisation, in whatever order, is accepted and changes nothing. */
  lemma SyncingSidesTwice(r: Room, o: Orders, again: Orders)
    requires r.vmf && r.phase != Finished && SyncVmfRoster(r, o).1.ok
    ensures var t := SyncVmfRoster(r, o).0; SyncVmfRoster(t, again) == Same(t)
  {
    var t := SyncVmfRoster(r, o).0;
    SyncedSidesAreExact(r, o, SyncVmfRoster(r, o));
    forall id ensures TargetPossible(t, id) { assert TargetPossible(r, id) && TargetStands(t.bound, t.seats, id); }
    NoTargetToInstall(t, again.seats(t.bound.seats.Keys));
    assert WithoutStrays(t).seats == t.seats;
    NoKindToInstall(t, AUTOMATED_KINDS);
  }

  /* ------------------------------------------------------------------ what binding does */

  type Places = map<SeatId, string>

  /** Every place is bound to a unit of its own side and type. */
  ghost predicate Suitable(places: Places, units: map<string, Source>) {
    forall id :: id in places ==>
      places[id] in units && units[places[id]].side == id.side && units[places[id]].kind == id.kind
  }

  /** No unit is bound to two places. */
  ghost predicate OnePlaceEach(places: Places) {
    forall a, c :: a in places && c in places && places[a] == places[c] ==> a == c
  }

  predicate IsBound(places: Places, unit: string) { exists id :: id in places && places[id] == unit }

  ghost predicate Grows(places: Places, later: Places) {
    forall id :: id in places ==> id in later && later[id] == places[id]
  }

  lemma StaysBoundTo(places: Places, later: Places, unit: string)
    requires Grows(places, later) && IsBound(places, unit)
    ensures IsBound(later, unit)
  {
    var id :| id in places && places[id] == unit;
    assert id in later && later[id] == unit;
  }

  lemma {:induction false} FreeIndexIsFree(places: Places, key: LimitKey, index: int)
    ensures SeatId(key.0, key.1, FreeIndex(places, key, index)) !in places
    decreases Ahead(places, key, index)
  {
    if SeatId(key.0, key.1, index) in places {
      assert SeatId(key.0, key.1, index) in Ahead(places, key, index) - Ahead(places, key, index + 1);
      FreeIndexIsFree(places, key, index + 1);
    }
  }

  /** One more place is bound, to a unit that has had none. */
  lemma OneMoreBound(places: Places, units: map<string, Source>, id: SeatId, unit: string)
    requires Suitable(places, units) && id !in places && !IsBound(places, unit)
    requires unit in units && units[unit].side == id.side && units[unit].kind == id.kind
    ensures Suitable(places[id := unit], units) && Grows(places, places[id := unit])
    ensures OnePlaceEach(places[id := unit]) <==> OnePlaceEach(places)
    ensures forall u :: IsBound(places[id := unit], u) <==> IsBound(places, u) || u == unit
  {
    var later := places[id := unit];
    forall u ensures IsBound(later, u) <==> IsBound(places, u) || u == unit {
      if IsBound(places, u) { StaysBoundTo(places, later, u); }
      if u == unit { assert later[id] == u; }
      if IsBound(later, u) && u != unit {
        var a :| a in later && later[a] == u;
        assert a in places && places[a] == u;
      }
    }
    assert forall a :: a in places ==> places[a] != unit;
    assert OnePlaceEach(places) ==> OnePlaceEach(later);
    if OnePlaceEach(later) {
      forall a, c | a in places && c in places && places[a] == places[c] ensures a == c {
        assert later[a] == later[c];
      }
    }
  }

  /** Binding some units: all of them are bound in the end, nothing else is, and nothing is bound twice that was not. */
  ghost predicate Binds(places: Places, later: Places, units: map<string, Source>, ids: set<string>) {
    && Suitable(later, units) && Grows(places, later) && (OnePlaceEach(later) <==> OnePlaceEach(places))
    && forall u :: IsBound(later, u) <==> IsBound(places, u) || u in ids
  }

  lemma BindsOnward(a: Places, b: Places, c: Places, units: map<string, Source>, x: set<string>, y: set<string>)
    requires Binds(a, b, units, x) && Binds(b, c, units, y)
    ensures Binds(a, c, units, x + y)
  {
  }

  lemma {:induction false} BindingABucket(places: Places, units: map<string, Source>, key: LimitKey, ids: seq<string>,
                                          index: int, taken: set<string>, later: Places)
    requires BindBucket(places, key, ids, index, taken) == Some(later) && NoRepeats(ids) && Suitable(places, units)
    requires forall u :: u in ids ==> u in units && units[u].side == key.0 && units[u].kind == key.1
    requires forall u :: u in ids ==> (IsBound(places, u) <==> u in taken)
    ensures Binds(places, later, units, Elements(ids))
    decreases |ids|
  {
    if ids != [] {
      var unit, rest := ids[0], ids[1..];
      assert ids == [unit] + rest && unit !in rest;
      if unit in taken {
        BindingABucket(places, units, key, rest, index, taken, later);
      } else {
        FreeIndexIsFree(places, key, index);
        var free := FreeIndex(places, key, index);
        var id := if key.1 == Commander then CommanderOf(key.0) else SeatId(key.0, key.1, free);
        OneMoreBound(places, units, id, unit);
        BindingABucket(places[id := unit], units, key, rest, if key.1 == Commander then index else free + 1, taken,
                       later);
        BindsOnward(places, places[id := unit], later, units, {unit}, Elements(rest));
        assert Elements(ids) == {unit} + Elements(rest);
      }
    }
  }

  function AllOf(units: map<string, Source>, keys: seq<LimitKey>): set<string> {
    set u | u in units && (units[u].side, units[u].kind) in keys
  }

  lemma BucketListed(units: map<string, Source>, key: LimitKey, ids: seq<string>)
    requires Lists(ids, Bucket(units, key))
    ensures forall u :: u in ids <==> u in Bucket(units, key)
  {
    forall u ensures u in ids <==> u in Bucket(units, key) { assert u in Elements(ids) <==> u in ids; }
  }

  lemma FirstBucket(units: map<string, Source>, keys: seq<LimitKey>)
    requires keys != [] && NoRepeats(keys)
    ensures AllOf(units, keys) == Bucket(units, keys[0]) + AllOf(units, keys[1..])
    ensures Bucket(units, keys[0]) !! AllOf(units, keys[1..])
  {
    assert keys == [keys[0]] + keys[1..] && keys[0] !in keys[1..];
  }

  lemma {:induction false} BindingTheBuckets(places: Places, units: map<string, Source>, keys: seq<LimitKey>,
                                             taken: set<string>, o: Orders, later: Places)
    requires BindBuckets(places, units, keys, taken, o) == Some(later) && NoRepeats(keys) && Suitable(places, units)
    requires forall u :: u in AllOf(units, keys) ==> (IsBound(places, u) <==> u in taken)
    ensures Binds(places, later, units, AllOf(units, keys))
    decreases |keys|
  {
    if keys == [] {
      assert AllOf(units, keys) == {};
    } else {
      var key, rest := keys[0], keys[1..];
      var ids := o.names(Bucket(units, key));
      var more := BindBucket(places, key, ids, 1, taken).value;
      FirstBucket(units, keys);
      BucketListed(units, key, ids);
      BindingABucket(places, units, key, ids, 1, taken, more);
      BindingTheBuckets(more, units, rest, taken, o, later);
      BindsOnward(places, more, later, units, Elements(ids), AllOf(units, rest));
    }
  }

  /** No two seats are bound to the same unit, among those that stay bound. */
  ghost predicate SourcesApart(seats: Seats, units: map<string, Source>) {
    forall a, c :: SameSource(seats, units, a, c) ==> a == c
  }

  predicate SameSource(seats: Seats, units: map<string, Source>, a: SeatId, c: SeatId) {
    && a in seats && c in seats && StaysBound(units, seats[a]) && StaysBound(units, seats[c])
    && seats[a].source == seats[c].source
  }

  lemma ApartIsOnePlaceEach(seats: Seats, units: map<string, Source>)
    ensures OnePlaceEach(KeptBindings(seats, units)) <==> SourcesApart(seats, units)
  {
    var kept := KeptBindings(seats, units);
    if OnePlaceEach(kept) {
      forall a, c | SameSource(seats, units, a, c) ensures a == c { assert kept[a] == kept[c]; }
    }
    if SourcesApart(seats, units) {
      forall a, c | a in kept && c in kept && kept[a] == kept[c] ensures a == c {
        assert SameSource(seats, units, a, c);
      }
    }
  }

  lemma KeptIsSuitable(seats: Seats, units: map<string, Source>)
    requires forall id :: id in seats ==> seats[id].seatId == id
    ensures Suitable(KeptBindings(seats, units), units)
  {
  }

  lemma EveryKeyListed(units: map<string, Source>, keys: seq<LimitKey>)
    requires Lists(keys, Buckets(units))
    ensures AllOf(units, keys) == units.Keys
  {
    forall u | u in units ensures u in AllOf(units, keys) {
      assert (units[u].side, units[u].kind) in Elements(keys);
    }
  }

  /** Binding the seats to a scenario: every place is bound to a unit of its side and type, and every unit of the
      scenario is bound to a place; to one only, if and only if no two seats were bound to the same unit before. */
  lemma EveryUnitHasItsPlace(r: Room, units: map<string, Source>, o: Orders, places: Places)
    requires Bindings(r, units, o) == Some(places)
    requires forall id :: id in r.seats ==> r.seats[id].seatId == id
    ensures Suitable(places, units) && (forall u :: IsBound(places, u) <==> u in units)
    ensures OnePlaceEach(places) <==> SourcesApart(r.seats, units)
  {
    var kept := KeptBindings(r.seats, units);
    var keys, taken := o.limits(Buckets(units)), set id | id in kept :: kept[id];
    KeptIsSuitable(r.seats, units);
    ApartIsOnePlaceEach(r.seats, units);
    EveryKeyListed(units, keys);
    BindingTheBuckets(kept, units, keys, taken, o, places);
  }

  lemma {:induction false} BucketGrows(places: Places, key: LimitKey, ids: seq<string>, index: int, taken: set<string>,
                                       later: Places)
    requires BindBucket(places, key, ids, index, taken) == Some(later)
    ensures Grows(places, later)
    decreases |ids|
  {
    if ids != [] {
      if ids[0] in taken {
        BucketGrows(places, key, ids[1..], index, taken, later);
      } else if key.1 == Commander {
        BucketGrows(places[CommanderOf(key.0) := ids[0]], key, ids[1..], index, taken, later);
      } else {
        var free := FreeIndex(places, key, index);
        FreeIndexIsFree(places, key, index);
        BucketGrows(places[SeatId(key.0, key.1, free) := ids[0]], key, ids[1..], free + 1, taken, later);
      }
    }
  }

  lemma {:induction false} BucketsGrow(places: Places, units: map<string, Source>, keys: seq<LimitKey>,
                                       taken: set<string>, o: Orders, later: Places)
    requires BindBuckets(places, units, keys, taken, o) == Some(later)
    ensures Grows(places, later)
    decreases |keys|
  {
    if keys != [] {
      var ids := o.names(Bucket(units, keys[0]));
      var more := BindBucket(places, keys[0], ids, 1, taken).value;
      BucketGrows(places, keys[0], ids, 1, taken, more);
      BucketsGrow(more, units, keys[1..], taken, o, later);
    }
  }

  lemma {:induction false} BucketFillsFirstPlace(places: Places, key: LimitKey, ids: seq<string>, taken: set<string>,
                                                 unit: string, later: Places)
    requires BindBucket(places, key, ids, 1, taken) == Some(later) && key.1 != Commander
    requires unit in ids && unit !in taken
    ensures SeatId(key.0, key.1, 1) in later
    decreases |ids|
  {
    if ids[0] in taken {
      BucketFillsFirstPlace(places, key, ids[1..], taken, unit, later);
    } else {
      var free := FreeIndex(places, key, 1);
      var more := places[SeatId(key.0, key.1, free) := ids[0]];
      BucketGrows(more, key, ids[1..], free + 1, taken, later);
      assert SeatId(key.0, key.1, 1) in more;
    }
  }

  /** The first place of a type is bound if there is a unit of the type that has no place yet. */
  lemma {:induction false} FirstPlaceIsBound(places: Places, units: map<string, Source>, keys: seq<LimitKey>,
                                             taken: set<string>, o: Orders, unit: string, later: Places)
    requires BindBuckets(places, units, keys, taken, o) == Some(later)
    requires unit in units && unit !in taken && units[unit].kind != Commander
    requires (units[unit].side, units[unit].kind) in keys
    ensures SeatId(units[unit].side, units[unit].kind, 1) in later
    decreases |keys|
  {
    var key, ids := keys[0], o.names(Bucket(units, keys[0]));
    var more := BindBucket(places, key, ids, 1, taken).value;
    if key == (units[unit].side, units[unit].kind) {
      BucketListed(units, key, ids);
      BucketFillsFirstPlace(places, key, ids, taken, unit, more);
      BucketsGrow(more, units, keys[1..], taken, o, later);
    } else {
      FirstPlaceIsBound(more, units, keys[1..], taken, o, unit, later);
    }
  }

  /* ------------------------------------------------------------------ when binding ends */

  /** There is room for the units that have no place yet: a side has only one place for a command post. */
  predicate Roomy(places: Places, key: LimitKey, unplaced: set<string>) {
    key.1 == Commander && unplaced != {} ==> |unplaced| == 1 && CommanderOf(key.0) !in places
  }

  lemma Unplaced(ids: seq<string>, taken: set<string>)
    requires ids != [] && NoRepeats(ids)
    ensures NoRepeats(ids[1..])
    ensures var left := Elements(ids[1..]) - taken;
            if ids[0] in taken then Elements(ids) - taken == left
            else ids[0] !in left && Elements(ids) - taken == {ids[0]} + left
  {
    assert ids == [ids[0]] + ids[1..] && ids[0] !in ids[1..];
  }

  lemma {:induction false} OtherBucketsEnd(places: Places, key: LimitKey, ids: seq<string>, index: int,
                                           taken: set<string>)
    requires key.1 != Commander
    ensures BindBucket(places, key, ids, index, taken).Some?
    decreases |ids|
  {
    if ids != [] {
      if ids[0] in taken {
        OtherBucketsEnd(places, key, ids[1..], index, taken);
      } else {
        var free := FreeIndex(places, key, index);
        OtherBucketsEnd(places[SeatId(key.0, key.1, free) := ids[0]], key, ids[1..], free + 1, taken);
      }
    }
  }

  lemma {:induction false} CommandPostsEndIff(places: Places, side: Side, ids: seq<string>, index: int,
                                              taken: set<string>)
    requires NoRepeats(ids)
    ensures BindBucket(places, (side, Commander), ids, index, taken).Some?
            <==> Roomy(places, (side, Commander), Elements(ids) - taken)
    decreases |ids|
  {
    if ids == [] {
      assert Elements(ids) - taken == {};
    } else {
      Unplaced(ids, taken);
      if ids[0] in taken {
        CommandPostsEndIff(places, side, ids[1..], index, taken);
      } else {
        CommandPostsEndIff(places[CommanderOf(side) := ids[0]], side, ids[1..], index, taken);
      }
    }
  }

  lemma BucketEndsIff(places: Places, key: LimitKey, ids: seq<string>, index: int, taken: set<string>)
    requires NoRepeats(ids)
    ensures BindBucket(places, key, ids, index, taken).Some? <==> Roomy(places, key, Elements(ids) - taken)
  {
    if key.1 == Commander {
      CommandPostsEndIff(places, key.0, ids, index, taken);
    } else {
      OtherBucketsEnd(places, key, ids, index, taken);
    }
  }

  /** A bucket of another side or type leaves a command post's place alone. */
  lemma {:induction false} BucketKeepsCommander(places: Places, key: LimitKey, ids: seq<string>, index: int,
                                                taken: set<string>, later: Places, side: Side)
    requires BindBucket(places, key, ids, index, taken) == Some(later) && key != (side, Commander)
    ensures CommanderOf(side) in later <==> CommanderOf(side) in places
    decreases |ids|
  {
    if ids != [] {
      var unit, rest := ids[0], ids[1..];
      if unit in taken {
        BucketKeepsCommander(places, key, rest, index, taken, later, side);
      } else if key.1 == Commander {
        BucketKeepsCommander(places[CommanderOf(key.0) := unit], key, rest, index, taken, later, side);
      } else {
        var free := FreeIndex(places, key, index);
        BucketKeepsCommander(places[SeatId(key.0, key.1, free) := unit], key, rest, free + 1, taken, later, side);
      }
    }
  }

  predicate RoomyFor(places: Places, units: map<string, Source>, taken: set<string>, key: LimitKey) {
    Roomy(places, key, Bucket(units, key) - taken)
  }

  lemma StillRoomy(places: Places, units: map<string, Source>, key: LimitKey, ids: seq<string>, taken: set<string>,
                   later: Places, other: LimitKey)
    requires BindBucket(places, key, ids, 1, taken) == Some(later) && other != key
    ensures RoomyFor(later, units, taken, other) <==> RoomyFor(places, units, taken, other)
  {
    if other.1 == Commander { BucketKeepsCommander(places, key, ids, 1, taken, later, other.0); }
  }

  lemma {:induction false} BucketsEndIff(places: Places, units: map<string, Source>, keys: seq<LimitKey>,
                                         taken: set<string>, o: Orders)
    requires NoRepeats(keys)
    ensures BindBuckets(places, units, keys, taken, o).Some?
            <==> forall key :: key in keys ==> RoomyFor(places, units, taken, key)
    decreases |keys|
  {
    if keys != [] {
      var key, rest := keys[0], keys[1..];
      var ids := o.names(Bucket(units, key));
      assert keys == [key] + rest && key !in rest;
      BucketEndsIff(places, key, ids, 1, taken);
      var more := BindBucket(places, key, ids, 1, taken);
      assert more.Some? <==> RoomyFor(places, units, taken, key);
      if more.Some? {
        BucketsEndIff(more.value, units, rest, taken, o);
        forall other | other in rest
          ensures RoomyFor(more.value, units, taken, other) <==> RoomyFor(places, units, taken, other)
        {
          StillRoomy(places, units, key, ids, taken, more.value, other);
        }
      }
    }
  }

  /** Binding comes to an end if and only if each side has at most one command post that is not bound yet, and none when
      a seat is bound to its place already; otherwise the search for a free place goes on for ever. */
  lemma BindingEndsIff(r: Room, units: map<string, Source>, o: Orders)
    ensures var kept := KeptBindings(r.seats, units);
            Bindings(r, units, o).Some?
            <==> forall side :: RoomyFor(kept, units, set id | id in kept :: kept[id], (side, Commander))
  {
    var kept := KeptBindings(r.seats, units);
    var keys, taken := o.limits(Buckets(units)), set id | id in kept :: kept[id];
    BucketsEndIff(kept, units, keys, taken, o);
    forall side | (side, Commander) !in keys ensures RoomyFor(kept, units, taken, (side, Commander)) {
      NoUnitsUnlisted(units, keys, (side, Commander));
    }
  }

  lemma NoUnitsUnlisted(units: map<string, Source>, keys: seq<LimitKey>, key: LimitKey)
    requires Lists(keys, Buckets(units)) && key !in keys
    ensures Bucket(units, key) == {}
  {
    assert key !in Elements(keys);
  }

  /** Two command posts of one side. */
  const TWO_POSTS: seq<ScenarioUnit> :=
    [ScenarioUnit("one", Some(Red), For(Commander), ORIGIN), ScenarioUnit("two", Some(Red), For(Commander), ORIGIN)]

  const POST_ONE := Source("one", Red, Commander, ORIGIN)
  const POST_TWO := Source("two", Red, Commander, ORIGIN)

  lemma TwoPostsAreRead()
    ensures ReadSources(TWO_POSTS) == Some(map["one" := POST_ONE, "two" := POST_TWO]) && "one" != "two"
  {
    assert "one"[0] != "two"[0];
    assert !Blank("one") by { assert !IsBlank("one"[0]); }
    assert !Blank("two") by { assert !IsBlank("two"[0]); }
    assert TWO_POSTS[..1][..0] == [];
    assert ReadSources(TWO_POSTS[..1]) == Some(map["one" := POST_ONE]);
  }

  lemma TwoCrowd(unplaced: set<string>, a: string, b: string)
    requires a in unplaced && b in unplaced && a != b
    ensures |unplaced| >= 2
  {
    assert unplaced == {a} + (unplaced - {a});
    assert b in unplaced - {a};
  }

  lemma CrowdedNeverEnds(r: Room, units: map<string, Source>, o: Orders, side: Side, a: string, b: string)
    requires r.seats == map[] && a != b
    requires a in Bucket(units, (side, Commander)) && b in Bucket(units, (side, Commander))
    ensures Bindings(r, units, o).None?
  {
    var kept := KeptBindings(r.seats, units);
    var taken := set id | id in kept :: kept[id];
    assert taken == {};
    TwoCrowd(Bucket(units, (side, Commander)) - taken, a, b);
    BindingEndsIff(r, units, o);
    assert !RoomyFor(kept, units, taken, (side, Commander));
  }

  /** A room without seats is not bound to them: the search for the second one's place never ends. */
  lemma TwoCommandPostsNeverEnd(r: Room, o: Orders)
    requires r.seats == map[]
    ensures SetScenarioUnits(r, TWO_POSTS, o) == None
  {
    var units := map["one" := POST_ONE, "two" := POST_TWO];
    TwoPostsAreRead();
    CrowdedNeverEnds(r, units, o, Red, "one", "two");
  }
}
