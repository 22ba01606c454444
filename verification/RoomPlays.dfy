/**
 Two runs of a room that is set up as the server does it, with limits, templates and the units of a scenario: at the end
 of one two seats have the same unit, and at the end of the other a refused change of mode has not been undone.
 */
module RoomPlays {
  import opened Listings
  import opened Options
  import opened RoomInvariants
  import opened RoomModel
  import opened RoomRollback
  import Roster = RoomRoster
  import opened RoomRuns
  import opened RoomSharedUnits
  import Binder = RoomSingleSide

  /* ------------------------------------------------------------------ playing calls */

  const FRESH := Room(map[], UNBOUND, map[], map[], map[], map[], [], {}, Preparing, Pvp, false, None, 1, 1, 1)

  /** The room once the first n calls have been made. */
  ghost function RoomAfter(calls: seq<Call>, orders: seq<Orders>, n: nat): Room
    requires n <= |calls| == |orders|
  {
    if n == 0 then FRESH else After(RoomAfter(calls, orders, n - 1), calls[n - 1], orders[n - 1])
  }

  ghost function RoomsOf(calls: seq<Call>, orders: seq<Orders>): seq<Room>
    requires |calls| == |orders|
  {
    seq(|calls| + 1, n requires 0 <= n < |calls| + 1 => RoomAfter(calls, orders, n))
  }

  lemma NextRoom(calls: seq<Call>, orders: seq<Orders>, k: nat, next: Room)
    requires k < |calls| == |orders| && next == After(RoomAfter(calls, orders, k), calls[k], orders[k])
    ensures next == RoomAfter(calls, orders, k + 1)
  {
  }

  lemma PlayedAt(calls: seq<Call>, orders: seq<Orders>, k: nat)
    requires k < |calls| == |orders|
    ensures StepAt(Any, RoomsOf(calls, orders), calls, orders, k)
  {
    NextRoom(calls, orders, k, After(RoomAfter(calls, orders, k), calls[k], orders[k]));
  }

  /** Any calls can be made, whatever the orders in which seats and transfers are gone through. */
  lemma PlayingIsARun(calls: seq<Call>, orders: seq<Orders>)
    requires |calls| == |orders|
    ensures Run(Any, RoomsOf(calls, orders), calls, orders)
  {
    forall k | 0 <= k < |calls| ensures StepAt(Any, RoomsOf(calls, orders), calls, orders, k) {
      PlayedAt(calls, orders, k);
    }
  }

  lemma RoomOfARun(states: seq<Room>, calls: seq<Call>, orders: seq<Orders>, n: nat)
    requires Run(Any, states, calls, orders) && n < |states|
    ensures Sound(Any, states[n]) && OneSeatEach(states[n].seats)
  {
    RunIsSound(Any, states, calls, orders, n);
    SoundMeans(Any, states[n]);
  }

  /* ------------------------------------------------------------------ the units of the scenario */

  /** A command post on either side, and two scouts. */
  const SCENARIO: seq<ScenarioUnit> :=
    [ScenarioUnit("red post", Some(Red), For(Commander), ORIGIN),
     ScenarioUnit("blue post", Some(Blue), For(Commander), ORIGIN),
     ScenarioUnit("first scout", Some(Red), For(Recon), ORIGIN),
     ScenarioUnit("other scout", Some(Red), For(Recon), ORIGIN)]

  const POSTS: map<string, Source> := map["red post" := Source("red post", Red, Commander, ORIGIN),
                                          "blue post" := Source("blue post", Blue, Commander, ORIGIN)]

  const UNITS: map<string, Source> := POSTS["first scout" := Source("first scout", Red, Recon, ORIGIN)]
                                           ["other scout" := Source("other scout", Red, Recon, ORIGIN)]

  const RECON_ONE := SeatId(Red, Recon, 1)
  const RECON_TWO := SeatId(Red, Recon, 2)

  lemma NotBlank(text: string)
    requires text != "" && !IsBlank(text[0])
    ensures !Blank(text)
  {
  }

  lemma OneMoreUnit(units: seq<ScenarioUnit>, rest: map<string, Source>, last: ScenarioUnit)
    requires ReadSources(units) == Some(rest) && last.template.For? && last.side.Some? && last.id !in rest
    requires !Blank(last.id)
    ensures ReadSources(units + [last])
         == Some(rest[last.id := Source(last.id, last.side.value, last.template.kind, last.position)])
  {
    assert (units + [last])[..|units|] == units;
  }

  lemma NamesDiffer()
    ensures "red post" != "blue post" && "first scout" !in POSTS && "other scout" !in POSTS
    ensures "other scout" != "first scout"
    ensures !Blank("red post") && !Blank("blue post") && !Blank("first scout") && !Blank("other scout")
  {
    assert "red post"[0] == 'r' && "blue post"[0] == 'b' && "first scout"[0] == 'f' && "other scout"[0] == 'o';
    NotBlank("red post");
    NotBlank("blue post");
    NotBlank("first scout");
    NotBlank("other scout");
  }

  lemma PostsAreRead()
    ensures ReadSources(SCENARIO[..2]) == Some(POSTS)
  {
    NamesDiffer();
    OneMoreUnit([], map[], SCENARIO[0]);
    assert [SCENARIO[0]] == [] + [SCENARIO[0]] && SCENARIO[..2] == [SCENARIO[0]] + [SCENARIO[1]];
    OneMoreUnit([SCENARIO[0]], map["red post" := Source("red post", Red, Commander, ORIGIN)], SCENARIO[1]);
  }

  lemma ScenarioIsRead()
    ensures ReadSources(SCENARIO) == Some(UNITS)
  {
    NamesDiffer();
    PostsAreRead();
    OneMoreUnit(SCENARIO[..2], POSTS, SCENARIO[2]);
    assert SCENARIO[..3] == SCENARIO[..2] + [SCENARIO[2]] && SCENARIO == SCENARIO[..3] + [SCENARIO[3]];
    OneMoreUnit(SCENARIO[..3], POSTS["first scout" := Source("first scout", Red, Recon, ORIGIN)], SCENARIO[3]);
  }

  lemma OnePostASide(side: Side)
    ensures |Bucket(UNITS, (side, Commander))| == 1
  {
    NamesDiffer();
    var post := if side == Red then "red post" else "blue post";
    assert Bucket(UNITS, (side, Commander)) == {post};
  }

  /** The first scout's place is bound to a scout. */
  predicate ScoutBound(b: Binding) {
    && RECON_ONE in b.seats && b.seats[RECON_ONE] in b.units
    && b.units[b.seats[RECON_ONE]].side == Red && b.units[b.seats[RECON_ONE]].kind == Recon
  }

  lemma BindingEnds(r: Room, o: Orders)
    requires r.seats == map[]
    ensures KeptBindings(r.seats, UNITS) == map[] && Bindings(r, UNITS, o).Some?
  {
    var kept := KeptBindings(r.seats, UNITS);
    var taken := set id | id in kept :: kept[id];
    forall side ensures Binder.RoomyFor(kept, UNITS, taken, (side, Commander)) {
      OnePostASide(side);
      assert Bucket(UNITS, (side, Commander)) - taken == Bucket(UNITS, (side, Commander));
    }
    Binder.BindingEndsIff(r, UNITS, o);
  }

  lemma ScoutIsBound(r: Room, o: Orders, places: map<SeatId, string>)
    requires r.seats == map[] && Bindings(r, UNITS, o) == Some(places)
    ensures ScoutBound(Binding(UNITS, places))
  {
    NamesDiffer();
    var kept, keys := KeptBindings(r.seats, UNITS), o.limits(Buckets(UNITS));
    var taken := set id | id in kept :: kept[id];
    var scout := UNITS["first scout"];
    assert (Red, Recon) == (scout.side, scout.kind) && (Red, Recon) in Buckets(UNITS);
    assert (Red, Recon) in Elements(keys) && "first scout" !in taken;
    Binder.FirstPlaceIsBound(kept, UNITS, keys, taken, o, "first scout", places);
    Binder.EveryUnitHasItsPlace(r, UNITS, o, places);
  }

  lemma EmptyRoomIsBound(r: Room, units: seq<ScenarioUnit>, o: Orders, sources: map<string, Source>)
    requires r.seats == map[] && ReadSources(units) == Some(sources) && Bindings(r, sources, o).Some?
    ensures AfterRoomCall(r, BindSeats(units), o) == r.(bound := Binding(sources, Bindings(r, sources, o).value))
  {
    assert BoundSeats(r.seats, Binding(sources, Bindings(r, sources, o).value), r.vmf, r.revision + 1) == map[];
  }

  /* ------------------------------------------------------------------ setting up */

  const RULES: Limits := map[(Red, Commander) := 1, (Blue, Commander) := 1, (Red, Recon) := 2]

  function Plain(kind: Kind): Unit { Unit(For(kind), ORIGIN, 1.0) }

  const CATALOG: Catalog := map[For(Commander) := Plain(Commander), For(Attack) := Plain(Attack),
                                For(Recon) := Plain(Recon), For(Ground) := Plain(Ground), For(Jammer) := Plain(Jammer)]

  predicate Takeable(r: Room, id: SeatId) { ValidSeat(r.templates, r.limits, false, id, For(id.kind)) }

  /** The room is set up, and scouts may come. */
  predicate SetUp(r: Room) {
    && Takeable(r, RED_COMMANDER) && Takeable(r, BLUE_COMMANDER) && Takeable(r, RECON_ONE) && Takeable(r, RECON_TWO)
    && r.phase == Preparing && r.mode == Pvp && !r.vmf && r.transfers == map[] && r.operations == map[]
    && ScoutBound(r.bound)
  }

  const OPENING: seq<Call> :=
    [OnRoom(ChangeLimits(RULES)), OnRoom(ChangeCatalog(CATALOG)), OnRoom(BindSeats(SCENARIO)),
     OnSeat(Claim(1, "one", RED_COMMANDER, For(Commander))), OnSeat(Claim(2, "two", BLUE_COMMANDER, For(Commander))),
     OnSeat(Claim(3, "three", RECON_ONE, For(Recon)))]

  lemma LimitsAreSet(r: Room)
    requires New(r)
    ensures SetSeatLimits(r, RULES).0 == r.(limits := RULES)
  {
  }

  lemma CatalogIsSet(r: Room)
    ensures SetTemplateCatalog(r, CATALOG).0 == r.(templates := CATALOG)
  {
  }

  lemma PlacesAreTakeable(r: Room)
    requires r.limits == RULES && r.templates == CATALOG
    ensures Takeable(r, RED_COMMANDER) && Takeable(r, BLUE_COMMANDER)
    ensures Takeable(r, RECON_ONE) && Takeable(r, RECON_TWO)
  {
  }

  lemma BindingSetsUp(r: Room, o: Orders, t: Room)
    requires New(r.(limits := map[])) && r.limits == RULES && r.templates == CATALOG
    requires t == AfterRoomCall(r, BindSeats(SCENARIO), o)
    ensures SetUp(t) && t.seats == map[] && t.revision == 1
  {
    PlacesAreTakeable(r);
    ScenarioIsRead();
    BindingEnds(r, o);
    EmptyRoomIsBound(r, SCENARIO, o, UNITS);
    ScoutIsBound(r, o, Bindings(r, UNITS, o).value);
  }

  /* ------------------------------------------------------------------ people come */

  /** Just these people sit in the room, and nobody is ready. */
  predicate Occupied(seats: Seats, people: map<SeatId, int>) {
    && seats.Keys == people.Keys
    && forall id :: id in people ==> seats[id].controller == Human(people[id]) && !seats[id].ready
  }

  lemma SitsNowhere(seats: Seats, people: map<SeatId, int>, user: int)
    requires Occupied(seats, people) && forall id :: id in people ==> people[id] != user
    ensures SeatOf(seats, user).None?
  {
  }

  lemma SeatedSeat(r: Room, user: int, name: string, id: SeatId, template: Template)
    requires CommanderOf(id.side) in r.seats ==> !r.seats[CommanderOf(id.side)].ready
    ensures Seated(r, user, name, id, template)
         == r.(seats := r.seats[id := ClaimedSeat(r, user, name, id, template)],
               nextUnit := NumberAfterClaim(r, id), departed := r.departed - {user})
  {
    var t := Put(r, id, ClaimedSeat(r, user, name, id, template)).(nextUnit := NumberAfterClaim(r, id));
    if id.kind != Commander { NobodyToUnready(t, CommanderOf(id.side)); }
  }

  lemma NobodyToUnready(r: Room, id: SeatId)
    requires id in r.seats ==> !r.seats[id].ready
    ensures CommanderUnready(r, id) == r
  {
  }

  lemma SeatedOne(r: Room, people: map<SeatId, int>, user: int, name: string, id: SeatId, t: Room)
    requires SetUp(r) && Occupied(r.seats, people) && t == Succeed(Seated(r, user, name, id, For(id.kind))).0
    ensures SetUp(t) && Occupied(t.seats, people[id := user]) && t.revision == r.revision + 1 && t.bound == r.bound
    ensures id in r.bound.seats && id !in r.seats ==> t.seats[id].source == Some(r.bound.seats[id])
  {
    SeatedSeat(r, user, name, id, For(id.kind));
    var seat := ClaimedSeat(r, user, name, id, For(id.kind));
    assert seat.controller == Human(user) && !seat.ready && seat.source == ClaimedSourceId(r, id);
  }

  lemma OneMorePerson(states: seq<Room>, calls: seq<Call>, orders: seq<Orders>, k: nat, people: map<SeatId, int>,
                      user: int, name: string, id: SeatId)
    requires Run(Any, states, calls, orders) && k < |calls|
    requires calls[k] == OnSeat(Claim(user, name, id, For(id.kind)))
    requires SetUp(states[k]) && Occupied(states[k].seats, people) && MayClaim(states[k], user, name, id, For(id.kind))
    requires forall other :: other in people ==> people[other] != user
    ensures SetUp(states[k + 1]) && Occupied(states[k + 1].seats, people[id := user])
    ensures states[k + 1].revision == states[k].revision + 1 && states[k + 1].bound == states[k].bound
    ensures id in states[k].bound.seats ==> states[k + 1].seats[id].source == Some(states[k].bound.seats[id])
  {
    SitsNowhere(states[k].seats, people, user);
    ClaimIsGranted(states[k], user, name, id, For(id.kind), orders[k]);
    assert StepAt(Any, states, calls, orders, k);
    SeatedOne(states[k], people, user, name, id, states[k + 1]);
  }

  const STAFF: map<SeatId, int> := map[RED_COMMANDER := 1, BLUE_COMMANDER := 2, RECON_ONE := 3]

  /** Both commanders and a scout sit, and the scout has the unit of the place. */
  predicate Opened(r: Room) {
    && SetUp(r) && Occupied(r.seats, STAFF) && r.revision == 4
    && r.seats[RECON_ONE].source == Some(r.bound.seats[RECON_ONE])
  }

  lemma RoomIsSetUp(states: seq<Room>, calls: seq<Call>, orders: seq<Orders>)
    requires Run(Any, states, calls, orders) && OPENING <= calls
    ensures SetUp(states[3]) && states[3].seats == map[] && states[3].revision == 1
  {
    assert calls[0] == OPENING[0] && calls[1] == OPENING[1] && calls[2] == OPENING[2];
    LimitsAreSet(states[0]);
    assert StepAt(Any, states, calls, orders, 0);
    CatalogIsSet(states[1]);
    assert StepAt(Any, states, calls, orders, 1);
    assert StepAt(Any, states, calls, orders, 2);
    BindingSetsUp(states[2], orders[2], states[3]);
  }

  lemma CommandersCome(states: seq<Room>, calls: seq<Call>, orders: seq<Orders>)
    requires Run(Any, states, calls, orders) && OPENING <= calls
    requires SetUp(states[3]) && states[3].seats == map[]
    ensures SetUp(states[5]) && Occupied(states[5].seats, map[RED_COMMANDER := 1, BLUE_COMMANDER := 2])
    ensures states[5].revision == states[3].revision + 2
  {
    NotBlank("one");
    NotBlank("two");
    assert calls[3] == OPENING[3] && calls[4] == OPENING[4];
    OneMorePerson(states, calls, orders, 3, map[], 1, "one", RED_COMMANDER);
    OneMorePerson(states, calls, orders, 4, map[RED_COMMANDER := 1], 2, "two", BLUE_COMMANDER);
  }

  lemma ScoutMayCome(r: Room)
    requires SetUp(r) && Occupied(r.seats, map[RED_COMMANDER := 1, BLUE_COMMANDER := 2])
    ensures MayClaim(r, 3, "three", RECON_ONE, For(Recon))
  {
    NotBlank("three");
  }

  lemma ScoutComes(states: seq<Room>, calls: seq<Call>, orders: seq<Orders>)
    requires Run(Any, states, calls, orders) && OPENING <= calls && states[5].revision == 3
    requires SetUp(states[5]) && Occupied(states[5].seats, map[RED_COMMANDER := 1, BLUE_COMMANDER := 2])
    ensures Opened(states[6])
  {
    ScoutMayCome(states[5]);
    assert calls[5] == OPENING[5];
    OneMorePerson(states, calls, orders, 5, map[RED_COMMANDER := 1, BLUE_COMMANDER := 2], 3, "three", RECON_ONE);
  }

  /** Any run that begins with these calls gets that far. */
  lemma RoomIsOpened(states: seq<Room>, calls: seq<Call>, orders: seq<Orders>)
    requires Run(Any, states, calls, orders) && OPENING <= calls
    ensures Opened(states[6])
  {
    RoomIsSetUp(states, calls, orders);
    CommandersCome(states, calls, orders);
    ScoutComes(states, calls, orders);
  }

  /* ------------------------------------------------------------------ two seats with one unit */

  const COLLISION: seq<Call> := OPENING +
    [OnSeat(AskTransfer(3, RECON_TWO, For(Recon))), OnSeat(GrantTransfer(1, 3, 5)),
     OnSeat(Claim(4, "four", RECON_ONE, For(Recon))), OnMatch(Operate("again", Some(RedeployRoom), 7))]

  lemma ScoutMayMove(r: Room)
    requires Opened(r)
    ensures MayMove(r, 1, 3, RECON_ONE, RECON_TWO, For(Recon))
    ensures RED_COMMANDER in r.seats && BLUE_COMMANDER in r.seats && SeatOf(r.seats, 4).None?
  {
    SitsNowhere(r.seats, STAFF, 4);
    assert STAFF[RECON_ONE] == 3 && STAFF[RED_COMMANDER] == 1 && STAFF[BLUE_COMMANDER] == 2;
  }

  lemma ScoutMovesOn(r: Room, o: Orders, later: Orders, t: Room)
    requires Opened(r) && OneSeatEach(r.seats)
    requires t == MovedAndClaimed(r, 1, 3, RECON_ONE, RECON_TWO, For(Recon), 4, "four", o, later).0
    ensures Share(t, RECON_ONE, RECON_TWO) && t.operations == map[] && t.revision == 7
  {
    NotBlank("four");
    ScoutMayMove(r);
    PermittedCallsShareAUnit(r, 1, 3, RECON_ONE, RECON_TWO, For(Recon), 4, "four", o, later);
    PermittedCallsCount(r, 1, 3, RECON_ONE, RECON_TWO, For(Recon), 4, "four", o, later);
  }

  lemma ScoutAsks(r: Room, t: Room)
    requires Opened(r) && OneSeatEach(r.seats) && t == RequestTransfer(r, 3, RECON_TWO, For(Recon)).0
    ensures t.revision == 5
  {
    SeatOfIs(r.seats, RECON_ONE, 3);
  }

  lemma ThreeCalls(states: seq<Room>, orders: seq<Orders>)
    requires Run(Any, states, COLLISION, orders) && Opened(states[6])
    ensures Share(states[9], RECON_ONE, RECON_TWO) && states[9].operations == map[] && states[9].revision == 7
  {
    RoomOfARun(states, COLLISION, orders, 6);
    assert COLLISION[6] == OnSeat(AskTransfer(3, RECON_TWO, For(Recon)));
    assert COLLISION[7] == OnSeat(GrantTransfer(1, 3, 5));
    assert COLLISION[8] == OnSeat(Claim(4, "four", RECON_ONE, For(Recon)));
    assert StepAt(Any, states, COLLISION, orders, 6);
    assert StepAt(Any, states, COLLISION, orders, 7);
    assert StepAt(Any, states, COLLISION, orders, 8);
    ScoutAsks(states[6], states[7]);
    ScoutMovesOn(states[6], orders[7], orders[8], states[9]);
  }

  lemma RedeployingIsAccepted(r: Room, o: Orders, step: Step)
    requires r.operations == map[] && step == ApplyOperation(r, "again", Some(RedeployRoom), r.revision, o)
    ensures step.1.ok && !step.1.duplicate
  {
    NotBlank("again");
  }

  lemma RoomIsRedeployed(r: Room, o: Orders, step: Step)
    requires Share(r, RECON_ONE, RECON_TWO) && r.operations == map[]
    requires step == ApplyOperation(r, "again", Some(RedeployRoom), r.revision, o)
    ensures !UnitsApart(step.0.seats)
  {
    RedeployingIsAccepted(r, o, step);
    RedeployingKeepsUnitsApartIff(r, "again", r.revision, o, step);
  }

  lemma LastCall(states: seq<Room>, orders: seq<Orders>)
    requires Run(Any, states, COLLISION, orders)
    requires Share(states[9], RECON_ONE, RECON_TWO) && states[9].operations == map[] && states[9].revision == 7
    ensures !UnitsApart(states[10].seats)
  {
    assert COLLISION[9] == OnMatch(Operate("again", Some(RedeployRoom), 7));
    assert StepAt(Any, states, COLLISION, orders, 9);
    RoomIsRedeployed(states[9], orders[9], ApplyOperation(states[9], "again", Some(RedeployRoom), 7, orders[9]));
  }

  /** In every run that makes these calls, of which there are some, a scout moves on and another one comes, and the
      redeployment of the room gives both the same unit. */
  lemma UnitsCollideInARun(states: seq<Room>, orders: seq<Orders>)
    requires |orders| == |COLLISION|
    ensures Run(Any, RoomsOf(COLLISION, orders), COLLISION, orders)
    ensures Run(Any, states, COLLISION, orders) ==>
              Share(states[9], RECON_ONE, RECON_TWO) && !UnitsApart(states[10].seats)
  {
    PlayingIsARun(COLLISION, orders);
    if Run(Any, states, COLLISION, orders) {
      RoomIsOpened(states, COLLISION, orders);
      ThreeCalls(states, orders);
      LastCall(states, orders);
    }
  }

  /* ------------------------------------------------------------------ a room that is not rolled back */

  const REFUSAL: seq<Call> := OPENING + [OnLeaving(GiveUp(1, 3)), OnRoom(ChangeMode(Some(Pve)))]

  lemma GivingUpPromotes(r: Room, place: SeatId, source: SeatId, user: int, successor: int, o: Orders)
    requires OneSeatEach(r.seats) && r.phase == Preparing && r.mode == Pvp && !r.vmf
    requires Holds(r.seats, place, user) && Holds(r.seats, source, successor)
    requires place.kind == Commander && source.kind != Commander && source.side == place.side
    ensures Leave(r, user, successor, o).0 == Succeed(Promoted(r, place, source, user, successor)).0
  {
    SeatOfIs(r.seats, place, user);
    SeatOfIs(r.seats, source, successor);
  }

  /** A scout's unit is no command post. */
  lemma PromotedScoutIsRefused(r: Room, t: Room)
    requires Opened(r) && t == Succeed(Promoted(r, RED_COMMANDER, RECON_ONE, 1, 3)).0
    ensures !Readable(t) && HeldBy(t.seats, BLUE_COMMANDER, Human(2))
    ensures t.phase == Preparing && t.mode == Pvp && !t.vmf
  {
    assert t.seats[RED_COMMANDER].source == Some(r.bound.seats[RECON_ONE]);
    assert !SavedSeatOk(t, t.vmf, t.seats[RED_COMMANDER]);
  }

  lemma ModeStays(r: Room, o: Orders, step: Step)
    requires Sound(Any, r) && !Readable(r) && HeldBy(r.seats, BLUE_COMMANDER, Human(2))
    requires r.phase == Preparing && r.mode == Pvp && !r.vmf && step == SetMode(r, Some(Pve), o)
    ensures !step.1.ok && step.0 == r.(mode := Pve)
  {
    Roster.FailedModeChangeIsUndoneIff(r, o, step);
    assert !Roster.Free(r, BLUE_COMMANDER, For(Commander));
  }

  lemma ScoutTakesCommand(states: seq<Room>, orders: seq<Orders>)
    requires Run(Any, states, REFUSAL, orders) && Opened(states[6])
    ensures !Readable(states[7]) && HeldBy(states[7].seats, BLUE_COMMANDER, Human(2))
    ensures states[7].phase == Preparing && states[7].mode == Pvp && !states[7].vmf
  {
    RoomOfARun(states, REFUSAL, orders, 6);
    assert REFUSAL[6] == OnLeaving(GiveUp(1, 3));
    assert StepAt(Any, states, REFUSAL, orders, 6);
    GivingUpPromotes(states[6], RED_COMMANDER, RECON_ONE, 1, 3, orders[6]);
    PromotedScoutIsRefused(states[6], states[7]);
  }

  lemma ModeIsNotChangedBack(states: seq<Room>, orders: seq<Orders>)
    requires Run(Any, states, REFUSAL, orders) && Sound(Any, states[7]) && !Readable(states[7])
    requires HeldBy(states[7].seats, BLUE_COMMANDER, Human(2))
    requires states[7].phase == Preparing && states[7].mode == Pvp && !states[7].vmf
    ensures !SetMode(states[7], Some(Pve), orders[7]).1.ok && states[8] == states[7].(mode := Pve)
  {
    ModeStays(states[7], orders[7], SetMode(states[7], Some(Pve), orders[7]));
    assert REFUSAL[7] == OnRoom(ChangeMode(Some(Pve)));
    assert StepAt(Any, states, REFUSAL, orders, 7);
  }

  /** In every run that makes these calls, of which there are some, a scout is promoted, and what is saved of the room
      then is refused when it is read back. So turning to a match against the opponent is refused because a person
      commands the blue side, and yet the mode has changed. */
  lemma RefusedModeChangeStandsInARun(states: seq<Room>, orders: seq<Orders>, o: Orders)
    requires |orders| == |REFUSAL|
    ensures Run(Any, RoomsOf(REFUSAL, orders), REFUSAL, orders)
    ensures Run(Any, states, REFUSAL, orders) ==>
              && !Readable(states[7]) && Restored(states[7], Save(states[7], o)) == (states[7], false)
              && !SetMode(states[7], Some(Pve), orders[7]).1.ok && states[7].mode == Pvp
              && states[8] == states[7].(mode := Pve) && HeldBy(states[8].seats, BLUE_COMMANDER, Human(2))
  {
    PlayingIsARun(REFUSAL, orders);
    if Run(Any, states, REFUSAL, orders) {
      RoomIsOpened(states, REFUSAL, orders);
      ScoutTakesCommand(states, orders);
      RoomOfARun(states, REFUSAL, orders, 7);
      SavedRoomIsRead(states[7], states[7], o);
      ModeIsNotChangedBack(states, orders);
    }
  }
}
