/**
 Saving a room and reading it back: an operation that gives up leaves a standard room exactly as it found it, and any
 other one as far as its seats are acceptable.
 */
module RoomRollback {
  import opened Listings
  import opened Options
  import opened RoomInvariants
  import opened RoomModel

  function Among<K, V>(m: map<K, V>, keys: seq<K>): map<K, V> { map k | k in m && k in keys :: m[k] }

  lemma AllAmong<K, V>(m: map<K, V>, keys: seq<K>)
    requires Lists(keys, m.Keys)
    ensures Among(m, keys) == m
  {
    forall k | k in m ensures k in keys { assert k in Elements(keys); }
  }

  lemma AmongOneMore<K, V>(m: map<K, V>, keys: seq<K>)
    requires keys != [] && NoRepeats(keys) && forall k :: k in keys ==> k in m
    ensures var last, rest := keys[|keys| - 1], keys[..|keys| - 1];
            last !in Among(m, rest) && NoRepeats(rest) && Among(m, keys) == Among(m, rest)[last := m[last]]
  {
    var last, rest := keys[|keys| - 1], keys[..|keys| - 1];
    assert keys == rest + [last];
  }

  function RereadAmong(b: Binding, vmf: bool, seats: Seats, ids: seq<SeatId>): Seats {
    map id | id in seats && id in ids :: Reread(b, vmf, seats[id])
  }

  lemma OneMoreReread(b: Binding, vmf: bool, seats: Seats, ids: seq<SeatId>, last: SeatId)
    requires NoRepeats(ids + [last]) && last in seats
    ensures var kept := RereadAmong(b, vmf, seats, ids);
            last !in kept && RereadAmong(b, vmf, seats, ids + [last]) == kept[last := Reread(b, vmf, seats[last])]
  {
    var all := ids + [last];
    forall id | id in ids ensures id != last {
      var i :| 0 <= i < |ids| && ids[i] == id;
      assert all[i] != all[|ids|];
    }
  }

  lemma OneMoreSaved(seats: Seats, ids: seq<SeatId>, last: SeatId)
    requires last in seats
    ensures SeatsInOrder(seats, ids + [last]) == SeatsInOrder(seats, ids) + [seats[last]]
  {
    assert (ids + [last])[..|ids|] == ids;
  }

  lemma OneMoreRead(r: Room, vmf: bool, saved: seq<Seat>, last: Seat)
    ensures var rest := ReadSeats(r, vmf, saved);
            ReadSeats(r, vmf, saved + [last]) ==
            if rest.None? || last.seatId in rest.value || !SavedSeatOk(r, vmf, last) then None
            else Some(rest.value[last.seatId := Reread(r.bound, vmf, last)])
  {
    assert (saved + [last])[..|saved|] == saved;
  }

  /** Reading saved seats takes them all over, or refuses them all if one of them is not acceptable. */
  lemma {:induction false} SeatsComeBack(r: Room, vmf: bool, seats: Seats, ids: seq<SeatId>)
    requires NoRepeats(ids) && forall id :: id in ids ==> id in seats && seats[id].seatId == id
    ensures ReadSeats(r, vmf, SeatsInOrder(seats, ids))
         == if forall id :: id in ids ==> SavedSeatOk(r, vmf, seats[id])
            then Some(RereadAmong(r.bound, vmf, seats, ids)) else None
    decreases |ids|
  {
    if ids == [] {
      assert RereadAmong(r.bound, vmf, seats, ids) == map[];
    } else {
      var last, rest := ids[|ids| - 1], ids[..|ids| - 1];
      assert ids == rest + [last];
      SeatsComeBack(r, vmf, seats, rest);
      OneMoreSaved(seats, rest, last);
      OneMoreRead(r, vmf, SeatsInOrder(seats, rest), seats[last]);
      OneMoreReread(r.bound, vmf, seats, rest, last);
    }
  }

  lemma {:induction false} TransfersComeBack(r: Room, seats: Seats, transfers: map<int, Transfer>, users: seq<int>)
    requires TransfersOk(r.templates, seats, transfers)
    requires NoRepeats(users) && forall user :: user in users ==> user in transfers
    ensures ReadTransfers(r, seats, TransfersInOrder(transfers, users)) == (Among(transfers, users), true)
    decreases |users|
  {
    if users == [] {
      assert Among(transfers, users) == map[];
    } else {
      var last, rest := users[|users| - 1], users[..|users| - 1];
      TransfersComeBack(r, seats, transfers, rest);
      AmongOneMore(transfers, users);
      assert TransferOk(r.templates, seats, last, transfers[last]);
      var id :| Waiting(seats, id, last);
      var saved := TransfersInOrder(transfers, users);
      assert saved[..|saved| - 1] == TransfersInOrder(transfers, rest);
    }
  }

  lemma {:induction false} ExcludingNone(order: seq<string>, id: string)
    requires id !in order
    ensures Excluding(order, id) == order
  {
    if order != [] { ExcludingNone(order[1..], id); }
  }

  lemma {:induction false} OperationsComeBack(m: Memory, order: seq<string>)
    requires NoRepeats(order) && |order| <= MAX_OPERATIONS
    requires forall id :: id in order ==> Recalled(m.operations, id)
    ensures ReadOperations(OperationsInOrder(m.operations, order)) == Memory(Among(m.operations, order), order)
    decreases |order|
  {
    if order == [] {
      assert Among(m.operations, order) == map[];
    } else {
      var last, rest := order[|order| - 1], order[..|order| - 1];
      assert order == rest + [last];
      OperationsComeBack(m, rest);
      AmongOneMore(m.operations, order);
      assert Recalled(m.operations, last);
      ExcludingNone(rest, last);
      var saved := OperationsInOrder(m.operations, order);
      assert saved[..|saved| - 1] == OperationsInOrder(m.operations, rest);
    }
  }

  lemma MemoryComesBack(m: Memory)
    requires MemoryOk(m)
    ensures ReadOperations(OperationsInOrder(m.operations, m.order)) == m
  {
    forall id | id in m.order ensures Recalled(m.operations, id) { assert id in Elements(m.order); }
    OperationsComeBack(m, m.order);
    AllAmong(m.operations, m.order);
  }

  /** Every seat of the room would be accepted if it were read back. */
  ghost predicate Readable(r: Room) { forall id :: id in r.seats ==> SavedSeatOk(r, r.vmf, r.seats[id]) }

  /** The room with its seats as reading them back leaves them. */
  function RereadRoom(r: Room): Room {
    r.(seats := map id | id in r.seats :: Reread(r.bound, r.vmf, r.seats[id]))
  }

  predicate SameRules(r: Room, t: Room) {
    t.templates == r.templates && t.limits == r.limits && t.bound == r.bound && t.vmf == r.vmf
  }

  lemma RereadingKeepsTransfers(r: Room)
    requires Sound(Any, r)
    ensures TransfersOk(r.templates, RereadRoom(r).seats, r.transfers)
  {
    SoundMeans(Any, r);
    NobodyHasNumberZero(r.templates, r.seats, r.transfers);
    assert WaitingWithout(r.seats, RereadRoom(r).seats, 0);
    TransfersFollow(r.templates, r.seats, RereadRoom(r).seats, r.transfers, 0);
  }

  lemma SeatsKnowTheirPlaces(r: Room, ids: seq<SeatId>)
    requires Sound(Any, r) && Lists(ids, r.seats.Keys)
    ensures forall id :: id in ids <==> id in r.seats
    ensures forall id :: id in r.seats ==> r.seats[id].seatId == id
  {
    SoundMeans(Any, r);
    forall id ensures id in ids <==> id in r.seats { assert id in Elements(ids) <==> id in r.seats; }
    forall id | id in r.seats ensures r.seats[id].seatId == id { assert SeatOk(BasisOf(Any, r), id, r.seats[id]); }
  }

  lemma SameRulesSameSeat(r: Room, t: Room, seat: Seat)
    requires SameRules(r, t)
    ensures SavedSeatOk(t, r.vmf, seat) <==> SavedSeatOk(r, r.vmf, seat)
  {
  }

  lemma AllReread(r: Room, ids: seq<SeatId>)
    requires forall id :: id in ids <==> id in r.seats
    ensures RereadAmong(r.bound, r.vmf, r.seats, ids) == RereadRoom(r).seats
  {
  }

  lemma SeatsAreRead(r: Room, t: Room, o: Orders)
    requires Sound(Any, r) && SameRules(r, t)
    ensures ReadSeats(t, r.vmf, SeatsInOrder(r.seats, o.seats(r.seats.Keys)))
         == if Readable(r) then Some(RereadRoom(r).seats) else None
  {
    var ids := o.seats(r.seats.Keys);
    SeatsKnowTheirPlaces(r, ids);
    SeatsComeBack(t, r.vmf, r.seats, ids);
    AllReread(r, ids);
    forall id | id in r.seats ensures SavedSeatOk(t, r.vmf, r.seats[id]) <==> SavedSeatOk(r, r.vmf, r.seats[id]) {
      SameRulesSameSeat(r, t, r.seats[id]);
    }
  }

  /** Reading back what was saved of a room, in whatever order its seats and transfers are written: it succeeds if and
      only if each seat is acceptable by itself, and is then the saved room with its seats as reading leaves them; else
      nothing changes. Only the list of departed users is not saved. */
  lemma SavedRoomIsRead(r: Room, t: Room, o: Orders)
    requires Sound(Any, r) && SameRules(r, t)
    ensures Restored(t, Save(r, o))
         == if Readable(r) then (RereadRoom(r).(departed := t.departed), true) else (t, false)
  {
    SoundMeans(Any, r);
    SeatsAreRead(r, t, o);
    if Readable(r) {
      var users, u := o.users(r.transfers.Keys), RereadRoom(r).(departed := t.departed);
      ListedOnly(users, r.transfers);
      RereadingKeepsTransfers(r);
      TransfersComeBack(u.(operations := t.operations, order := t.order, transfers := map[]), u.seats, r.transfers,
                        users);
      AllAmong(r.transfers, users);
      MemoryComesBack(Memory(r.operations, r.order));
    }
  }

  lemma StandardIsReadable(r: Room)
    requires Sound(Standard, r)
    ensures Readable(r) && RereadRoom(r) == r
  {
    SoundMeans(Standard, r);
    forall id | id in r.seats
      ensures SavedSeatOk(r, r.vmf, r.seats[id]) && Reread(r.bound, r.vmf, r.seats[id]) == r.seats[id]
    {
      assert SeatOk(BasisOf(Standard, r), id, r.seats[id]);
    }
    assert RereadRoom(r).seats == r.seats;
  }

  /** Saving a standard room and reading it back is the identity, up to the list of departed users. */
  lemma SavedRoomIsRestored(r: Room, t: Room, o: Orders)
    requires Sound(Standard, r) && SameRules(r, t)
    ensures Restored(t, Save(r, o)) == (r.(departed := t.departed), true)
  {
    StandardIsSound(r);
    StandardIsReadable(r);
    SavedRoomIsRead(r, t, o);
  }

  /** An operation that gives up and reads back what it saved leaves a standard room as it found it. */
  lemma RollingBackIsExact(r: Room, abandoned: Room, o: Orders, t: Room)
    requires Sound(Standard, r) && SameRules(r, abandoned) && t == RolledBack(abandoned, Save(r, o))
    ensures t == r.(departed := abandoned.departed)
  {
    SavedRoomIsRestored(r, abandoned, o);
  }

  lemma RereadingIsSound(g: Regime, r: Room, t: Room)
    requires Sound(g, r) && t == RereadRoom(r).(departed := t.departed)
    ensures Sound(g, t)
  {
    SoundMeans(g, r);
    forall id | id in t.seats ensures id in r.seats && Kept(g, r.seats[id], t.seats[id]) {
      assert SeatOk(BasisOf(g, r), id, r.seats[id]);
    }
    KeptSeatsAreSound(g, r, t);
  }

  lemma SoundAtAll(g: Regime, r: Room)
    requires Sound(g, r)
    ensures Sound(Any, r)
  {
    if g.Standard? { StandardIsSound(r); }
  }

  /** What rolling back comes to: the room as it was, up to the bindings of its seats, or what was to be rolled back. */
  lemma RollingBackIs(r: Room, abandoned: Room, o: Orders, t: Room)
    requires Sound(Any, r) && SameRules(r, abandoned) && t == RolledBack(abandoned, Save(r, o))
    ensures t == if Readable(r) then RereadRoom(r).(departed := abandoned.departed) else abandoned
  {
    SavedRoomIsRead(r, abandoned, o);
  }

  /** Rolling back, whether it succeeds or is itself refused, leaves a room in order. */
  lemma RollingBackIsSound(g: Regime, r: Room, abandoned: Room, o: Orders, t: Room)
    requires Sound(g, r) && Sound(g, abandoned) && SameRules(r, abandoned) && t == RolledBack(abandoned, Save(r, o))
    ensures Sound(g, t)
    ensures (t.phase == r.phase && t.winner == r.winner) || t == abandoned
  {
    SoundAtAll(g, r);
    SavedRoomIsRead(r, abandoned, o);
    if Readable(r) { RereadingIsSound(g, r, t); }
  }

  /** Outside the single-side mode a promotion leaves a room that would be accepted one that would be accepted if and
      only if the unit the successor comes to be bound to, if any, is a command post of that side. */
  lemma PromotedIsReadableIff(r: Room, place: SeatId, source: SeatId, commander: int, successor: int)
    requires Sound(Any, r) && Readable(r) && r.phase == Preparing && !r.vmf && CommanderOf(place.side) == place
    requires Holds(r.seats, place, commander) && Holds(r.seats, source, successor) && source != place
    ensures var unit := SourceId(r.bound, place, r.seats[source].source);
            Readable(Promoted(r, place, source, commander, successor))
            <==> unit.Some? ==> unit.value in r.bound.units && r.bound.units[unit.value].side == place.side
                                && r.bound.units[unit.value].kind == Commander
  {
    SoundMeans(Any, r);
    var t := Promoted(r, place, source, commander, successor);
    assert SeatOk(BasisOf(Any, r), place, r.seats[place]) && SavedSeatOk(r, r.vmf, r.seats[place]);
    assert SeatOk(BasisOf(Any, r), source, r.seats[source]);
    assert Readable(t) <==> SavedSeatOk(t, t.vmf, t.seats[place]) by {
      forall id | id in t.seats && id != place ensures SavedSeatOk(t, t.vmf, t.seats[id]) {
        assert SavedSeatOk(r, r.vmf, r.seats[id]);
      }
    }
  }

  lemma ListedOnly<K, V>(keys: seq<K>, m: map<K, V>)
    requires Lists(keys, m.Keys)
    ensures forall k :: k in keys ==> k in m
  {
    forall k | k in keys ensures k in m { assert k in Elements(keys); }
  }
}
