/** The durable event log of a room. */
module EventLog {
  // Four generations of a line-oriented file, a rotation made of staged renames with rollback, a checkpoint that
  // guards the oldest generation, and a reader that insists on contiguous sequence numbers.  The file system is a map
  // from names to lines.  A rename, a removal or a write may fail; one that fails changes nothing.  Each operation
  // takes the set of steps that fail as a parameter.
  import opened Options

  datatype Content =
    | Blank
    | Garbled
    | Event(sequence: int, kind: string, wellTyped: bool, payload: string)

  /** A line of a log file and the number of bytes it occupies. */
  datatype Line = Line(bytes: nat, content: Content)

  datatype FileName = Generation(index: nat) | Staged(token: nat, index: nat)

  type Disk = map<FileName, seq<Line>>

  const GENERATIONS: nat := 4

  /** The steps of one append that fail. */
  datatype Faults = Faults(
    probe: bool, readOldest: bool, loadCheckpoint: bool,
    stage: set<nat>, install: set<nat>, remove: bool,
    uninstall: set<nat>, unstage: set<nat>,
    open: bool, write: bool)
  {
    /** Rollback itself meets no failure. */
    predicate RollbackWorks() { uninstall == {} && unstage == {} }

    predicate NoFailure() {
      && !probe && !readOldest && !loadCheckpoint && stage == {} && install == {}
      && !remove && !open && !write && RollbackWorks()
    }
  }

  /* ------------------------------------------------------------------ lines and files */

  /** A line the reader accepts as an event. */
  predicate Readable(line: Line) {
    && line.content.Event? && line.content.sequence > 0
    && line.content.kind != "" && line.content.wellTyped
  }

  predicate Acceptable(line: Line) { line.content.Blank? || Readable(line) }

  /** A line the rotation guard accepts: blank, or carrying a positive sequence number. */
  predicate Countable(line: Line) {
    line.content.Blank? || (line.content.Event? && line.content.sequence > 0)
  }

  ghost predicate AllAcceptable(lines: seq<Line>) {
    forall k :: 0 <= k < |lines| ==> Acceptable(lines[k])
  }

  ghost predicate AllCountable(lines: seq<Line>) {
    forall k :: 0 <= k < |lines| ==> Countable(lines[k])
  }

  /** No line carries a sequence number above the bound. */
  ghost predicate NoneAbove(lines: seq<Line>, bound: nat) {
    forall k :: 0 <= k < |lines| && lines[k].content.Event? ==> lines[k].content.sequence <= bound
  }

  function Size(lines: seq<Line>): nat {
    if lines == [] then 0 else Size(lines[..|lines| - 1]) + lines[|lines| - 1].bytes
  }

  function File(disk: Disk, name: FileName): seq<Line> {
    if name in disk then disk[name] else []
  }

  /** Everything the log holds, oldest line first. */
  function History(disk: Disk): seq<Line> {
    File(disk, Generation(3))
    + (File(disk, Generation(2)) + (File(disk, Generation(1)) + File(disk, Generation(0))))
  }

  predicate Full(disk: Disk, limit: nat) {
    Generation(0) in disk && Size(disk[Generation(0)]) >= limit
  }

  function Moved(disk: Disk, source: FileName, target: FileName): Disk
    requires source in disk
  {
    (disk - {source})[target := disk[source]]
  }

  /* ------------------------------------------------------------------ rotation */

  predicate IsGeneration(name: FileName) { name.Generation? && name.index < GENERATIONS }

  ghost predicate Fresh(disk: Disk, token: nat) {
    forall i: nat :: Staged(token, i) !in disk
  }

  /** The generations after a successful rotation: each moved one place, the oldest gone. */
  function Rotated(disk: Disk): Disk {
    map name | name in disk.Keys + {Generation(1), Generation(2), Generation(3)}
               && name != Generation(0)
               && (IsGeneration(name) ==> Generation(name.index - 1) in disk)
      :: if IsGeneration(name) then disk[Generation(name.index - 1)] else disk[name]
  }

  /** What the checkpoint guard establishes before the oldest generation may go. */
  ghost predicate MayDropOldest(disk: Disk, checkpoint: Option<nat>) {
    Generation(3) in disk ==>
      && AllCountable(disk[Generation(3)])
      && checkpoint.Some? && NoneAbove(disk[Generation(3)], checkpoint.value)
  }

  /** Where a generation's file is during a rotation. */
  datatype Place = AtHome | AtStage | AtNext

  type Places = p: seq<Place> | |p| == GENERATIONS witness [AtHome, AtHome, AtHome, AtHome]

  const ALL_HOME: Places := [AtHome, AtHome, AtHome, AtHome]

  function NameAt(token: nat, i: nat, place: Place): FileName {
    match place
    case AtHome => Generation(i)
    case AtStage => Staged(token, i)
    case AtNext => Generation(i + 1)
  }

  /** The file of the original disk that is under this name once the generations are placed. */
  function Origin(before: Disk, token: nat, at: Places, name: FileName): Option<FileName> {
    match name
    case Staged(t, i) =>
      if t != token || i >= GENERATIONS then Some(name)
      else if at[i] == AtStage then Some(Generation(i)) else None
    case Generation(i) =>
      if i >= GENERATIONS then Some(name)
      else if at[i] == AtHome && Generation(i) in before then Some(Generation(i))
      else if i > 0 && at[i - 1] == AtNext then Some(Generation(i - 1)) else None
  }

  ghost predicate ArrangedAt(before: Disk, now: Disk, token: nat, at: Places, name: FileName) {
    var origin := Origin(before, token, at, name);
    && (name in now <==> origin.Some? && origin.value in before)
    && (name in now ==> now[name] == before[origin.value])
  }

  /** Disk `now` is disk `before` with each generation's file at its place, and no other change. */
  ghost predicate Arranged(before: Disk, now: Disk, token: nat, at: Places) {
    forall name :: ArrangedAt(before, now, token, at, name)
  }

  /** No two files share a place, and the oldest is never installed further on. */
  ghost predicate Apart(before: Disk, token: nat, at: Places) {
    && Fresh(before, token) && at[3] != AtNext
    && NoClash(before, at, 0) && NoClash(before, at, 1) && NoClash(before, at, 2)
  }

  /** Generation i has not been installed where generation i + 1 still is. */
  predicate NoClash(before: Disk, at: Places, i: nat)
    requires i < 3
  {
    Generation(i) in before && Generation(i + 1) in before ==>
      !(at[i] == AtNext && at[i + 1] == AtHome)
  }

  /** Nothing is lost: every generation's file is still there, at its place. */
  lemma NothingLost(before: Disk, now: Disk, token: nat, at: Places, i: nat)
    requires Arranged(before, now, token, at) && Apart(before, token, at)
    requires i < GENERATIONS && Generation(i) in before
    ensures NameAt(token, i, at[i]) in now && now[NameAt(token, i, at[i])] == before[Generation(i)]
  {
    assert ArrangedAt(before, now, token, at, NameAt(token, i, at[i]));
  }

  lemma MoveOne(before: Disk, now: Disk, token: nat, at: Places, i: nat, place: Place)
    requires Arranged(before, now, token, at) && Apart(before, token, at)
    requires i < GENERATIONS && Generation(i) in before
    requires Apart(before, token, at[i := place])
    ensures NameAt(token, i, at[i]) in now
    ensures Arranged(before, Moved(now, NameAt(token, i, at[i]), NameAt(token, i, place)),
                     token, at[i := place])
  {
    NothingLost(before, now, token, at, i);
    var source, target, at' := NameAt(token, i, at[i]), NameAt(token, i, place), at[i := place];
    forall name
      ensures ArrangedAt(before, Moved(now, source, target), token, at', name)
    {
      assert ArrangedAt(before, now, token, at, name);
      if name.Generation? && 0 < name.index < GENERATIONS {
        assert NoClash(before, at', name.index - 1) && NoClash(before, at, name.index - 1);
      }
    }
  }

  /** Which names are taken once the generations are at these places. */
  lemma Taken(before: Disk, now: Disk, token: nat, at: Places, i: nat)
    requires Arranged(before, now, token, at) && i < GENERATIONS
    ensures Staged(token, i) in now <==> at[i] == AtStage && Generation(i) in before
    ensures Generation(i) in now <==>
              (at[i] == AtHome && Generation(i) in before)
              || (i > 0 && at[i - 1] == AtNext && Generation(i - 1) in before)
  {
    assert ArrangedAt(before, now, token, at, Generation(i));
    assert ArrangedAt(before, now, token, at, Staged(token, i));
  }

  lemma HomeIsUnchanged(before: Disk, now: Disk, token: nat, at: Places)
    requires Arranged(before, now, token, at) && Fresh(before, token)
    requires forall i :: 0 <= i < GENERATIONS && Generation(i) in before ==> at[i] == AtHome
    ensures now == before
  {
    forall name
      ensures name in now <==> name in before
      ensures name in now ==> now[name] == before[name]
    {
      assert ArrangedAt(before, now, token, at, name);
    }
  }

  /** Three generations installed and the oldest staged: removing it completes the rotation. */
  lemma InstalledIsRotated(before: Disk, now: Disk, token: nat, at: Places)
    requires Arranged(before, now, token, at) && Apart(before, token, at)
    requires forall i :: 0 <= i < GENERATIONS && Generation(i) in before ==>
               at[i] == if i == 3 then AtStage else AtNext
    ensures now - {Staged(token, 3)} == Rotated(before)
  {
    var after := now - {Staged(token, 3)};
    forall name
      ensures name in after <==> name in Rotated(before)
      ensures name in after ==> after[name] == Rotated(before)[name]
    {
      assert ArrangedAt(before, now, token, at, name);
      if name.Generation? && 0 < name.index < GENERATIONS {
        assert name in after <==> Generation(name.index - 1) in before;
      }
    }
  }

  function PlaceOf(staged: bool, installed: bool): Place {
    if installed then AtNext else if staged then AtStage else AtHome
  }

  /** The places the two progress vectors of a rotation stand for. */
  function PlacesOf(staged: seq<bool>, installed: seq<bool>): (at: Places)
    requires |staged| == |installed| == GENERATIONS
    ensures forall i :: 0 <= i < GENERATIONS ==> at[i] == PlaceOf(staged[i], installed[i])
  {
    [PlaceOf(staged[0], installed[0]), PlaceOf(staged[1], installed[1]),
     PlaceOf(staged[2], installed[2]), PlaceOf(staged[3], installed[3])]
  }

  const NONE: seq<bool> := [false, false, false, false]

  /** While nothing is installed, or once every generation is staged, no two files clash. */
  lemma NoneClash(before: Disk, token: nat, staged: seq<bool>, installed: seq<bool>)
    requires |staged| == |installed| == GENERATIONS && Fresh(before, token) && !installed[3]
    requires installed == NONE
             || forall i :: 0 <= i < GENERATIONS ==> staged[i] == (Generation(i) in before)
    ensures Apart(before, token, PlacesOf(staged, installed))
  {
    var at := PlacesOf(staged, installed);
    forall i | 0 <= i < 3 ensures NoClash(before, at, i) {
      if Generation(i + 1) in before && at[i] == AtNext { assert staged[i + 1]; }
    }
  }

  lemma StageOne(staged: seq<bool>, installed: seq<bool>, i: nat)
    requires |staged| == |installed| == GENERATIONS && i < GENERATIONS && !installed[i]
    ensures PlacesOf(staged[i := true], installed) == PlacesOf(staged, installed)[i := AtStage]
    ensures PlacesOf(staged, installed[i := true]) == PlacesOf(staged, installed)[i := AtNext]
  {
  }

  /* ------------------------------------------------------------------ appending and reading */

  predicate Fits(line: Line, limit: nat) {
    && line.content.Event? && line.content.sequence > 0 && line.content.kind != ""
    && line.content.wellTyped && line.bytes <= limit
  }

  function WithLine(disk: Disk, line: Line): Disk {
    disk[Generation(0) := File(disk, Generation(0)) + [line]]
  }

  /** The disk after the active file has been opened for appending, which creates it. */
  function Opened(disk: Disk): Disk {
    disk[Generation(0) := File(disk, Generation(0))]
  }

  /** What one append may do to the disk when no rollback was cut short. */
  ghost predicate AppendEffect(limit: nat, before: Disk, checkpoint: Option<nat>, line: Line,
                               ok: bool, after: Disk)
  {
    if ok then
      && Fits(line, limit)
      && (Full(before, limit) ==> MayDropOldest(before, checkpoint))
      && after == WithLine(if Full(before, limit) then Rotated(before) else before, line)
    else
      || after == before
      || (!Full(before, limit) && after == Opened(before))
      || (&& Full(before, limit) && MayDropOldest(before, checkpoint)
          && (after == Rotated(before) || after == Opened(Rotated(before))))
  }

  /** The events after a sequence number, in file order. */
  function Later(lines: seq<Line>, sequence: nat): seq<Line> {
    if lines == [] then []
    else
      var last := lines[|lines| - 1];
      Later(lines[..|lines| - 1], sequence)
      + if last.content.Event? && last.content.sequence > sequence then [last] else []
  }

  /** The events are numbered sequence + 1, sequence + 2, and so on. */
  ghost predicate Chained(events: seq<Line>, sequence: nat) {
    forall k :: 0 <= k < |events| ==>
      events[k].content.Event? && events[k].content.sequence == sequence + 1 + k
  }

  /** What a reader of the whole log must answer. */
  ghost function ReadAfter(lines: seq<Line>, sequence: nat): Result<seq<Line>, ()> {
    if AllAcceptable(lines) && Chained(Later(lines, sequence), sequence)
    then Ok(Later(lines, sequence)) else Err(())
  }

  lemma {:induction false} LaterConcat(a: seq<Line>, b: seq<Line>, sequence: nat)
    ensures Later(a + b, sequence) == Later(a, sequence) + Later(b, sequence)
  {
    if b == [] {
      assert a + b == a;
    } else {
      assert (a + b)[..|a + b| - 1] == a + b[..|b| - 1];
      LaterConcat(a, b[..|b| - 1], sequence);
    }
  }

  /** The lines of a generation and of the newer ones. */
  function Tail(disk: Disk, generation: int): seq<Line>
    requires -1 <= generation <= 3
    decreases generation + 1
  {
    if generation == -1 then [] else File(disk, Generation(generation)) + Tail(disk, generation - 1)
  }

  lemma HistoryIsTail(disk: Disk)
    ensures History(disk) == Tail(disk, 3)
  {
    assert Tail(disk, 0) == File(disk, Generation(0));
    assert Tail(disk, 1) == File(disk, Generation(1)) + File(disk, Generation(0));
  }

  lemma TakeOne(a: seq<Line>, lines: seq<Line>, i: nat, b: seq<Line>)
    requires i < |lines|
    ensures a + lines[i..] + b == a + [lines[i]] + (lines[i + 1..] + b)
    ensures a + lines[i..] + b == a + [lines[i]] + lines[i + 1..] + b
  {
    assert lines[i..] == [lines[i]] + lines[i + 1..];
  }

  /** The reader has accepted these lines and found these events in them. */
  ghost predicate ReadSoFar(seen: seq<Line>, sequence: nat, events: seq<Line>) {
    AllAcceptable(seen) && events == Later(seen, sequence) && Chained(events, sequence)
  }

  /** What reading one more line means for the events found and for the whole log. */
  lemma ReadOne(seen: seq<Line>, line: Line, rest: seq<Line>, sequence: nat, events: seq<Line>)
    requires ReadSoFar(seen, sequence, events)
    ensures if line.content.Blank? || (Readable(line) && line.content.sequence <= sequence) then
              ReadSoFar(seen + [line], sequence, events)
            else if Readable(line) && line.content.sequence == sequence + |events| + 1 then
              ReadSoFar(seen + [line], sequence, events + [line])
            else ReadAfter(seen + [line] + rest, sequence) == Err(())
  {
    assert (seen + [line])[..|seen|] == seen;
    if !Acceptable(line) {
      assert (seen + [line] + rest)[|seen|] == line;
    } else if line.content.Event? && line.content.sequence > sequence
              && line.content.sequence != sequence + |events| + 1 {
      LaterConcat(seen + [line], rest, sequence);
      assert Later(seen + [line] + rest, sequence)[|events|] == line;
    }
  }

  /* ------------------------------------------------------------------ the store */

  class RoomPersistence {
    const limit: nat
    var disk: Disk
    /** The eventSequence of the stored checkpoint, when there is one. */
    var checkpoint: Option<nat>

    constructor (limit: nat, disk: Disk, checkpoint: Option<nat>)
      ensures this.limit == limit && this.disk == disk && this.checkpoint == checkpoint
    {
      this.limit, this.disk, this.checkpoint := limit, disk, checkpoint;
    }

    /** An atomic write: either the new checkpoint is stored or the old one stays. */
    method SaveCheckpoint(eventSequence: nat, fails: bool) returns (ok: bool)
      modifies this`checkpoint
      ensures ok == !fails
      ensures checkpoint == if ok then Some(eventSequence) else old(checkpoint)
    {
      ok := !fails;
      if ok { checkpoint := Some(eventSequence); }
    }

    method Rename(source: FileName, target: FileName, fails: bool) returns (ok: bool)
      modifies this`disk
      ensures ok == (!fails && source in old(disk) && target !in old(disk))
      ensures disk == if ok then Moved(old(disk), source, target) else old(disk)
    {
      ok := !fails && source in disk && target !in disk;
      if ok { disk := Moved(disk, source, target); }
    }

    /** The highest sequence number in a file, or None at the first line that has none. */
    method HighestEventSequence(name: FileName) returns (r: Option<nat>)
      requires name in disk
      ensures r.Some? <==> AllCountable(disk[name])
      ensures r.Some? ==>
        forall bound: nat :: r.value <= bound <==> NoneAbove(disk[name], bound)
    {
      var lines, highest, i := disk[name], 0, 0;
      while i < |lines|
        invariant 0 <= i <= |lines|
        invariant AllCountable(lines[..i])
        invariant highest == 0
          || exists k :: 0 <= k < i && lines[k].content.Event? && lines[k].content.sequence == highest
        invariant NoneAbove(lines[..i], highest)
      {
        var line := lines[i];
        i := i + 1;
        if line.content.Blank? { continue; }
        if !line.content.Event? || line.content.sequence <= 0 {
          assert !Countable(lines[i - 1]);
          return None;
        }
        if line.content.sequence > highest { highest := line.content.sequence; }
      }
      assert lines[..i] == lines;
      r := Some(highest);
    }

    /** Takes the installed files back to their staged names, newest generation last. */
    method UninstallAll(token: nat, staged: seq<bool>, installed: seq<bool>, faults: Faults,
                        ghost before: Disk)
      returns (restored: bool, ghost at: Places)
      requires |staged| == |installed| == GENERATIONS
      requires forall i :: 0 <= i < GENERATIONS ==>
                 (staged[i] ==> Generation(i) in before) && (installed[i] ==> staged[i])
      requires Arranged(before, disk, token, PlacesOf(staged, installed))
      requires Apart(before, token, PlacesOf(staged, installed))
      modifies this`disk
      ensures Arranged(before, disk, token, at) && Apart(before, token, at)
      ensures restored ==> forall i :: 0 <= i < GENERATIONS ==>
                at[i] == if staged[i] then AtStage else AtHome
      ensures faults.uninstall == {} ==> restored
    {
      restored, at := true, PlacesOf(staged, installed);
      var index := 2;
      while index >= 0
        invariant -1 <= index <= 2
        invariant Arranged(before, disk, token, at) && Apart(before, token, at)
        invariant forall i :: 0 <= i < GENERATIONS && (i <= index || !installed[i]) ==>
                    at[i] == PlacesOf(staged, installed)[i]
        invariant restored ==> forall i :: index < i < GENERATIONS && installed[i] ==> at[i] == AtStage
        invariant faults.uninstall == {} ==> restored
      {
        Taken(before, disk, token, at, index);
        if installed[index] && Staged(token, index) !in disk {
          MoveOne(before, disk, token, at, index, AtStage);
          var moved := Rename(Generation(index + 1), Staged(token, index), index in faults.uninstall);
          if moved { at := at[index := AtStage]; } else { restored := false; }
        }
        index := index - 1;
      }
    }

    /** Takes the staged files back to their own names. */
    method UnstageAll(token: nat, staged: seq<bool>, faults: Faults, wasRestored: bool,
                      ghost before: Disk, ghost places: Places)
      returns (restored: bool, ghost at: Places)
      requires |staged| == GENERATIONS
      requires forall i :: 0 <= i < GENERATIONS && staged[i] ==> Generation(i) in before
      requires Arranged(before, disk, token, places) && Apart(before, token, places)
      requires wasRestored ==> forall i :: 0 <= i < GENERATIONS ==>
                 places[i] == if staged[i] then AtStage else AtHome
      modifies this`disk
      ensures Arranged(before, disk, token, at) && Apart(before, token, at)
      ensures restored ==> forall i :: 0 <= i < GENERATIONS ==> at[i] == AtHome
      ensures faults.unstage == {} && wasRestored ==> restored
    {
      restored, at := wasRestored, places;
      var index := 0;
      while index < GENERATIONS
        invariant 0 <= index <= GENERATIONS
        invariant Arranged(before, disk, token, at) && Apart(before, token, at)
        invariant restored ==> forall i :: 0 <= i < GENERATIONS ==>
                    at[i] == if i >= index && staged[i] then AtStage else AtHome
        invariant faults.unstage == {} && wasRestored ==> restored
      {
        Taken(before, disk, token, at, index);
        if staged[index] {
          if Staged(token, index) !in disk || Generation(index) in disk {
            restored := false;
          } else {
            MoveOne(before, disk, token, at, index, AtHome);
            var moved := Rename(Staged(token, index), Generation(index), index in faults.unstage);
            if moved { at := at[index := AtHome]; } else { restored := false; }
          }
        }
        index := index + 1;
      }
    }

    /** Puts back what a failed rotation moved, as far as its own renames succeed. */
    method RestoreRotation(token: nat, staged: seq<bool>, installed: seq<bool>, faults: Faults,
                           ghost before: Disk)
      returns (restored: bool, ghost at: Places)
      requires |staged| == |installed| == GENERATIONS
      requires forall i :: 0 <= i < GENERATIONS ==>
                 (staged[i] ==> Generation(i) in before) && (installed[i] ==> staged[i])
      requires Arranged(before, disk, token, PlacesOf(staged, installed))
      requires Apart(before, token, PlacesOf(staged, installed))
      modifies this`disk
      ensures Arranged(before, disk, token, at) && Apart(before, token, at)
      ensures restored ==> disk == before
      ensures faults.RollbackWorks() ==> restored
    {
      restored, at := UninstallAll(token, staged, installed, faults, before);
      restored, at := UnstageAll(token, staged, faults, restored, before, at);
      var index := 0;
      while index < GENERATIONS
        invariant 0 <= index <= GENERATIONS
        invariant Arranged(before, disk, token, at)
        invariant restored ==> forall i :: 0 <= i < GENERATIONS ==> at[i] == AtHome
        invariant faults.RollbackWorks() ==> restored
      {
        Taken(before, disk, token, at, index);
        if staged[index] && (Generation(index) !in disk || Staged(token, index) in disk) {
          restored := false;
        }
        index := index + 1;
      }
      if restored { HomeIsUnchanged(before, disk, token, at); }
    }

    /** Renames one generation out of the way; nothing to do when it does not exist. */
    method Stage(token: nat, index: nat, staged: seq<bool>, faults: Faults, ghost before: Disk)
      returns (ok: bool, staged': seq<bool>)
      requires |staged| == GENERATIONS && index < GENERATIONS && !staged[index]
      requires Fresh(before, token)
      requires Arranged(before, disk, token, PlacesOf(staged, NONE))
      modifies this`disk
      ensures staged' == if ok then staged[index := Generation(index) in before] else staged
      ensures Arranged(before, disk, token, PlacesOf(staged', NONE))
      ensures index !in faults.stage ==> ok
    {
      Taken(before, disk, token, PlacesOf(staged, NONE), index);
      if Generation(index) !in disk { return true, staged[index := false]; }
      NoneClash(before, token, staged, NONE);
      NoneClash(before, token, staged[index := true], NONE);
      StageOne(staged, NONE, index);
      MoveOne(before, disk, token, PlacesOf(staged, NONE), index, AtStage);
      ok := Rename(Generation(index), Staged(token, index), index in faults.stage);
      staged' := if ok then staged[index := true] else staged;
    }

    /** Stages each generation in turn, stopping at the first failure. */
    method StageAll(token: nat, faults: Faults) returns (ok: bool, staged: seq<bool>)
      requires Fresh(disk, token)
      modifies this`disk
      ensures |staged| == GENERATIONS
      ensures forall i :: 0 <= i < GENERATIONS && staged[i] ==> Generation(i) in old(disk)
      ensures Arranged(old(disk), disk, token, PlacesOf(staged, NONE))
      ensures ok ==> forall i :: 0 <= i < GENERATIONS && Generation(i) in old(disk) ==> staged[i]
      ensures faults.stage == {} ==> ok
    {
      ok, staged := true, NONE;
      var index := 0;
      while index < GENERATIONS && ok
        invariant 0 <= index <= GENERATIONS && |staged| == GENERATIONS
        invariant forall i :: 0 <= i < GENERATIONS ==>
                    staged[i] == (i < index && Generation(i) in old(disk))
        invariant Arranged(old(disk), disk, token, PlacesOf(staged, NONE))
        invariant faults.stage == {} ==> ok
        decreases GENERATIONS - index, ok
      {
        ok, staged := Stage(token, index, staged, faults, old(disk));
        if ok { index := index + 1; }
      }
    }

    /** Renames one staged file to the next generation's name; nothing to do when none is staged. */
    method Install(token: nat, index: nat, staged: seq<bool>, installed: seq<bool>, faults: Faults,
                   ghost before: Disk)
      returns (ok: bool, installed': seq<bool>)
      requires |staged| == |installed| == GENERATIONS && index < 3 && !installed[index]
      requires forall i :: 0 <= i < GENERATIONS ==> staged[i] == (Generation(i) in before)
      requires Fresh(before, token) && !installed[3]
      requires Arranged(before, disk, token, PlacesOf(staged, installed))
      modifies this`disk
      ensures installed' == if ok then installed[index := staged[index]] else installed
      ensures Arranged(before, disk, token, PlacesOf(staged, installed'))
      ensures index !in faults.install ==> ok
    {
      if !staged[index] { return true, installed[index := false]; }
      NoneClash(before, token, staged, installed);
      NoneClash(before, token, staged, installed[index := true]);
      StageOne(staged, installed, index);
      Taken(before, disk, token, PlacesOf(staged, installed), index + 1);
      MoveOne(before, disk, token, PlacesOf(staged, installed), index, AtNext);
      ok := Rename(Staged(token, index), Generation(index + 1), index in faults.install);
      installed' := if ok then installed[index := true] else installed;
    }

    /**
     Moves every generation one place on and drops the oldest.  All or nothing: when a step
     fails, the rollback either restores the disk exactly or leaves every file under a name.
     */
    method Rotate(token: nat, faults: Faults) returns (rotated: bool, restored: bool, ghost at: Places)
      requires Fresh(disk, token)
      modifies this`disk
      ensures rotated ==> disk == Rotated(old(disk))
      ensures !rotated ==> Arranged(old(disk), disk, token, at) && Apart(old(disk), token, at)
      ensures !rotated && restored ==> disk == old(disk)
      ensures !rotated && faults.RollbackWorks() ==> restored
      ensures faults.NoFailure() ==> rotated
    {
      ghost var before := disk;
      var installed := NONE;
      var ok, staged := StageAll(token, faults);
      if ok { ok, installed := Install(token, 2, staged, installed, faults, before); }
      if ok { ok, installed := Install(token, 1, staged, installed, faults, before); }
      if ok { ok, installed := Install(token, 0, staged, installed, faults, before); }
      at := PlacesOf(staged, installed);
      NoneClash(before, token, staged, installed);
      rotated := ok && !(staged[3] && faults.remove);
      if !rotated {
        restored, at := RestoreRotation(token, staged, installed, faults, before);
        return;
      }
      InstalledIsRotated(before, disk, token, at);
      disk := disk - {Staged(token, 3)};
      restored := false;
    }

    /**
     Appends one event, rotating first when the active file has reached the limit.  The oldest
     generation is dropped only when the checkpoint covers all of it; otherwise the caller is
     told that a newer checkpoint is required and nothing changes.
     */
    method AppendEvent(sequence: nat, kind: string, payload: string, bytes: nat, token: nat,
                       faults: Faults)
      returns (ok: bool, checkpointRequired: bool, ghost at: Places)
      requires Fresh(disk, token)
      modifies this`disk
      ensures var line := Line(bytes, Event(sequence, kind, true, payload));
        && (faults.RollbackWorks() ==> AppendEffect(limit, old(disk), checkpoint, line, ok, disk))
        && (AppendEffect(limit, old(disk), checkpoint, line, ok, disk)
            || (!ok && Arranged(old(disk), disk, token, at) && Apart(old(disk), token, at)))
        && (faults.NoFailure() ==>
              (ok <==> Fits(line, limit) && (Full(old(disk), limit) ==> MayDropOldest(old(disk), checkpoint))))
      ensures checkpointRequired ==>
        && !ok && disk == old(disk) && Full(disk, limit)
        && Generation(3) in disk && AllCountable(disk[Generation(3)])
        && (faults.loadCheckpoint || checkpoint.None? || !NoneAbove(disk[Generation(3)], checkpoint.value))
    {
      ok, checkpointRequired, at := false, false, ALL_HOME;
      var line := Line(bytes, Event(sequence, kind, true, payload));
      if sequence == 0 || kind == "" { return; }
      if bytes > limit { return; }
      if Full(disk, limit) {
        if faults.probe { return; }
        if Generation(3) in disk {
          if faults.readOldest { return; }
          var highest := HighestEventSequence(Generation(3));
          if highest.None? { return; }
          if faults.loadCheckpoint || checkpoint.None? || checkpoint.value < highest.value {
            checkpointRequired := true;
            return;
          }
        }
        var rotated, restored;
        rotated, restored, at := Rotate(token, faults);
        if !rotated { return; }
      }
      if faults.open { return; }
      disk := Opened(disk);
      if faults.write { return; }
      disk := WithLine(disk, line);
      ok := true;
    }

    /** Reads one file into the events found so far; false at a line the reader refuses. */
    static method ReadFile(lines: seq<Line>, sequence: nat, events: seq<Line>,
                           ghost consumed: seq<Line>, ghost rest: seq<Line>)
      returns (ok: bool, events': seq<Line>)
      requires ReadSoFar(consumed, sequence, events)
      ensures ok ==> ReadSoFar(consumed + lines, sequence, events')
      ensures !ok ==> ReadAfter(consumed + lines + rest, sequence) == Err(())
    {
      ghost var seen := consumed;
      var lastSequence := sequence + |events|;
      var i := 0;
      events' := events;
      while i < |lines|
        invariant 0 <= i <= |lines|
        invariant consumed + lines + rest == seen + lines[i..] + rest
        invariant seen == consumed + lines[..i]
        invariant ReadSoFar(seen, sequence, events')
        invariant lastSequence == sequence + |events'|
      {
        var line := lines[i];
        ReadOne(seen, line, lines[i + 1..] + rest, sequence, events');
        TakeOne(seen, lines, i, rest);
        seen := seen + [line];
        i := i + 1;
        if line.content.Blank? { continue; }
        if !Readable(line) { return false, events'; }
        if line.content.sequence <= sequence { continue; }
        if line.content.sequence != lastSequence + 1 { return false, events'; }
        events' := events' + [line];
        lastSequence := line.content.sequence;
      }
      assert lines[..i] == lines;
      ok := true;
    }

    /**
     Reads the events after a sequence number from all generations, oldest first; refuses a
     line it cannot read and any gap in the numbering.
     */
    method EventsAfter(sequence: nat) returns (r: Result<seq<Line>, ()>)
      ensures r == ReadAfter(History(disk), sequence)
    {
      var events: seq<Line> := [];
      ghost var consumed: seq<Line> := [];
      HistoryIsTail(disk);
      var generation := 3;
      while generation >= 0
        invariant -1 <= generation <= 3
        invariant History(disk) == consumed + Tail(disk, generation)
        invariant ReadSoFar(consumed, sequence, events)
      {
        var lines := File(disk, Generation(generation));
        ghost var rest := Tail(disk, generation - 1);
        assert consumed + (lines + rest) == consumed + lines + rest;
        var ok;
        ok, events := ReadFile(lines, sequence, events, consumed, rest);
        if !ok { return Err(()); }
        consumed := consumed + lines;
        generation := generation - 1;
      }
      assert History(disk) == consumed;
      r := Ok(events);
    }
  }

  /* ------------------------------------------------------------------ whole runs */

  /** The log, and beside it every line whose append succeeded. */
  datatype LogState = LogState(disk: Disk, checkpoint: Option<nat>, appended: seq<Line>) {
    /** Where recovery starts reading. */
    function Floor(): nat { checkpoint.GetOr(0) }
  }

  datatype Step = Append(line: Line, ok: bool) | Save(eventSequence: nat)

  ghost predicate Initial(s: LogState) {
    s == LogState(map[], None, [])
  }

  /** One append with the next sequence number, or one checkpoint of a sequence number reached. */
  ghost predicate Next(limit: nat, s: LogState, step: Step, s': LogState) {
    match step
    case Append(line, ok) =>
      && line.content.Event? && line.content.sequence == |s.appended| + 1
      && AppendEffect(limit, s.disk, s.checkpoint, line, ok, s'.disk)
      && s'.checkpoint == s.checkpoint
      && s'.appended == if ok then s.appended + [line] else s.appended
    case Save(eventSequence) =>
      && s.Floor() <= eventSequence <= |s.appended|
      && s' == s.(checkpoint := Some(eventSequence))
  }

  ghost predicate Run(limit: nat, states: seq<LogState>, steps: seq<Step>) {
    && |states| == |steps| + 1 && Initial(states[0])
    && forall k :: 0 <= k < |steps| ==> Next(limit, states[k], steps[k], states[k + 1])
  }

  ghost predicate Numbered(appended: seq<Line>) {
    forall k :: 0 <= k < |appended| ==>
      Readable(appended[k]) && appended[k].content.sequence == k + 1
  }

  /** The log holds the last appended lines, starting no later than the one after the checkpoint. */
  ghost predicate Kept(appended: seq<Line>, history: seq<Line>, floor: nat) {
    && |appended| - |history| <= floor <= |appended| && |history| <= |appended|
    && history == appended[|appended| - |history|..]
  }

  ghost predicate Small(limit: nat, disk: Disk) {
    forall i :: 0 <= i < GENERATIONS ==> Size(File(disk, Generation(i))) < 2 * limit
  }

  ghost predicate Safe(limit: nat, s: LogState) {
    && Numbered(s.appended) && Kept(s.appended, History(s.disk), s.Floor()) && Small(limit, s.disk)
  }

  lemma RotatedHistory(disk: Disk)
    ensures History(disk) == File(disk, Generation(3)) + History(Rotated(disk))
    ensures File(Rotated(disk), Generation(0)) == []
  {
    var r := Rotated(disk);
    assert File(r, Generation(0)) == [];
    assert File(r, Generation(1)) == File(disk, Generation(0));
    assert File(r, Generation(2)) == File(disk, Generation(1));
    assert File(r, Generation(3)) == File(disk, Generation(2));
  }

  lemma ExtendedHistory(disk: Disk, line: Line)
    ensures History(WithLine(disk, line)) == History(disk) + [line]
    ensures Size(File(WithLine(disk, line), Generation(0)))
            == Size(File(disk, Generation(0))) + line.bytes
  {
    var disk', file := WithLine(disk, line), File(disk, Generation(0));
    assert (file + [line])[..|file|] == file;
    assert File(disk', Generation(3)) == File(disk, Generation(3));
    assert File(disk', Generation(2)) == File(disk, Generation(2));
    assert File(disk', Generation(1)) == File(disk, Generation(1));
  }

  /** Under the checkpoint guard only what the checkpoint covers is dropped. */
  lemma DropKeeps(appended: seq<Line>, oldest: seq<Line>, rest: seq<Line>, floor: nat)
    requires Numbered(appended) && Kept(appended, oldest + rest, floor)
    requires NoneAbove(oldest, floor)
    ensures Kept(appended, rest, floor)
  {
    var first := |appended| - |oldest + rest|;
    assert rest == (oldest + rest)[|oldest|..] == appended[first + |oldest|..];
    if oldest != [] {
      assert oldest[|oldest| - 1] == (oldest + rest)[|oldest| - 1] == appended[first + |oldest| - 1];
    }
  }

  lemma AppendKeeps(appended: seq<Line>, history: seq<Line>, floor: nat, line: Line)
    requires Kept(appended, history, floor)
    ensures Kept(appended + [line], history + [line], floor)
  {
    assert (appended + [line])[|appended| - |history|..] == appended[|appended| - |history|..] + [line];
  }

  lemma RotationIsSafe(limit: nat, s: LogState)
    requires limit > 0 && Safe(limit, s) && MayDropOldest(s.disk, s.checkpoint)
    ensures Safe(limit, s.(disk := Rotated(s.disk)))
    ensures File(Rotated(s.disk), Generation(0)) == []
  {
    var disk := Rotated(s.disk);
    RotatedHistory(s.disk);
    DropKeeps(s.appended, File(s.disk, Generation(3)), History(disk), s.Floor());
    forall i | 0 <= i < GENERATIONS
      ensures Size(File(disk, Generation(i))) < 2 * limit
    {
      if i > 0 { assert File(disk, Generation(i)) == File(s.disk, Generation(i - 1)); }
    }
  }

  lemma AppendIsSafe(limit: nat, s: LogState, line: Line, s': LogState)
    requires Safe(limit, s) && Fits(line, limit) && line.content.sequence == |s.appended| + 1
    requires Size(File(s.disk, Generation(0))) < limit
    requires s' == LogState(WithLine(s.disk, line), s.checkpoint, s.appended + [line])
    ensures Safe(limit, s')
  {
    ExtendedHistory(s.disk, line);
    AppendKeeps(s.appended, History(s.disk), s.Floor(), line);
    forall i | 0 < i < GENERATIONS
      ensures File(WithLine(s.disk, line), Generation(i)) == File(s.disk, Generation(i))
    {
    }
  }

  lemma OpeningIsSafe(limit: nat, s: LogState, s': LogState)
    requires Safe(limit, s)
    requires s' == s.(disk := Opened(s.disk))
    ensures Safe(limit, s')
  {
    assert forall i: nat :: File(s'.disk, Generation(i)) == File(s.disk, Generation(i));
  }

  lemma StepIsSafe(limit: nat, s: LogState, step: Step, s': LogState)
    requires limit > 0 && Safe(limit, s) && Next(limit, s, step, s')
    ensures Safe(limit, s')
  {
    if step.Save? || (!step.ok && s'.disk == s.disk) {
    } else {
      if Full(s.disk, limit) {
        RotationIsSafe(limit, s);
        AppendToSafe(limit, s.(disk := Rotated(s.disk)), step.line, step.ok, s');
      } else {
        AppendToSafe(limit, s, step.line, step.ok, s');
      }
    }
  }

  lemma AppendToSafe(limit: nat, s: LogState, line: Line, ok: bool, s': LogState)
    requires Safe(limit, s) && line.content.Event? && line.content.sequence == |s.appended| + 1
    requires Size(File(s.disk, Generation(0))) < limit
    requires if ok then
               Fits(line, limit)
               && s' == LogState(WithLine(s.disk, line), s.checkpoint, s.appended + [line])
             else s' == s || s' == s.(disk := Opened(s.disk))
    ensures Safe(limit, s')
  {
    if ok {
      AppendIsSafe(limit, s, line, s');
    } else if s' != s {
      OpeningIsSafe(limit, s, s');
    }
  }

  lemma {:induction false} RunIsSafe(limit: nat, states: seq<LogState>, steps: seq<Step>)
    requires limit > 0 && Run(limit, states, steps)
    ensures Safe(limit, states[|steps|])
  {
    if steps != [] {
      var n := |steps| - 1;
      RunIsSafe(limit, states[..n + 1], steps[..n]);
      StepIsSafe(limit, states[n], steps[n], states[n + 1]);
    }
  }

  lemma {:induction false} NumberedLater(lines: seq<Line>, first: nat, sequence: nat)
    requires forall k :: 0 <= k < |lines| ==>
      lines[k].content.Event? && lines[k].content.sequence == first + 1 + k
    requires first <= sequence <= first + |lines|
    ensures Later(lines, sequence) == lines[sequence - first..]
  {
    if lines != [] {
      var n := |lines| - 1;
      if sequence == first + |lines| {
        assert forall k :: 0 <= k < |lines| ==> lines[k].content.sequence <= sequence;
        NoneLater(lines, sequence);
      } else {
        NumberedLater(lines[..n], first, sequence);
        assert lines[sequence - first..] == lines[..n][sequence - first..] + [lines[n]];
      }
    }
  }

  lemma {:induction false} NoneLater(lines: seq<Line>, sequence: nat)
    requires NoneAbove(lines, sequence)
    ensures Later(lines, sequence) == []
  {
    if lines != [] { NoneLater(lines[..|lines| - 1], sequence); }
  }

  lemma KeptIsReadable(appended: seq<Line>, history: seq<Line>, floor: nat)
    requires Numbered(appended) && Kept(appended, history, floor)
    ensures ReadAfter(history, floor) == Ok(appended[floor..])
  {
    var first := |appended| - |history|;
    assert forall k :: 0 <= k < |history| ==> history[k] == appended[first + k];
    NumberedLater(history, first, floor);
    assert history[floor - first..] == appended[floor..];
  }

  /**
   No event after the checkpoint is ever lost: after any run of appends, failed appends,
   rotations and checkpoints, reading from the checkpoint returns exactly the events appended
   since, in order; and every generation stays below twice the size limit.
   */
  lemma RecoveryLosesNothing(limit: nat, states: seq<LogState>, steps: seq<Step>)
    requires limit > 0 && Run(limit, states, steps)
    ensures var s := states[|steps|];
      && s.Floor() <= |s.appended|
      && ReadAfter(History(s.disk), s.Floor()) == Ok(s.appended[s.Floor()..])
      && Small(limit, s.disk)
  {
    RunIsSafe(limit, states, steps);
    var s := states[|steps|];
    KeptIsReadable(s.appended, History(s.disk), s.Floor());
  }
}
