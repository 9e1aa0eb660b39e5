/**
 * Clients that change devices and streams at the same time. A read and a write are one step
 * each, and between them a client holds a private copy that others may overtake. The store's
 * version check is all that orders them.
 */
module Versioned {
  import opened Basics
  import opened Domain
  import opened Store

  datatype Key = DeviceKey(id: string) | StreamKey(id: string)

  datatype Record = OfDevice(device: Device) | OfStream(stream: Stream) {
    function Version(): int {
      match this
      case OfDevice(d) => d.version
      case OfStream(s) => s.version
    }

    function Key(): Key {
      match this
      case OfDevice(d) => DeviceKey(d.id)
      case OfStream(s) => StreamKey(s.id)
    }

    // A retired device and a disabled stream accept no change.
    predicate Final() {
      match this
      case OfDevice(d) => d.status == Retired
      case OfStream(s) => s.status == Disabled
    }
  }

  // What a client wants done with its copy: TransitionDevice, TouchDevice or TransitionStream.
  datatype Op = MoveDevice(deviceStatus: DeviceStatus) | Touch(seen: int) | MoveStream(streamStatus: StreamStatus)

  function Change(r: Record, op: Op, now: int): Result<Record> {
    match (r, op)
    case (OfDevice(d), MoveDevice(to)) => Wrapped(d.Transition(to, now), d => OfDevice(d))
    case (OfDevice(d), Touch(seen)) => Wrapped(d.Touch(seen, now), d => OfDevice(d))
    case (OfStream(s), MoveStream(to)) => Wrapped(s.Transition(to, now), s => OfStream(s))
    case _ => Err(Invalid)
  }

  function Wrapped<A, B>(r: Result<A>, wrap: A -> B): Result<B> {
    match r
    case Ok(a) => Ok(wrap(a))
    case Err(e) => Err(e)
  }

  // Does the request name the status the copy already has?
  predicate SameStatus(r: Record, op: Op) {
    match (r, op)
    case (OfDevice(d), MoveDevice(to)) => to == d.status
    case (OfStream(s), MoveStream(to)) => to == s.status
    case _ => false
  }

  // ----- The store, seen by key -----

  function Stored(db: Db, key: Key): Option<Record> {
    match key
    case DeviceKey(id) => if id in db.devices then Some(OfDevice(db.devices[id])) else None
    case StreamKey(id) => if id in db.streams then Some(OfStream(db.streams[id])) else None
  }

  function Put(db: Db, r: Record): Result<Db> {
    match r
    case OfDevice(d) => db.PutDevice(d)
    case OfStream(s) => db.PutStream(s)
  }

  function Update(db: Db, r: Record, expected: int): Result<Db> {
    match r
    case OfDevice(d) => db.UpdateDevice(d, expected)
    case OfStream(s) => db.UpdateStream(s, expected)
  }

  // ----- Steps -----

  datatype Held = Held(key: Key, copy: Record, op: Op)

  datatype World = World(db: Db, clients: map<nat, Held>)

  datatype Event =
    | Register(made: Record)
    | Read(client: nat, key: Key, op: Op)
    | Write(client: nat, now: int)

  // A new record has version 1; a client reads only when it holds nothing.
  ghost predicate Can(w: World, e: Event) {
    match e
    case Register(r) => r.Version() == 1
    case Read(c, key, _) => c !in w.clients
    case Write(c, _) => c in w.clients
  }

  // The record a client offers to the store, and the version it says it changed.
  function Next(w: World, e: Event): World {
    match e
    case Register(r) => w.(db := Put(w.db, r).Or(w.db))
    case Read(c, key, op) =>
      (match Stored(w.db, key)
       case None => w
       case Some(r) => w.(clients := w.clients[c := Held(key, r, op)]))
    case Write(c, now) =>
      if c !in w.clients then w
      else
        var h := w.clients[c];
        var done := w.(clients := w.clients - {c});
        match Change(h.copy, h.op, now)
        case Err(_) => done
        case Ok(r) => done.(db := Update(w.db, r, r.Version() - 1).Or(w.db))
  }

  ghost predicate CanRun(events: seq<Event>) {
    events == [] || (CanRun(events[..|events| - 1]) && Can(Run(events[..|events| - 1]), events[|events| - 1]))
  }

  ghost function Run(events: seq<Event>): World {
    if events == [] then World(EMPTY, map[]) else Next(Run(events[..|events| - 1]), events[|events| - 1])
  }

  // ----- Commits -----

  // A write the store accepted: what was stored, the operation, and what is stored now.
  datatype Commit = Commit(before: Record, op: Op, now: int, after: Record)

  // The commits of one step: one, or none.
  ghost function CommitsOf(w: World, e: Event): seq<Commit> {
    if !e.Write? || e.client !in w.clients then []
    else
      var h := w.clients[e.client];
      match (Stored(w.db, h.key), Change(h.copy, h.op, e.now))
      case (Some(before), Ok(r)) =>
        if Update(w.db, r, r.Version() - 1).Ok? then [Commit(before, h.op, e.now, r)] else []
      case _ => []
  }

  ghost function Log(events: seq<Event>): seq<Commit> {
    if events == [] then []
    else
      var front := events[..|events| - 1];
      Log(front) + CommitsOf(Run(front), events[|events| - 1])
  }

  // The commit is its operation applied, as one step, to what was stored.
  ghost predicate Serial(c: Commit) {
    Change(c.before, c.op, c.now) == Ok(c.after)
  }

  // A request for the status of a version 1 copy switches the version check off; it then
  // restores that copy over whatever is stored.
  ghost predicate Overwrites(w: World, e: Event) {
    && e.Write? && e.client in w.clients
    && var h := w.clients[e.client];
       SameStatus(h.copy, h.op) && h.copy.Version() == 1 && Stored(w.db, h.key) != Some(h.copy)
  }

  ghost predicate NoneOverwrites(events: seq<Event>) {
    forall k | 0 <= k < |events| :: !Overwrites(Run(events[..k]), events[k])
  }

  // ----- What the version check maintains -----

  ghost predicate Keyed(db: Db) {
    forall key :: Stored(db, key).Some? ==> Stored(db, key).value.Key() == key && Stored(db, key).value.Version() >= 1
  }

  // A copy is never newer than the stored record, and is that record when the versions agree.
  ghost predicate Current(db: Db, h: Held) {
    && h.copy.Key() == h.key && h.copy.Version() >= 1 && Stored(db, h.key).Some?
    && var r := Stored(db, h.key).value;
       h.copy.Version() <= r.Version() && (h.copy.Version() == r.Version() ==> h.copy == r)
  }

  ghost predicate Fresh(w: World) {
    Keyed(w.db) && forall c | c in w.clients :: Current(w.db, w.clients[c])
  }

  // The record an accepted update leaves under every key.
  lemma UpdateStores(db: Db, r: Record, expected: int)
    ensures Update(db, r, expected).Ok? <==> Stored(db, r.Key()).Some? && (expected <= 0 || Stored(db, r.Key()).value.Version() == expected)
    ensures Update(db, r, expected).Ok? ==>
              forall key :: Stored(Update(db, r, expected).value, key) == if key == r.Key() then Some(r) else Stored(db, key)
  {
  }

  lemma PutStores(db: Db, r: Record)
    ensures Put(db, r).Ok? <==> Stored(db, r.Key()) == None
    ensures Put(db, r).Ok? ==> forall key :: Stored(Put(db, r).value, key) == if key == r.Key() then Some(r) else Stored(db, key)
  {
  }

  lemma ChangeRaisesVersion(r: Record, op: Op, now: int)
    requires Change(r, op, now).Ok?
    ensures var r' := Change(r, op, now).value;
            && r'.Key() == r.Key()
            && if SameStatus(r, op) then r' == r else r'.Version() == r.Version() + 1
    ensures r.Final() ==> SameStatus(r, op)
  {
  }

  /** A write is its operation applied to the stored record, or changes nothing, exactly unless it overwrites. */
  lemma WriteIsSerialUnlessOverwriting(w: World, e: Event)
    requires Fresh(w) && Can(w, e) && e.Write?
    ensures (forall c | c in CommitsOf(w, e) :: Serial(c)) <==> !Overwrites(w, e)
    ensures !Overwrites(w, e) ==> Fresh(Next(w, e))
  {
    hide Change, SameStatus, Stored, Update, Keyed, Record.Key, Record.Version;
    var h := w.clients[e.client];
    assert Current(w.db, h);
    hide Fresh;
    var before := Stored(w.db, h.key).value;
    if Change(h.copy, h.op, e.now).Ok? {
      var r := Change(h.copy, h.op, e.now).value;
      ChangeRaisesVersion(h.copy, h.op, e.now);
      UpdateStores(w.db, r, r.Version() - 1);
      if Update(w.db, r, r.Version() - 1).Ok? {
        assert CommitsOf(w, e) == [Commit(before, h.op, e.now, r)];
        if Overwrites(w, e) {
          OverwritingIsNotSerial(h.copy, before, h.op, e.now);
          assert !Serial(CommitsOf(w, e)[0]);
        } else {
          assert h.copy == before;
          AcceptedKeepsFresh(w, e, r);
        }
      } else {
        assert CommitsOf(w, e) == [];
        RefusedKeepsFresh(w, e);
      }
    } else {
      SameStatusIsAccepted(h.copy, h.op, e.now);
      assert CommitsOf(w, e) == [];
      RefusedKeepsFresh(w, e);
    }
  }

  lemma SameStatusIsAccepted(r: Record, op: Op, now: int)
    ensures SameStatus(r, op) ==> Change(r, op, now) == Ok(r)
  {
  }

  lemma OverwritingIsNotSerial(copy: Record, before: Record, op: Op, now: int)
    requires SameStatus(copy, op) && copy.Version() == 1 && before != copy && before.Version() >= 1
    ensures !Serial(Commit(before, op, now, copy))
  {
  }

  lemma AcceptedKeepsFresh(w: World, e: Event, r: Record)
    requires Fresh(w) && Can(w, e) && e.Write?
    requires var h := w.clients[e.client];
             && Stored(w.db, h.key) == Some(h.copy) && Change(h.copy, h.op, e.now) == Ok(r)
             && Update(w.db, r, r.Version() - 1).Ok?
    ensures Fresh(Next(w, e))
  {
    hide Change, SameStatus, Stored, Update, Record.Key, Record.Version;
    var h := w.clients[e.client];
    ChangeRaisesVersion(h.copy, h.op, e.now);
    UpdateStores(w.db, r, r.Version() - 1);
    forall c | c in Next(w, e).clients ensures Current(Next(w, e).db, Next(w, e).clients[c]) {
      assert Current(w.db, w.clients[c]);
    }
  }

  lemma RefusedKeepsFresh(w: World, e: Event)
    requires Fresh(w) && Can(w, e) && e.Write?
    requires Next(w, e).db == w.db
    ensures Fresh(Next(w, e))
  {
    hide Change, Stored, Update;
  }

  lemma ReadKeepsFresh(w: World, e: Event)
    requires Fresh(w) && Can(w, e) && !e.Write?
    ensures Fresh(Next(w, e)) && CommitsOf(w, e) == [] && !Overwrites(w, e)
  {
    hide Change, Stored, Update, Put;
    if e.Register? {
      PutStores(w.db, e.made);
      forall c | c in w.clients ensures Current(Next(w, e).db, w.clients[c]) {
        assert Current(w.db, w.clients[c]);
      }
    }
  }

  lemma StepKeepsFresh(w: World, e: Event)
    requires Fresh(w) && Can(w, e)
    ensures (forall c | c in CommitsOf(w, e) :: Serial(c)) <==> !Overwrites(w, e)
    ensures !Overwrites(w, e) ==> Fresh(Next(w, e))
  {
    hide Fresh, CommitsOf, Overwrites, Next, Serial;
    if e.Write? {
      WriteIsSerialUnlessOverwriting(w, e);
    } else {
      ReadKeepsFresh(w, e);
    }
  }

  lemma NoneOverwritesFront(events: seq<Event>)
    requires events != []
    ensures NoneOverwrites(events) <==>
            NoneOverwrites(events[..|events| - 1]) && !Overwrites(Run(events[..|events| - 1]), events[|events| - 1])
  {
    hide Overwrites, Run;
    var front := events[..|events| - 1];
    forall k | 0 <= k < |front| ensures front[..k] == events[..k] {
    }
    if NoneOverwrites(front) && !Overwrites(Run(front), events[|events| - 1]) {
      forall k | 0 <= k < |events| ensures !Overwrites(Run(events[..k]), events[k]) {
        if k < |front| {
          assert !Overwrites(Run(front[..k]), front[k]);
        }
      }
    }
    if NoneOverwrites(events) {
      forall k | 0 <= k < |front| ensures !Overwrites(Run(front[..k]), front[k]) {
        assert !Overwrites(Run(events[..k]), events[k]);
      }
    }
  }

  lemma {:induction false} RunIsFresh(events: seq<Event>)
    requires CanRun(events) && NoneOverwrites(events)
    ensures Fresh(Run(events))
  {
    hide Overwrites, Can, Next, NoneOverwrites;
    if events != [] {
      hide Fresh;
      NoneOverwritesFront(events);
      RunIsFresh(events[..|events| - 1]);
      StepKeepsFresh(Run(events[..|events| - 1]), events[|events| - 1]);
    }
  }

  /** Under every interleaving, all commits are their operations applied one after the other to
      the stored records, if and only if no request for the status of a version 1 copy overwrites. */
  lemma {:induction false} CommitsAreSerial(events: seq<Event>)
    requires CanRun(events)
    ensures (forall i | 0 <= i < |Log(events)| :: Serial(Log(events)[i])) <==> NoneOverwrites(events)
  {
    hide Fresh, Overwrites, Can, Next, Serial, CommitsOf;
    if events != [] {
      hide NoneOverwrites;
      var front, e := events[..|events| - 1], events[|events| - 1];
      NoneOverwritesFront(events);
      CommitsAreSerial(front);
      var step := CommitsOf(Run(front), e);
      assert Log(events) == Log(front) + step;
      if NoneOverwrites(front) {
        RunIsFresh(front);
        StepKeepsFresh(Run(front), e);
        assert (forall c | c in step :: Serial(c)) <==> forall i | 0 <= i < |step| :: Serial(step[i]);
      }
      AllOfBoth(Log(front), step);
    }
  }

  lemma AllOfBoth(a: seq<Commit>, b: seq<Commit>)
    ensures (forall i | 0 <= i < |a + b| :: Serial((a + b)[i])) <==>
            (forall i | 0 <= i < |a| :: Serial(a[i])) && (forall i | 0 <= i < |b| :: Serial(b[i]))
  {
    hide Serial;
    if forall i | 0 <= i < |a + b| :: Serial((a + b)[i]) {
      forall i | 0 <= i < |a| ensures Serial(a[i]) {
        assert (a + b)[i] == a[i];
      }
      forall i | 0 <= i < |b| ensures Serial(b[i]) {
        assert (a + b)[|a| + i] == b[i];
      }
    }
  }

  // ----- The chain of commits -----

  // Commits made one at a time: each is the whole read, change and write of its operation.
  ghost function OneByOne(events: seq<Event>): Db {
    if events == [] then EMPTY
    else
      var front, e := events[..|events| - 1], events[|events| - 1];
      var db := OneByOne(front);
      match e
      case Register(r) => Put(db, r).Or(db)
      case Read(_, _, _) => db
      case Write(_, _) => Applied(db, CommitsOf(Run(front), e))
  }

  ghost function Applied(db: Db, commits: seq<Commit>): Db {
    if commits == [] then db
    else
      var c := commits[0];
      match Stored(db, c.before.Key())
      case None => db
      case Some(r) =>
        match Change(r, c.op, c.now)
        case Err(_) => db
        case Ok(r') => Update(db, r', 0).Or(db)
  }

  lemma StepIsApplied(w: World, e: Event)
    requires Fresh(w) && Can(w, e) && e.Write? && !Overwrites(w, e)
    ensures Next(w, e).db == Applied(w.db, CommitsOf(w, e))
  {
    WriteIsSerialUnlessOverwriting(w, e);
    var h := w.clients[e.client];
    assert Current(w.db, h);
    hide Change, SameStatus, Stored, Update, Overwrites, Record.Version, Fresh;
    if Change(h.copy, h.op, e.now).Ok? {
      var r := Change(h.copy, h.op, e.now).value;
      ChangeRaisesVersion(h.copy, h.op, e.now);
      UpdateStores(w.db, r, r.Version() - 1);
      if Update(w.db, r, r.Version() - 1).Ok? {
        var before := Stored(w.db, h.key).value;
        var c := Commit(before, h.op, e.now, r);
        assert CommitsOf(w, e) == [c] && Serial(c);
        KeyedBefore(w, h.key);
        SameUpdate(w.db, r, r.Version() - 1, 0);
      }
    }
  }

  lemma KeyedBefore(w: World, key: Key)
    requires Fresh(w) && Stored(w.db, key).Some?
    ensures Stored(w.db, key).value.Key() == key
  {
    hide Stored;
  }

  lemma SameUpdate(db: Db, r: Record, a: int, b: int)
    ensures Update(db, r, a).Ok? && Update(db, r, b).Ok? ==> Update(db, r, a) == Update(db, r, b)
    ensures Update(db, r, a).Ok? && b <= 0 ==> Update(db, r, b).Ok?
  {
  }

  /** The interleaved run leaves exactly what its accepted operations leave when made one at a time, in commit order. */
  lemma {:induction false} RunsAreSerialisable(events: seq<Event>)
    requires CanRun(events) && NoneOverwrites(events)
    ensures Run(events).db == OneByOne(events)
  {
    hide Fresh, Overwrites, Applied, CommitsOf, NoneOverwrites;
    if events != [] {
      var front, e := events[..|events| - 1], events[|events| - 1];
      NoneOverwritesFront(events);
      RunsAreSerialisable(front);
      RunIsFresh(front);
      if e.Write? {
        StepIsApplied(Run(front), e);
      }
    }
  }

  // A later record of a key: the same one, or one of a higher version that may follow it.
  ghost predicate Follows(r: Record, r': Record) {
    && r'.Key() == r.Key() && r.Version() <= r'.Version()
    && (r.Version() == r'.Version() || r.Final() ==> r' == r)
  }

  lemma StepFollows(w: World, e: Event, key: Key)
    requires Fresh(w) && Can(w, e) && !Overwrites(w, e) && Stored(w.db, key).Some?
    ensures Stored(Next(w, e).db, key).Some? && Follows(Stored(w.db, key).value, Stored(Next(w, e).db, key).value)
  {
    if e.Register? {
      hide Fresh, Overwrites, Stored, Put;
      PutStores(w.db, e.made);
    } else if e.Write? {
      var h := w.clients[e.client];
      assert Current(w.db, h);
      hide Change, SameStatus, Stored, Update, Overwrites, Fresh, Record.Key, Record.Version, Record.Final;
      WriteIsSerialUnlessOverwriting(w, e);
      if Change(h.copy, h.op, e.now).Ok? {
        var r := Change(h.copy, h.op, e.now).value;
        ChangeRaisesVersion(h.copy, h.op, e.now);
        UpdateStores(w.db, r, r.Version() - 1);
        if Update(w.db, r, r.Version() - 1).Ok? {
          var before := Stored(w.db, h.key).value;
          assert CommitsOf(w, e) == [Commit(before, h.op, e.now, r)];
          assert Serial(Commit(before, h.op, e.now, r));
          ChangeRaisesVersion(before, h.op, e.now);
        }
      }
    }
  }

  /** Over a run in which nothing overwrites, a record only advances, version by version, and a
      retired device or disabled stream never changes again. */
  lemma {:induction false} RecordsOnlyAdvance(events: seq<Event>, n: nat, key: Key)
    requires CanRun(events) && NoneOverwrites(events) && n <= |events|
    requires Stored(Run(events[..n]).db, key).Some?
    ensures Stored(Run(events).db, key).Some? && Follows(Stored(Run(events[..n]).db, key).value, Stored(Run(events).db, key).value)
    decreases |events|
  {
    hide Fresh, Overwrites, Next, Stored, Can, NoneOverwrites, Record.Key, Record.Version, Record.Final;
    if n == |events| {
      assert events[..n] == events;
    } else {
      var front, e := events[..|events| - 1], events[|events| - 1];
      assert front[..n] == events[..n];
      NoneOverwritesFront(events);
      RecordsOnlyAdvance(front, n, key);
      RunIsFresh(front);
      StepFollows(Run(front), e, key);
    }
  }

  // ----- What an overwriting request can do -----

  const NEW_DEVICE := Device("d", "n", "s", "m", Pending, None, 0, 1, 1, 1)

  // One client asks for the status its copy already has; before it writes, another retires the device.
  const OVERWRITING: seq<Event> := [
    Register(OfDevice(NEW_DEVICE)),
    Read(1, DeviceKey("d"), MoveDevice(Pending)),
    Read(2, DeviceKey("d"), MoveDevice(Retired)),
    Write(2, 5),
    Write(1, 6)]

  lemma RunStep(events: seq<Event>, k: nat)
    requires k < |events|
    ensures Run(events[..k + 1]) == Next(Run(events[..k]), events[k])
    ensures CanRun(events[..k + 1]) <==> CanRun(events[..k]) && Can(Run(events[..k]), events[k])
  {
    hide Can, Next;
    assert events[..k + 1][..k] == events[..k];
  }

  function Registered(d: Device, clients: map<nat, Held>): World {
    World(EMPTY.(devices := map["d" := d]), clients)
  }

  function Copy(to: DeviceStatus): Held {
    Held(DeviceKey("d"), OfDevice(NEW_DEVICE), MoveDevice(to))
  }

  function RetiredDevice(): Device {
    NEW_DEVICE.(status := Retired, version := 2, updatedAt := 5)
  }

  lemma BothRead()
    ensures CanRun(OVERWRITING[..3]) && Run(OVERWRITING[..3]) == Registered(NEW_DEVICE, map[1 := Copy(Pending), 2 := Copy(Retired)])
  {
    RunStep(OVERWRITING, 0);
    RunStep(OVERWRITING, 1);
    RunStep(OVERWRITING, 2);
  }

  lemma OtherRetires()
    ensures CanRun(OVERWRITING[..4]) && Run(OVERWRITING[..4]) == Registered(RetiredDevice(), map[1 := Copy(Pending)])
  {
    BothRead();
    RunStep(OVERWRITING, 3);
    hide Run, CanRun;
  }

  /** A retired device comes back, at its first version. */
  lemma RetiredMayReturn()
    ensures CanRun(OVERWRITING)
    ensures Stored(Run(OVERWRITING[..4]).db, DeviceKey("d")) == Some(OfDevice(RetiredDevice()))
    ensures Stored(Run(OVERWRITING).db, DeviceKey("d")) == Some(OfDevice(NEW_DEVICE))
  {
    OtherRetires();
    RunStep(OVERWRITING, 4);
    assert OVERWRITING[..5] == OVERWRITING;
    hide Run, CanRun;
  }
}
