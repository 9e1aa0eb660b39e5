/** The service object: every call as the source performs it, proved to do what Calls says. */
module Service {
  import opened Basics
  import opened Decimal
  import opened Domain
  import opened Store
  import opened Telemetry
  import opened Calls
  import opened Invariant
  import opened IncidentFacts
  import opened Linkage
  import opened Evaluation
  import opened Runs
  import opened Draining
  import opened Happenings
  import opened Guarantees
  import opened Sampling
  import opened Answers

  // ----- What surrounds the service -----

  /** A clock whose readings never go back. */
  class Clock {
    var time: int

    method Now() returns (t: int)
      modifies this
      ensures old(time) <= t == time
    {
      var passed: nat :| passed >= 0;
      time := time + passed;
      t := time;
    }
  }

  /** A request context, which may be done at any check; a worker's context is not done while its queue runs. */
  class Context {
    const steady: bool
    var done: bool

    method Live() returns (live: bool)
      modifies this
      ensures steady || live == !done
      ensures steady ==> live
      ensures old(done) ==> done
    {
      if steady {
        return true;
      }
      var cancelled: bool := *;
      done := done || cancelled;
      live := !done;
    }
  }

  datatype Job = Job(id: string, work: Work)

  function Works(jobs: seq<Job>): seq<Work> {
    seq(|jobs|, i requires 0 <= i < |jobs| => jobs[i].work)
  }

  class Queue {
    const capacity: nat
    const workers: nat
    var jobs: seq<Job>
    var inHand: seq<Job>
    var running: bool
    var nextId: uint64

    constructor (workerCount: int, buffer: int)
      ensures workers == (if workerCount < 1 then 1 else workerCount)
      ensures capacity == (if buffer < 1 then 16 else buffer)
      ensures jobs == [] && inHand == [] && !running && nextId == 0
    {
      workers := if workerCount < 1 then 1 else workerCount;
      capacity := if buffer < 1 then 16 else buffer;
      jobs, inHand, running, nextId := [], [], false, 0;
    }

    method Start()
      modifies this`running
      ensures running
    {
      running := true;
    }

    /** Appends a job, unless the queue is stopped or its buffer full; a full queue still uses up an identifier. */
    method Submit(work: Work) returns (r: Result<string>)
      modifies this`jobs, this`nextId
      ensures !running ==> r == Err(Stopped) && jobs == old(jobs) && nextId == old(nextId)
      ensures running ==> nextId == (old(nextId) + 1) % TWO_64
      ensures running && |old(jobs)| >= capacity ==> r == Err(Full) && jobs == old(jobs)
      ensures running && |old(jobs)| < capacity ==>
                r == Ok(NumberedId("job", nextId)) && jobs == old(jobs) + [Job(r.value, work)]
    {
      if !running {
        return Err(Stopped);
      }
      nextId := (nextId + 1) % TWO_64;
      var number := PrintUint64(nextId);
      var job := Job("job" + "-" + number, work);
      if |jobs| >= capacity {
        return Err(Full);
      }
      jobs := jobs + [job];
      return Ok(job.id);
    }

    /** A free worker receives the oldest job. */
    method Receive()
      requires jobs != [] && |inHand| < workers
      modifies this`jobs, this`inHand
      ensures jobs == old(jobs)[1..] && inHand == old(inHand) + [old(jobs)[0]]
    {
      inHand := inHand + [jobs[0]];
      jobs := jobs[1..];
    }

    /** A worker turns to the job in its hand. */
    method Take(slot: nat) returns (job: Job)
      requires slot < |inHand|
      modifies this`inHand
      ensures job == old(inHand)[slot] && inHand == Without(old(inHand), slot)
    {
      job := inHand[slot];
      inHand := inHand[..slot] + inHand[slot + 1..];
    }
  }

  // The result of a call whose last step was a write.
  function Settled<T>(out: Outcome, value: T): Result<T> {
    match out
    case Done => Ok(value)
    case Failed(e) => Err(e)
  }

  // ----- The service -----

  class App {
    const repo: Memory
    const clock: Clock
    const queue: Queue
    var sequence: nat
    ghost var refused: set<Work>

    ghost function S(): State
      reads this, repo, clock, queue
    {
      State(repo.View(), sequence, clock.time, Works(queue.jobs), Works(queue.inHand),
            queue.capacity, queue.workers, queue.running, refused)
    }

    ghost predicate Valid()
      reads this, repo, clock, queue
    {
      Inv(S())
    }

    constructor (repo: Memory, clock: Clock, queue: Queue)
      requires repo.View() == EMPTY && clock.time > TEN_MINUTES && queue.jobs == [] && queue.inHand == []
      ensures this.repo == repo && this.clock == clock && this.queue == queue
      ensures Valid() && Initial(S())
    {
      this.repo, this.clock, this.queue := repo, clock, queue;
      sequence := 0;
      refused := {};
      new;
      InitialIsOk(S());
    }

    method NextId(prefix: string) returns (id: string)
      modifies this`sequence
      ensures sequence == old(sequence) + 1 && id == NumberedId(prefix, sequence)
    {
      sequence := sequence + 1;
      id := NumberedId(prefix, sequence);
    }

    method Submit(work: Work)
      modifies this`refused, queue`jobs, queue`nextId
      ensures S() == Calls.Submit(old(S()), work)
    {
      var r := queue.Submit(work);
      if r.Err? {
        refused := refused + {work};
      }
    }

    // ----- Devices and streams -----

    method CreateDevice(ctx: Context, id: string, name: string, site: string, model: string) returns (r: Result<Device>, ghost at: int)
      requires Valid()
      modifies repo, clock, ctx
      ensures Valid() && old(clock.time) <= at <= clock.time
      ensures repo.View() == if r == Err(ContextDone) then old(repo.View()) else AfterCreateDevice(old(repo.View()), id, name, site, model, at)
      ensures r.Ok? ==> id !in old(repo.devices) && repo.devices == old(repo.devices)[id := r.value]
      ensures r != Err(ContextDone) ==>
                r == if Blank(id) || Blank(name) || Blank(site) || Blank(model) then Err(Invalid)
                     else if id in old(repo.devices) then Err(Exists)
                     else Ok(Device(id, TrimSpace(name), TrimSpace(site), TrimSpace(model), Pending, None, 0, 1, at, at))
      ensures r.Err? ==> repo.View() == old(repo.View())
      ensures r == Err(ContextDone) ==> ctx.done && !ctx.steady
      ensures old(ctx.done) && !ctx.steady ==> r == Err(ContextDone)
    {
      hide Inv, Works, Blank;
      ghost var before := S();
      at := clock.time;
      var live := ctx.Live();
      if !live {
        NothingHappens(before, S());
        return Err(ContextDone), at;
      }
      var now := clock.Now();
      at := now;
      var made := NewDevice(id, name, site, model, now);
      r := made;
      if made.Ok? {
        var out := repo.PutDevice(made.value);
        r := Settled(out, made.value);
      }
      CreateDeviceHappens(before, id, name, site, model, at, S());
    }

    // The read-modify-write of a transition, once its context was found live.
    method MoveDevice(id: string, status: DeviceStatus) returns (r: Result<Device>, ghost at: int)
      requires id in repo.devices ==> repo.devices[id].id == id && repo.devices[id].version >= 1
      modifies repo`devices, clock
      ensures old(clock.time) <= at <= clock.time && r != Err(ContextDone)
      ensures id in old(repo.devices) && old(repo.devices)[id].status != status ==>
                var d := old(repo.devices)[id];
                r == if DeviceMayGo(d.status, status) then Ok(d.(status := status, version := d.version + 1, updatedAt := at)) else Err(Invalid)
      ensures id !in old(repo.devices) ==> r == Err(NotFound)
      ensures id in old(repo.devices) && old(repo.devices)[id].status == status ==>
                r == if old(repo.devices)[id].version == 1 then Ok(old(repo.devices)[id]) else Err(Conflict)
      ensures repo.View() == AfterTransitionDevice(old(repo.View()), id, status, at)
      ensures r.Ok? ==> repo.devices == old(repo.devices)[id := r.value] && r.value.status == status
      ensures r.Err? ==> repo.View() == old(repo.View())
    {
      at := clock.time;
      var device := repo.GetDevice(id);
      r := device;
      if device.Ok? {
        var now := clock.Now();
        at := now;
        r := device.value.Transition(status, now);
        if r.Ok? {
          var out := repo.UpdateDevice(r.value, r.value.version - 1);
          r := Settled(out, r.value);
        }
      }
    }

    method TransitionDevice(ctx: Context, id: string, status: DeviceStatus) returns (r: Result<Device>, ghost at: int)
      requires Valid()
      modifies repo, clock, ctx
      ensures Valid() && old(clock.time) <= at <= clock.time
      ensures repo.View() == if r == Err(ContextDone) then old(repo.View()) else AfterTransitionDevice(old(repo.View()), id, status, at)
      ensures id !in old(repo.devices) ==> r == Err(NotFound) || r == Err(ContextDone)
      ensures r != Err(ContextDone) && id in old(repo.devices) && old(repo.devices)[id].status == status ==>
                r == if old(repo.devices)[id].version == 1 then Ok(old(repo.devices)[id]) else Err(Conflict)
      ensures r != Err(ContextDone) && id in old(repo.devices) && old(repo.devices)[id].status != status ==>
                var d := old(repo.devices)[id];
                r == if DeviceMayGo(d.status, status) then Ok(d.(status := status, version := d.version + 1, updatedAt := at)) else Err(Invalid)
      ensures r.Ok? ==> repo.devices == old(repo.devices)[id := r.value] && r.value.status == status
      ensures r.Err? ==> repo.View() == old(repo.View())
      ensures r == Err(ContextDone) ==> ctx.done && !ctx.steady
      ensures old(ctx.done) && !ctx.steady ==> r == Err(ContextDone)
    {
      hide Inv, Works, AfterTransitionDevice;
      KeysAreIds(S());
      ghost var before := S();
      at := clock.time;
      var live := ctx.Live();
      if !live {
        return Err(ContextDone), at;
      }
      r, at := MoveDevice(id, status);
      TransitionDeviceHappens(before, id, status, at, S());
    }

    // A touch as an ingestion makes it; live tells whether the context check passed.
    method TouchStored(ctx: Context, id: string, seen: int) returns (out: Outcome, ghost live: bool, ghost at: int)
      requires id in repo.devices ==> repo.devices[id].id == id && repo.devices[id].version >= 1
      modifies repo`devices, clock, ctx
      ensures old(clock.time) <= at <= clock.time
      ensures repo.View() == if live then AfterTouch(old(repo.View()), id, seen, at) else old(repo.View())
      ensures ctx.steady ==> live
      ensures !live ==> out == Failed(ContextDone) && ctx.done && !ctx.steady && clock.time == old(clock.time)
      ensures old(ctx.done) && !ctx.steady ==> !live
      ensures live ==> out == if id !in old(repo.devices) then Failed(NotFound) else if old(repo.devices)[id].status == Retired then Failed(Invalid) else Done
      ensures out == Done ==>
                var d := old(repo.devices)[id];
                repo.devices == old(repo.devices)[id := d.(lastSeenAt := Some(seen), failureCount := 0, version := d.version + 1, updatedAt := at)]
      ensures out.Failed? ==> repo.View() == old(repo.View())
    {
      at := clock.time;
      var ready := ctx.Live();
      live := ready;
      if !ready {
        return Failed(ContextDone), live, at;
      }
      var device := repo.GetDevice(id);
      if device.Err? {
        return Failed(device.error), live, at;
      }
      if device.value.status == Retired {
        return Failed(Invalid), live, at;
      }
      var now := clock.Now();
      var touched := device.value.(lastSeenAt := Some(seen), failureCount := 0, version := device.value.version + 1, updatedAt := now);
      out := repo.UpdateDevice(touched, touched.version - 1);
      at := now;
    }

    method TouchDevice(ctx: Context, id: string, seen: int) returns (out: Outcome, ghost at: int)
      requires Valid()
      modifies repo`devices, clock, ctx
      ensures Valid() && old(clock.time) <= at <= clock.time
      ensures repo.View() == if out == Failed(ContextDone) then old(repo.View()) else AfterTouch(old(repo.View()), id, seen, at)
      ensures out == Failed(ContextDone) ==> ctx.done && !ctx.steady
      ensures old(ctx.done) && !ctx.steady ==> out == Failed(ContextDone)
      ensures out != Failed(ContextDone) ==>
                out == if id !in old(repo.devices) then Failed(NotFound) else if old(repo.devices)[id].status == Retired then Failed(Invalid) else Done
      ensures out == Done ==>
                var d := old(repo.devices)[id];
                repo.devices == old(repo.devices)[id := d.(lastSeenAt := Some(seen), failureCount := 0, version := d.version + 1, updatedAt := at)]
    {
      hide Inv, Works, AfterTouch;
      KeysAreIds(S());
      ghost var before := S();
      ghost var live;
      out, live, at := TouchStored(ctx, id, seen);
      if live {
        TouchDeviceHappens(before, id, seen, at, S());
      }
    }

    method CreateStream(ctx: Context, id: string, deviceId: string, name: string, signal: string, unit: string, period: int)
      returns (r: Result<Stream>, ghost at: int)
      requires Valid()
      modifies repo, clock, ctx
      ensures Valid() && old(clock.time) <= at <= clock.time
      ensures repo.View() == if r == Err(ContextDone) then old(repo.View())
                             else AfterCreateStream(old(repo.View()), Act.CreateStream(id, deviceId, name, signal, unit, period, at))
      ensures r.Ok? ==> id !in old(repo.streams) && repo.streams == old(repo.streams)[id := r.value]
      ensures r != Err(ContextDone) ==>
                r == if deviceId !in old(repo.devices) then Err(NotFound)
                     else if Blank(id) || Blank(deviceId) || Blank(name) || Blank(signal) || period <= 0 then Err(Invalid)
                     else if id in old(repo.streams) then Err(Exists)
                     else Ok(Stream(id, deviceId, TrimSpace(name), TrimSpace(signal), TrimSpace(unit), period, Active, 1, at, at))
      ensures r.Err? ==> repo.View() == old(repo.View())
      ensures r == Err(ContextDone) ==> ctx.done && !ctx.steady
      ensures old(ctx.done) && !ctx.steady ==> r == Err(ContextDone)
    {
      hide Inv, Works, Blank;
      ghost var before := S();
      at := clock.time;
      var live := ctx.Live();
      if !live {
        NothingHappens(before, S());
        return Err(ContextDone), at;
      }
      var device := repo.GetDevice(deviceId);
      if device.Err? {
        r := Err(device.error);
      } else {
        var now := clock.Now();
        at := now;
        r := NewStream(id, deviceId, name, signal, unit, period, now);
        if r.Ok? {
          var out := repo.PutStream(r.value);
          r := Settled(out, r.value);
        }
      }
      CreateStreamHappens(before, Act.CreateStream(id, deviceId, name, signal, unit, period, at), S());
    }

    // The read-modify-write of a transition, once its context was found live.
    method MoveStream(id: string, status: StreamStatus) returns (r: Result<Stream>, ghost at: int)
      requires id in repo.streams ==> repo.streams[id].id == id && repo.streams[id].version >= 1 && !repo.streams[id].status.OtherStreamStatus?
      modifies repo`streams, clock
      ensures old(clock.time) <= at <= clock.time && r != Err(ContextDone)
      ensures id in old(repo.streams) && old(repo.streams)[id].status != status ==>
                var x := old(repo.streams)[id];
                r == if StreamMayGo(x.status, status) then Ok(x.(status := status, version := x.version + 1, updatedAt := at)) else Err(Invalid)
      ensures id !in old(repo.streams) ==> r == Err(NotFound)
      ensures id in old(repo.streams) && old(repo.streams)[id].status == status ==>
                r == if old(repo.streams)[id].version == 1 then Ok(old(repo.streams)[id]) else Err(Conflict)
      ensures repo.View() == AfterTransitionStream(old(repo.View()), id, status, at)
      ensures r.Ok? ==> repo.streams == old(repo.streams)[id := r.value] && r.value.status == status
      ensures r.Err? ==> repo.View() == old(repo.View())
    {
      at := clock.time;
      var stream := repo.GetStream(id);
      r := stream;
      if stream.Ok? {
        var now := clock.Now();
        at := now;
        r := stream.value.Transition(status, now);
        if r.Ok? {
          var out := repo.UpdateStream(r.value, r.value.version - 1);
          r := Settled(out, r.value);
        }
      }
    }

    method TransitionStream(ctx: Context, id: string, status: StreamStatus) returns (r: Result<Stream>, ghost at: int)
      requires Valid()
      modifies repo, clock, ctx
      ensures Valid() && old(clock.time) <= at <= clock.time
      ensures repo.View() == if r == Err(ContextDone) then old(repo.View()) else AfterTransitionStream(old(repo.View()), id, status, at)
      ensures id !in old(repo.streams) ==> r == Err(NotFound) || r == Err(ContextDone)
      ensures r != Err(ContextDone) && id in old(repo.streams) && old(repo.streams)[id].status == status ==>
                r == if old(repo.streams)[id].version == 1 then Ok(old(repo.streams)[id]) else Err(Conflict)
      ensures r != Err(ContextDone) && id in old(repo.streams) && old(repo.streams)[id].status != status ==>
                var x := old(repo.streams)[id];
                r == if StreamMayGo(x.status, status) then Ok(x.(status := status, version := x.version + 1, updatedAt := at)) else Err(Invalid)
      ensures r.Ok? ==> repo.streams == old(repo.streams)[id := r.value] && r.value.status == status
      ensures r.Err? ==> repo.View() == old(repo.View())
      ensures r == Err(ContextDone) ==> ctx.done && !ctx.steady
      ensures old(ctx.done) && !ctx.steady ==> r == Err(ContextDone)
    {
      hide Inv, Works, AfterTransitionStream;
      KeysAreIds(S());
      ghost var before := S();
      at := clock.time;
      var live := ctx.Live();
      if !live {
        return Err(ContextDone), at;
      }
      r, at := MoveStream(id, status);
      TransitionStreamHappens(before, id, status, at, S());
    }

    // ----- Policies -----

    // Creating, once the context was found live.
    method DraftPolicy(actor: string, input: PolicyInput) returns (r: Result<Policy>, ghost at: int)
      modifies repo`policies, clock
      ensures old(clock.time) <= at <= clock.time
      ensures repo.View() == AfterCreatePolicy(old(repo.View()), actor, input, at)
      ensures r.Ok? ==> repo.policies == old(repo.policies)[input.id := r.value]
      ensures r.Err? ==> repo.View() == old(repo.View())
      ensures r == if input.deviceId !in old(repo.devices) then Err(NotFound)
                   else if old(repo.devices)[input.deviceId].status == Retired || !PolicyIsSound(input) then Err(Invalid)
                   else if input.id in old(repo.policies) then Err(Exists)
                   else Ok(Policy(input.id, TrimSpace(input.name), input.deviceId, input.version, Draft, input.from, None, input.rules,
                                  input.maxRetries, actor, at, at))
    {
      hide Blank, TrimSpace;
      at := clock.time;
      var device := repo.GetDevice(input.deviceId);
      if device.Err? {
        return Err(device.error), at;
      }
      if device.value.status == Retired {
        return Err(Invalid), at;
      }
      var now := clock.Now();
      at := now;
      r := NewPolicy(input.id, input.name, input.deviceId, actor, input.version, input.rules, input.maxRetries, input.from, now);
      if r.Ok? {
        var out := repo.PutPolicy(r.value);
        r := Settled(out, r.value);
      }
    }

    method CreatePolicy(ctx: Context, actor: string, input: PolicyInput) returns (r: Result<Policy>, ghost at: int)
      requires Valid()
      modifies repo, clock, ctx
      ensures Valid() && old(clock.time) <= at <= clock.time
      ensures repo.View() == if r == Err(ContextDone) then old(repo.View()) else AfterCreatePolicy(old(repo.View()), actor, input, at)
      ensures r.Ok? ==> input.id !in old(repo.policies) && repo.policies == old(repo.policies)[input.id := r.value]
      ensures r != Err(ContextDone) ==>
                r == if input.deviceId !in old(repo.devices) then Err(NotFound)
                     else if old(repo.devices)[input.deviceId].status == Retired || !PolicyIsSound(input) then Err(Invalid)
                     else if input.id in old(repo.policies) then Err(Exists)
                     else Ok(Policy(input.id, TrimSpace(input.name), input.deviceId, input.version, Draft, input.from, None, input.rules,
                                    input.maxRetries, actor, at, at))
      ensures r.Err? ==> repo.View() == old(repo.View())
      ensures r == Err(ContextDone) ==> ctx.done && !ctx.steady
      ensures old(ctx.done) && !ctx.steady ==> r == Err(ContextDone)
    {
      hide Inv, Works, Blank, PolicyIsSound, AfterCreatePolicy;
      ghost var before := S();
      at := clock.time;
      var live := ctx.Live();
      if !live {
        NothingHappens(before, S());
        return Err(ContextDone), at;
      }
      r, at := DraftPolicy(actor, input);
      CreatePolicyHappens(before, actor, input, at, S());
    }

    // Publishing, once the context was found live: a scan, then the policy's own change, each with a reading.
    method ReleasePolicy(id: string) returns (r: Result<Policy>, ghost scanned: int, ghost found: Option<string>, ghost at: int)
      requires id in repo.policies ==> repo.policies[id].id == id && repo.policies[id].deviceId != ""
      modifies repo`policies, clock
      ensures old(clock.time) <= scanned <= at <= clock.time && r != Err(ContextDone)
      ensures id in old(repo.policies) ==> old(repo.View()).MayBeActive(old(repo.policies)[id].deviceId, scanned, found)
      ensures repo.View() == AfterPublish(old(repo.View()), id, found, at)
      ensures r.Err? ==> r.error == if id in old(repo.policies) then Invalid else NotFound
      ensures id in old(repo.policies) ==>
                var p := old(repo.policies)[id];
                r == if p.status == Draft && forall other | other in old(repo.policies) && old(repo.policies)[other].deviceId == p.deviceId && InEffect(old(repo.policies)[other], scanned) ::
                                               old(repo.policies)[other].version < p.version
                     then Ok(p.(status := Published, effectiveFrom := if p.effectiveFrom == 0 then at else p.effectiveFrom, updatedAt := at))
                     else Err(Invalid)
      ensures r.Ok? ==> repo.policies == old(repo.policies)[id := r.value]
      ensures r.Err? ==> repo.View() == old(repo.View())
    {
      hide Db.MayBeActive;
      scanned, found, at := clock.time, None, clock.time;
      var policy := repo.GetPolicy(id);
      r := policy;
      if policy.Ok? {
        var first := clock.Now();
        scanned, at := first, first;
        var current;
        current, found := repo.ActivePolicy(policy.value.deviceId, first);
        ScanIsStored(repo.View(), policy.value.deviceId, first, found);
        NewestIsFound(repo.View(), policy.value.deviceId, first, found, policy.value.version);
        if current.Ok? && current.value.version >= policy.value.version {
          r := Err(Invalid);
        } else {
          var now := clock.Now();
          at := now;
          r := policy.value.Publish(now);
          if r.Ok? {
            var out := repo.UpdatePolicy(r.value, r.value.version);
            r := Settled(out, r.value);
          }
        }
      }
    }

    method PublishPolicy(ctx: Context, id: string) returns (r: Result<Policy>, ghost scanned: int, ghost found: Option<string>, ghost at: int)
      requires Valid()
      modifies repo, clock, ctx
      ensures Valid() && old(clock.time) <= scanned <= at <= clock.time
      ensures r != Err(ContextDone) && id in old(repo.policies) ==>
                old(repo.View()).MayBeActive(old(repo.policies)[id].deviceId, scanned, found)
      ensures repo.View() == if r == Err(ContextDone) then old(repo.View()) else AfterPublish(old(repo.View()), id, found, at)
      ensures r.Err? ==> r.error == ContextDone || r.error == if id in old(repo.policies) then Invalid else NotFound
      ensures r != Err(ContextDone) && id in old(repo.policies) ==>
                var p := old(repo.policies)[id];
                r == if p.status == Draft && forall other | other in old(repo.policies) && old(repo.policies)[other].deviceId == p.deviceId && InEffect(old(repo.policies)[other], scanned) ::
                                               old(repo.policies)[other].version < p.version
                     then Ok(p.(status := Published, effectiveFrom := if p.effectiveFrom == 0 then at else p.effectiveFrom, updatedAt := at))
                     else Err(Invalid)
      ensures r.Ok? ==> repo.policies == old(repo.policies)[id := r.value]
      ensures r.Err? ==> repo.View() == old(repo.View())
      ensures r == Err(ContextDone) ==> ctx.done && !ctx.steady
      ensures old(ctx.done) && !ctx.steady ==> r == Err(ContextDone)
    {
      hide Inv, Works, AfterPublish, Db.MayBeActive;
      KeysAreIds(S());
      ghost var before := S();
      scanned, found, at := clock.time, None, clock.time;
      var live := ctx.Live();
      if !live {
        return Err(ContextDone), scanned, found, at;
      }
      r, scanned, found, at := ReleasePolicy(id);
      PublishPolicyHappens(before, id, scanned, found, at, S());
    }

    method LockPolicy(ctx: Context, id: string) returns (r: Result<Policy>, ghost at: int)
      requires Valid()
      modifies repo, clock, ctx
      ensures Valid() && old(clock.time) <= at <= clock.time
      ensures repo.View() == if r == Err(ContextDone) then old(repo.View()) else AfterLock(old(repo.View()), id, at)
      ensures r.Err? ==> r.error == ContextDone || r.error == if id in old(repo.policies) then Invalid else NotFound
      ensures r != Err(ContextDone) ==>
                r == if id !in old(repo.policies) then Err(NotFound)
                     else if old(repo.policies)[id].status == Published then Ok(old(repo.policies)[id].(status := Locked, updatedAt := at))
                     else Err(Invalid)
      ensures r.Ok? ==> repo.policies == old(repo.policies)[id := r.value]
      ensures r.Err? ==> repo.View() == old(repo.View())
      ensures r == Err(ContextDone) ==> ctx.done && !ctx.steady
      ensures old(ctx.done) && !ctx.steady ==> r == Err(ContextDone)
    {
      hide Inv, Works;
      KeysAreIds(S());
      ghost var before := S();
      at := clock.time;
      var live := ctx.Live();
      if !live {
        NothingHappens(before, S());
        return Err(ContextDone), at;
      }
      var policy := repo.GetPolicy(id);
      r := policy;
      if policy.Ok? {
        var now := clock.Now();
        at := now;
        r := policy.value.Lock(now);
        if r.Ok? {
          var out := repo.UpdatePolicy(r.value, r.value.version);
          r := Settled(out, r.value);
        }
      }
      LockPolicyHappens(before, id, at, S());
    }

    // ----- Incidents and evidence -----

    // The gated read-modify-write of a transition, once its context was found live.
    method MoveIncident(id: string, status: IncidentStatus) returns (r: Result<Incident>, ghost at: int)
      requires id in repo.incidents ==> repo.incidents[id].id == id && Known(repo.incidents[id])
      modifies repo`incidents, clock
      ensures old(clock.time) <= at <= clock.time && r != Err(ContextDone)
      ensures r.Err? ==> r.error == if id in old(repo.incidents) then Invalid else NotFound
      ensures repo.View() == AfterTransitionIncident(old(repo.View()), id, status, at)
      ensures r == if id !in old(repo.incidents) then Err(NotFound)
                   else if IncidentMayGo(old(repo.incidents)[id], status) then Ok(IncidentGone(old(repo.incidents)[id], status, at)) else Err(Invalid)
      ensures r.Ok? ==> repo.incidents == old(repo.incidents)[id := r.value]
      ensures r.Err? ==> repo.View() == old(repo.View())
    {
      at := clock.time;
      r := repo.GetIncident(id);
      if r.Ok? {
        if status == Closed && !r.value.ReadyToClose() {
          r := Err(Invalid);
        } else {
          var now := clock.Now();
          at := now;
          r := r.value.Transition(status, now);
          if r.Ok? {
            var out := repo.UpdateIncident(r.value);
            r := Settled(out, r.value);
          }
        }
      }
    }

    method TransitionIncident(ctx: Context, id: string, status: IncidentStatus) returns (r: Result<Incident>, ghost at: int)
      requires Valid()
      modifies repo, clock, ctx
      ensures Valid() && old(clock.time) <= at <= clock.time
      ensures repo.View() == if r == Err(ContextDone) then old(repo.View()) else AfterTransitionIncident(old(repo.View()), id, status, at)
      ensures r.Err? ==> r.error == ContextDone || r.error == if id in old(repo.incidents) then Invalid else NotFound
      ensures r != Err(ContextDone) ==>
                r == if id !in old(repo.incidents) then Err(NotFound)
                     else if IncidentMayGo(old(repo.incidents)[id], status) then Ok(IncidentGone(old(repo.incidents)[id], status, at)) else Err(Invalid)
      ensures r.Ok? ==> repo.incidents == old(repo.incidents)[id := r.value]
      ensures r.Err? ==> repo.View() == old(repo.View())
      ensures r == Err(ContextDone) ==> ctx.done && !ctx.steady
      ensures old(ctx.done) && !ctx.steady ==> r == Err(ContextDone)
    {
      hide Inv, Works, AfterTransitionIncident;
      IncidentsAreKnown(S());
      ghost var before := S();
      at := clock.time;
      var live := ctx.Live();
      if !live {
        return Err(ContextDone), at;
      }
      r, at := MoveIncident(id, status);
      TransitionIncidentHappens(before, id, status, at, S());
    }

    // Stores an item and attaches it to the incident as it was read.
    method StoreEvidence(incident: Incident, item: Evidence) returns (r: Result<Evidence>, ghost attached: int)
      requires incident.id in repo.incidents && ListsStored(incident, repo.actions, repo.evidence)
      modifies repo`evidence, repo`incidents, clock
      ensures old(clock.time) <= attached <= clock.time
      ensures repo.View() == AttachedEvidence(old(repo.View()), incident, item, attached)
      ensures r == if item.id in old(repo.evidence) then Err(Exists) else Ok(item)
      ensures r.Ok? ==> repo.evidence == old(repo.evidence)[item.id := item]
      ensures r.Ok? ==> repo.incidents == old(repo.incidents)[incident.id := Listing(incident, [], [item.id], attached)]
      ensures r.Err? ==> repo.View() == old(repo.View())
      ensures r != Err(ContextDone)
    {
      attached := clock.time;
      var out := repo.PutEvidence(item);
      r := Settled(out, item);
      if out == Done {
        var now := clock.Now();
        attached := now;
        AttachingLists(incident, item.id, now);
        var updated := incident.AttachEvidence(item.id, now).Or(incident);
        out := repo.UpdateIncident(updated);
      }
    }

    // What AddEvidence does once its context is found alive.
    method GatherEvidence(incidentId: string, input: EvidenceInput) returns (r: Result<Evidence>, ghost at: int, ghost attached: int)
      requires incidentId in repo.incidents ==>
                 repo.incidents[incidentId].id == incidentId && ListsStored(repo.incidents[incidentId], repo.actions, repo.evidence)
      modifies repo`evidence, repo`incidents, clock
      ensures old(clock.time) <= at <= attached <= clock.time && r != Err(ContextDone)
      ensures repo.View() == AfterAddEvidence(old(repo.View()), incidentId, input, at, attached)
      ensures r == if incidentId !in old(repo.incidents) then Err(NotFound)
                     else if old(repo.incidents)[incidentId].status == Closed || Blank(input.id) || Blank(incidentId) || Blank(input.title)
                             || Blank(input.body) || input.kind.OtherEvidenceKind? then Err(Invalid)
                     else if input.id in old(repo.evidence) then Err(Exists)
                     else Ok(Evidence(input.id, incidentId, input.kind, TrimSpace(input.title), input.body, TrimSpace(input.source), at))
      ensures r.Ok? ==> input.id !in old(repo.evidence) && repo.evidence == old(repo.evidence)[input.id := r.value]
      ensures r.Ok? ==> repo.incidents == old(repo.incidents)[incidentId := Listing(old(repo.incidents)[incidentId], [], [input.id], attached)]
      ensures incidentId !in old(repo.incidents) ==> r == Err(NotFound)
      ensures r.Err? ==> repo.View() == old(repo.View())
    {
      hide Works, Blank, TrimSpace, AttachedEvidence;
      at, attached := clock.time, clock.time;
      var incident := repo.GetIncident(incidentId);
      if incident.Err? {
        return Err(incident.error), at, attached;
      }
      if incident.value.status == Closed {
        return Err(Invalid), at, attached;
      }
      var now := clock.Now();
      at, attached := now, now;
      r := NewEvidence(input.id, incidentId, input.kind, input.title, input.body, input.source, now);
      if r.Ok? {
        r, attached := StoreEvidence(incident.value, r.value);
      }
    }

    method AddEvidence(ctx: Context, incidentId: string, input: EvidenceInput) returns (r: Result<Evidence>, ghost at: int, ghost attached: int)
      requires Valid()
      modifies repo, clock, ctx
      ensures Valid() && old(clock.time) <= at <= attached <= clock.time
      ensures repo.View() == if r == Err(ContextDone) then old(repo.View()) else AfterAddEvidence(old(repo.View()), incidentId, input, at, attached)
      ensures r != Err(ContextDone) ==>
                r == if incidentId !in old(repo.incidents) then Err(NotFound)
                     else if old(repo.incidents)[incidentId].status == Closed || Blank(input.id) || Blank(incidentId) || Blank(input.title)
                             || Blank(input.body) || input.kind.OtherEvidenceKind? then Err(Invalid)
                     else if input.id in old(repo.evidence) then Err(Exists)
                     else Ok(Evidence(input.id, incidentId, input.kind, TrimSpace(input.title), input.body, TrimSpace(input.source), at))
      ensures r.Ok? ==> input.id !in old(repo.evidence) && repo.evidence == old(repo.evidence)[input.id := r.value]
      ensures r.Ok? ==> repo.incidents == old(repo.incidents)[incidentId := Listing(old(repo.incidents)[incidentId], [], [input.id], attached)]
      ensures incidentId !in old(repo.incidents) ==> r == Err(NotFound) || r == Err(ContextDone)
      ensures r.Err? ==> repo.View() == old(repo.View())
      ensures r == Err(ContextDone) ==> ctx.done && !ctx.steady
      ensures old(ctx.done) && !ctx.steady ==> r == Err(ContextDone)
    {
      hide Inv, Works, AfterAddEvidence;
      IncidentsAreKnown(S());
      ghost var before := S();
      at, attached := clock.time, clock.time;
      var live := ctx.Live();
      if !live {
        NothingHappens(before, S());
        return Err(ContextDone), at, attached;
      }
      r, at, attached := GatherEvidence(incidentId, input);
      AddEvidenceHappens(before, incidentId, input, at, attached, S());
    }

    method Snapshot(incidentId: string) returns (r: Result<Evidence>, ghost at: int, ghost attached: int)
      requires incidentId in repo.incidents ==>
                 && repo.incidents[incidentId].id == incidentId && !Blank(incidentId)
                 && ListsStored(repo.incidents[incidentId], repo.actions, repo.evidence)
      modifies this`sequence, repo`evidence, repo`incidents, clock
      ensures old(clock.time) <= at <= attached <= clock.time && r != Err(ContextDone)
      ensures S() == AfterRollup(old(S()), incidentId, at, attached).(now := clock.time)
      ensures (r.Ok? <==> incidentId in old(repo.incidents) && NumberedId("evidence", old(sequence) + 1) !in old(repo.evidence))
      ensures r.Ok? ==>
                && r.value.id == NumberedId("evidence", old(sequence) + 1) && r.value.incidentId == incidentId && r.value.kind == DeviceSnapshot && r.value.createdAt == at
                && var i := old(repo.incidents)[incidentId];
                   r.value.body == "incident=" + incidentId + "; anomalies=" + Digits(|i.anomalyIds|) + "; actions=" + Digits(|i.actionIds|)
      ensures r.Ok? ==> r.value.id !in old(repo.evidence) && repo.evidence == old(repo.evidence)[r.value.id := r.value]
      ensures r.Ok? ==> repo.incidents == old(repo.incidents)[incidentId := Listing(old(repo.incidents)[incidentId], [], [r.value.id], attached)]
      ensures r.Err? ==> repo.View() == old(repo.View())
      ensures incidentId !in old(repo.incidents) ==> r == Err(NotFound)
    {
      hide Works, Blank, TrimSpace, NumberedId, AttachedEvidence, Db.PutEvidence, Incident.AttachEvidence;
      at, attached := clock.time, clock.time;
      var incident := repo.GetIncident(incidentId);
      if incident.Err? {
        return Err(incident.error), at, attached;
      }
      ghost var before := S();
      var id := NextId("evidence");
      var now := clock.Now();
      at, attached := now, now;
      SnapshotIsMade(before, incidentId, now);
      r := NewEvidence(id, incidentId, DeviceSnapshot, "Automatic incident snapshot", RollupBody(incident.value), "orbit-rollup", now);
      if r.Ok? {
        r, attached := StoreEvidence(incident.value, r.value);
      }
    }

    method RollupEvidence(ctx: Context, incidentId: string) returns (r: Result<Evidence>, ghost at: int, ghost attached: int)
      requires Valid()
      modifies this`sequence, repo, clock, ctx
      ensures Valid() && old(clock.time) <= at <= attached <= clock.time
      ensures S() == if r == Err(ContextDone) then old(S()) else AfterRollup(old(S()), incidentId, at, attached).(now := clock.time)
      ensures r != Err(ContextDone) ==>
                (r.Ok? <==> incidentId in old(repo.incidents) && NumberedId("evidence", old(sequence) + 1) !in old(repo.evidence))
      ensures r.Ok? ==>
                && r.value.id == NumberedId("evidence", old(sequence) + 1) && r.value.incidentId == incidentId && r.value.kind == DeviceSnapshot && r.value.createdAt == at
                && var i := old(repo.incidents)[incidentId];
                   r.value.body == "incident=" + incidentId + "; anomalies=" + Digits(|i.anomalyIds|) + "; actions=" + Digits(|i.actionIds|)
      ensures r.Ok? ==> r.value.id !in old(repo.evidence) && repo.evidence == old(repo.evidence)[r.value.id := r.value]
      ensures r.Ok? ==> repo.incidents == old(repo.incidents)[incidentId := Listing(old(repo.incidents)[incidentId], [], [r.value.id], attached)]
      ensures r.Err? ==> repo.View() == old(repo.View())
      ensures r == Err(ContextDone) ==> ctx.done && !ctx.steady
      ensures old(ctx.done) && !ctx.steady ==> r == Err(ContextDone)
    {
      hide Inv, Works, AfterRollup, Listing, ListsStored, Digits, NumberedId, Blank;
      IncidentsAreKnown(S());
      ghost var before := S();
      at, attached := clock.time, clock.time;
      var live := ctx.Live();
      if !live {
        return Err(ContextDone), at, attached;
      }
      r, at, attached := Snapshot(incidentId);
      RollupEvidenceHappens(before, incidentId, at, attached, S());
    }

    // ----- Actions -----

    method QueueAction(input: ActionInput) returns (r: Result<Action>, ghost at: int, ghost attached: int)
      requires input.incidentId in repo.incidents ==>
                 && repo.incidents[input.incidentId].id == input.incidentId && Known(repo.incidents[input.incidentId])
                 && ListsStored(repo.incidents[input.incidentId], repo.actions, repo.evidence)
      modifies this`refused, repo, clock, queue`jobs, queue`nextId
      ensures old(clock.time) <= at <= attached <= clock.time && r != Err(ContextDone)
      ensures S() == AfterCreateAction(old(S()), input, at, attached).(now := clock.time)
      ensures (r.Ok? <==>
                && input.incidentId in old(repo.incidents) && IsActionRequest(input)
                && input.idempotency !in old(repo.idempotency) && input.id !in old(repo.actions))
      ensures r.Ok? ==>
                && r.value == ActionFor(input, old(repo.incidents)[input.incidentId].deviceId, at)
                && repo.idempotency == old(repo.idempotency)[input.idempotency := input.id]
                && repo.incidents == old(repo.incidents)[input.incidentId := Listing(old(repo.incidents)[input.incidentId], [input.id], [], attached)]
                && S().jobs == if queue.running && |old(S()).jobs| < queue.capacity then old(S()).jobs + [Response(input.id)] else old(S()).jobs
      ensures r.Ok? ==> input.id !in old(repo.actions) && repo.actions == old(repo.actions)[input.id := r.value]
      ensures r.Err? ==> repo.View() == old(repo.View())
    {
      hide Works;
      at, attached := clock.time, clock.time;
      var incident := repo.GetIncident(input.incidentId);
      if incident.Err? {
        return Err(incident.error), at, attached;
      }
      var now := clock.Now();
      at, attached := now, now;
      var made := NewAction(input.id, input.incidentId, incident.value.deviceId, input.kind, input.maxAttempts, input.idempotency, input.reason, now);
      r := made;
      if made.Ok? {
        var out := repo.PutAction(made.value);
        r := Settled(out, made.value);
        if out == Done {
          var later := clock.Now();
          attached := later;
          AttachingLists(incident.value, made.value.id, later);
          var updated := incident.value.AttachAction(made.value.id, later).Or(incident.value);
          out := repo.UpdateIncident(updated);
          Submit(Response(made.value.id));
        }
      }
    }

    method CreateAction(ctx: Context, input: ActionInput) returns (r: Result<Action>, ghost at: int, ghost attached: int)
      requires Valid()
      modifies this`refused, repo, clock, queue`jobs, queue`nextId, ctx
      ensures Valid() && old(clock.time) <= at <= attached <= clock.time
      ensures S() == if r == Err(ContextDone) then old(S()) else AfterCreateAction(old(S()), input, at, attached).(now := clock.time)
      ensures r != Err(ContextDone) ==> (r.Ok? <==>
                && input.incidentId in old(repo.incidents) && IsActionRequest(input)
                && input.idempotency !in old(repo.idempotency) && input.id !in old(repo.actions))
      ensures r.Ok? ==>
                && r.value == ActionFor(input, old(repo.incidents)[input.incidentId].deviceId, at)
                && repo.idempotency == old(repo.idempotency)[input.idempotency := input.id]
                && repo.incidents == old(repo.incidents)[input.incidentId := Listing(old(repo.incidents)[input.incidentId], [input.id], [], attached)]
                && S().jobs == if queue.running && |old(S()).jobs| < queue.capacity then old(S()).jobs + [Response(input.id)] else old(S()).jobs
      ensures r.Ok? ==> input.id !in old(repo.actions) && repo.actions == old(repo.actions)[input.id := r.value]
      ensures r.Err? ==> repo.View() == old(repo.View())
      ensures r == Err(ContextDone) ==> ctx.done && !ctx.steady
      ensures old(ctx.done) && !ctx.steady ==> r == Err(ContextDone)
    {
      hide Inv, Works, AfterCreateAction;
      IncidentsAreKnown(S());
      ghost var before := S();
      at, attached := clock.time, clock.time;
      var live := ctx.Live();
      if !live {
        return Err(ContextDone), at, attached;
      }
      r, at, attached := QueueAction(input);
      CreateActionHappens(before, input, at, attached, S());
    }

    // One attempt at an action as it was read: both updates, and the job of a retry.
    method Attempt(action: Action) returns (r: Result<Action>, ghost at: int, ghost finished: int)
      requires action.id in repo.actions && repo.actions[action.id] == action && action.status != Succeeded && !action.kind.OtherActionType?
      modifies this`refused, repo`actions, clock, queue`jobs, queue`nextId
      ensures old(clock.time) <= at <= finished <= clock.time
      ensures S() == AfterExecute(old(S()), action.id, at, finished).(now := clock.time)
      ensures if MayRun(action) then r.Ok? && IsRun(action, r.value, finished) else r == Err(Invalid)
      ensures r.Ok? ==> repo.actions == old(repo.actions)[action.id := r.value]
      ensures S().jobs == if r.Ok? && IsRetried(action) && queue.running && |old(S()).jobs| < queue.capacity then old(S()).jobs + [Response(action.id)] else old(S()).jobs
      ensures r.Err? ==> repo.actions == old(repo.actions) && queue.jobs == old(queue.jobs)
    {
      hide Works;
      var now := clock.Now();
      at, finished := now, now;
      r := action.Start(now);
      if r.Ok? {
        var out := repo.UpdateAction(r.value);
        var (success, message) := r.value.Simulate();
        var later := clock.Now();
        finished := later;
        var done := r.value.Finish(success, message, later);
        out := repo.UpdateAction(done);
        r := Ok(done);
        if !success && done.CanRetry() {
          Submit(Response(done.id));
        }
      }
    }

    // An execution: a succeeded action is answered as it is.
    method RunAction(id: string) returns (r: Result<Action>, ghost at: int, ghost finished: int)
      requires id in repo.actions ==> repo.actions[id].id == id && !repo.actions[id].kind.OtherActionType?
      modifies this`refused, repo`actions, clock, queue`jobs, queue`nextId
      ensures old(clock.time) <= at <= finished <= clock.time && r != Err(ContextDone)
      ensures S() == AfterExecute(old(S()), id, at, finished).(now := clock.time)
      ensures (r.Ok? <==> id in old(repo.actions) && MayRun(old(repo.actions)[id]))
      ensures r.Ok? ==>
                var a := old(repo.actions)[id];
                if a.status == Succeeded then r.value == a && repo.View() == old(repo.View()) && S().jobs == old(S()).jobs
                else
                  && IsRun(a, r.value, finished) && repo.actions == old(repo.actions)[id := r.value]
                  && S().jobs == if IsRetried(a) && queue.running && |old(S()).jobs| < queue.capacity then old(S()).jobs + [Response(id)] else old(S()).jobs
      ensures r.Ok? ==> id in repo.actions && repo.actions[id] == r.value
      ensures r.Err? ==> r.error == (if id in old(repo.actions) then Invalid else NotFound)
      ensures r.Err? ==> repo.actions == old(repo.actions) && queue.jobs == old(queue.jobs)
    {
      hide Works, IsRun, Action.Start, Action.Finish, Action.Simulate;
      at, finished := clock.time, clock.time;
      r := repo.GetAction(id);
      if r.Err? || r.value.status == Succeeded {
        return r, at, finished;
      }
      r, at, finished := Attempt(r.value);
    }

    method ExecuteAction(ctx: Context, id: string) returns (r: Result<Action>, ghost at: int, ghost finished: int)
      requires Valid()
      modifies this`refused, repo, clock, queue`jobs, queue`nextId, ctx
      ensures Valid() && old(clock.time) <= at <= finished <= clock.time
      ensures S() == if r == Err(ContextDone) then old(S()) else AfterExecute(old(S()), id, at, finished).(now := clock.time)
      ensures r != Err(ContextDone) ==> (r.Ok? <==> id in old(repo.actions) && MayRun(old(repo.actions)[id]))
      ensures r.Ok? ==>
                var a := old(repo.actions)[id];
                if a.status == Succeeded then r.value == a && repo.View() == old(repo.View()) && S().jobs == old(S()).jobs
                else
                  && IsRun(a, r.value, finished) && repo.actions == old(repo.actions)[id := r.value]
                  && S().jobs == if IsRetried(a) && queue.running && |old(S()).jobs| < queue.capacity then old(S()).jobs + [Response(id)] else old(S()).jobs
      ensures r.Ok? ==> id in repo.actions && repo.actions[id] == r.value
      ensures r.Err? ==> r.error == ContextDone || r.error == if id in old(repo.actions) then Invalid else NotFound
      ensures r.Err? ==> repo.View() == old(repo.View()) && queue.jobs == old(queue.jobs)
      ensures r == Err(ContextDone) ==> ctx.done && !ctx.steady
      ensures old(ctx.done) && !ctx.steady ==> r == Err(ContextDone)
    {
      hide Inv, Works, AfterExecute;
      ActionsAreKnown(S());
      ghost var before := S();
      at, finished := clock.time, clock.time;
      var live := ctx.Live();
      if !live {
        return Err(ContextDone), at, finished;
      }
      r, at, finished := RunAction(id);
      ExecuteActionHappens(before, id, at, finished, S());
    }

    // Cancelling, once the context was found live.
    method SkipAction(id: string) returns (r: Result<Action>, ghost at: int)
      requires id in repo.actions ==> repo.actions[id].id == id
      modifies repo`actions, clock
      ensures old(clock.time) <= at <= clock.time
      ensures repo.View() == AfterCancel(old(repo.View()), id, at)
      ensures r == if id !in old(repo.actions) then Err(NotFound)
                   else if old(repo.actions)[id].status == Queued
                   then Ok(old(repo.actions)[id].(status := Skipped, result := "cancelled by operator", updatedAt := at))
                   else Err(Invalid)
      ensures r.Ok? ==> repo.actions == old(repo.actions)[id := r.value]
      ensures r.Err? ==> repo.View() == old(repo.View())
    {
      at := clock.time;
      r := repo.GetAction(id);
      if r.Err? {
        return r, at;
      }
      if r.value.status != Queued {
        return Err(Invalid), at;
      }
      var now := clock.Now();
      at := now;
      var cancelled := r.value.(status := Skipped, result := "cancelled by operator", updatedAt := now);
      var out := repo.UpdateAction(cancelled);
      r := Settled(out, cancelled);
    }

    method CancelAction(ctx: Context, id: string) returns (r: Result<Action>, ghost at: int)
      requires Valid()
      modifies repo, clock, ctx
      ensures Valid() && old(clock.time) <= at <= clock.time
      ensures repo.View() == if r == Err(ContextDone) then old(repo.View()) else AfterCancel(old(repo.View()), id, at)
      ensures r != Err(ContextDone) ==>
                r == if id !in old(repo.actions) then Err(NotFound)
                     else if old(repo.actions)[id].status == Queued
                     then Ok(old(repo.actions)[id].(status := Skipped, result := "cancelled by operator", updatedAt := at))
                     else Err(Invalid)
      ensures r.Ok? ==> repo.actions == old(repo.actions)[id := r.value]
      ensures r.Err? ==> repo.View() == old(repo.View())
      ensures r == Err(ContextDone) ==> ctx.done && !ctx.steady
      ensures old(ctx.done) && !ctx.steady ==> r == Err(ContextDone)
    {
      hide Inv, Works, AfterCancel;
      ActionsAreKnown(S());
      ghost var before := S();
      at := clock.time;
      var live := ctx.Live();
      if !live {
        NothingHappens(before, S());
        return Err(ContextDone), at;
      }
      r, at := SkipAction(id);
      CancelActionHappens(before, id, at, S());
    }

    // ----- Evaluation -----

    // The anomaly joins the incident a scan has found.
    method MergeAnomaly(existing: Incident, anomaly: Anomaly, ghost scanned: int, ghost found: string) returns (incident: Incident)
      requires found in repo.incidents && repo.incidents[found] == existing && scanned <= clock.time
      requires existing.deviceId == anomaly.deviceId && existing.status != Closed && existing.openedAt >= scanned - TEN_MINUTES
      modifies repo`incidents, clock
      ensures old(clock.time) <= clock.time
      ensures Correlate(old(S()), anomaly, Pick(0, 0, true, scanned, Some(found), clock.time)) == (S().(now := old(clock.time)), Some(incident))
      ensures MergedInto(old(repo.incidents), found, anomaly, scanned, clock.time, Some(incident), repo.incidents)
    {
      hide Works;
      var later := clock.Now();
      incident := existing.AddAnomaly(anomaly.id, anomaly.severity, later).Or(existing);
      var out := repo.UpdateIncident(incident);
    }

    // A new incident is opened for the anomaly, and its rollup submitted.
    method OpenIncident(anomaly: Anomaly, ghost scanned: int) returns (incident: Option<Incident>)
      modifies this`sequence, this`refused, repo`incidents, clock, queue`jobs, queue`nextId
      ensures old(clock.time) <= clock.time
      ensures Correlate(old(S()), anomaly, Pick(0, 0, true, scanned, None, clock.time)) == (S().(now := old(clock.time)), incident)
      ensures incident.Some? <==>
                !Blank(anomaly.deviceId) && 1 <= anomaly.severity <= 5 && NumberedId("incident", old(sequence) + 1) !in old(repo.incidents)
      ensures incident.Some? ==>
                && incident.value == Incident(NumberedId("incident", old(sequence) + 1), anomaly.deviceId, TrimSpace("Telemetry anomaly: " + anomaly.signal),
                                              anomaly.severity, Open, [anomaly.id], [], [], clock.time, clock.time, None, None, 1)
                && repo.incidents == old(repo.incidents)[incident.value.id := incident.value] && Submits(S(), EvidenceRollup(incident.value.id))
    {
      hide Works, NumberedId, Blank, TrimSpace;
      Preservation.IncidentCanBeNamed(sequence + 1, anomaly.signal);
      var id := NextId("incident");
      var later := clock.Now();
      var made := NewIncident(id, anomaly.deviceId, IncidentTitle(anomaly.signal), anomaly.severity, anomaly.id, later);
      if made.Err? {
        return None;
      }
      var out := repo.PutIncident(made.value);
      if out.Failed? {
        return None;
      }
      Submit(EvidenceRollup(made.value.id));
      return Some(made.value);
    }

    method CorrelateIncident(ctx: Context, anomaly: Anomaly)
      returns (incident: Option<Incident>, ghost live: bool, ghost scanned: int, ghost found: Option<string>)
      modifies this`sequence, this`refused, repo`incidents, clock, queue`jobs, queue`nextId, ctx
      ensures old(clock.time) <= scanned <= clock.time && (ctx.steady ==> live)
      ensures live ==> old(repo.View()).MayFind(anomaly.deviceId, anomaly.signal, scanned - TEN_MINUTES, found)
      ensures var p := Pick(0, 0, live, scanned, found, clock.time);
              Correlate(old(S()), anomaly, p) == (S().(now := old(clock.time)), incident)
      ensures !live ==> incident == None && S() == old(S())
      ensures live && found.Some? ==> MergedInto(old(repo.incidents), found.value, anomaly, scanned, clock.time, incident, repo.incidents)
      ensures live && found.None? ==> NoneToMerge(old(repo.incidents), repo.anomalies, anomaly, scanned)
      ensures live && found.None? ==>
                (incident.Some? <==> !Blank(anomaly.deviceId) && 1 <= anomaly.severity <= 5 && NumberedId("incident", old(sequence) + 1) !in old(repo.incidents))
      ensures live && found.None? && incident.Some? ==>
                && incident.value == Incident(NumberedId("incident", old(sequence) + 1), anomaly.deviceId, TrimSpace("Telemetry anomaly: " + anomaly.signal),
                                              anomaly.severity, Open, [anomaly.id], [], [], clock.time, clock.time, None, None, 1)
                && repo.incidents == old(repo.incidents)[incident.value.id := incident.value] && Submits(S(), EvidenceRollup(incident.value.id))
    {
      hide Works, Db.MayFind, NumberedId, Blank, TrimSpace, MergedInto;
      live, scanned, found := false, clock.time, None;
      var ready := ctx.Live();
      if !ready {
        return None, live, scanned, found;
      }
      live := true;
      var now := clock.Now();
      scanned := now;
      var existing;
      existing, found := repo.FindOpenIncident(anomaly.deviceId, anomaly.signal, now - TEN_MINUTES);
      FoundIsStored(repo.View(), anomaly.deviceId, anomaly.signal, now - TEN_MINUTES, found);
      ghost var before := S();
      CorrelateIgnoresClock(before, anomaly, scanned, found, old(clock.time));
      hide Correlate;
      if existing.Some? {
        var merged := MergeAnomaly(existing.value, anomaly, scanned, found.value);
        return Some(merged), live, scanned, found;
      }
      incident := OpenIncident(anomaly, scanned);
    }

    // The first half of a turn: the anomaly of a detection is stored.
    method StoreAnomaly(src: Source, d: Detection) returns (anomaly: Anomaly, out: Outcome)
      modifies this`sequence, repo`anomalies, clock
      ensures old(clock.time) <= anomaly.createdAt <= anomaly.updatedAt == clock.time
      ensures forall p: Pick | p.created == anomaly.createdAt && p.updated == anomaly.updatedAt ::
                anomaly == AnomalyFor(old(sequence) + 1, src, d, p)
      ensures S() == old(S()).(sequence := old(sequence) + 1, now := clock.time, db := repo.View())
      ensures Commits(old(repo.View()), old(repo.View()).PutAnomaly(anomaly), repo.View(), out)
    {
      hide Works, NumberedId;
      var id := NextId("anomaly");
      var created := clock.Now();
      var updated := clock.Now();
      anomaly := Anomaly(id, src.deviceId, src.streamId, src.signal, src.policyId, d.ruleIndex, d.severity,
                         src.window.lastValue, src.window, AnomalyOpen, "", created, updated);
      out := repo.PutAnomaly(anomaly);
    }

    // One turn of the loop over detections.
    method StoreAndCorrelate(ctx: Context, src: Source, d: Detection) returns (stored: Option<Anomaly>, ghost p: Pick)
      modifies this`sequence, this`refused, repo`anomalies, repo`incidents, clock, queue`jobs, queue`nextId, ctx
      ensures S() == AfterOnePick(old(S()), src, d, p) && PickFits(old(S()), src, d, p)
      ensures old(clock.time) <= p.stamped == clock.time && (ctx.steady ==> p.live)
      ensures stored.Some? <==> NumberedId("anomaly", old(sequence) + 1) !in old(repo.anomalies)
      ensures stored.Some? ==> stored.value == AnomalyFor(old(sequence) + 1, src, d, p)
    {
      hide Works, Db.MayFind, NumberedId, Correlate, MergedInto, NoneToMerge, TrimSpace, Blank;
      var anomaly, out := StoreAnomaly(src, d);
      if out.Failed? {
        return None, Pick(anomaly.createdAt, anomaly.updatedAt, true, clock.time, None, clock.time);
      }
      ghost var mid := S();
      var incident; ghost var live, scanned, found;
      incident, live, scanned, found := CorrelateIncident(ctx, anomaly);
      p := Pick(anomaly.createdAt, anomaly.updatedAt, live, scanned, found, clock.time);
      CorrelateIgnores(mid, anomaly, p, clock.time);
      if incident.Some? {
        var linked := anomaly.(incidentId := incident.value.id);
        out := repo.UpdateAnomaly(linked);
      }
      stored := Some(anomaly);
    }

    // The loop over detections.
    method StoreAll(ctx: Context, src: Source, ds: seq<Detection>) returns (result: seq<Anomaly>, ghost picks: seq<Pick>)
      modifies this`sequence, this`refused, repo`anomalies, repo`incidents, clock, queue`jobs, queue`nextId, ctx
      ensures |picks| == |ds| && PicksFit(old(S()), src, ds, picks) && S() == AfterPicks(old(S()), src, ds, picks)
      ensures old(clock.time) <= clock.time == if picks == [] then old(clock.time) else picks[|picks| - 1].stamped
      ensures ctx.steady ==> AllLive(picks)
      ensures result == Recorded(old(S()), src, ds, picks)
    {
      NoTurns(S(), src);
      hide AfterOnePick, PickFits, AfterPicks, PicksFit, Works, Turned, NumberedId, AllLive, AnomalyFor;
      result, picks := [], [];
      ghost var before := S();
      for k := 0 to |ds|
        invariant Turned(before, src, ds[..k], picks, result, S())
        invariant before.now <= clock.time == if picks == [] then before.now else picks[|picks| - 1].stamped
        invariant ctx.steady ==> AllLive(picks)
      {
        ghost var s1 := S();
        var stored; ghost var p;
        stored, p := StoreAndCorrelate(ctx, src, ds[k]);
        OneMoreTurn(before, src, ds, k, picks, p, result, s1);
        LiveMore(picks, p);
        picks := picks + [p];
        if stored.Some? {
          result := result + [stored.value];
        }
      }
      assert ds[..|ds|] == ds;
      TurnedMeans(before, src, ds, picks, result, S());
    }

    method Evaluate(ctx: Context, streamId: string, deviceId: string) returns (r: Result<seq<Anomaly>>, ghost act: Act)
      modifies this`sequence, this`refused, repo`anomalies, repo`incidents, clock, queue`jobs, queue`nextId, ctx
      ensures act.EvaluateTelemetry? && act.streamId == streamId && act.deviceId == deviceId && r != Err(ContextDone)
      ensures EvaluationFits(old(S()), act, clock.time) && S() == AfterEvaluate(old(S()), act).(now := clock.time)
      ensures ctx.steady ==> AllLive(act.picks)
      ensures r == if act.found.Some? && streamId !in old(repo.streams) then Err(NotFound) else Ok(Answer(old(S()), act))
    {
      hide Db.MayBeActive, Works, WindowOf, Detections, Listed, PicksFit, AfterPicks, Recorded;
      ghost var before := S();
      var now := clock.Now();
      var policy; ghost var found;
      policy, found := repo.ActivePolicy(deviceId, now);
      ScanIsStored(repo.View(), deviceId, now, found);
      act := Act.EvaluateTelemetry(streamId, deviceId, now, found, now, []);
      if policy.Err? {
        return Ok([]), act;
      }
      var stream := repo.GetStream(streamId);
      if stream.Err? {
        return Err(stream.error), act;
      }
      var end := clock.Now();
      act := act.(windowEnd := end);
      var start := end - FIVE_MINUTES;
      var samples := repo.ListSamples(streamId, start, end, 500);
      var window := BuildWindow(samples, start, end);
      if window.Err? {
        return Ok([]), act;
      }
      var detections := Detect(window.value, policy.value.rules);
      var src := Source(streamId, deviceId, stream.value.signal, policy.value.id, window.value);
      assert FindingsOf(before.db, streamId, deviceId, found, end) == Findings(src, detections);
      assert S() == before.(now := end);
      var result; ghost var picks;
      result, picks := StoreAll(ctx, src, detections);
      act := act.(picks := picks);
      return Ok(result), act;
    }

    method EvaluateTelemetry(ctx: Context, streamId: string, deviceId: string) returns (r: Result<seq<Anomaly>>, ghost act: Act)
      requires Valid()
      modifies this`sequence, this`refused, repo`anomalies, repo`incidents, clock, queue`jobs, queue`nextId, ctx
      ensures Valid() && act.EvaluateTelemetry? && act.streamId == streamId && act.deviceId == deviceId
      ensures r == Err(ContextDone) ==> S() == old(S())
      ensures r != Err(ContextDone) ==> EvaluationFits(old(S()), act, clock.time) && S() == AfterEvaluate(old(S()), act).(now := clock.time)
      ensures ctx.steady ==> AllLive(act.picks)
      ensures r != Err(ContextDone) ==>
                r == if act.found.Some? && streamId !in old(repo.streams) then Err(NotFound) else Ok(Answer(old(S()), act))
      ensures r.Ok? ==>
                var list := LookedAt(old(repo.View()), streamId, act.windowEnd);
                if act.found == None || list == [] then r.value == []
                else act.found.value in old(repo.policies)
                     && IsReport(r.value, old(repo.streams)[streamId], deviceId, old(repo.policies)[act.found.value], list, act.windowEnd)
      ensures r.Ok? ==> forall a | a in r.value :: StoredBut(repo.anomalies, a)
      ensures r == Err(ContextDone) ==> ctx.done && !ctx.steady
      ensures old(ctx.done) && !ctx.steady ==> r == Err(ContextDone)
    {
      hide Inv, Works, AfterEvaluate, EvaluationFits, Answer, LookedAt, IsReport, StoredBut;
      ghost var before := S();
      var live := ctx.Live();
      if !live {
        return Err(ContextDone), Act.EvaluateTelemetry(streamId, deviceId, 0, None, 0, []);
      }
      r, act := Evaluate(ctx, streamId, deviceId);
      EvaluateTelemetryHappens(before, act, S());
      AnswerMeans(before, act, clock.time);
    }

    // ----- Ingestion -----

    // The rest of a turn of the loop over a batch's inputs, once the stream is at hand.
    method VetInput(stream: Stream, input: SampleInput, now: int) returns (r: Result<Sample>)
      requires input.streamId in repo.streams && stream == repo.streams[input.streamId]
      ensures r == VetOne(repo.View(), input, now) && r != Err(ContextDone)
    {
      hide Blank;
      var device := repo.GetDevice(stream.deviceId);
      if device.Err? {
        return Err(device.error);
      }
      if !stream.AcceptsSamples() || !device.value.CanReceiveTelemetry() {
        return Err(Invalid);
      }
      r := NewSample(stream.id, stream.deviceId, stream.signal, input.quality, input.value, input.observedAt, now, input.sequence);
    }

    // The loop over a batch's inputs, with its cache of streams.
    method VetBatch(inputs: seq<SampleInput>, now: int) returns (r: Result<seq<Sample>>, streams: map<string, Stream>)
      ensures r == Vet(repo.View(), inputs, now) && r != Err(ContextDone)
      ensures r.Ok? ==> streams.Keys == StreamsOf(inputs) && forall id | id in streams :: id in repo.streams && streams[id] == repo.streams[id]
    {
      assert Vet(repo.View(), inputs[..0], now) == Ok([]) && StreamsOf(inputs[..0]) == {};
      hide Blank, Vet, NewSample, StreamsOf;
      var result := [];
      streams := map[];
      for i := 0 to |inputs|
        invariant Vet(repo.View(), inputs[..i], now) == Ok(result)
        invariant streams.Keys == StreamsOf(inputs[..i])
        invariant forall id | id in streams :: id in repo.streams && streams[id] == repo.streams[id]
      {
        var input := inputs[i];
        VetStep(repo.View(), inputs, i, now);
        StreamsStep(inputs, i);
        var stream;
        if input.streamId in streams {
          stream := streams[input.streamId];
        } else {
          var got := repo.GetStream(input.streamId);
          if got.Err? {
            return Err(got.error), streams;
          }
          stream := got.value;
          streams := streams[input.streamId := stream];
        }
        var sample := VetInput(stream, input, now);
        if sample.Err? {
          return Err(sample.error), streams;
        }
        result := result + [sample.value];
      }
      assert inputs[..|inputs|] == inputs;
      r := Ok(result);
    }

    method TouchOne(ctx: Context, id: string, stream: Stream, now: int) returns (ghost touch: Touch)
      requires id in repo.streams && stream == repo.streams[id] && DevicesOk(repo.devices)
      modifies this`refused, repo`devices, clock, queue`jobs, queue`nextId, ctx
      ensures S() == AfterOneTouch(old(S()), touch, now).(now := clock.time)
      ensures DevicesOk(repo.devices) && touch.streamId == id && old(clock.time) <= touch.at <= clock.time && (ctx.steady ==> touch.live)
    {
      hide Works, AfterTouch;
      ghost var before := S();
      var out; ghost var live, at;
      out, live, at := TouchStored(ctx, stream.deviceId, now);
      TouchKeepsKeys(before.db, stream.deviceId, now, at);
      Submit(Evaluation(stream.id, stream.deviceId));
      touch := Touch(id, live, at);
    }

    // The loop over the ingested streams, in any order.
    method TouchAll(ctx: Context, streams: map<string, Stream>, now: int) returns (ghost touches: seq<Touch>)
      requires forall id | id in streams :: id in repo.streams && streams[id] == repo.streams[id]
      requires DevicesOk(repo.devices)
      modifies this`refused, repo`devices, clock, queue`jobs, queue`nextId, ctx
      ensures S() == AfterTouches(old(S()), touches, now).(now := clock.time) && old(clock.time) <= clock.time
      ensures TouchesInOrder(touches, old(clock.time), clock.time) && Covers(touches, streams.Keys)
      ensures ctx.steady ==> AllTouched(touches)
    {
      hide Works, AfterOneTouch, AfterTouches, DevicesOk, Covers, TouchesInOrder, AllTouched;
      touches := [];
      ghost var before := S();
      var rest := streams.Keys;
      NoTouches(before, now);
      assert streams.Keys - rest == {};
      while rest != {}
        invariant rest <= streams.Keys && DevicesOk(repo.devices) && before.now <= clock.time
        invariant S() == AfterTouches(before, touches, now).(now := clock.time)
        invariant TouchesInOrder(touches, before.now, clock.time) && Covers(touches, streams.Keys - rest)
        invariant ctx.steady ==> AllTouched(touches)
        decreases rest
      {
        ghost var s1 := S();
        var id :| id in rest;
        ghost var touch := TouchOne(ctx, id, streams[id], now);
        MoreTouches(streams.Keys - rest, touches, touch, before.now, s1.now, clock.time);
        TouchesAppend(before, touches, touch, now, s1.now);
        assert streams.Keys - rest + {id} == streams.Keys - (rest - {id});
        rest, touches := rest - {id}, touches + [touch];
      }
      assert streams.Keys - rest == streams.Keys;
    }

    method Ingest(ctx: Context, inputs: seq<SampleInput>) returns (r: Result<nat>, ghost at: int, ghost touches: seq<Touch>)
      requires DevicesOk(repo.devices) && StreamsOk(repo.streams, repo.devices) && clock.time > 0
      modifies this`refused, repo`devices, repo`samples, clock, queue`jobs, queue`nextId, ctx
      ensures old(clock.time) <= at <= clock.time && r != Err(ContextDone)
      ensures Vet(old(repo.View()), inputs, at).Ok? ==> TouchesFit(touches, inputs, at, clock.time)
      ensures S() == AfterIngest(old(S()), inputs, at, touches).(now := clock.time)
      ensures (r.Ok? <==> AreAcceptable(inputs, old(repo.streams), old(repo.devices)))
      ensures r.Ok? ==>
                && TakesIn(old(repo.samples), repo.samples, inputs, old(repo.streams), at)
                && AreAnnounced(inputs, old(repo.streams), S()) && OnlySeen(inputs, old(repo.streams), old(repo.devices), repo.devices)
                && (ctx.steady ==> AreSeen(inputs, old(repo.streams), repo.devices, at))
      ensures r.Err? ==>
                if inputs == [] then r.error == Invalid
                else exists i: nat :: IsRefusedFor(inputs, old(repo.streams), old(repo.devices), i, r.error)
      ensures r.Ok? ==> r.value == |inputs|
      ensures r.Err? ==> repo.View() == old(repo.View()) && queue.jobs == old(queue.jobs)
    {
      hide Works, Vet, VetOne, DevicesOk, StreamsOk, AreAcceptable, TakesIn, AreAnnounced, OnlySeen, AreSeen, IsRefusedFor, TouchesFit;
      at, touches := clock.time, [];
      NothingToIngest(S(), clock.time);
      if |inputs| == 0 {
        return Err(Invalid), at, touches;
      }
      ghost var before := S();
      var now := clock.Now();
      at := now;
      VettingIs(before.db, inputs, now);
      var batch, streams := VetBatch(inputs, now);
      if batch.Err? {
        return Err(batch.error), at, touches;
      }
      VettedCount(before.db, inputs, now);
      repo.AddSamples(batch.value);
      touches := TouchAll(ctx, streams, now);
      TouchesIgnoreClock(before.(db := before.db.AddSamples(batch.value)), touches, now, now);
      AllFit(inputs, touches, now, clock.time);
      IngestAnnounces(before, inputs, now, touches, clock.time);
      AnnouncedAnytime(inputs, before.db.streams, AfterIngest(before, inputs, now, touches), clock.time);
      return Ok(|batch.value|), at, touches;
    }

    method IngestTelemetry(ctx: Context, inputs: seq<SampleInput>) returns (r: Result<nat>, ghost at: int, ghost touches: seq<Touch>)
      requires Valid()
      modifies this`refused, repo, clock, queue`jobs, queue`nextId, ctx
      ensures Valid() && old(clock.time) <= at <= clock.time
      ensures S() == if r == Err(ContextDone) then old(S()) else AfterIngest(old(S()), inputs, at, touches).(now := clock.time)
      ensures r != Err(ContextDone) && Vet(old(repo.View()), inputs, at).Ok? ==> TouchesFit(touches, inputs, at, clock.time)
      ensures r != Err(ContextDone) ==> (r.Ok? <==> AreAcceptable(inputs, old(repo.streams), old(repo.devices)))
      ensures r.Ok? ==>
                && TakesIn(old(repo.samples), repo.samples, inputs, old(repo.streams), at)
                && AreAnnounced(inputs, old(repo.streams), S()) && OnlySeen(inputs, old(repo.streams), old(repo.devices), repo.devices)
                && (ctx.steady ==> AreSeen(inputs, old(repo.streams), repo.devices, at))
      ensures r != Err(ContextDone) && r.Err? ==>
                if inputs == [] then r.error == Invalid
                else exists i: nat :: IsRefusedFor(inputs, old(repo.streams), old(repo.devices), i, r.error)
      ensures r.Ok? ==> r.value == |inputs|
      ensures r.Err? ==> repo.View() == old(repo.View()) && queue.jobs == old(queue.jobs)
      ensures r == Err(ContextDone) ==> ctx.done && !ctx.steady
      ensures old(ctx.done) && !ctx.steady ==> r == Err(ContextDone)
    {
      hide Inv, Works, AfterIngest, TouchesFit, Vet;
      DevicesAreOk(S());
      ghost var before := S();
      at, touches := clock.time, [];
      var live := ctx.Live();
      if !live {
        return Err(ContextDone), at, touches;
      }
      r, at, touches := Ingest(ctx, inputs);
      IngestTelemetryHappens(before, inputs, at, touches, S());
    }

    // ----- Workers -----

    method ReceiveJob()
      requires Valid() && queue.jobs != [] && |queue.inHand| < queue.workers
      modifies queue`jobs, queue`inHand
      ensures Valid() && Does(old(S()), Receive, S()) && Evolves(old(S()), S())
    {
      hide Inv, Does, Evolves;
      ghost var before := S();
      WorksSplit(queue.jobs, 0);
      queue.Receive();
      WorksAppend(old(queue.inHand), old(queue.jobs)[0]);
      ReceiveHappens(before, S());
    }

    // The handlers registered for the three kinds of jobs.
    method Process(ctx: Context, work: Work) returns (ghost handler: Act)
      requires forall id | id in repo.incidents :: repo.incidents[id].id == id && !Blank(id) && ListsStored(repo.incidents[id], repo.actions, repo.evidence)
      requires forall id | id in repo.actions :: repo.actions[id].id == id && !repo.actions[id].kind.OtherActionType?
      modifies this`sequence, this`refused, repo, clock, queue`jobs, queue`nextId, ctx
      ensures Serves(handler, work) && Handles(old(S()), handler, S())
    {
      hide Works, AfterEvaluate, AfterExecute, AfterRollup, EvaluationFits, AllLive, Answer;
      match work {
        case Evaluation(streamId, deviceId) =>
          var r; ghost var act;
          r, act := Evaluate(ctx, streamId, deviceId);
          handler := act;
        case Response(actionId) =>
          var r; ghost var at, finished;
          r, at, finished := RunAction(actionId);
          handler := Act.ExecuteAction(actionId, at, finished);
        case EvidenceRollup(incidentId) =>
          var r; ghost var at, attached;
          r, at, attached := Snapshot(incidentId);
          handler := Act.RollupEvidence(incidentId, at, attached);
      }
    }

    /** A worker runs the handler registered for the kind of its job, and drops the job whatever comes of it. */
    method HandleJob(ctx: Context, slot: nat) returns (ghost handler: Act)
      requires Valid() && slot < |queue.inHand| && ctx.steady
      modifies this`sequence, this`refused, repo, clock, queue`jobs, queue`inHand, queue`nextId, ctx
      ensures Valid() && Does(old(S()), Handle(slot, handler), S()) && Evolves(old(S()), S())
      ensures match old(queue.inHand)[slot].work
              case Evaluation(streamId, deviceId) => handler.EvaluateTelemetry? && handler.streamId == streamId && handler.deviceId == deviceId
              case Response(actionId) => handler.ExecuteAction? && handler.id == actionId
              case EvidenceRollup(incidentId) => handler.RollupEvidence? && handler.id == incidentId
    {
      hide Inv, Does, Evolves, Works, Handles;
      ghost var before := S();
      IncidentsAreKnown(before);
      ActionsAreKnown(before);
      WorksWithout(queue.inHand, slot);
      var job := queue.Take(slot);
      var live := ctx.Live();
      handler := Process(ctx, job.work);
      HandleHappens(before, slot, handler, S());
    }

    /** Workers handle jobs, in any order, until none is left. This ends although handlers submit
        more, and leaves every action cancelled, refused by the queue, or run to its end. */
    method Drain(ctx: Context)
      requires Valid() && ctx.steady && queue.workers >= 1
      modifies this`sequence, this`refused, repo, clock, queue`jobs, queue`inHand, queue`nextId, ctx
      ensures Valid() && Evolves(old(S()), S()) && queue.jobs == [] && queue.inHand == []
      ensures forall id | id in repo.actions ::
                repo.actions[id].status == Skipped || Response(id) in refused || RanToItsEnd(repo.actions[id])
    {
      hide Inv, Evolves, Does;
      NothingEvolves(S());
      while queue.jobs != [] || queue.inHand != []
        invariant Valid() && Evolves(old(S()), S())
        decreases Remaining(S()).evaluations, Remaining(S()).attempts, Remaining(S()).pending, Remaining(S()).buffered
      {
        ghost var before := S();
        var receive: bool := *;
        if queue.inHand == [] || (queue.jobs != [] && |queue.inHand| < queue.workers && receive) {
          ReceiveJob();
          ReceivingDescends(before, S());
        } else {
          var slot :| 0 <= slot < |queue.inHand|;
          ghost var handler := HandleJob(ctx, slot);
          HandlingDescends(before, slot, handler, S());
        }
        EvolvesIsTransitive(old(S()), before, S());
      }
      EverythingRan(S());
    }
  }

  lemma AnswerMeans(s: State, act: Act, end: int)
    requires Inv(s) && act.EvaluateTelemetry? && EvaluationFits(s, act, end)
    ensures var list := LookedAt(s.db, act.streamId, act.windowEnd);
            if act.found == None || act.streamId !in s.db.streams || list == [] then Answer(s, act) == []
            else act.found.value in s.db.policies
                 && IsReport(Answer(s, act), s.db.streams[act.streamId], act.deviceId, s.db.policies[act.found.value], list, act.windowEnd)
    ensures forall a | a in Answer(s, act) :: StoredBut(AfterEvaluate(s, act).db.anomalies, a)
  {
    InvHasBase(s);
    hide Inv, EvaluationFits, Answer, LookedAt, IsReport, StoredBut, AfterEvaluate;
    EvaluationReportsExactly(s, act, end);
    AnswerIsStored(s, act, end);
  }

  lemma NothingEvolves(s: State)
    ensures Evolves(s, s)
  {
    NothingChanges(s.db);
  }

  lemma ReceivingDescends(before: State, after: State)
    requires before.jobs != [] && Does(before, Receive, after)
    ensures Descends(Remaining(after), Remaining(before))
  {
    ReceiveDescends(before);
    hide Fits;
  }

  lemma HandlingDescends(before: State, slot: nat, handler: Act, after: State)
    requires Inv(before) && Does(before, Handle(slot, handler), after)
    ensures Descends(Remaining(after), Remaining(before))
  {
    hide Base, Retries, Descends, Fits, Effect;
    HandleDescends(before, slot, handler, after.now);
  }

  lemma EverythingRan(s: State)
    requires Inv(s) && s.jobs == [] && s.inHand == []
    ensures forall id | id in s.db.actions ::
              s.db.actions[id].status == Skipped || Response(id) in s.refused || RanToItsEnd(s.db.actions[id])
  {
    hide Inv;
    forall id | id in s.db.actions
      ensures s.db.actions[id].status == Skipped || Response(id) in s.refused || RanToItsEnd(s.db.actions[id])
    {
      DrainedOutcome(s, id);
    }
  }

  lemma WorksSplit(jobs: seq<Job>, i: nat)
    requires i < |jobs|
    ensures Works(jobs[1..]) == Works(jobs)[1..] && Works(jobs)[i] == jobs[i].work
  {
  }

  lemma WorksAppend(jobs: seq<Job>, job: Job)
    ensures Works(jobs + [job]) == Works(jobs) + [job.work]
  {
  }

  lemma WorksWithout(jobs: seq<Job>, slot: nat)
    requires slot < |jobs|
    ensures Works(Without(jobs, slot)) == Without(Works(jobs), slot) && Works(jobs)[slot] == jobs[slot].work && |Works(jobs)| == |jobs|
  {
  }

  ghost predicate Covers(touches: seq<Touch>, done: set<string>) {
    forall id :: id in done <==> exists i | 0 <= i < |touches| :: touches[i].streamId == id
  }

  // No touch of the ingestion was cut short by its context.
  ghost predicate AllTouched(touches: seq<Touch>) {
    forall i | 0 <= i < |touches| :: touches[i].live
  }

  lemma NoTouches(s: State, now: int)
    ensures Covers([], {}) && TouchesInOrder([], s.now, s.now) && AllTouched([]) && AfterTouches(s, [], now) == s
  {
  }

  lemma TouchesAppend(s: State, touches: seq<Touch>, touch: Touch, now: int, t: int)
    ensures AllTouched(touches + [touch]) <==> AllTouched(touches) && touch.live
    ensures AfterTouches(s, touches + [touch], now) == AfterOneTouch(AfterTouches(s, touches, now), touch, now)
    ensures AfterOneTouch(AfterTouches(s, touches, now).(now := t), touch, now) == AfterTouches(s, touches + [touch], now).(now := t)
  {
    hide AfterOneTouch;
    var more := touches + [touch];
    assert more[..|touches|] == touches && more[|touches|] == touch;
    TouchIgnoresClock(AfterTouches(s, touches, now), touch, now, t);
    assert AllTouched(more) ==> AllTouched(touches) by {
      assert forall i | 0 <= i < |touches| :: more[i] == touches[i];
    }
  }

  lemma {:induction false} VettedCount(db: Db, inputs: seq<SampleInput>, now: int)
    ensures Vet(db, inputs, now).Ok? ==> |Vet(db, inputs, now).value| == |inputs|
  {
    hide VetOne;
    if inputs != [] {
      VettedCount(db, inputs[..|inputs| - 1], now);
    }
  }

  lemma {:induction false} TouchesIgnoreClock(s: State, touches: seq<Touch>, now: int, t: int)
    ensures AfterTouches(s.(now := t), touches, now) == AfterTouches(s, touches, now).(now := t)
  {
    hide AfterOneTouch;
    if touches != [] {
      TouchesIgnoreClock(s, touches[..|touches| - 1], now, t);
      TouchIgnoresClock(AfterTouches(s, touches[..|touches| - 1], now), touches[|touches| - 1], now, t);
    }
  }

  lemma NothingToIngest(s: State, end: int)
    ensures !AreAcceptable([], s.db.streams, s.db.devices) && TouchesFit([], [], s.now, end)
  {
  }

  lemma AllFit(inputs: seq<SampleInput>, touches: seq<Touch>, from: int, end: int)
    requires TouchesInOrder(touches, from, end) && Covers(touches, StreamsOf(inputs))
    ensures TouchesFit(touches, inputs, from, end)
    ensures AllTouched(touches) ==> forall t | t in touches :: t.live
  {
    hide StreamsOf;
  }

  lemma AnnouncedAnytime(inputs: seq<SampleInput>, streams: map<string, Stream>, s: State, t: int)
    requires AreAnnounced(inputs, streams, s)
    ensures AreAnnounced(inputs, streams, s.(now := t))
  {
    assert forall work :: Submits(s, work) ==> Submits(s.(now := t), work);
    hide Submits;
  }

  ghost predicate TouchesInOrder(touches: seq<Touch>, from: int, end: int) {
    && (forall i | 0 <= i < |touches| :: from <= touches[i].at <= end)
    && (forall i, j | 0 <= i < j < |touches| :: touches[i].at <= touches[j].at && touches[i].streamId != touches[j].streamId)
  }

  lemma TouchIgnoresClock(s: State, touch: Touch, now: int, t: int)
    ensures AfterOneTouch(s.(now := t), touch, now) == AfterOneTouch(s, touch, now).(now := t)
  {
    hide AfterTouch;
  }

  lemma TouchKeepsKeys(db: Db, id: string, seen: int, at: int)
    requires DevicesOk(db.devices)
    ensures DevicesOk(AfterTouch(db, id, seen, at).devices)
  {
  }

  lemma MoreTouches(done: set<string>, touches: seq<Touch>, touch: Touch, from: int, mid: int, end: int)
    requires Covers(touches, done) && TouchesInOrder(touches, from, mid)
    requires from <= mid <= touch.at <= end && touch.streamId !in done
    ensures Covers(touches + [touch], done + {touch.streamId}) && TouchesInOrder(touches + [touch], from, end)
  {
    var more := touches + [touch];
    assert more[|touches|] == touch;
    forall id | id in done ensures exists i | 0 <= i < |more| :: more[i].streamId == id {
      var i :| 0 <= i < |touches| && touches[i].streamId == id;
      assert more[i].streamId == id;
    }
  }

  lemma StreamsStep(inputs: seq<SampleInput>, i: nat)
    requires i < |inputs|
    ensures StreamsOf(inputs[..i + 1]) == StreamsOf(inputs[..i]) + {inputs[i].streamId}
  {
    assert inputs[..i + 1] == inputs[..i] + [inputs[i]];
    forall id | id in StreamsOf(inputs[..i]) + {inputs[i].streamId} ensures id in StreamsOf(inputs[..i + 1]) {
      if id == inputs[i].streamId {
        assert inputs[..i + 1][i].streamId == id;
      } else {
        var j :| 0 <= j < i && inputs[..i][j].streamId == id;
        assert inputs[..i + 1][j].streamId == id;
      }
    }
  }

  // The batch is vetted input by input, and the first failure is final.
  lemma VetStep(db: Db, inputs: seq<SampleInput>, i: nat, now: int)
    requires i < |inputs| && Vet(db, inputs[..i], now).Ok?
    ensures VetOne(db, inputs[i], now).Ok? ==> Vet(db, inputs[..i + 1], now) == Ok(Vet(db, inputs[..i], now).value + [VetOne(db, inputs[i], now).value])
    ensures VetOne(db, inputs[i], now).Err? ==> Vet(db, inputs, now) == Err(VetOne(db, inputs[i], now).error)
  {
    hide VetOne;
    assert inputs[..i + 1][..i] == inputs[..i];
    if VetOne(db, inputs[i], now).Err? {
      VetFails(db, inputs, i + 1, now);
    }
  }

  lemma {:induction false} VetFails(db: Db, inputs: seq<SampleInput>, i: nat, now: int)
    requires i <= |inputs| && Vet(db, inputs[..i], now).Err?
    ensures Vet(db, inputs, now) == Err(Vet(db, inputs[..i], now).error)
  {
    hide VetOne;
    if i == |inputs| {
      assert inputs[..i] == inputs;
    } else {
      assert inputs[..|inputs| - 1][..i] == inputs[..i];
      VetFails(db, inputs[..|inputs| - 1], i, now);
    }
  }

  // No correlation of the evaluation was cut short by its context.
  ghost predicate AllLive(picks: seq<Pick>) {
    forall k | 0 <= k < |picks| :: picks[k].live
  }

  lemma LiveMore(picks: seq<Pick>, p: Pick)
    ensures AllLive(picks + [p]) <==> AllLive(picks) && p.live
  {
    assert picks == (picks + [p])[..|picks|];
    assert (picks + [p])[|picks|] == p;
  }

  // Where the loop over detections stands after some of them.
  ghost predicate Turned(before: State, src: Source, ds: seq<Detection>, picks: seq<Pick>, result: seq<Anomaly>, s: State) {
    && |picks| == |ds| && PicksFit(before, src, ds, picks) && s == AfterPicks(before, src, ds, picks)
    && result == Recorded(before, src, ds, picks)
  }

  lemma NoTurns(s: State, src: Source)
    ensures Turned(s, src, [], [], [], s) && AllLive([])
  {
  }

  lemma TurnedMeans(before: State, src: Source, ds: seq<Detection>, picks: seq<Pick>, result: seq<Anomaly>, s: State)
    requires Turned(before, src, ds, picks, result, s)
    ensures |picks| == |ds| && PicksFit(before, src, ds, picks) && s == AfterPicks(before, src, ds, picks)
    ensures result == Recorded(before, src, ds, picks)
  {
    hide PicksFit, AfterPicks, Recorded;
  }

  lemma OneMoreTurn(before: State, src: Source, ds: seq<Detection>, k: nat, picks: seq<Pick>, p: Pick, result: seq<Anomaly>, s: State)
    requires k < |ds| && Turned(before, src, ds[..k], picks, result, s) && PickFits(s, src, ds[k], p)
    ensures Turned(before, src, ds[..k + 1], picks + [p],
                   if NumberedId("anomaly", s.sequence + 1) in s.db.anomalies then result else result + [AnomalyFor(s.sequence + 1, src, ds[k], p)],
                   AfterOnePick(s, src, ds[k], p))
  {
    hide PickFits, AfterOnePick, NumberedId;
    assert ds[..k + 1][..k] == ds[..k] && (picks + [p])[..k] == picks;
  }

  // Correlation looks at neither the clock nor the anomaly's own times.
  lemma CorrelateIgnores(s: State, a: Anomaly, p: Pick, t: int)
    ensures Correlate(s.(now := t), a, p).0 == Correlate(s, a, p).0.(now := t) && Correlate(s.(now := t), a, p).1 == Correlate(s, a, p).1
    ensures Correlate(s, a, p) == Correlate(s, a, p.(created := 0, updated := 0))
  {
    hide Blank, NumberedId;
  }

  lemma CorrelateIgnoresClock(s: State, a: Anomaly, scanned: int, found: Option<string>, t: int)
    ensures forall stamped: int ::
              var p := Pick(0, 0, true, scanned, found, stamped);
              Correlate(s.(now := t), a, p).0 == Correlate(s, a, p).0.(now := t) && Correlate(s.(now := t), a, p).1 == Correlate(s, a, p).1
  {
    forall stamped: int
      ensures var p := Pick(0, 0, true, scanned, found, stamped);
              Correlate(s.(now := t), a, p).0 == Correlate(s, a, p).0.(now := t) && Correlate(s.(now := t), a, p).1 == Correlate(s, a, p).1
    {
      CorrelateIgnores(s, a, Pick(0, 0, true, scanned, found, stamped), t);
    }
  }

  // The anomaly is merged into an incident that is not closed and was opened no more than ten minutes before the scan.
  ghost predicate MergedInto(inc: Incidents, i: string, a: Anomaly, scanned: int, at: int, incident: Option<Incident>, inc': Incidents) {
    && i in inc && inc[i].deviceId == a.deviceId && inc[i].status != Closed && scanned - inc[i].openedAt <= 600_000_000_000
    && incident == Some(if a.id in inc[i].anomalyIds then inc[i]
                        else inc[i].(anomalyIds := inc[i].anomalyIds + [a.id], version := inc[i].version + 1, updatedAt := at,
                                     severity := if inc[i].severity < a.severity then a.severity else inc[i].severity))
    && inc' == if inc[i].id in inc then inc[inc[i].id := incident.value] else inc
  }

  // Every incident of the device that lists an anomaly of the signal is closed or was opened longer ago.
  ghost predicate NoneToMerge(inc: Incidents, an: Anomalies, a: Anomaly, scanned: int) {
    forall i, x | i in inc && inc[i].deviceId == a.deviceId && x in inc[i].anomalyIds && x in an && an[x].signal == a.signal ::
      inc[i].status == Closed || scanned - inc[i].openedAt > 600_000_000_000
  }

  lemma FoundIsStored(db: Db, deviceId: string, signal: string, since: int, found: Option<string>)
    requires db.MayFind(deviceId, signal, since, found)
    ensures found.Some? ==> found.value in db.incidents
  {
  }

  lemma AttachingLists(i: Incident, id: string, at: int)
    ensures id !in i.evidenceIds ==> i.AttachEvidence(id, at).Or(i) == Listing(i, [], [id], at)
    ensures id !in i.actionIds ==> i.AttachAction(id, at).Or(i) == Listing(i, [id], [], at)
  {
    assert i.actionIds + [] == i.actionIds && i.evidenceIds + [] == i.evidenceIds;
  }

  // An incident lists only what is stored.
  ghost predicate ListsStored(i: Incident, actions: Actions, evidence: EvidenceItems) {
    (forall x | x in i.actionIds :: x in actions) && forall x | x in i.evidenceIds :: x in evidence
  }

  // Every device, stream and policy is stored under its own identifier.
  lemma KeysAreIds(s: State)
    requires Inv(s)
    ensures forall id | id in s.db.devices :: s.db.devices[id].id == id && s.db.devices[id].version >= 1
    ensures forall id | id in s.db.streams :: s.db.streams[id].id == id && s.db.streams[id].version >= 1 && !s.db.streams[id].status.OtherStreamStatus?
    ensures forall id | id in s.db.policies :: s.db.policies[id].id == id && s.db.policies[id].version >= 1 && s.db.policies[id].deviceId != ""
  {
    hide CoreOk, SamplesOk, JobsOk, Retries, ActionsOk, EvidenceOk;
  }

  lemma DevicesAreOk(s: State)
    requires Inv(s)
    ensures DevicesOk(s.db.devices) && StreamsOk(s.db.streams, s.db.devices) && s.now > 0
  {
    hide CoreOk, DevicesOk, StreamsOk, SamplesOk, JobsOk, Retries, ActionsOk, EvidenceOk, PoliciesOk;
  }

  // Every incident and action is stored under its own identifier; incidents are named, have a known
  // status and list what is stored, and actions are of a known kind.
  lemma IncidentsAreKnown(s: State)
    requires Inv(s)
    ensures forall id | id in s.db.incidents :: s.db.incidents[id].id == id && !Blank(id)
    ensures forall id | id in s.db.incidents :: Known(s.db.incidents[id]) && ListsStored(s.db.incidents[id], s.db.actions, s.db.evidence)
  {
    forall id | id in s.db.incidents ensures !Blank(id) {
      IncidentIsNamed(s, id);
    }
    hide Blank, DbOk, JobsOk, Retries, ListsFindings, PeakSeverity, Justified, PointBack, AnomaliesLinked, Separated, IdsIssued, AllInTime;
  }

  lemma ActionsAreKnown(s: State)
    requires Inv(s)
    ensures forall id | id in s.db.actions :: s.db.actions[id].id == id && !s.db.actions[id].kind.OtherActionType?
  {
    hide CoreOk, DevicesOk, StreamsOk, PoliciesOk, EvidenceOk, SamplesOk, JobsOk, Retries, AtRest, WithinBudget;
  }

  // The scan finds a policy of the greatest version in effect.
  lemma NewestIsFound(db: Db, deviceId: string, now: int, found: Option<string>, version: int)
    requires deviceId != "" && db.MayBeActive(deviceId, now, found)
    ensures (found.Some? ==> db.policies[found.value].version < version)
              <==> forall other | other in db.policies && db.policies[other].deviceId == deviceId && InEffect(db.policies[other], now) :: db.policies[other].version < version
  {
    assert found.Some? ==> db.policies[found.value].deviceId == deviceId && InEffect(db.policies[found.value], now);
  }

  lemma ScanIsStored(db: Db, deviceId: string, now: int, found: Option<string>)
    requires db.MayBeActive(deviceId, now, found)
    ensures found.Some? ==> found.value in db.policies
  {
  }
}
