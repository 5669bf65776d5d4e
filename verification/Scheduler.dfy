/**
 The watch loop's bookkeeping (runner.rs): which assigned runs are started, and when.
 Threads, heartbeats and queue events appear as what each pass of the loop meets.
 */
module Scheduler {
  import opened Common

  datatype AgentRun = AgentRun(id: string, ticket: string)

  // ---------------------------------------------------------------- selecting

  predicate Eligible(run: AgentRun, started: set<string>, busy: set<string>) {
    run.id !in started && run.ticket !in busy
  }

  function Select(offered: seq<AgentRun>, started: set<string>, busy: set<string>, slots: nat): seq<AgentRun> {
    if offered == [] || slots == 0 then []
    else if Eligible(offered[0], started, busy) then
      [offered[0]] + Select(offered[1..], started, busy + {offered[0].ticket}, slots - 1)
    else Select(offered[1..], started, busy, slots)
  }

  /** The tickets some assigned run could be started for. */
  function EligibleTickets(offered: seq<AgentRun>, started: set<string>, busy: set<string>): set<string> {
    set i | 0 <= i < |offered| && Eligible(offered[i], started, busy) :: offered[i].ticket
  }

  function Tickets(runs: seq<AgentRun>): set<string> { set i | 0 <= i < |runs| :: runs[i].ticket }

  predicate OnePerTicket(runs: seq<AgentRun>) {
    forall i, j :: 0 <= i < j < |runs| ==> runs[i].ticket != runs[j].ticket
  }

  lemma EligibleTicketsStep(offered: seq<AgentRun>, started: set<string>, busy: set<string>)
    requires offered != []
    ensures var first, rest := offered[0], offered[1..];
      EligibleTickets(offered, started, busy) ==
        if Eligible(first, started, busy) then {first.ticket} + EligibleTickets(rest, started, busy + {first.ticket})
        else EligibleTickets(rest, started, busy)
  {
    var first, rest := offered[0], offered[1..];
    var all := EligibleTickets(offered, started, busy);
    forall t | t in EligibleTickets(rest, started, busy) ensures t in all {
      var i :| 0 <= i < |rest| && Eligible(rest[i], started, busy) && rest[i].ticket == t;
      assert offered[i + 1] == rest[i];
    }
    forall t | t in EligibleTickets(rest, started, busy + {first.ticket}) ensures t in all && t != first.ticket {
      var i :| 0 <= i < |rest| && Eligible(rest[i], started, busy + {first.ticket}) && rest[i].ticket == t;
      assert offered[i + 1] == rest[i] && Eligible(offered[i + 1], started, busy);
    }
    forall t | t in all && t != first.ticket
      ensures t in EligibleTickets(rest, started, busy) && t in EligibleTickets(rest, started, busy + {first.ticket})
    {
      var i :| 0 <= i < |offered| && Eligible(offered[i], started, busy) && offered[i].ticket == t;
      assert rest[i - 1] == offered[i];
    }
    if !Eligible(first, started, busy) && first.ticket in all {
      var i :| 0 <= i < |offered| && Eligible(offered[i], started, busy) && offered[i].ticket == first.ticket;
      assert rest[i - 1] == offered[i];
    }
    if Eligible(first, started, busy) {
      assert offered[0].ticket in all;
    }
  }

  /**
   A selection is as large as slots and tickets allow, and starts only eligible runs, one
   per ticket.
   */
  lemma {:induction false} SelectionIsMaximal(offered: seq<AgentRun>, started: set<string>, busy: set<string>, slots: nat)
    ensures var picked := Select(offered, started, busy, slots);
      && |picked| == Min(slots, |EligibleTickets(offered, started, busy)|)
      && OnePerTicket(picked)
      && forall i :: 0 <= i < |picked| ==> Eligible(picked[i], started, busy)
    decreases |offered|
  {
    hide EligibleTickets;
    if offered == [] {
      NothingOffered(started, busy);
    } else if slots > 0 {
      var first, rest := offered[0], offered[1..];
      EligibleTicketsStep(offered, started, busy);
      if Eligible(first, started, busy) {
        NotAgain(rest, started, busy + {first.ticket}, first.ticket);
        SelectionIsMaximal(rest, started, busy + {first.ticket}, slots - 1);
      } else {
        SelectionIsMaximal(rest, started, busy, slots);
      }
    }
  }

  lemma NothingOffered(started: set<string>, busy: set<string>)
    ensures EligibleTickets([], started, busy) == {}
  {
  }

  lemma NotAgain(offered: seq<AgentRun>, started: set<string>, busy: set<string>, ticket: string)
    requires ticket in busy
    ensures ticket !in EligibleTickets(offered, started, busy)
  {
  }

  /** `at` places the picks in the offer, in order, each the first eligible run of its ticket. */
  predicate Places(offered: seq<AgentRun>, picked: seq<AgentRun>, at: seq<nat>, started: set<string>, busy: set<string>) {
    && |at| == |picked|
    && (forall i, j :: 0 <= i < j < |at| ==> at[i] < at[j])
    && (forall i :: 0 <= i < |at| ==> at[i] < |offered| && picked[i] == offered[at[i]])
    && (forall i, m :: 0 <= i < |at| && 0 <= m < at[i] && Eligible(offered[m], started, busy) ==>
          offered[m].ticket != picked[i].ticket)
  }

  function Shifted(at: seq<nat>): seq<nat> { seq(|at|, i requires 0 <= i < |at| => at[i] + 1) }

  lemma PlacesSkipped(offered: seq<AgentRun>, picked: seq<AgentRun>, at: seq<nat>, started: set<string>, busy: set<string>)
    requires offered != [] && !Eligible(offered[0], started, busy) && Places(offered[1..], picked, at, started, busy)
    ensures Places(offered, picked, Shifted(at), started, busy)
  {
    var rest := offered[1..];
    assert forall m :: 0 < m < |offered| ==> offered[m] == rest[m - 1];
  }

  lemma PlacesTaken(offered: seq<AgentRun>, picked: seq<AgentRun>, at: seq<nat>, started: set<string>, busy: set<string>)
    requires offered != [] && Places(offered[1..], picked, at, started, busy + {offered[0].ticket})
    requires forall i :: 0 <= i < |picked| ==> picked[i].ticket != offered[0].ticket
    ensures Places(offered, [offered[0]] + picked, [0] + Shifted(at), started, busy)
  {
    var first, rest := offered[0], offered[1..];
    var all, places := [first] + picked, [0] + Shifted(at);
    assert forall m :: 0 < m < |offered| ==> offered[m] == rest[m - 1];
    forall i, m | 0 <= i < |places| && 0 <= m < places[i] && Eligible(offered[m], started, busy)
      ensures offered[m].ticket != all[i].ticket
    {
      assert all[i] == picked[i - 1];
      if m > 0 && offered[m].ticket != first.ticket {
        assert Eligible(rest[m - 1], started, busy + {first.ticket});
      }
    }
    hide Eligible;
  }

  /** A selection keeps the server's order, and takes each ticket's first eligible run. */
  lemma {:induction false} SelectionKeepsOrder(offered: seq<AgentRun>, started: set<string>, busy: set<string>, slots: nat)
    returns (at: seq<nat>)
    ensures Places(offered, Select(offered, started, busy, slots), at, started, busy)
    decreases |offered|
  {
    hide Places, Eligible;
    if offered == [] || slots == 0 {
      at := [];
      NothingPlaced(offered, started, busy);
    } else if Eligible(offered[0], started, busy) {
      var nowBusy := busy + {offered[0].ticket};
      var later := SelectionKeepsOrder(offered[1..], started, nowBusy, slots - 1);
      SelectionIsMaximal(offered[1..], started, nowBusy, slots - 1);
      NotBusy(Select(offered[1..], started, nowBusy, slots - 1), started, nowBusy);
      PlacesTaken(offered, Select(offered[1..], started, nowBusy, slots - 1), later, started, busy);
      at := [0] + Shifted(later);
    } else {
      var later := SelectionKeepsOrder(offered[1..], started, busy, slots);
      PlacesSkipped(offered, Select(offered[1..], started, busy, slots), later, started, busy);
      at := Shifted(later);
    }
  }

  lemma NothingPlaced(offered: seq<AgentRun>, started: set<string>, busy: set<string>)
    ensures Places(offered, [], [], started, busy)
  {
  }

  lemma NotBusy(picked: seq<AgentRun>, started: set<string>, busy: set<string>)
    requires forall i :: 0 <= i < |picked| ==> Eligible(picked[i], started, busy)
    ensures forall i :: 0 <= i < |picked| ==> picked[i].ticket !in busy
  {
  }

  // ---------------------------------------------------------------- the loop

  /** `number` tells spawned threads apart. */
  datatype Task = Task(ticket: string, runId: string, number: nat)

  datatype Config = Config(maxConcurrency: nat, once: bool, exitAfterRun: bool)

  /** What a pass meets; a poll that fails ends the watcher, a failed heartbeat only the pass. */
  datatype Pass = Pass(
    interrupted: bool, finished: set<nat>, drainAtStart: bool, gaveUp: bool, heartbeat: bool,
    drain: bool, polled: Option<seq<AgentRun>>, reachable: set<string>)

  datatype Watch = Watch(tasks: seq<Task>, started: set<string>, spawned: seq<AgentRun>, stopped: bool)

  /** Vec::swap_remove: the last element takes the removed one's place. */
  function SwapRemove(tasks: seq<Task>, i: nat): (r: seq<Task>)
    requires i < |tasks|
    ensures |r| == |tasks| - 1
  {
    var last := |tasks| - 1;
    if i == last then tasks[..last] else tasks[..last][i := tasks[last]]
  }

  function Reap(tasks: seq<Task>, finished: set<nat>, i: nat): seq<Task>
    requires i <= |tasks|
    decreases |tasks| - i
  {
    if i == |tasks| then tasks
    else if tasks[i].number in finished then Reap(SwapRemove(tasks, i), finished, i)
    else Reap(tasks, finished, i + 1)
  }

  /** Start what was selected, except where the ticket cannot be fetched. */
  function Spawn(w: Watch, runs: seq<AgentRun>, reachable: set<string>): Watch {
    if runs == [] then w
    else SpawnOne(Spawn(w, runs[..|runs| - 1], reachable), runs[|runs| - 1], reachable)
  }

  function SpawnOne(w: Watch, run: AgentRun, reachable: set<string>): Watch {
    if run.ticket !in reachable then w
    else Watch(w.tasks + [Task(run.ticket, run.id, |w.spawned|)], w.started + {run.id}, w.spawned + [run], w.stopped)
  }

  function BusyTickets(tasks: seq<Task>): set<string> { set i | 0 <= i < |tasks| :: tasks[i].ticket }

  /** Recovery at startup: the runs still assigned from before, up to the capacity. */
  function Recovered(c: Config, active: seq<AgentRun>, reachable: set<string>): Watch {
    Spawn(Watch([], {}, [], false), Select(active, {}, {}, c.maxConcurrency), reachable)
  }

  function Next(c: Config, w: Watch, p: Pass): Watch {
    if w.stopped then w
    else if p.interrupted then w.(stopped := true)
    else
      var reaped := w.(tasks := Reap(w.tasks, p.finished, 0));
      if p.drainAtStart && reaped.tasks == [] then reaped.(stopped := true)
      else if c.exitAfterRun && reaped.tasks == [] && (reaped.started != {} || p.gaveUp) then reaped.(stopped := true)
      else if !p.heartbeat then reaped
      else
        var slots := if p.drain then 0 else SaturatingSub(c.maxConcurrency, |reaped.tasks|);
        match p.polled
        case None => reaped.(stopped := true)
        case Some(offered) =>
          var chosen := Select(offered, reaped.started, BusyTickets(reaped.tasks), slots);
          Spawn(reaped, chosen, p.reachable).(stopped := c.once)
  }

  function Run(c: Config, active: seq<AgentRun>, reachable: set<string>, passes: seq<Pass>): Watch {
    if passes == [] then Recovered(c, active, reachable)
    else Next(c, Run(c, active, reachable, passes[..|passes| - 1]), passes[|passes| - 1])
  }

  // ---------------------------------------------------------------- safety

  predicate DistinctTickets(tasks: seq<Task>) {
    forall i, j :: 0 <= i < j < |tasks| ==> tasks[i].ticket != tasks[j].ticket
  }

  predicate Inv(c: Config, w: Watch) {
    && |w.tasks| <= c.maxConcurrency && DistinctTickets(w.tasks)
    && (forall i :: 0 <= i < |w.tasks| ==>
          w.tasks[i].number < |w.spawned| && w.spawned[w.tasks[i].number] == AgentRun(w.tasks[i].runId, w.tasks[i].ticket))
    && (forall i :: 0 <= i < |w.spawned| ==> w.spawned[i].id in w.started)
  }

  /** Reaping removes exactly the finished tasks. */
  lemma {:induction false} ReapKeeps(tasks: seq<Task>, finished: set<nat>, i: nat)
    requires i <= |tasks| && DistinctTickets(tasks)
    requires forall k :: 0 <= k < i ==> tasks[k].number !in finished
    ensures var r := Reap(tasks, finished, i);
      && |r| <= |tasks| && DistinctTickets(r)
      && forall t :: t in r <==> t in tasks && t.number !in finished
    decreases |tasks| - i
  {
    if i < |tasks| {
      if tasks[i].number in finished {
        SwapRemoves(tasks, i);
        ReapKeeps(SwapRemove(tasks, i), finished, i);
      } else {
        ReapKeeps(tasks, finished, i + 1);
      }
    }
  }

  lemma SwapRemoves(tasks: seq<Task>, i: nat)
    requires i < |tasks| && DistinctTickets(tasks)
    ensures var r := SwapRemove(tasks, i);
      && DistinctTickets(r) && (forall k :: 0 <= k < i ==> r[k] == tasks[k])
      && forall t :: t in r <==> t in tasks && t != tasks[i]
  {
    var r, last := SwapRemove(tasks, i), |tasks| - 1;
    forall t | t in tasks && t != tasks[i] ensures t in r {
      var k :| 0 <= k < |tasks| && tasks[k] == t;
      assert r[if k == last then i else k] == t;
    }
    forall t | t in r ensures t in tasks && t != tasks[i] {
      var k :| 0 <= k < |r| && r[k] == t;
      assert t == tasks[if k == i then last else k];
    }
  }

  /** Ids do not stand for two tickets in one answer of the server. */
  predicate OneTicketPerId(offered: seq<AgentRun>) {
    forall i, j :: 0 <= i < |offered| && 0 <= j < |offered| && offered[i].id == offered[j].id ==>
      offered[i].ticket == offered[j].ticket
  }

  predicate DistinctIds(runs: seq<AgentRun>) {
    forall i, j :: 0 <= i < j < |runs| ==> runs[i].id != runs[j].id
  }

  lemma SelectedIdsDistinct(offered: seq<AgentRun>, started: set<string>, busy: set<string>, slots: nat)
    requires OneTicketPerId(offered)
    ensures DistinctIds(Select(offered, started, busy, slots))
  {
    var at := SelectionKeepsOrder(offered, started, busy, slots);
    SelectionIsMaximal(offered, started, busy, slots);
  }

  /**
   Whatever was started before and whatever is busy, one answer never starts a run twice:
   exactly when it gives each id one ticket.
   */
  lemma SelectsOnceExactly(offered: seq<AgentRun>)
    ensures OneTicketPerId(offered) <==>
      forall started: set<string>, busy: set<string>, slots: nat :: DistinctIds(Select(offered, started, busy, slots))
  {
    if OneTicketPerId(offered) {
      forall started: set<string>, busy: set<string>, slots: nat ensures DistinctIds(Select(offered, started, busy, slots)) {
        SelectedIdsDistinct(offered, started, busy, slots);
      }
    } else {
      var i, j :| 0 <= i < |offered| && 0 <= j < |offered|
        && offered[i].id == offered[j].id && offered[i].ticket != offered[j].ticket;
      var others := (set k | 0 <= k < |offered| :: offered[k].id) - {offered[i].id};
      TwoTicketsPickTwo(offered, others, i, j);
      assert !DistinctIds(Select(offered, others, {}, |offered|));
    }
  }

  lemma TwoTicketsPickTwo(offered: seq<AgentRun>, others: set<string>, i: nat, j: nat)
    requires i < |offered| && j < |offered|
    requires offered[i].id == offered[j].id && offered[i].ticket != offered[j].ticket
    requires others == (set k | 0 <= k < |offered| :: offered[k].id) - {offered[i].id}
    ensures !DistinctIds(Select(offered, others, {}, |offered|))
  {
    hide Select, OnePerTicket;
    var picked := Select(offered, others, {}, |offered|);
    SelectionIsMaximal(offered, others, {}, |offered|);
    var at := SelectionKeepsOrder(offered, others, {}, |offered|);
    var tickets := EligibleTickets(offered, others, {});
    var a, b := offered[i].ticket, offered[j].ticket;
    assert a in tickets && b in tickets;
    assert |tickets - {a, b}| == |tickets| - |{a, b}|;
    assert picked[0] == offered[at[0]] && picked[1] == offered[at[1]];
    assert picked[0].id == picked[1].id;
  }

  /** What can be started next to the running tasks. */
  predicate Startable(w: Watch, runs: seq<AgentRun>) {
    && OnePerTicket(runs)
    && forall i :: 0 <= i < |runs| ==> Eligible(runs[i], w.started, BusyTickets(w.tasks))
  }

  lemma {:induction false} SpawnInv(c: Config, w: Watch, runs: seq<AgentRun>, reachable: set<string>)
    requires Inv(c, w) && Startable(w, runs) && |w.tasks| + |runs| <= c.maxConcurrency
    ensures var v := Spawn(w, runs, reachable);
      && Inv(c, v) && |v.tasks| <= |w.tasks| + |runs| && w.started <= v.started && w.spawned <= v.spawned
      && (forall t :: t in BusyTickets(v.tasks) ==> t in BusyTickets(w.tasks) || t in Tickets(runs))
      && v.stopped == w.stopped
  {
    if runs != [] {
      hide Inv, SpawnOne;
      var front, run := runs[..|runs| - 1], runs[|runs| - 1];
      SpawnInv(c, w, front, reachable);
      var before := Spawn(w, front, reachable);
      assert Tickets(runs) == Tickets(front) + {run.ticket};
      forall t | t in BusyTickets(before.tasks) ensures t != run.ticket {
        if t in Tickets(front) {
          var i :| 0 <= i < |front| && front[i].ticket == t;
          assert runs[i] == front[i];
        }
      }
      SpawnOneInv(c, before, run, reachable);
    }
  }

  lemma SpawnOneInv(c: Config, w: Watch, run: AgentRun, reachable: set<string>)
    requires Inv(c, w) && |w.tasks| < c.maxConcurrency && run.ticket !in BusyTickets(w.tasks)
    ensures var v := SpawnOne(w, run, reachable);
      && Inv(c, v) && |v.tasks| <= |w.tasks| + 1 && w.started <= v.started && w.spawned <= v.spawned
      && BusyTickets(v.tasks) <= BusyTickets(w.tasks) + {run.ticket} && v.stopped == w.stopped
  {
    assert forall i :: 0 <= i < |w.tasks| ==> w.tasks[i].ticket in BusyTickets(w.tasks);
  }

  lemma SelectStartable(w: Watch, offered: seq<AgentRun>, slots: nat)
    ensures Startable(w, Select(offered, w.started, BusyTickets(w.tasks), slots))
    ensures |Select(offered, w.started, BusyTickets(w.tasks), slots)| <= slots
  {
    SelectionIsMaximal(offered, w.started, BusyTickets(w.tasks), slots);
  }

  lemma ReapInv(c: Config, w: Watch, finished: set<nat>)
    requires Inv(c, w)
    ensures Inv(c, w.(tasks := Reap(w.tasks, finished, 0)))
  {
    ReapKeeps(w.tasks, finished, 0);
    var r := Reap(w.tasks, finished, 0);
    forall i | 0 <= i < |r|
      ensures r[i].number < |w.spawned| && w.spawned[r[i].number] == AgentRun(r[i].runId, r[i].ticket)
    {
      assert r[i] in r;
      var k :| 0 <= k < |w.tasks| && w.tasks[k] == r[i];
    }
  }

  lemma NextInv(c: Config, w: Watch, p: Pass)
    requires Inv(c, w)
    ensures Inv(c, Next(c, w, p)) && w.spawned <= Next(c, w, p).spawned && w.started <= Next(c, w, p).started
    ensures p.drain ==> Next(c, w, p).spawned == w.spawned
  {
    hide Inv, Spawn, Select, Reap, Startable;
    ReapInv(c, w, p.finished);
    var reaped := w.(tasks := Reap(w.tasks, p.finished, 0));
    if p.polled.Some? {
      var slots := if p.drain then 0 else SaturatingSub(c.maxConcurrency, |reaped.tasks|);
      SelectStartable(reaped, p.polled.value, slots);
      InvBounds(c, reaped);
      var chosen := Select(p.polled.value, reaped.started, BusyTickets(reaped.tasks), slots);
      SpawnInv(c, reaped, chosen, p.reachable);
      NothingSpawned(reaped, p.reachable);
      StoppedInv(c, Spawn(reaped, chosen, p.reachable), c.once);
    }
    StoppedInv(c, w, true);
    StoppedInv(c, reaped, true);
  }

  lemma NothingSpawned(w: Watch, reachable: set<string>)
    ensures Spawn(w, [], reachable) == w
  {
  }

  lemma InvBounds(c: Config, w: Watch)
    requires Inv(c, w)
    ensures |w.tasks| <= c.maxConcurrency
  {
  }

  lemma StoppedInv(c: Config, w: Watch, stopped: bool)
    ensures Inv(c, w.(stopped := stopped)) == Inv(c, w)
  {
  }

  lemma {:induction false} RunInv(c: Config, active: seq<AgentRun>, reachable: set<string>, passes: seq<Pass>)
    ensures Inv(c, Run(c, active, reachable, passes))
  {
    if passes == [] {
      var empty := Watch([], {}, [], false);
      assert BusyTickets(empty.tasks) == {};
      SelectStartable(empty, active, c.maxConcurrency);
      SpawnInv(c, empty, Select(active, {}, {}, c.maxConcurrency), reachable);
    } else {
      RunInv(c, active, reachable, passes[..|passes| - 1]);
      NextInv(c, Run(c, active, reachable, passes[..|passes| - 1]), passes[|passes| - 1]);
    }
  }

  /** The drain flag, once seen, stays. */
  predicate Sticky(passes: seq<Pass>) { forall i, j :: 0 <= i < j < |passes| && passes[i].drain ==> passes[j].drain }

  /** Nothing is spawned from the first pass that sees the drain to the end of the run. */
  lemma {:induction false} DrainedSpawnsNothing(c: Config, active: seq<AgentRun>, reachable: set<string>, passes: seq<Pass>, k: nat)
    requires Sticky(passes) && k < |passes| && passes[k].drain
    ensures Run(c, active, reachable, passes).spawned == Run(c, active, reachable, passes[..k]).spawned
  {
    hide Next, Inv;
    var front, last := passes[..|passes| - 1], passes[|passes| - 1];
    RunInv(c, active, reachable, front);
    NextInv(c, Run(c, active, reachable, front), last);
    if k < |passes| - 1 {
      assert front[k] == passes[k] && front[..k] == passes[..k];
      DrainedSpawnsNothing(c, active, reachable, front, k);
    }
  }

  /**
   Over every run of the watch loop: never more tasks than the capacity, never two for one
   ticket, and each task one of the spawned runs.
   */
  lemma WatchIsSafe(c: Config, active: seq<AgentRun>, reachable: set<string>, passes: seq<Pass>)
    ensures var w := Run(c, active, reachable, passes);
      && |w.tasks| <= c.maxConcurrency && DistinctTickets(w.tasks)
      && (forall i :: 0 <= i < |w.tasks| ==>
            w.tasks[i].number < |w.spawned| && w.spawned[w.tasks[i].number] == AgentRun(w.tasks[i].runId, w.tasks[i].ticket))
  {
    hide Run;
    RunInv(c, active, reachable, passes);
  }

  // ---------------------------------------------------------------- one pass, exactly

  /** The runs whose ticket could be fetched. */
  function Fetched(runs: seq<AgentRun>, reachable: set<string>): seq<AgentRun> {
    if runs == [] then []
    else
      var run := runs[|runs| - 1];
      Fetched(runs[..|runs| - 1], reachable) + if run.ticket in reachable then [run] else []
  }

  /** Starting runs: each one fetched gets a task of its own, in order, and what there was stays. */
  lemma {:induction false} SpawnedExactly(w: Watch, runs: seq<AgentRun>, reachable: set<string>)
    ensures var v, fetched := Spawn(w, runs, reachable), Fetched(runs, reachable);
      && v.spawned == w.spawned + fetched && v.stopped == w.stopped
      && v.started == w.started + (set run | run in fetched :: run.id)
      && |v.tasks| == |w.tasks| + |fetched| && v.tasks[..|w.tasks|] == w.tasks
      && forall i :: 0 <= i < |fetched| ==>
           v.tasks[|w.tasks| + i] == Task(fetched[i].ticket, fetched[i].id, |w.spawned| + i)
  {
    if runs != [] {
      SpawnedExactly(w, runs[..|runs| - 1], reachable);
    }
  }

  /** The tasks still running when the pass looks. */
  function Unfinished(w: Watch, p: Pass): set<Task> { set t | t in w.tasks && t.number !in p.finished }

  function TicketsOf(tasks: set<Task>): set<string> { set t | t in tasks :: t.ticket }

  lemma {:induction false} DistinctCount(tasks: seq<Task>)
    requires DistinctTickets(tasks)
    ensures |set t | t in tasks| == |tasks|
  {
    if tasks != [] {
      var front, last := tasks[..|tasks| - 1], tasks[|tasks| - 1];
      DistinctCount(front);
      assert (set t | t in tasks) == (set t | t in front) + {last};
      assert last !in front;
    }
  }

  /** What is left after reaping: the unfinished tasks, no matter in which order. */
  lemma ReapedExactly(w: Watch, p: Pass)
    requires DistinctTickets(w.tasks)
    ensures var reaped := Reap(w.tasks, p.finished, 0);
      && |reaped| == |Unfinished(w, p)| && (forall t :: t in reaped <==> t in Unfinished(w, p))
      && BusyTickets(reaped) == TicketsOf(Unfinished(w, p))
  {
    hide Reap, DistinctTickets;
    ReapKeeps(w.tasks, p.finished, 0);
    var reaped := Reap(w.tasks, p.finished, 0);
    DistinctCount(reaped);
    assert (set t | t in reaped) == Unfinished(w, p);
    forall ticket ensures ticket in BusyTickets(reaped) <==> ticket in TicketsOf(Unfinished(w, p)) {
      if ticket in BusyTickets(reaped) {
        var i :| 0 <= i < |reaped| && reaped[i].ticket == ticket;
        assert reaped[i] in reaped;
      }
      if ticket in TicketsOf(Unfinished(w, p)) {
        var t :| t in Unfinished(w, p) && t.ticket == ticket;
        assert t in reaped;
      }
    }
  }

  /** The watcher is told to stop, or has nothing left to wait for. */
  predicate Quits(c: Config, w: Watch, p: Pass) {
    || p.interrupted
    || (Unfinished(w, p) == {} && p.drainAtStart)
    || (Unfinished(w, p) == {} && c.exitAfterRun && (w.started != {} || p.gaveUp))
  }

  /** The pass gets as far as being offered runs. */
  predicate Offered(c: Config, w: Watch, p: Pass) { !Quits(c, w, p) && p.heartbeat && p.polled.Some? }

  /** The places for new runs: none once draining, and otherwise what the unfinished tasks leave. */
  function FreeSlots(c: Config, w: Watch, p: Pass): nat {
    if p.drain then 0 else SaturatingSub(c.maxConcurrency, |Unfinished(w, p)|)
  }

  /**
   One pass of the watcher: when it is the last; which tasks are left; and what it starts,
   which is as many of the offered runs, one a ticket, as there are places and tickets that
   are neither running nor done.
   */
  lemma PassExactly(c: Config, w: Watch, p: Pass)
    requires DistinctTickets(w.tasks) && !w.stopped
    ensures var v := Next(c, w, p);
      v.stopped <==> Quits(c, w, p) || (p.heartbeat && (p.polled.None? || c.once))
    ensures var v := Next(c, w, p);
      !Offered(c, w, p) ==>
        && v.spawned == w.spawned && v.started == w.started
        && forall t :: t in v.tasks <==> t in (if p.interrupted then (set t | t in w.tasks) else Unfinished(w, p))
    ensures var v := Next(c, w, p);
      Offered(c, w, p) ==>
        var busy := TicketsOf(Unfinished(w, p));
        var chosen := Select(p.polled.value, w.started, busy, FreeSlots(c, w, p));
        && |chosen| == Min(FreeSlots(c, w, p), |EligibleTickets(p.polled.value, w.started, busy)|) && OnePerTicket(chosen)
        && v.spawned == w.spawned + Fetched(chosen, p.reachable)
        && v.started == w.started + (set run | run in Fetched(chosen, p.reachable) :: run.id)
        && |v.tasks| == |Unfinished(w, p)| + |Fetched(chosen, p.reachable)|
        && (forall t :: t in Unfinished(w, p) ==> t in v.tasks)
  {
    hide Select, Spawn, Reap, EligibleTickets, OnePerTicket, DistinctTickets, Unfinished;
    ReapedExactly(w, p);
    var reaped := w.(tasks := Reap(w.tasks, p.finished, 0));
    NoneLeft(w, p, reaped.tasks);
    if p.polled.Some? {
      var chosen := Select(p.polled.value, w.started, BusyTickets(reaped.tasks), FreeSlots(c, w, p));
      SelectionIsMaximal(p.polled.value, w.started, BusyTickets(reaped.tasks), FreeSlots(c, w, p));
      SpawnedExactly(reaped, chosen, p.reachable);
      var v := Spawn(reaped, chosen, p.reachable);
      forall t | t in reaped.tasks ensures t in v.tasks {
        assert t in v.tasks[..|reaped.tasks|];
      }
    }
  }

  lemma NoneLeft(w: Watch, p: Pass, tasks: seq<Task>)
    requires |tasks| == |Unfinished(w, p)|
    ensures tasks == [] <==> Unfinished(w, p) == {}
  {
  }

  predicate AnswersFit(active: seq<AgentRun>, passes: seq<Pass>) {
    OneTicketPerId(active)
    && forall i :: 0 <= i < |passes| && passes[i].polled.Some? ==> OneTicketPerId(passes[i].polled.value)
  }

  lemma {:induction false} SpawnOnce(c: Config, w: Watch, runs: seq<AgentRun>, reachable: set<string>)
    requires DistinctIds(w.spawned) && DistinctIds(runs)
    requires forall i :: 0 <= i < |w.spawned| ==> w.spawned[i].id in w.started
    requires forall i :: 0 <= i < |runs| ==> runs[i].id !in w.started
    ensures var v := Spawn(w, runs, reachable);
      && DistinctIds(v.spawned)
      && (forall i :: 0 <= i < |v.spawned| ==> v.spawned[i] in w.spawned || v.spawned[i] in runs)
  {
    if runs != [] {
      var front, run := runs[..|runs| - 1], runs[|runs| - 1];
      SpawnOnce(c, w, front, reachable);
      var before := Spawn(w, front, reachable);
      forall i | 0 <= i < |before.spawned|
        ensures before.spawned[i].id != run.id && (before.spawned[i] in w.spawned || before.spawned[i] in runs)
      {
        if before.spawned[i] in w.spawned {
          var k :| 0 <= k < |w.spawned| && w.spawned[k] == before.spawned[i];
        } else {
          var k :| 0 <= k < |front| && front[k] == before.spawned[i];
          assert runs[k] == before.spawned[i];
        }
      }
      assert runs[|runs| - 1] in runs;
    }
  }

  /** When the server gives each run one ticket per answer, no run is ever spawned twice. */
  lemma {:induction false} RunsSpawnOnce(c: Config, active: seq<AgentRun>, reachable: set<string>, passes: seq<Pass>)
    requires AnswersFit(active, passes)
    ensures DistinctIds(Run(c, active, reachable, passes).spawned)
  {
    if passes == [] {
      var empty := Watch([], {}, [], false);
      SelectedIdsDistinct(active, {}, {}, c.maxConcurrency);
      SelectionIsMaximal(active, {}, {}, c.maxConcurrency);
      SpawnOnce(c, empty, Select(active, {}, {}, c.maxConcurrency), reachable);
    } else {
      var front, p := passes[..|passes| - 1], passes[|passes| - 1];
      assert AnswersFit(active, front);
      RunsSpawnOnce(c, active, reachable, front);
      RunInv(c, active, reachable, front);
      var w := Run(c, active, reachable, front);
      NextSpawnsOnce(c, w, p);
    }
  }

  lemma NextSpawnsOnce(c: Config, w: Watch, p: Pass)
    requires Inv(c, w) && DistinctIds(w.spawned) && (p.polled.Some? ==> OneTicketPerId(p.polled.value))
    ensures DistinctIds(Next(c, w, p).spawned)
  {
    hide Spawn, Select, Reap, OneTicketPerId;
    if p.polled.Some? {
      var reaped := w.(tasks := Reap(w.tasks, p.finished, 0));
      var slots := if p.drain then 0 else SaturatingSub(c.maxConcurrency, |reaped.tasks|);
      SelectedIdsDistinct(p.polled.value, w.started, BusyTickets(reaped.tasks), slots);
      SelectionIsMaximal(p.polled.value, w.started, BusyTickets(reaped.tasks), slots);
      SpawnOnce(c, reaped, Select(p.polled.value, w.started, BusyTickets(reaped.tasks), slots), p.reachable);
    }
  }

  /** An answer that lists one run under two tickets starts it twice. */
  lemma TwoTicketsSpawnTwice()
    ensures var c := Config(2, false, false);
      var twice := [AgentRun("r", "a"), AgentRun("r", "b")];
      var w := Run(c, twice, {"a", "b"}, []);
      !OneTicketPerId(twice) && w.spawned == twice && |w.tasks| == 2
  {
    var twice := [AgentRun("r", "a"), AgentRun("r", "b")];
    assert twice[0].ticket != twice[1].ticket;
    assert twice[1..] == [AgentRun("r", "b")] && twice[1..][1..] == [];
    assert Select(twice[1..], {}, {} + {"a"}, 1) == [AgentRun("r", "b")];
    assert Select(twice, {}, {}, 2) == twice;
    assert twice[..1] == [AgentRun("r", "a")] && twice[..1][..0] == [];
    var empty := Watch([], {}, [], false);
    assert Spawn(empty, [], {"a", "b"}) == empty;
    assert Spawn(empty, twice[..1], {"a", "b"}).spawned == [twice[0]];
  }

  // ---------------------------------------------------------------- the watcher

  method SelectUnstartedAssignments(offered: seq<AgentRun>, started: set<string>, busy: set<string>, slots: nat)
    returns (picked: seq<AgentRun>)
    ensures picked == Select(offered, started, busy, slots)
  {
    picked := [];
    var taken := busy;
    var i := 0;
    while i < |offered| && |picked| < slots
      invariant 0 <= i <= |offered| && |picked| <= slots
      invariant picked + Select(offered[i..], started, taken, slots - |picked|) == Select(offered, started, busy, slots)
    {
      assert offered[i..][1..] == offered[i + 1..];
      var run := offered[i];
      if run.id !in started && run.ticket !in taken {
        taken := taken + {run.ticket};
        picked := picked + [run];
      }
      i := i + 1;
    }
  }

  class Watcher {
    const config: Config
    var tasks: seq<Task>
    var started: set<string>
    var spawned: seq<AgentRun>
    var stopped: bool

    function State(): Watch
      reads this
    {
      Watch(tasks, started, spawned, stopped)
    }

    /** Resumes what was still assigned. */
    constructor (config: Config, active: seq<AgentRun>, reachable: set<string>)
      ensures this.config == config && State() == Recovered(config, active, reachable)
    {
      this.config, tasks, started, spawned, stopped := config, [], {}, [], false;
      new;
      var chosen := SelectUnstartedAssignments(active, {}, {}, config.maxConcurrency);
      SpawnAll(chosen, reachable);
    }

    method SpawnAll(runs: seq<AgentRun>, reachable: set<string>)
      modifies this
      ensures State() == Spawn(old(State()), runs, reachable)
    {
      ghost var w := State();
      for i := 0 to |runs|
        invariant State() == Spawn(w, runs[..i], reachable)
      {
        assert runs[..i + 1][..i] == runs[..i];
        if runs[i].ticket in reachable {
          started := started + {runs[i].id};
          tasks := tasks + [Task(runs[i].ticket, runs[i].id, |spawned|)];
          spawned := spawned + [runs[i]];
        }
      }
      assert runs[..|runs|] == runs;
    }

    /** Join finished threads. */
    method ReapFinished(finished: set<nat>)
      modifies `tasks
      ensures tasks == Reap(old(tasks), finished, 0)
    {
      var index := 0;
      while index < |tasks|
        invariant 0 <= index <= |tasks|
        invariant Reap(tasks, finished, index) == Reap(old(tasks), finished, 0)
        decreases |tasks| - index
      {
        if tasks[index].number in finished {
          tasks := SwapRemove(tasks, index);
        } else {
          index := index + 1;
        }
      }
    }

    /** One pass of the loop. */
    method Poll(p: Pass)
      modifies this
      ensures State() == Next(config, old(State()), p)
    {
      if stopped {
        return;
      }
      if p.interrupted {
        stopped := true;
        return;
      }
      ReapFinished(p.finished);
      if p.drainAtStart && tasks == [] {
        stopped := true;
        return;
      }
      if config.exitAfterRun && tasks == [] && (started != {} || p.gaveUp) {
        stopped := true;
        return;
      }
      if !p.heartbeat {
        return;
      }
      var slots := if p.drain then 0 else SaturatingSub(config.maxConcurrency, |tasks|);
      if p.polled.None? {
        stopped := true;
        return;
      }
      var chosen := SelectUnstartedAssignments(p.polled.value, started, BusyTickets(tasks), slots);
      SpawnAll(chosen, p.reachable);
      stopped := config.once;
    }
  }
}
