/** The persisted task queue (core/queue_manager.py): a hash per task, a sorted set per task
    type, and the registry in memory. Redis is modelled as maps.

    Every operation touches one task at a time, so most statements are about the `View` of
    one id: what each of the stores says about it. */
module TaskQueue {
  import opened Basics

  datatype Id = Id(n: nat)

  datatype Kind = Agent | Tool | OtherKind

  datatype Status = Created | Queued | Running | Completed | Failed | Canceled

  /** A persisted hash. `valid` says whether it parses back into a task; its id field, when
      present, equals its key. `stamp` is the time of the last update. */
  datatype Hash = Hash(kind: Kind, status: Status, valid: bool, priority: int, stamp: real, external: bool)

  datatype Store = Store(
    hashes: map<Id, Hash>,
    agent: map<Id, real>,
    tool: map<Id, real>,
    memory: map<Id, Hash>,
    quarantine: set<Id>)

  datatype View = View(hash: Option<Hash>, agent: Option<real>, tool: Option<real>, memory: Option<Hash>,
    quarantined: bool)

  const MAJOR := 1000000000000.0

  /** Priority first, arrival second. */
  function Score(priority: int, stamp: real): real { priority as real * MAJOR + stamp }

  function Get<V>(m: map<Id, V>, id: Id): Option<V> { if id in m then Some(m[id]) else None }

  function Set<V>(m: map<Id, V>, id: Id, v: Option<V>): map<Id, V> { if v.Some? then m[id := v.value] else m - {id} }

  function Seen(s: Store, id: Id): View {
    View(Get(s.hashes, id), Get(s.agent, id), Get(s.tool, id), Get(s.memory, id), id in s.quarantine)
  }

  function Put(s: Store, id: Id, v: View): Store {
    Store(Set(s.hashes, id, v.hash), Set(s.agent, id, v.agent), Set(s.tool, id, v.tool), Set(s.memory, id, v.memory),
          if v.quarantined then s.quarantine + {id} else s.quarantine - {id})
  }

  lemma PutIsLocal(s: Store, id: Id, v: View, other: Id)
    ensures Seen(Put(s, id, v), other) == if other == id then v else Seen(s, other)
  {
  }

  function Entry(v: View, kind: Kind): Option<real> {
    match kind
    case Agent => v.agent
    case Tool => v.tool
    case OtherKind => None
  }

  function SetEntry(v: View, kind: Kind, e: Option<real>): View {
    match kind
    case Agent => v.(agent := e)
    case Tool => v.(tool := e)
    case OtherKind => v
  }

  // ---- startup recovery, one task at a time -----------------------------------------

  /** A quarantined task gets a terminal status; a missing hash is created by that. */
  function Quarantined(v: View, now: real): View {
    var h := if v.hash.Some? then v.hash.value.(status := Failed, stamp := now)
      else Hash(OtherKind, Failed, false, 0, now, false);
    v.(hash := Some(h), quarantined := true)
  }

  predicate Restorable(v: View) { v.hash.Some? && v.hash.value.valid && v.hash.value.status == Queued }

  /** First loop: a member of the queue of `kind`. */
  function Member(v: View, kind: Kind, now: real): View {
    if Restorable(v) && v.hash.value.kind == kind then v.(memory := v.hash)
    else Quarantined(SetEntry(v, kind, None), now)
  }

  /** Second loop: one key of the scan over all hashes. */
  function Scanned(v: View, now: real): View {
    if v.hash.None? then v
    else
      var h := v.hash.value;
      if h.status == Queued && v.memory.None? then
        if h.valid && h.kind != OtherKind then SetEntry(v, h.kind, Some(Score(h.priority, h.stamp))).(memory := v.hash)
        else Quarantined(v, now)
      else if h.status == Running then v.(hash := Some(h.(status := Failed, stamp := now)), agent := None, tool := None)
      else v
  }

  function MemberStep(s: Store, id: Id, kind: Kind, now: real): Store { Put(s, id, Member(Seen(s, id), kind, now)) }

  function ScanStep(s: Store, id: Id, now: real): Store { Put(s, id, Scanned(Seen(s, id), now)) }

  function Members(s: Store, ids: seq<Id>, kind: Kind, now: real): Store
    decreases |ids|
  {
    if ids == [] then s else Members(MemberStep(s, ids[0], kind, now), ids[1..], kind, now)
  }

  function Scan(s: Store, ids: seq<Id>, now: real): Store
    decreases |ids|
  {
    if ids == [] then s else Scan(ScanStep(s, ids[0], now), ids[1..], now)
  }

  /** `agents` and `tools` list the two queues, `keys` the hashes, in any order. */
  function Recovered(s: Store, agents: seq<Id>, tools: seq<Id>, keys: seq<Id>, now: real): Store {
    Scan(Members(Members(s, agents, Agent, now), tools, Tool, now), keys, now)
  }

  // ---- the queue manager ------------------------------------------------------------

  class QueueManager {
    var hashes: map<Id, Hash>
    var agent: map<Id, real>
    var tool: map<Id, real>
    var tasks: map<Id, Hash>
    var quarantine: set<Id>

    function State(): Store
      reads this
    {
      Store(hashes, agent, tool, tasks, quarantine)
    }

    constructor (hashes: map<Id, Hash>, agent: map<Id, real>, tool: map<Id, real>, quarantine: set<Id>)
      ensures State() == Store(hashes, agent, tool, map[], quarantine)
    {
      this.hashes, this.agent, this.tool, this.tasks, this.quarantine := hashes, agent, tool, map[], quarantine;
    }

    method MarkQuarantined(id: Id, now: real)
      modifies `hashes, `quarantine
      ensures State() == Put(old(State()), id, Quarantined(Seen(old(State()), id), now))
    {
      quarantine := quarantine + {id};
      if id in hashes {
        hashes := hashes[id := hashes[id].(status := Failed, stamp := now)];
      } else {
        hashes := hashes[id := Hash(OtherKind, Failed, false, 0, now, false)];
      }
    }

    method Remove(id: Id, kind: Kind)
      modifies `agent, `tool
      ensures State() == Put(old(State()), id, SetEntry(Seen(old(State()), id), kind, None))
    {
      match kind {
        case Agent => agent := agent - {id};
        case Tool => tool := tool - {id};
        case OtherKind =>
      }
    }

    method RecoverMember(id: Id, kind: Kind, now: real)
      modifies `hashes, `agent, `tool, `tasks, `quarantine
      ensures State() == MemberStep(old(State()), id, kind, now)
    {
      if id in hashes && hashes[id].valid && hashes[id].status == Queued && hashes[id].kind == kind {
        tasks := tasks[id := hashes[id]];
      } else {
        Remove(id, kind);
        MarkQuarantined(id, now);
      }
    }

    method RecoverKey(id: Id, now: real)
      modifies `hashes, `agent, `tool, `tasks, `quarantine
      ensures State() == ScanStep(old(State()), id, now)
    {
      if id !in hashes { return; }
      var h := hashes[id];
      if h.status == Queued && id !in tasks {
        if h.valid && h.kind != OtherKind {
          if h.kind == Agent { agent := agent[id := Score(h.priority, h.stamp)]; }
            else { tool := tool[id := Score(h.priority, h.stamp)]; }
          tasks := tasks[id := h];
        } else {
          MarkQuarantined(id, now);
        }
      } else if h.status == Running {
        hashes := hashes[id := h.(status := Failed, stamp := now)];
        agent, tool := agent - {id}, tool - {id};
      }
    }

    method RecoverQueue(ids: seq<Id>, kind: Kind, now: real)
      modifies `hashes, `agent, `tool, `tasks, `quarantine
      ensures State() == Members(old(State()), ids, kind, now)
    {
      var rest := ids;
      while rest != []
        invariant Members(State(), rest, kind, now) == Members(old(State()), ids, kind, now)
        decreases |rest|
      {
        RecoverMember(rest[0], kind, now);
        rest := rest[1..];
      }
    }

    method RecoverKeys(ids: seq<Id>, now: real)
      modifies `hashes, `agent, `tool, `tasks, `quarantine
      ensures State() == Scan(old(State()), ids, now)
    {
      var rest := ids;
      while rest != []
        invariant Scan(State(), rest, now) == Scan(old(State()), ids, now)
        decreases |rest|
      {
        RecoverKey(rest[0], now);
        rest := rest[1..];
      }
    }

    method RecoverStartupTasks(agents: seq<Id>, tools: seq<Id>, keys: seq<Id>, now: real)
      modifies `hashes, `agent, `tool, `tasks, `quarantine
      ensures State() == Recovered(old(State()), agents, tools, keys, now)
    {
      RecoverQueue(agents, Agent, now);
      RecoverQueue(tools, Tool, now);
      RecoverKeys(keys, now);
    }

    method Enqueue(id: Id, kind: Kind, score: real)
      modifies `agent, `tool
      ensures agent == if kind == Agent then old(agent)[id := score] else old(agent)
      ensures tool == if kind == Tool then old(tool)[id := score] else old(tool)
    {
      match kind {
        case Agent => agent := agent[id := score];
        case Tool => tool := tool[id := score];
        case OtherKind =>
      }
    }

    method AddTask(id: Id, task: Hash, now: real)
      modifies `hashes, `agent, `tool, `tasks
      ensures State() == Put(old(State()), id, Added(Seen(old(State()), id), task, now))
    {
      var queued := task.(status := Queued, stamp := now);
      Enqueue(id, task.kind, Score(task.priority, now));
      hashes, tasks := hashes[id := queued], tasks[id := queued];
    }

    method PopNext(kind: Kind) returns (popped: Option<Id>)
      requires kind != OtherKind
      modifies `agent, `tool
      ensures popped.None? <==> QueueOf(old(State()), kind) == map[]
      ensures popped.Some? ==> Least(QueueOf(old(State()), kind), popped.value)
      ensures State() == if popped.None? then old(State()) else
        Put(old(State()), popped.value, SetEntry(Seen(old(State()), popped.value), kind, None))
    {
      var queue := if kind == Agent then agent else tool;
      if queue == map[] { return None; }
      LeastExists(queue);
      var id :| Least(queue, id);
      Remove(id, kind);
      return Some(id);
    }

    method SetStatus(id: Id, status: Status, now: real)
      requires id in hashes
      modifies `hashes, `tasks
      ensures State() == Put(old(State()), id, Marked(Seen(old(State()), id), status, now))
    {
      hashes := hashes[id := hashes[id].(status := status, stamp := now)];
      if id in tasks { tasks := tasks[id := tasks[id].(status := status, stamp := now)]; }
    }

    method DeleteTask(id: Id, now: real)
      modifies `hashes, `agent, `tool, `tasks
      ensures State() == Put(old(State()), id, Dropped(Seen(old(State()), id), now))
    {
      var external := id in tasks && tasks[id].external;
      if external && (tasks[id].status == Created || tasks[id].status == Queued) {
        hashes := hashes[id := tasks[id].(status := Canceled, stamp := now)];
      }
      tasks := tasks - {id};
      if !external { hashes := hashes - {id}; }
      agent, tool := agent - {id}, tool - {id};
    }
  }

  // ---- recovery restores agreement --------------------------------------------------

  /** Every store says the same about a task, and nothing is left running. */
  predicate Agreed(v: View) {
    match v.hash
    case None => v.agent.None? && v.tool.None? && v.memory.None?
    case Some(h) =>
      if h.status == Queued then
        v.memory == v.hash && h.kind != OtherKind && Entry(v, h.kind).Some? &&
          (if h.kind == Agent then v.tool.None? else v.agent.None?)
      else h.status != Running && v.agent.None? && v.tool.None? && v.memory.None?
  }

  /** What recovery makes of one task. */
  function Restored(v: View, now: real): View {
    var a := if v.agent.Some? then Member(v, Agent, now) else v;
    var t := if v.tool.Some? then Member(a, Tool, now) else a;
    Scanned(t, now)
  }

  /** The agent loop keeps the task and the tool loop then condemns it. */
  predicate Torn(v: View) { v.agent.Some? && v.tool.Some? && Restorable(v) && v.hash.value.kind == Agent }

  lemma {:induction false} MembersAt(s: Store, ids: seq<Id>, kind: Kind, now: real, id: Id)
    ensures Seen(Members(s, ids, kind, now), id) == if id in ids then Member(Seen(s, id), kind, now) else Seen(s, id)
    decreases |ids|
  {
    if ids != [] {
      PutIsLocal(s, ids[0], Member(Seen(s, ids[0]), kind, now), id);
      MembersAt(MemberStep(s, ids[0], kind, now), ids[1..], kind, now, id);
      MemberTwice(Seen(s, id), kind, now);
    }
  }

  lemma MemberTwice(v: View, kind: Kind, now: real)
    ensures Member(Member(v, kind, now), kind, now) == Member(v, kind, now)
  {
  }

  lemma ScannedTwice(v: View, now: real)
    ensures Scanned(Scanned(v, now), now) == Scanned(v, now)
  {
  }

  lemma {:induction false} ScanAt(s: Store, ids: seq<Id>, now: real, id: Id)
    ensures Seen(Scan(s, ids, now), id) == if id in ids then Scanned(Seen(s, id), now) else Seen(s, id)
    decreases |ids|
  {
    if ids != [] {
      PutIsLocal(s, ids[0], Scanned(Seen(s, ids[0]), now), id);
      ScanAt(ScanStep(s, ids[0], now), ids[1..], now, id);
      ScannedTwice(Seen(s, id), now);
    }
  }

  /** The lists name what the stores hold; a scan may repeat keys and come in any order. */
  ghost predicate Covers(s: Store, agents: seq<Id>, tools: seq<Id>, keys: seq<Id>, now: real) {
    && (forall id: Id :: id in agents <==> id in s.agent) && (forall id: Id :: id in tools <==> id in s.tool)
    && (forall id: Id :: id in keys <==> id in Members(Members(s, agents, Agent, now), tools, Tool, now).hashes)
  }

  lemma RecoveredAt(s: Store, agents: seq<Id>, tools: seq<Id>, keys: seq<Id>, now: real, id: Id)
    requires Covers(s, agents, tools, keys, now)
    ensures Seen(Recovered(s, agents, tools, keys, now), id) == Restored(Seen(s, id), now)
  {
    MembersAt(s, agents, Agent, now, id);
    MembersAt(Members(s, agents, Agent, now), tools, Tool, now, id);
    ScanAt(Members(Members(s, agents, Agent, now), tools, Tool, now), keys, now, id);
  }

  lemma RestoredAgreesIff(v: View, now: real)
    requires v.memory.None?
    ensures Agreed(Restored(v, now)) <==> !Torn(v)
  {
  }

  /** Main result: from any persisted hashes and queues, recovery restores agreement exactly
      when no id stands in both queues with a valid queued agent hash. */
  lemma RecoveryAgreesIff(s: Store, agents: seq<Id>, tools: seq<Id>, keys: seq<Id>, now: real)
    requires Covers(s, agents, tools, keys, now) && s.memory == map[]
    ensures (forall id: Id :: Agreed(Seen(Recovered(s, agents, tools, keys, now), id))) <==>
      (forall id: Id :: !Torn(Seen(s, id)))
  {
    forall id: Id ensures Agreed(Seen(Recovered(s, agents, tools, keys, now), id)) <==> !Torn(Seen(s, id)) {
      RecoveredAt(s, agents, tools, keys, now, id);
      RestoredAgreesIff(Seen(s, id), now);
    }
  }

  lemma OneMember(s: Store, id: Id, kind: Kind, now: real)
    ensures Members(s, [id], kind, now) == MemberStep(s, id, kind, now)
  {
    var ids, next := [id], MemberStep(s, id, kind, now);
    assert ids[1..] == [];
    assert Members(next, [], kind, now) == next;
  }

  /** Such a store: one queued agent task whose id stands in both queues. Recovery marks its
      hash failed, and leaves it in the agent queue and in memory. */
  lemma TornTaskStaysQueued(id: Id, now: real)
    ensures var h := Hash(Agent, Queued, true, 0, 0.0, false);
      var s := Store(map[id := h], map[id := 0.0], map[id := 0.0], map[], {});
      var v := Seen(Recovered(s, [id], [id], [id], now), id);
      && Covers(s, [id], [id], [id], now) && !Agreed(v)
      && v == View(Some(h.(status := Failed, stamp := now)), Some(0.0), None, Some(h), true)
  {
    var h := Hash(Agent, Queued, true, 0, 0.0, false);
    var s := Store(map[id := h], map[id := 0.0], map[id := 0.0], map[], {});
    var one := MemberStep(s, id, Agent, now);
    assert one == s.(memory := map[id := h]);
    OneMember(s, id, Agent, now);
    OneMember(one, id, Tool, now);
    assert MemberStep(one, id, Tool, now).hashes.Keys == {id};
    RecoveredAt(s, [id], [id], [id], now, id);
  }

  /** A task survives unchanged exactly when its hash is a valid queued one of a known type
      and it does not stand in the queue of the other type. */
  lemma SurvivesIff(s: Store, agents: seq<Id>, tools: seq<Id>, keys: seq<Id>, now: real, id: Id)
    requires Covers(s, agents, tools, keys, now) && s.memory == map[]
    ensures var v, r := Seen(s, id), Seen(Recovered(s, agents, tools, keys, now), id);
      r.memory.Some? && r.hash == v.hash == r.memory <==>
        Restorable(v) && ((v.hash.value.kind == Agent && v.tool.None?) || (v.hash.value.kind == Tool && v.agent.None?))
  {
    RecoveredAt(s, agents, tools, keys, now, id);
  }

  /** A persisted hash that the queue of `kind` may list. */
  predicate BelongsIn(v: View, kind: Kind) {
    v.hash.Some? && v.hash.value.valid && v.hash.value.status == Queued && v.hash.value.kind == kind
  }

  /** Some queue lists the id although the hash does not belong there. */
  predicate Misplaced(v: View) { (v.agent.Some? && !BelongsIn(v, Agent)) || (v.tool.Some? && !BelongsIn(v, Tool)) }

  predicate Nowhere(v: View) { v.agent.None? && v.tool.None? && v.memory.None? }

  /** The hash fails at `now`; one that was missing is created as failed. */
  predicate Condemned(v: View, r: View, now: real) {
    r.quarantined && r.hash.Some? && r.hash.value.status == Failed && r.hash.value.stamp == now &&
      (v.hash.Some? ==> r.hash == Some(v.hash.value.(status := Failed, stamp := now)))
  }

  /** What recovery must make of one task. A misplaced one fails and is quarantined, and is
      gone from memory and queues unless the agent loop had restored it. A queued one that is
      not misplaced is restored if it parses and has a known type, and is quarantined as
      failed otherwise. A running one fails. All others stay as they are. */
  predicate RightlyRestored(v: View, r: View, now: real) {
    if Misplaced(v) then
      Condemned(v, r, now) && r.tool.None? &&
        if Torn(v) then r.agent == v.agent && r.memory == v.hash else Nowhere(r)
    else if v.hash.None? then r == v
    else
      var h := v.hash.value;
      match h.status
      case Queued =>
        if h.valid && h.kind != OtherKind then
          var place := if Entry(v, h.kind).Some? then Entry(v, h.kind) else Some(Score(h.priority, h.stamp));
          r.hash == r.memory == v.hash && Entry(r, h.kind) == place && r.quarantined == v.quarantined &&
            (if h.kind == Agent then r.tool.None? else r.agent.None?)
        else Condemned(v, r, now) && Nowhere(r)
      case Running => r == v.(hash := Some(h.(status := Failed, stamp := now))) && Nowhere(r)
      case _ => r == v && Nowhere(r)
  }

  lemma RestoredIsRight(v: View, now: real)
    requires v.memory.None?
    ensures RightlyRestored(v, Restored(v, now), now)
  {
  }

  /** Main result: recovery does that to every persisted task. */
  lemma RecoveryMeans(s: Store, agents: seq<Id>, tools: seq<Id>, keys: seq<Id>, now: real, id: Id)
    requires Covers(s, agents, tools, keys, now) && s.memory == map[]
    ensures RightlyRestored(Seen(s, id), Seen(Recovered(s, agents, tools, keys, now), id), now)
  {
    RecoveredAt(s, agents, tools, keys, now, id);
    RestoredIsRight(Seen(s, id), now);
  }

  /** A restored orphan returns to the place it was queued with. */
  lemma OrphanKeepsItsScore(s: Store, agents: seq<Id>, tools: seq<Id>, keys: seq<Id>, now: real, id: Id)
    requires Covers(s, agents, tools, keys, now) && s.memory == map[]
    requires var v := Seen(s, id); Restorable(v) && v.hash.value.kind != OtherKind && v.agent.None? && v.tool.None?
    ensures var h := s.hashes[id];
      Entry(Seen(Recovered(s, agents, tools, keys, now), id), h.kind) == Some(Score(h.priority, h.stamp))
  {
    RecoveredAt(s, agents, tools, keys, now, id);
  }

  lemma RestoredAgain(v: View, now: real, later: real)
    requires v.memory.None? && !Torn(v)
    ensures Restored(Restored(v, now).(memory := None), later) == Restored(v, now)
  {
  }

  /** A second restart changes nothing. */
  lemma RecoveryIsIdempotent(s: Store, agents: seq<Id>, tools: seq<Id>, keys: seq<Id>, now: real,
                             agents': seq<Id>, tools': seq<Id>, keys': seq<Id>, later: real)
    requires Covers(s, agents, tools, keys, now) && s.memory == map[] && forall id: Id :: !Torn(Seen(s, id))
    requires Covers(Recovered(s, agents, tools, keys, now).(memory := map[]), agents', tools', keys', later)
    ensures var once := Recovered(s, agents, tools, keys, now);
      forall id: Id :: Seen(Recovered(once.(memory := map[]), agents', tools', keys', later), id) == Seen(once, id)
  {
    var once := Recovered(s, agents, tools, keys, now);
    forall id: Id ensures Seen(Recovered(once.(memory := map[]), agents', tools', keys', later), id) == Seen(once, id) {
      RecoveredAt(s, agents, tools, keys, now, id);
      RecoveredAt(once.(memory := map[]), agents', tools', keys', later, id);
      RestoredAgain(Seen(s, id), now, later);
    }
  }

  // ---- running operations -----------------------------------------------------------

  function Added(v: View, task: Hash, now: real): View {
    var h := task.(status := Queued, stamp := now);
    SetEntry(v.(hash := Some(h), memory := Some(h)), task.kind, Some(Score(task.priority, now)))
  }

  function Marked(v: View, status: Status, now: real): View {
    v.(hash := if v.hash.Some? then Some(v.hash.value.(status := status, stamp := now)) else None,
       memory := if v.memory.Some? then Some(v.memory.value.(status := status, stamp := now)) else None)
  }

  function Dropped(v: View, now: real): View {
    var external := v.memory.Some? && v.memory.value.external;
    var waiting := external && (v.memory.value.status == Created || v.memory.value.status == Queued);
    View(if !external then None else if waiting then Some(v.memory.value.(status := Canceled, stamp := now))
      else v.hash,
         None, None, None, v.quarantined)
  }

  /** While the scheduler runs: a queued task is either in the queue of its type or `held`,
      which means popped by the pass under way; all other tasks are in no queue. */
  predicate Settled(v: View, held: bool) {
    && (v.memory.Some? ==> v.memory == v.hash)
    && match v.hash
       case None => v.agent.None? && v.tool.None? && !held
       case Some(h) =>
         if h.status == Queued then
           && h.kind != OtherKind && v.memory.Some? && (if h.kind == Agent then v.tool.None? else v.agent.None?)
           && (Entry(v, h.kind).Some? <==> !held)
           && (!held ==> Entry(v, h.kind) == Some(Score(h.priority, h.stamp)))
         else v.agent.None? && v.tool.None? && !held
  }

  datatype Op =
    | Add(id: Id, task: Hash)
    | Pop(id: Id, kind: Kind)
    | Mark(id: Id, status: Status)
    | Drop(id: Id)

  /** New tasks come with a known type; a held task comes back as itself; only a held task
      starts, only a held or running one ends; a held one is not deleted. */
  predicate Allowed(v: View, held: bool, op: Op) {
    match op
    case Add(_, task) => task.kind != OtherKind &&
      (v.hash.None? || (v.hash.value.kind == task.kind && (held || v.hash.value.status != Queued)))
    case Pop(_, kind) => Entry(v, kind).Some?
    case Mark(_, status) => v.hash.Some? && status != Queued && (held || v.hash.value.status == Running)
    case Drop(_) => !held
  }

  function Viewed(v: View, op: Op, now: real): View {
    match op
    case Add(_, task) => Added(v, task, now)
    case Pop(_, kind) => SetEntry(v, kind, None)
    case Mark(_, status) => Marked(v, status, now)
    case Drop(_) => Dropped(v, now)
  }

  function HeldAfter(held: set<Id>, op: Op): set<Id> { if op.Pop? then held + {op.id} else held - {op.id} }

  lemma OpSettles(v: View, held: bool, op: Op, now: real)
    requires Settled(v, held) && Allowed(v, held, op)
    ensures Settled(Viewed(v, op, now), op.Pop?)
  {
  }

  ghost predicate AllSettled(s: Store, held: set<Id>) { forall id: Id :: Settled(Seen(s, id), id in held) }

  datatype Timed = Timed(op: Op, now: real)

  function Apply(s: Store, t: Timed): Store { Put(s, t.op.id, Viewed(Seen(s, t.op.id), t.op, t.now)) }

  predicate Possible(s: Store, held: set<Id>, ts: seq<Timed>)
    decreases |ts|
  {
    ts == [] || (Allowed(Seen(s, ts[0].op.id), ts[0].op.id in held, ts[0].op)
                 && Possible(Apply(s, ts[0]), HeldAfter(held, ts[0].op), ts[1..]))
  }

  function After(s: Store, ts: seq<Timed>): Store
    decreases |ts|
  {
    if ts == [] then s else After(Apply(s, ts[0]), ts[1..])
  }

  function HeldAtEnd(held: set<Id>, ts: seq<Timed>): set<Id>
    decreases |ts|
  {
    if ts == [] then held else HeldAtEnd(HeldAfter(held, ts[0].op), ts[1..])
  }

  /** Over every run of operations the hash, the queue and the registry agree, up to the
      tasks the pass holds. */
  lemma {:induction false} EveryRunSettles(s: Store, held: set<Id>, ts: seq<Timed>)
    requires AllSettled(s, held) && Possible(s, held, ts)
    ensures AllSettled(After(s, ts), HeldAtEnd(held, ts))
    decreases |ts|
  {
    if ts != [] {
      OneOp(s, held, ts[0]);
      EveryRunSettles(Apply(s, ts[0]), HeldAfter(held, ts[0].op), ts[1..]);
    }
  }

  /** The last operation that changed the hash of `id`. */
  function LastWord(ts: seq<Timed>, id: Id): Option<Timed>
    decreases |ts|
  {
    if ts == [] then None
    else
      var later := LastWord(ts[1..], id);
      if later.Some? then later else if ts[0].op.id == id && !ts[0].op.Pop? then Some(ts[0]) else None
  }

  /** What that operation leaves. A deleted task is in no queue and no longer waits. */
  predicate Says(v: View, word: Timed) {
    match word.op
    case Add(_, task) => v.hash == Some(task.(status := Queued, stamp := word.now)) && v.memory == v.hash
    case Mark(_, status) => v.hash.Some? && v.hash.value.status == status && v.hash.value.stamp == word.now
    case Drop(_) => Nowhere(v) && (v.hash.Some? ==> v.hash.value.status !in {Created, Queued})
    case Pop(_, _) => true
  }

  lemma OpSays(v: View, held: bool, t: Timed)
    requires Settled(v, held) && Allowed(v, held, t.op)
    ensures if t.op.Pop? then Viewed(v, t.op, t.now).hash == v.hash && Viewed(v, t.op, t.now).memory == v.memory
            else Says(Viewed(v, t.op, t.now), t)
  {
  }

  lemma PopKeepsWord(v: View, t: Timed, word: Timed)
    requires t.op.Pop? && Says(v, word)
    ensures Says(Viewed(v, t.op, t.now), word)
  {
  }

  /** Over every run the persisted status of a task is what the last operation on it said. */
  lemma {:induction false} LastWordCounts(s: Store, held: set<Id>, ts: seq<Timed>, id: Id)
    requires AllSettled(s, held) && Possible(s, held, ts)
    ensures var v, word := Seen(After(s, ts), id), LastWord(ts, id);
      if word.Some? then Says(v, word.value) else v.hash == Get(s.hashes, id)
    decreases |ts|
  {
    SinceWord(s, held, ts, id, None);
  }

  lemma {:induction false} SinceWord(s: Store, held: set<Id>, ts: seq<Timed>, id: Id, word: Option<Timed>)
    requires AllSettled(s, held) && Possible(s, held, ts) && (word.Some? ==> Says(Seen(s, id), word.value))
    ensures var v, later := Seen(After(s, ts), id), LastWord(ts, id);
      if later.Some? then Says(v, later.value)
      else v.hash == Get(s.hashes, id) && (word.Some? ==> Says(v, word.value))
    decreases |ts|
  {
    if ts != [] {
      var t := ts[0];
      var next := Apply(s, t);
      OneOp(s, held, t);
      PutIsLocal(s, t.op.id, Viewed(Seen(s, t.op.id), t.op, t.now), id);
      OpSays(Seen(s, t.op.id), t.op.id in held, t);
      if t.op.id == id && t.op.Pop? && word.Some? { PopKeepsWord(Seen(s, id), t, word.value); }
      SinceWord(next, HeldAfter(held, t.op), ts[1..], id, if t.op.id == id && !t.op.Pop? then Some(t) else word);
    }
  }

  lemma OneOp(s: Store, held: set<Id>, t: Timed)
    requires AllSettled(s, held) && Allowed(Seen(s, t.op.id), t.op.id in held, t.op)
    ensures AllSettled(Apply(s, t), HeldAfter(held, t.op))
  {
    forall other: Id ensures Settled(Seen(Apply(s, t), other), other in HeldAfter(held, t.op)) {
      PutIsLocal(s, t.op.id, Viewed(Seen(s, t.op.id), t.op, t.now), other);
      if other == t.op.id { OpSettles(Seen(s, t.op.id), t.op.id in held, t.op, t.now); }
    }
  }

  /** Deleting a task: one from outside keeps its hash, canceled if it was still waiting; any
      other one leaves nothing. */
  lemma DeleteLeaves(v: View, now: real)
    requires Settled(v, false)
    ensures var n := Dropped(v, now);
      Nowhere(n) &&
      if v.memory.None? || !v.memory.value.external then n.hash.None?
      else
        var h := v.hash.value;
        n.hash == Some(if h.status in {Created, Queued} then h.(status := Canceled, stamp := now) else h)
  {
  }

  /** Queue entries carry the score of their hash. */
  predicate Scored(v: View) {
    v.hash.Some? ==>
      && (v.agent.Some? ==> v.agent.value == Score(v.hash.value.priority, v.hash.value.stamp))
      && (v.tool.Some? ==> v.tool.value == Score(v.hash.value.priority, v.hash.value.stamp))
  }

  lemma RestoredSettles(v: View, now: real)
    requires v.memory.None? && !Torn(v) && Scored(v)
    ensures Settled(Restored(v, now), false)
  {
  }

  /** Recovery hands the scheduler a settled store. */
  lemma RecoverySettles(s: Store, agents: seq<Id>, tools: seq<Id>, keys: seq<Id>, now: real)
    requires Covers(s, agents, tools, keys, now) && s.memory == map[] && forall id: Id :: !Torn(Seen(s, id))
    requires forall id: Id :: Scored(Seen(s, id))
    ensures AllSettled(Recovered(s, agents, tools, keys, now), {})
  {
    forall id: Id ensures Settled(Seen(Recovered(s, agents, tools, keys, now), id), false) {
      RecoveredAt(s, agents, tools, keys, now, id);
      RestoredSettles(Seen(s, id), now);
    }
  }

  // ---- order of the queue -----------------------------------------------------------

  function QueueOf(s: Store, kind: Kind): map<Id, real> { if kind == Agent then s.agent else s.tool }

  /** The member a ZPOPMIN returns: the lowest score, and among equal scores the lowest id. */
  predicate Least(queue: map<Id, real>, id: Id) {
    id in queue && forall other | other in queue ::
      queue[id] < queue[other] || (queue[id] == queue[other] && id.n <= other.n)
  }

  lemma {:induction false} LeastExists(queue: map<Id, real>)
    requires queue != map[]
    ensures exists id :: Least(queue, id)
    decreases |queue|
  {
    var x :| x in queue;
    var rest := queue - {x};
    if rest == map[] {
      assert queue.Keys == {x} by { assert forall y | y in queue && y != x :: y in rest; }
      assert Least(queue, x);
    } else {
      LeastExists(rest);
      var y :| Least(rest, y);
      var best := if queue[x] < queue[y] || (queue[x] == queue[y] && x.n <= y.n) then x else y;
      assert forall other | other in queue && other != x :: other in rest;
      assert Least(queue, best);
    }
  }

  /** Scores order by priority, and by time within a priority, for any sane clock. */
  lemma ScoreOrders(p: int, t: real, q: int, u: real)
    requires 0.0 <= t < 1000000000000.0 && 0.0 <= u < 1000000000000.0
    ensures Score(p, t) < Score(q, u) <==> p < q || (p == q && t < u)
  {
    if p < q {
      assert (q - p) as real * MAJOR >= MAJOR;
    } else if q < p {
      assert (p - q) as real * MAJOR >= MAJOR;
    }
  }

  /** In a settled store the popped task has the best priority, and no task of that priority
      was queued before it. */
  lemma PopIsFair(s: Store, kind: Kind, id: Id, other: Id)
    requires kind != OtherKind && AllSettled(s, {}) && Least(QueueOf(s, kind), id) && other in QueueOf(s, kind)
    requires forall h | h in s.hashes :: 0.0 <= s.hashes[h].stamp < MAJOR
    ensures id in s.hashes && other in s.hashes
    ensures s.hashes[id].priority <= s.hashes[other].priority
    ensures s.hashes[id].priority == s.hashes[other].priority ==> s.hashes[id].stamp <= s.hashes[other].stamp
  {
    assert Settled(Seen(s, id), false) && Settled(Seen(s, other), false);
    ScoreOrders(s.hashes[other].priority, s.hashes[other].stamp, s.hashes[id].priority, s.hashes[id].stamp);
  }

  /** Putting a deferred task back renews its stamp: it then precedes a waiting task exactly
      when its priority is strictly better, however long it had waited itself. */
  lemma ReAddGoesLast(s: Store, id: Id, task: Hash, other: Id, now: real)
    requires task.kind != OtherKind && other != id && other in QueueOf(s, task.kind) && AllSettled(s, {id})
    requires other in s.hashes && 0.0 <= s.hashes[other].stamp <= now < MAJOR
    ensures var n := Put(s, id, Added(Seen(s, id), task, now));
      QueueOf(n, task.kind)[id] < QueueOf(n, task.kind)[other] <==> task.priority < s.hashes[other].priority
  {
    assert Settled(Seen(s, other), false);
    PutIsLocal(s, id, Added(Seen(s, id), task, now), other);
    ScoreOrders(task.priority, now, s.hashes[other].priority, s.hashes[other].stamp);
  }

  /** Of two waiting tasks with equal priority the older one is next. When it is popped and put
      back, the younger one is next, although it came later. */
  lemma ReAddLosesItsPlace(a: Id, b: Id)
    requires a != b
    ensures var older, younger := Hash(Agent, Queued, true, 0, 1.0, false), Hash(Agent, Queued, true, 0, 2.0, false);
      var s := Store(map[a := older, b := younger], map[a := 1.0, b := 2.0], map[], map[a := older, b := younger], {});
      var n := Apply(Apply(s, Timed(Pop(a, Agent), 3.0)), Timed(Add(a, older), 3.0));
      AllSettled(s, {}) && Least(s.agent, a) && AllSettled(n, {}) && Least(n.agent, b)
  {
    var older, younger := Hash(Agent, Queued, true, 0, 1.0, false), Hash(Agent, Queued, true, 0, 2.0, false);
    var s := Store(map[a := older, b := younger], map[a := 1.0, b := 2.0], map[], map[a := older, b := younger], {});
    var pop, add := Timed(Pop(a, Agent), 3.0), Timed(Add(a, older), 3.0);
    assert Score(0, 1.0) == 1.0 && Score(0, 2.0) == 2.0 && Score(0, 3.0) == 3.0;
    assert AllSettled(s, {});
    var mid := Apply(s, pop);
    var n := Apply(mid, add);
    forall id: Id ensures Settled(Seen(n, id), false) {
      PutIsLocal(s, a, Viewed(Seen(s, a), pop.op, 3.0), id);
      PutIsLocal(mid, a, Viewed(Seen(mid, a), add.op, 3.0), id);
    }
    assert n.agent == map[a := 3.0, b := 2.0];
  }
}
