/**
 * Leader election: a session-level advisory lock and a monotone fence. The lock and the fence
 * bump are two statements of one session; any node's connection may die at any time, and a
 * node learns of it only at its next heartbeat. A phase transition checks the fence once,
 * and its writes follow later.
 */
module Election {
  import opened Domain

  type NodeId = nat
  type Fence = nat

  /** The database: the fence row, and the session that holds the lock, with its re-entry count. */
  datatype Db = Db(fence: Fence, holder: Option<NodeId>, count: nat)

  /** A node's dedicated connection: none opened, open, or dead without the node knowing. */
  datatype Session = Closed | Open | Dead

  /** Where a poll is: not running, in possession of the lock, or past the fence bump. */
  datatype Poll = Idle | Locked | Bumped(fence: Fence)

  datatype Node = Node(
    leader: bool, myFence: Option<Fence>, session: Session, stopped: bool,
    poll: Poll, entering: Option<Fence>)

  const FOLLOWER: Node := Node(false, None, Closed, false, Idle, None)

  // ----- the statements of one node -----

  /** pg_try_advisory_lock on the dedicated session, opened if need be; the lock is re-entrant. */
  function TryLock(db: Db, id: NodeId, n: Node): (Db, Node) {
    if n.session.Dead? then (db, n)
    else if db.holder.None? || db.holder == Some(id) then
      (db.(holder := Some(id), count := if db.holder.None? then 1 else db.count + 1),
        n.(session := Open, poll := Locked))
    else (db, n.(session := Open))
  }

  /** The bump runs in the session that holds the lock; if it fails, the session keeps the lock. */
  function Bump(db: Db, n: Node, ok: bool): (Db, Node) {
    if ok && n.session.Open? then (db.(fence := db.fence + 1), n.(poll := Bumped(db.fence + 1)))
    else (db, n.(poll := Idle))
  }

  function Promote(n: Node): Node
    requires n.poll.Bumped?
  {
    n.(leader := true, myFence := Some(n.poll.fence), poll := Idle)
  }

  /** The session ends, and the server releases whatever it held. */
  function EndSession(db: Db, id: NodeId): Db {
    if db.holder == Some(id) then db.(holder := None, count := 0) else db
  }

  function Unlock(db: Db, id: NodeId, n: Node): Db {
    if n.session.Open? && db.holder == Some(id) then
      (if db.count <= 1 then db.(holder := None, count := 0) else db.(count := db.count - 1))
    else db
  }

  /** Leadership is given up and the connection closed, which frees every level of the lock. */
  function Demote(db: Db, id: NodeId, n: Node): (Db, Node) {
    if n.leader then (EndSession(db, id), n.(leader := false, myFence := None, session := Closed)) else (db, n)
  }

  /** Fails closed: a read that fails counts as a lost leadership. */
  predicate StillLeader(db: Db, n: Node, ok: bool) {
    n.leader && n.myFence.Some? && ok && db.fence == n.myFence.value
  }

  /** A node that has lost its leadership holds no lock and no connection, so that it can open a
      new one and lead again; the fence stays, and so does what others hold. */
  predicate Demoted(db: Db, n: Node, db': Db, n': Node, id: NodeId) {
    && n' == n.(leader := false, myFence := None, session := Closed)
    && db' == if db.holder == Some(id) then Db(db.fence, None, 0) else db
  }

  // ----- the service -----

  class LockServer {
    var db: Db

    constructor ()
      ensures db == Db(0, None, 0)
    {
      db := Db(0, None, 0);
    }
  }

  class ElectionService {
    const id: NodeId
    const server: LockServer
    var node: Node

    constructor (id: NodeId, server: LockServer)
      ensures this.id == id && this.server == server && node == FOLLOWER
    {
      this.id := id;
      this.server := server;
      node := FOLLOWER;
    }

    /** One poll: take the lock, bump the fence, lead. Any failure leaves a follower. */
    method Tick(bumpOk: bool)
      requires node.poll.Idle?
      modifies this`node, server
      ensures old(node.leader || node.stopped) ==> node == old(node) && server.db == old(server.db)
      ensures node.leader && !old(node.leader) ==>
        node.myFence == Some(old(server.db.fence) + 1) && server.db.fence == old(server.db.fence) + 1
          && server.db.holder == Some(id)
      ensures !node.leader ==> server.db.fence == old(server.db.fence)
      ensures node.leader && !old(node.leader) ==>
        node == old(node).(leader := true, myFence := node.myFence, session := Open)
      ensures !node.leader && !old(node.stopped) ==>
        && node == old(node).(session := if old(node.session.Dead?) then Dead else Open)
        && server.db ==
             if old(node.session.Dead?) || old(server.db.holder) !in {None, Some(id)} then old(server.db)
             else Db(old(server.db.fence), Some(id),
                    if old(server.db.holder).None? then 1 else old(server.db.count) + 1)
      ensures !old(node.leader) && node.leader <==>
        !old(node.leader) && !old(node.stopped) && !old(node.session.Dead?) && bumpOk
          && old(server.db.holder) in {None, Some(id)}
      ensures node.poll.Idle?
    {
      if node.stopped || node.leader {
        return;
      }
      var (locked, polled) := TryLock(server.db, id, node);
      server.db, node := locked, polled;
      if !node.poll.Locked? {
        return;
      }
      var (bumped, after) := Bump(server.db, node, bumpOk);
      server.db, node := bumped, after;
      if node.poll.Bumped? {
        node := Promote(node);
      }
    }

    /** A heartbeat that fails means that the lock is lost. */
    method Beat(ok: bool)
      modifies this`node, server
      ensures if old(node.stopped || !node.leader) || (ok && old(node.session.Open?))
        then (server.db, node) == (old(server.db), old(node))
        else Demoted(old(server.db), old(node), server.db, node, id)
    {
      if node.stopped || !node.leader {
        return;
      }
      if !ok || !node.session.Open? {
        var (db, n) := Demote(server.db, id, node);
        server.db, node := db, n;
      }
    }

    /** Voluntary: unlock first, then demote. However often the lock was taken, it is free afterwards. */
    method StepDown()
      modifies this`node, server
      ensures old(node.leader) ==> Demoted(old(server.db), old(node), server.db, node, id)
      ensures !old(node.leader) ==> node == old(node) && server.db == old(server.db)
      ensures server.db.fence == old(server.db.fence)
    {
      if !node.leader {
        return;
      }
      server.db := Unlock(server.db, id, node);
      var (db, n) := Demote(server.db, id, node);
      server.db, node := db, n;
    }

    method AssertStillLeader(ok: bool) returns (still: bool)
      ensures still == StillLeader(server.db, node, ok)
      ensures still <==> node.leader && ok && node.myFence == Some(server.db.fence)
    {
      still := false;
      if node.leader && node.myFence.Some? && ok {
        still := server.db.fence == node.myFence.value;
      }
    }
  }

  // ----- all nodes together -----

  datatype Event =
    | Lock(id: NodeId)
    | BumpFence(id: NodeId, ok: bool)
    | Lead(id: NodeId)
    | ConnectionDies(id: NodeId)
    | Heartbeat(id: NodeId, ok: bool)
    | Release(id: NodeId)
    | StepDownEnds(id: NodeId)
    | Stop(id: NodeId)
    | Check(id: NodeId, ok: bool)
    | Complete(id: NodeId)

  /** `acquired` lists the fences in the order of their bumps; `late` lists the fence of each
      transition that completed after the fence had moved past its node. */
  datatype Cluster = Cluster(db: Db, nodes: map<NodeId, Node>, acquired: seq<Fence>, late: seq<Fence>)

  function Init(ids: set<NodeId>): Cluster {
    Cluster(Db(0, None, 0), map id | id in ids :: FOLLOWER, [], [])
  }

  function With(s: Cluster, id: NodeId, r: (Db, Node)): Cluster {
    s.(db := r.0, nodes := s.nodes[id := r.1])
  }

  function Next(s: Cluster, e: Event): Cluster {
    if e.id !in s.nodes then s
    else
      var id, n := e.id, s.nodes[e.id];
      match e
      case Lock(_) => if n.stopped || n.leader || !n.poll.Idle? then s else With(s, id, TryLock(s.db, id, n))
      case BumpFence(_, ok) =>
        if !n.poll.Locked? then s
        else
          var r := Bump(s.db, n, ok);
          With(s, id, r).(acquired := if r.0 == s.db then s.acquired else s.acquired + [r.0.fence])
      case Lead(_) => if n.poll.Bumped? then With(s, id, (s.db, Promote(n))) else s
      case ConnectionDies(_) =>
        With(s, id, (EndSession(s.db, id), if n.session.Open? then n.(session := Dead) else n))
      case Heartbeat(_, ok) =>
        if n.stopped || (ok && n.session.Open?) then s else With(s, id, Demote(s.db, id, n))
      case Release(_) => if n.leader then s.(db := Unlock(s.db, id, n)) else s
      case StepDownEnds(_) => With(s, id, Demote(s.db, id, n))
      case Stop(_) => With(s, id, (EndSession(s.db, id),
        n.(stopped := true, leader := false, session := Closed, poll := Idle)))
      case Check(_, ok) =>
        if n.entering.None? && StillLeader(s.db, n, ok) then s.(nodes := s.nodes[id := n.(entering := n.myFence)])
          else s
      case Complete(_) =>
        if n.entering.None? then s
        else
          s.(nodes := s.nodes[id := n.(entering := None)],
             late := if n.entering.value < s.db.fence then s.late + [n.entering.value] else s.late)
  }

  function Run(s: Cluster, events: seq<Event>): Cluster {
    if events == [] then s else Next(Run(s, events[..|events| - 1]), events[|events| - 1])
  }

  // ----- the invariant -----

  /** The fences a node carries, from its bump to its last transition. */
  predicate Carries(n: Node, f: Fence) {
    n.myFence == Some(f) || n.poll == Bumped(f) || n.entering == Some(f)
  }

  ghost predicate FencesApart(nodes: map<NodeId, Node>) {
    forall a, b, f: Fence :: a in nodes && b in nodes && Carries(nodes[a], f) && Carries(nodes[b], f) ==> a == b
  }

  ghost predicate NodeOk(s: Cluster, id: NodeId)
    requires id in s.nodes
  {
    var n := s.nodes[id];
    && (n.myFence.Some? ==> n.myFence.value <= s.db.fence)
    && (n.poll.Bumped? ==> n.poll.fence <= s.db.fence)
    && (n.entering.Some? ==> n.entering.value <= s.db.fence)
    && (n.leader ==> n.poll.Idle? && n.myFence.Some?)
    && (n.session.Open? && (n.poll.Locked? || n.poll.Bumped?) ==> s.db.holder == Some(id))
    && (n.entering.Some? && n.entering.value < s.db.fence ==> n.entering.value !in s.late)
  }

  predicate Increasing(fs: seq<Fence>, bound: Fence) {
    && (forall i, j :: 0 <= i < j < |fs| ==> fs[i] < fs[j])
    && (forall i :: 0 <= i < |fs| ==> fs[i] <= bound)
  }

  predicate DistinctBelow(fs: seq<Fence>, bound: Fence) {
    && (forall i, j :: 0 <= i < j < |fs| ==> fs[i] != fs[j])
    && (forall i :: 0 <= i < |fs| ==> fs[i] < bound)
  }

  ghost predicate Inv(s: Cluster) {
    && FencesApart(s.nodes) && (forall id :: id in s.nodes ==> NodeOk(s, id))
    && Increasing(s.acquired, s.db.fence) && DistinctBelow(s.late, s.db.fence)
  }

  /** Statements that leave the fence alone give no node a new fence to carry. */
  lemma QuietKeepsNode(s: Cluster, e: Event, id: NodeId)
    requires !e.BumpFence? && !e.Complete? && e.id in s.nodes && id in s.nodes && NodeOk(s, id) && NodeOk(s, e.id)
    ensures var s' := Next(s, e);
      && id in s'.nodes && NodeOk(s', id) && s'.db.fence == s.db.fence
      && forall f: Fence :: Carries(s'.nodes[id], f) ==> Carries(s.nodes[id], f)
  {
  }

  lemma QuietKeepsInv(s: Cluster, e: Event)
    requires Inv(s) && !e.BumpFence? && !e.Complete? && e.id in s.nodes
    ensures Inv(Next(s, e))
  {
    var s' := Next(s, e);
    assert s'.nodes.Keys == s.nodes.Keys && s'.late == s.late && s'.acquired == s.acquired;
    forall id | id in s.nodes
      ensures NodeOk(s', id) && s'.db.fence == s.db.fence
      ensures forall f: Fence :: Carries(s'.nodes[id], f) ==> Carries(s.nodes[id], f)
    {
      QuietKeepsNode(s, e, id);
    }
  }

  /** A bump makes a fence that nobody carries yet. */
  lemma BumpKeepsNode(s: Cluster, id: NodeId, ok: bool, other: NodeId)
    requires id in s.nodes && other in s.nodes && NodeOk(s, id) && NodeOk(s, other) && DistinctBelow(s.late, s.db.fence)
    ensures var s' := Next(s, BumpFence(id, ok));
      && NodeOk(s', other)
      && forall f: Fence :: Carries(s'.nodes[other], f) ==>
           Carries(s.nodes[other], f) || (other == id && f == s'.db.fence && f > s.db.fence)
  {
  }

  lemma BumpKeepsInv(s: Cluster, id: NodeId, ok: bool)
    requires Inv(s) && id in s.nodes
    ensures Inv(Next(s, BumpFence(id, ok)))
  {
    var s' := Next(s, BumpFence(id, ok));
    forall other | other in s.nodes
      ensures NodeOk(s', other)
      ensures forall f: Fence :: Carries(s'.nodes[other], f) ==>
        Carries(s.nodes[other], f) || (other == id && f == s'.db.fence && f > s.db.fence)
    {
      BumpKeepsNode(s, id, ok, other);
    }
    forall f: Fence, a | a in s.nodes && Carries(s.nodes[a], f)
      ensures f <= s.db.fence
    {
      assert NodeOk(s, a);
    }
  }

  lemma CompleteKeepsInv(s: Cluster, id: NodeId)
    requires Inv(s) && id in s.nodes
    ensures Inv(Next(s, Complete(id)))
  {
    var s' := Next(s, Complete(id));
    assert NodeOk(s, id);
    forall other | other in s.nodes
      ensures NodeOk(s', other)
      ensures forall f: Fence :: Carries(s'.nodes[other], f) ==> Carries(s.nodes[other], f)
    {
      assert NodeOk(s, other);
      if other != id && s.nodes[other].entering.Some? && s.nodes[id].entering.Some? {
        assert Carries(s.nodes[other], s.nodes[other].entering.value)
          && Carries(s.nodes[id], s.nodes[id].entering.value);
      }
    }
  }

  lemma NextKeepsInv(s: Cluster, e: Event)
    requires Inv(s)
    ensures Inv(Next(s, e))
  {
    if e.id !in s.nodes {
    } else if e.BumpFence? {
      BumpKeepsInv(s, e.id, e.ok);
    } else if e.Complete? {
      CompleteKeepsInv(s, e.id);
    } else {
      QuietKeepsInv(s, e);
    }
  }

  lemma {:induction false} RunKeepsInv(ids: set<NodeId>, events: seq<Event>)
    ensures Inv(Run(Init(ids), events))
  {
    if events != [] {
      RunKeepsInv(ids, events[..|events| - 1]);
      NextKeepsInv(Run(Init(ids), events[..|events| - 1]), events[|events| - 1]);
    }
  }

  // ----- main results -----

  /** In every state at most one node can pass the fence check, whatever locks are held or lost. */
  lemma OneAuthority(ids: set<NodeId>, events: seq<Event>, a: NodeId, b: NodeId)
    requires var s := Run(Init(ids), events);
      a in s.nodes && b in s.nodes && StillLeader(s.db, s.nodes[a], true) && StillLeader(s.db, s.nodes[b], true)
    ensures a == b
  {
    var s := Run(Init(ids), events);
    RunKeepsInv(ids, events);
    assert Carries(s.nodes[a], s.db.fence) && Carries(s.nodes[b], s.db.fence);
  }

  /** Every acquisition has a fence of its own, above all earlier ones. */
  lemma FenceIncreases(ids: set<NodeId>, events: seq<Event>, i: nat, j: nat)
    requires i < j < |Run(Init(ids), events).acquired|
    ensures var s := Run(Init(ids), events); s.acquired[i] < s.acquired[j] <= s.db.fence
  {
    RunKeepsInv(ids, events);
  }

  /** Once the fence has moved past a node, at most one of its transitions still completes: the
      one that was past its check. Fences name the acquisitions, so no two entries are equal. */
  lemma OneLateTransition(ids: set<NodeId>, events: seq<Event>, i: nat, j: nat)
    requires i < j < |Run(Init(ids), events).late|
    ensures var s := Run(Init(ids), events); s.late[i] != s.late[j]
  {
    RunKeepsInv(ids, events);
  }

  /** And no new transition starts: a node whose fence is passed fails every check from then on. */
  lemma {:induction false} PassedStaysPassed(s: Cluster, events: seq<Event>, id: NodeId, f: Fence)
    requires Inv(s) && id in s.nodes && s.nodes[id].myFence == Some(f) && f < s.db.fence
    ensures var s' := Run(s, events);
      && Inv(s') && s'.db.fence >= s.db.fence
      && (id in s'.nodes && s'.nodes[id].myFence == Some(f) ==> !StillLeader(s'.db, s'.nodes[id], true))
  {
    if events != [] {
      PassedStaysPassed(s, events[..|events| - 1], id, f);
      NextKeepsInv(Run(s, events[..|events| - 1]), events[|events| - 1]);
    }
  }

  /** A follower whose connection has died keeps the dead connection: only a demotion replaces
      it, so until its process is restarted the node can never lead again. */
  lemma {:induction false} DeadFollowerNeverLeads(s: Cluster, events: seq<Event>, id: NodeId)
    requires id in s.nodes && s.nodes[id].session.Dead? && !s.nodes[id].leader && s.nodes[id].poll.Idle?
    ensures var s' := Run(s, events); id in s'.nodes && !s'.nodes[id].leader
    ensures Run(s, events).nodes[id].poll.Idle?
      && (Run(s, events).nodes[id].session.Dead? || Run(s, events).nodes[id].stopped)
  {
    if events != [] {
      DeadFollowerNeverLeads(s, events[..|events| - 1], id);
    }
  }

  // ----- a follower that is lost -----

  ghost predicate Reachable(ids: set<NodeId>, s: Cluster) {
    exists events :: Run(Init(ids), events) == s
  }

  lemma Go(ids: set<NodeId>, s: Cluster, e: Event) returns (s': Cluster)
    requires Reachable(ids, s)
    ensures s' == Next(s, e) && Reachable(ids, s')
  {
    s' := Next(s, e);
    var events :| Run(Init(ids), events) == s;
    assert (events + [e])[..|events|] == events;
    assert Run(Init(ids), events + [e]) == s';
  }

  lemma NodeZeroLeads() returns (s: Cluster)
    ensures Reachable({0, 1}, s)
    ensures s == Cluster(Db(1, Some(0), 1), map[0 := Node(true, Some(1), Open, false, Idle, None), 1 := FOLLOWER],
      [1], [])
  {
    s := Init({0, 1});
    assert Run(Init({0, 1}), []) == s;
    s := Go({0, 1}, s, Lock(0));
    s := Go({0, 1}, s, BumpFence(0, true));
    s := Go({0, 1}, s, Lead(0));
  }

  /** Two nodes: one leads and stops, the other's connection has died in the meantime. The lock
      is free, the other node still polls, and it never leads, whatever happens from then on. */
  lemma FreeLockNobodyLeads() returns (s: Cluster)
    ensures Reachable({0, 1}, s) && s.db.holder == None && s.nodes.Keys == {0, 1}
    ensures s.nodes[0].stopped && !s.nodes[1].stopped
    ensures forall events :: 1 in Run(s, events).nodes && !Run(s, events).nodes[1].leader
  {
    s := NodeZeroLeads();
    s := Go({0, 1}, s, Lock(1));
    s := Go({0, 1}, s, ConnectionDies(1));
    s := Go({0, 1}, s, Stop(0));
    forall events
      ensures 1 in Run(s, events).nodes && !Run(s, events).nodes[1].leader
    {
      DeadFollowerNeverLeads(s, events, 1);
    }
  }
}
