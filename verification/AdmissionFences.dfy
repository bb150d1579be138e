/** A fence reaches the leaves that name the fenced parent, and no further. */
module AdmissionFences {
  import opened Common
  import opened AdmissionModel
  import opened AdmissionPolicy
  import opened AdmissionTickets

  /** An active leaf survives the fence exactly when it names another parent or none; otherwise it drains. */
  lemma SurvivesIff(s: Admission, parent: Id, id: Id)
    requires id in s.active && s.active.Keys !! s.draining.Keys
    ensures var n := Step(s, FenceParent(parent));
            && (id in n.active <==> s.active[id].request.parent != Some(parent))
            && (id in n.active ==> n.active[id] == s.active[id] && id !in n.draining)
            && (id !in n.active ==> id in n.draining && n.draining[id] == s.active[id])
  {
    hide FenceQueue;
    assert FenceQueue(s, parent).active == s.active && FenceQueue(s, parent).draining == s.draining by { FenceQueueFields(s, parent); }
  }

  lemma FenceQueueFields(s: Admission, parent: Id)
    ensures FenceQueue(s, parent).active == s.active && FenceQueue(s, parent).draining == s.draining
  {
    hide Retained;
  }

  lemma ChildIsAccepted(s: Admission, config: Config, k: nat, m: nat, parent: Id)
    requires Calm(s, config, k, m) && s.fencedParents == {} && 0 < |parent| <= k
    ensures Accepted(s, ChildOf(k, parent), config)
    ensures m < config.globalMaxActive ==> CanFit(config, s.active, s.draining, ChildOf(k, parent))
  {
    hide Held, LaneUsed;
    SmallIs(k, 0);
    NotShort(s, config, k, m, Small(k, 0).operationId);
  }

  function ChildOf(k: nat, parent: Id): Request {
    Small(k, 0).(parent := Some(parent))
  }

  lemma Joined(s: Admission, r: Request)
    requires s.queue == [] && s.config.maxQueued > 0 && r.queueClass == Interactive && Accepted(s, r, s.config)
    requires CanFit(s.config, s.active, s.draining, r) && r.operationId !in s.active
    ensures var n := Reserve(s, r, s.config, false).0;
            && n.fencedParents == s.fencedParents && r.operationId in n.active && n.active[r.operationId].request == r
            && forall id :: id in s.active ==> id in n.active && n.active[id] == s.active[id]
  {
    hide Reserve, RequestError, SubmissionError, CanFit, Enqueue;
    SoleEntrant(s, r);
  }

  lemma EnterChild(s: Admission, config: Config, k: nat, m: nat, parent: Id)
    requires ValidConfig(config) && Calm(s, config, k, m) && m < config.globalMaxActive
    requires s.fencedParents == {} && 0 < |parent| <= k
    ensures var r := ChildOf(k, parent);
            var n := Reserve(s, r, config, false).0;
            && Calm(n, config, k + 1, m + 1) && n.fencedParents == {} && |r.operationId| == k + 1 && r.parent == Some(parent)
            && r.operationId in n.active && n.active[r.operationId].request == r
            && forall id :: id in s.active ==> id in n.active && n.active[id] == s.active[id]
  {
    hide Reserve, Accepted, CanFit, Small, Short;
    var r := ChildOf(k, parent);
    SmallIs(k, 0);
    NotShort(s, config, k, m, r.operationId);
    ChildIsAccepted(s, config, k, m, parent);
    Joined(s, r);
    EnteredFields(s, r);
    CalmAfter(s, Reserve(s, r, config, false).0, config, k, m, r.operationId);
  }

  /** A child and its child are running; fencing the child's parent drains the child and leaves its child running. */
  lemma GrandchildStays(config: Config) returns (s: Admission, parent: Id, child: Id, grandchild: Id)
    requires ValidConfig(config) && config.globalMaxActive > 1
    ensures Reachable(config, s) && child in s.active && grandchild in s.active
    ensures s.active[child].request.parent == Some(parent) && s.active[grandchild].request.parent == Some(child)
    ensures var n := Step(s, FenceParent(parent)); child in n.draining && grandchild in n.active
  {
    hide Reachable, Calm, Reserve;
    parent, child, grandchild := "p", ChildOf(1, "p").operationId, ChildOf(2, ChildOf(1, "p").operationId).operationId;
    var s0 := Fresh(config);
    ReachStart(config);
    FreshIsCalm(config, 1);
    var enter := ReserveStart(ChildOf(1, parent), config, false);
    EnterChild(s0, config, 1, 0, parent);
    ReachStep(config, s0, enter);
    var s1 := Reserve(s0, enter.request, config, false).0;
    var again := ReserveStart(ChildOf(2, child), config, false);
    EnterChild(s1, config, 2, 1, child);
    ReachStep(config, s1, again);
    s := Reserve(s1, again.request, config, false).0;
    assert child != parent;
    CalmIsExact(s, config, 3, 2);
    SurvivesIff(s, parent, child);
    SurvivesIff(s, parent, grandchild);
  }
}
