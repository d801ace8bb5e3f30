/** What a Bully check reads off the registry and its cache, and what it decides. */
module BullyRules {
  import opened Wrappers
  import opened Registry
  import opened NodePriority

  predicate Recent(seen: Time, clock: Time, timeout: Time) {
    clock - seen < timeout
  }

  /** A registry entry that the leader scan accepts. */
  predicate Leads(docs: Docs, m: NodeId, clock: Time, timeout: Time) {
    m in Visible(docs, clock) && docs[m].isLeader && Recent(docs[m].lastSeen, clock, timeout)
  }

  /** Whether a node that found `leader` wants to lead. */
  predicate ShouldLead(n: NodeId, highest: int, leader: Option<NodeId>) {
    Priority(n) > highest || (Priority(n) == highest && (leader == None || leader == Some(n)))
  }

  /** A leader of higher priority ends the check early. */
  predicate Yields(n: NodeId, leader: Option<NodeId>) {
    leader.Some? && leader.value != n && Priority(leader.value) > Priority(n)
  }

  /** clearExistingLeaders: flagged nodes of lower priority. */
  function LowerLeaders(docs: Docs, n: NodeId, clock: Time): set<NodeId> {
    set m | m in docs && m in Visible(docs, clock) && docs[m].isLeader && m != n && Priority(m) < Priority(n)
  }
}
