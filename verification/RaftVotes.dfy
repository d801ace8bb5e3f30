/** The run loop of one Raft node beside the goroutines it leaves behind: vote requests that read the
    term late, replies that arrive late, repeatedly or out of order, and heartbeat bodies that compare
    the registry with a term they read earlier. What the registry shows is arbitrary. */
module RaftVotes {
  import opened Registry
  import opened RaftNode

  /** Where the run loop stands. */
  datatype Loop =
    | Top
    | Following
    | Hearing(snap: int)     // receiveHeartbeat has read the term and not yet acted
    | Entering               // about to run as candidate
    | Campaigning
    | Leading

  /** `asked` holds the terms of all vote requests ever sent, `grants` all votes ever granted and `beats`
      the terms that heartbeat bodies under way have read. */
  datatype Node = Node(local: Local, loop: Loop, asked: set<int>, grants: set<(NodeId, int)>, beats: set<int>)

  datatype Action =
    | Dispatch
    | HearRead
    | HearLand(found: int)
    | Stand                                     // becomeCandidate, after either election timeout
    | Campaign
    | Ask                                       // requestVotes reads the term
    | Grant(from: NodeId, term: int)
    | Reply(from: NodeId, term: int, granted: bool)
    | Try(seen: int, valid: bool, nodes: nat, claimed: bool)
    | GiveUp
    | Leave                                     // no longer a candidate
    | BeatRead
    | BeatLand(snap: int, found: int)           // a higher term than the one read
    | BeatConflict(snap: int)                   // another leader of the term read
    | StepDown

  predicate Enabled(n: Node, a: Action) {
    match a
    case Dispatch => n.loop == Top
    case HearRead => n.loop == Following
    case HearLand(_) => n.loop.Hearing?
    case Stand => n.loop == Following || n.loop == Campaigning
    case Campaign => n.loop == Entering
    case Ask => true
    case Grant(_, term) => term in n.asked
    case Reply(from, term, granted) => granted ==> (from, term) in n.grants
    case Try(seen, valid, _, _) => n.loop == Campaigning && seen >= n.local.term && (valid ==> seen == n.local.term)
    case GiveUp => n.loop == Campaigning
    case Leave => n.loop == Campaigning && n.local.role != Candidate
    case BeatRead => n.local.role == Leader
    case BeatLand(snap, found) => snap in n.beats && found > snap
    case BeatConflict(snap) => snap in n.beats
    case StepDown => n.loop == Leading
  }

  function Apply(self: NodeId, n: Node, a: Action): Node
    requires Enabled(n, a)
  {
    var l := n.local;
    match a
    case Dispatch =>
      n.(loop := match l.role case Follower => Following case Candidate => Entering case Leader => Leading)
    case HearRead => n.(loop := Hearing(l.term))
    case HearLand(found) =>
      n.(loop := Following, local := if found > n.loop.snap then l.(term := found) else l)
    case Stand => n.(loop := Top, local := if l.role == Follower then l.(role := Candidate) else l)
    case Campaign => n.(loop := Campaigning, local := Campaigned(l, self))
    case Ask => n.(asked := n.asked + {l.term})
    case Grant(from, term) => n.(grants := n.grants + {(from, term)})
    case Reply(from, term, granted) => n.(local := Counted(l, from, term, granted))
    case Try(seen, valid, nodes, claimed) => n.(loop := Top, local := Bid(l, seen, valid, nodes, claimed))
    case GiveUp => n.(loop := Top, local := l.(role := Follower))
    case Leave => n.(loop := Top)
    case BeatRead => n.(beats := n.beats + {l.term})
    case BeatLand(_, found) => n.(local := l.(term := found, role := Follower))
    case BeatConflict(_) => n.(local := l.(role := Follower))
    case StepDown => n.(loop := Top, local := l.(role := Follower))
  }

  predicate StepAt(self: NodeId, acts: seq<Action>, s: seq<Node>, i: nat)
    requires |s| == |acts| + 1 && i < |acts|
  {
    Enabled(s[i], acts[i]) && s[i + 1] == Apply(self, s[i], acts[i])
  }

  const FRESH := Node(Local(Follower, 0, {}), Top, {}, {}, {})

  ghost predicate IsRun(self: NodeId, acts: seq<Action>, s: seq<Node>) {
    && |s| == |acts| + 1
    && s[0] == FRESH
    && forall i :: 0 <= i < |acts| ==> StepAt(self, acts, s, i)
  }

  // ---- Votes ------------------------------------------------------------------------------------

  /** A vote counts for the current term: the node's own, or granted to a request of exactly that term. */
  predicate Sound(self: NodeId, n: Node) {
    forall v :: v in n.local.votes ==> v == self || ((v, n.local.term) in n.grants && n.local.term in n.asked)
  }

  predicate Kept(self: NodeId, n: Node) {
    && (forall g :: g in n.grants ==> g.1 in n.asked)
    && (n.local.role == Leader ==> n.loop == Top || n.loop == Leading)
    && (n.local.role == Candidate ==> n.loop == Top || n.loop == Entering || n.loop == Campaigning)
    && (n.loop == Campaigning && n.local.role == Candidate ==> Sound(self, n) && self in n.local.votes)
    && (n.local.role == Leader ==> Sound(self, n) && self in n.local.votes)
    && 0 <= n.local.term && (n.loop == Campaigning ==> 1 <= n.local.term)
    && (forall t :: t in n.beats ==> 0 <= t)
    && (n.loop.Hearing? ==> 0 <= n.loop.snap)
  }

  lemma KeptStep(self: NodeId, n: Node, a: Action)
    requires Kept(self, n) && Enabled(n, a)
    ensures Kept(self, Apply(self, n, a))
  {
    match a
    case Dispatch =>
    case HearLand(_) =>
    case Stand =>
    case Campaign =>
    case Ask =>
    case Grant(_, _) =>
    case Reply(_, _, _) =>
    case Try(_, _, _, _) =>
    case BeatRead =>
    case _ =>
  }

  lemma {:induction false} KeptAt(self: NodeId, acts: seq<Action>, s: seq<Node>, i: nat)
    requires IsRun(self, acts, s) && i <= |acts|
    ensures Kept(self, s[i])
  {
    if i > 0 {
      KeptAt(self, acts, s, i - 1);
      assert StepAt(self, acts, s, i - 1);
      KeptStep(self, s[i - 1], acts[i - 1]);
    }
  }

  /** The messages on record were really sent: a grant by its voter, a request with the term the node
      then had. */
  lemma {:induction false} OnRecord(self: NodeId, acts: seq<Action>, s: seq<Node>, i: nat, v: NodeId, t: int)
    requires IsRun(self, acts, s) && i <= |acts|
    ensures (v, t) in s[i].grants ==> exists j :: 0 <= j < i && acts[j] == Grant(v, t)
    ensures t in s[i].asked ==> exists j :: 0 <= j < i && acts[j] == Ask && s[j].local.term == t
  {
    if i > 0 {
      OnRecord(self, acts, s, i - 1, v, t);
      assert StepAt(self, acts, s, i - 1);
      assert (v, t) in s[i].grants && (v, t) !in s[i - 1].grants ==> acts[i - 1] == Grant(v, t);
      assert t in s[i].asked && t !in s[i - 1].asked ==> acts[i - 1] == Ask && s[i - 1].local.term == t;
    }
  }

  /** Vote soundness under late replies: in a campaign still under way every vote is the node's own or
      was granted, by that voter, to a request that carried exactly the current term. */
  lemma VotesAreSound(self: NodeId, acts: seq<Action>, s: seq<Node>, i: nat, v: NodeId)
    requires IsRun(self, acts, s) && i <= |acts|
    requires (s[i].loop == Campaigning && s[i].local.role == Candidate) || s[i].local.role == Leader
    requires v in s[i].local.votes && v != self
    ensures exists j :: 0 <= j < i && acts[j] == Grant(v, s[i].local.term)
    ensures exists j :: 0 <= j < i && acts[j] == Ask && s[j].local.term == s[i].local.term
  {
    KeptAt(self, acts, s, i);
    OnRecord(self, acts, s, i, v, s[i].local.term);
  }

  /** A node campaigns, and claims, in a term of at least 1. */
  lemma CampaignTermIsPositive(self: NodeId, acts: seq<Action>, s: seq<Node>, i: nat)
    requires IsRun(self, acts, s) && i <= |acts| && s[i].loop == Campaigning
    ensures s[i].local.term >= 1
  {
    KeptAt(self, acts, s, i);
  }

  /** The bid that made a leader: valid, claimed, and with a majority of the nodes it counted. */
  predicate Won(acts: seq<Action>, s: seq<Node>, i: nat, j: nat)
    requires |s| == |acts| + 1 && i <= |acts|
  {
    && j < i && acts[j].Try? && acts[j].valid && acts[j].claimed && s[j].local.role == Candidate
    && 2 * |s[i].local.votes| > acts[j].nodes && s[j + 1].local == s[i].local
  }

  /** A node leads only after winning a bid, with the votes and the term of that bid. */
  lemma {:induction false} LeadersHaveMajorities(self: NodeId, acts: seq<Action>, s: seq<Node>, i: nat)
    requires IsRun(self, acts, s) && i <= |acts| && s[i].local.role == Leader
    ensures exists j: nat :: Won(acts, s, i, j)
    ensures self in s[i].local.votes
  {
    KeptAt(self, acts, s, i);
    assert i > 0;
    assert StepAt(self, acts, s, i - 1);
    KeptAt(self, acts, s, i - 1);
    if s[i - 1].local.role == Leader {
      LeadersHaveMajorities(self, acts, s, i - 1);
      var j: nat :| Won(acts, s, i - 1, j);
      LeaderKeeps(self, s[i - 1], acts[i - 1]);
      assert Won(acts, s, i, j);
    } else {
      assert acts[i - 1].Try?;
      assert Won(acts, s, i, i - 1);
    }
  }

  lemma LeaderKeeps(self: NodeId, n: Node, a: Action)
    requires Kept(self, n) && Enabled(n, a) && n.local.role == Leader && Apply(self, n, a).local.role == Leader
    ensures Apply(self, n, a).local == n.local
  {
  }

  // ---- Every vote counts ------------------------------------------------------------------------

  /** Step `c` started the campaign that is still under way at `j`. */
  ghost predicate OneCampaign(acts: seq<Action>, s: seq<Node>, c: nat, j: nat)
    requires |s| == |acts| + 1
  {
    c < j <= |acts| && acts[c] == Campaign && forall k :: c < k <= j ==> s[k].loop == Campaigning
  }

  /** Whoever granted the term of the campaign in a reply that arrived before `j`. */
  ghost predicate Replied(acts: seq<Action>, v: NodeId, term: int, c: nat, j: nat)
    requires j <= |acts|
  {
    exists i :: c < i < j && acts[i] == Reply(v, term, true)
  }

  lemma RepliedMore(acts: seq<Action>, v: NodeId, term: int, c: nat, j: nat)
    requires c + 1 < j <= |acts|
    ensures Replied(acts, v, term, c, j) <==> Replied(acts, v, term, c, j - 1) || acts[j - 1] == Reply(v, term, true)
  {
  }

  /** One step within a campaign: a candidate stays one in the same term, and only a reply adds a vote. */
  lemma CampaignStep(self: NodeId, n: Node, a: Action)
    requires Kept(self, n) && Enabled(n, a) && n.loop == Campaigning && Apply(self, n, a).loop == Campaigning
    requires Apply(self, n, a).local.role == Candidate
    ensures n.local.role == Candidate && Apply(self, n, a).local.term == n.local.term
    ensures forall v :: v in Apply(self, n, a).local.votes <==> v in n.local.votes || a == Reply(v, n.local.term, true)
  {
    match a
    case Dispatch =>
    case Reply(_, _, _) =>
    case Try(_, _, _, _) =>
    case _ =>
  }

  /** The votes of a candidate are exactly its own and those granted in replies of this campaign: none is
      dropped, whatever arrives late, twice or out of order in between. */
  lemma {:induction false} VotesAreReplies(self: NodeId, acts: seq<Action>, s: seq<Node>, c: nat, j: nat, v: NodeId)
    requires IsRun(self, acts, s) && OneCampaign(acts, s, c, j) && s[j].local.role == Candidate
    ensures s[j].local.term == s[c].local.term + 1
    ensures v in s[j].local.votes <==> v == self || Replied(acts, v, s[j].local.term, c, j)
    decreases j
  {
    assert StepAt(self, acts, s, j - 1);
    if j > c + 1 {
      KeptAt(self, acts, s, j - 1);
      CampaignStep(self, s[j - 1], acts[j - 1]);
      VotesAreReplies(self, acts, s, c, j - 1, v);
      RepliedMore(acts, v, s[j].local.term, c, j);
    }
  }

  /** A bid makes a leader exactly if it is a candidate's, valid and claimed, and the voters whose replies
      granted the campaign's term are, with the node itself, more than half of the nodes. */
  lemma BidLeadsExactly(self: NodeId, acts: seq<Action>, s: seq<Node>, c: nat, j: nat, voters: set<NodeId>)
    requires IsRun(self, acts, s) && j < |acts| && OneCampaign(acts, s, c, j) && acts[j].Try?
    requires forall v :: v in voters <==> v == self || Replied(acts, v, s[c].local.term + 1, c, j)
    ensures s[j + 1].local.role == Leader
       <==> s[j].local.role == Candidate && acts[j].valid && acts[j].claimed && 2 * |voters| > acts[j].nodes
  {
    assert StepAt(self, acts, s, j);
    KeptAt(self, acts, s, j);
    if s[j].local.role == Candidate {
      forall v ensures v in s[j].local.votes <==> v in voters {
        VotesAreReplies(self, acts, s, c, j, v);
      }
      assert s[j].local.votes == voters;
    }
  }

  /** How a campaign ends: in another one exactly if it times out, in leadership exactly by a bid that wins, and
      in following otherwise. */
  lemma CampaignEndsExactly(self: NodeId, acts: seq<Action>, s: seq<Node>, j: nat)
    requires IsRun(self, acts, s) && j < |acts| && s[j].loop == Campaigning && s[j + 1].loop != Campaigning
    ensures s[j + 1].loop == Top
    ensures s[j + 1].local.role == Candidate <==> acts[j] == Stand
    ensures s[j + 1].local.role == Leader ==> Won(acts, s, j + 1, j)
  {
    assert StepAt(self, acts, s, j);
    KeptAt(self, acts, s, j);
  }

  /** How leadership ends: a heartbeat body finds a higher term or another leader, or the node steps down. */
  lemma LeadershipEndsExactly(self: NodeId, acts: seq<Action>, s: seq<Node>, j: nat)
    requires IsRun(self, acts, s) && j < |acts| && s[j].local.role == Leader
    ensures s[j + 1].local.role == Follower <==> acts[j].BeatLand? || acts[j].BeatConflict? || acts[j].StepDown?
    ensures s[j + 1].local.role == Follower || s[j + 1].local == s[j].local
  {
    assert StepAt(self, acts, s, j);
    KeptAt(self, acts, s, j);
  }

  lemma Extend(self: NodeId, acts: seq<Action>, s: seq<Node>, a: Action) returns (more: seq<Action>, t: seq<Node>)
    requires IsRun(self, acts, s) && Enabled(s[|acts|], a)
    ensures more == acts + [a] && t == s + [Apply(self, s[|acts|], a)] && IsRun(self, more, t)
  {
    more, t := acts + [a], s + [Apply(self, s[|acts|], a)];
    forall i | 0 <= i < |more| ensures StepAt(self, more, t, i) {
      assert i < |acts| ==> StepAt(self, acts, s, i);
    }
  }

  /** A campaign under way in term 1 with its request sent and `grants` given and answered. */
  function Underway(self: NodeId, voters: set<NodeId>): Node {
    Node(Local(Candidate, 1, voters + {self}), Campaigning, {1}, set v | v in voters :: (v, 1), {})
  }

  lemma {:induction false} VotesComeIn(self: NodeId, voters: set<NodeId>) returns (acts: seq<Action>, s: seq<Node>)
    ensures IsRun(self, acts, s) && s[|acts|] == Underway(self, voters)
    decreases voters
  {
    if voters == {} {
      acts, s := [], [FRESH];
      acts, s := Extend(self, acts, s, Dispatch);
      acts, s := Extend(self, acts, s, Stand);
      acts, s := Extend(self, acts, s, Dispatch);
      acts, s := Extend(self, acts, s, Campaign);
      acts, s := Extend(self, acts, s, Ask);
    } else {
      var v :| v in voters;
      acts, s := VotesComeIn(self, voters - {v});
      acts, s := Extend(self, acts, s, Grant(v, 1));
      acts, s := Extend(self, acts, s, Reply(v, 1, true));
      assert (voters - {v}) + {self} + {v} == voters + {self};
      assert (set w | w in voters - {v} :: (w, 1)) + {(v, 1)} == set w | w in voters :: (w, 1);
    }
  }

  /** Whoever grants its vote, a node that has more than half of the nodes with its own can come to lead. */
  lemma MajoritiesWin(self: NodeId, voters: set<NodeId>, nodes: nat) returns (acts: seq<Action>, s: seq<Node>)
    requires 2 * |voters + {self}| > nodes
    ensures IsRun(self, acts, s) && s[|acts|].local == Local(Leader, 1, voters + {self})
  {
    acts, s := VotesComeIn(self, voters);
    acts, s := Extend(self, acts, s, Try(1, true, nodes, true));
  }

  // ---- Terms ------------------------------------------------------------------------------------

  /** A heartbeat body acts on a term that beats the one it read, but no longer the node's own. */
  predicate Overtaken(n: Node, a: Action) {
    || (a.BeatLand? && a.snap < a.found < n.local.term)
    || (a.HearLand? && n.loop.Hearing? && n.loop.snap < a.found < n.local.term)
  }

  /** The node's term falls in exactly the steps that act on an overtaken heartbeat. */
  lemma TermFallsExactly(self: NodeId, n: Node, a: Action)
    requires Enabled(n, a)
    ensures Apply(self, n, a).local.term < n.local.term <==> Overtaken(n, a)
  {
    match a
    case Reply(_, _, _) =>
    case Try(_, _, _, _) =>
    case _ =>
  }

  /** Every sendHeartbeats body is one step: the node still leads, in the term that the body read. */
  predicate WholeBeats(acts: seq<Action>, s: seq<Node>)
    requires |s| == |acts| + 1
  {
    forall i :: 0 <= i < |acts| && acts[i].BeatLand? ==>
      s[i].local.role == Leader && s[i].local.term == acts[i].snap
  }

  /** Then receiveHeartbeat may be split: nothing else moves the term while it runs. */
  lemma {:induction false} HearingIsCurrent(self: NodeId, acts: seq<Action>, s: seq<Node>, i: nat)
    requires IsRun(self, acts, s) && WholeBeats(acts, s) && i <= |acts|
    ensures s[i].loop.Hearing? ==> s[i].loop.snap == s[i].local.term
  {
    if i > 0 {
      HearingIsCurrent(self, acts, s, i - 1);
      KeptAt(self, acts, s, i - 1);
      assert StepAt(self, acts, s, i - 1);
    }
  }

  lemma {:induction false} TermsNeverFall(self: NodeId, acts: seq<Action>, s: seq<Node>, i: nat, j: nat)
    requires IsRun(self, acts, s) && WholeBeats(acts, s) && i <= j <= |acts|
    ensures s[i].local.term <= s[j].local.term
    decreases j - i
  {
    if i < j {
      TermsNeverFall(self, acts, s, i, j - 1);
      HearingIsCurrent(self, acts, s, j - 1);
      assert StepAt(self, acts, s, j - 1);
      TermFallsExactly(self, s[j - 1], acts[j - 1]);
    }
  }

  /** A node never campaigns twice in one term. */
  lemma CampaignsRise(self: NodeId, acts: seq<Action>, s: seq<Node>, i: nat, j: nat)
    requires IsRun(self, acts, s) && WholeBeats(acts, s)
    requires i < j < |acts| && acts[i] == Campaign && acts[j] == Campaign
    ensures s[i + 1].local.term < s[j + 1].local.term
  {
    TermsNeverFall(self, acts, s, i + 1, j);
    assert StepAt(self, acts, s, j);
  }

  /** A leader of term 1 that has stepped down, one of its heartbeat bodies still under way. */
  function Haunted(self: NodeId): Node {
    Node(Local(Follower, 1, {self}), Top, {}, {}, {1})
  }

  lemma Reign(self: NodeId) returns (acts: seq<Action>, s: seq<Node>)
    ensures IsRun(self, acts, s) && s[|acts|] == Haunted(self)
  {
    acts, s := [], [FRESH];
    acts, s := Extend(self, acts, s, Dispatch);
    acts, s := Extend(self, acts, s, Stand);
    acts, s := Extend(self, acts, s, Dispatch);
    acts, s := Extend(self, acts, s, Campaign);
    assert |{self}| == 1;
    acts, s := Extend(self, acts, s, Try(1, true, 1, true));
    acts, s := Extend(self, acts, s, BeatRead);
    acts, s := Extend(self, acts, s, Dispatch);
    acts, s := Extend(self, acts, s, StepDown);
  }

  /** Split, a heartbeat of an earlier leadership lowers the term, and the node campaigns in term 3 twice. */
  lemma LateBeatRepeatsATerm(self: NodeId) returns (acts: seq<Action>, s: seq<Node>, i: nat, j: nat)
    ensures IsRun(self, acts, s) && i < j < |acts|
    ensures acts[i] == Campaign && acts[j] == Campaign
    ensures s[i + 1].local.term == 3 == s[j + 1].local.term
    ensures acts[i + 1] == BeatLand(1, 2) && s[i + 2].local.term == 2
  {
    acts, s := Reign(self);
    acts, s := Extend(self, acts, s, Dispatch);
    acts, s := Extend(self, acts, s, Stand);
    acts, s := Extend(self, acts, s, Dispatch);
    acts, s := Extend(self, acts, s, Campaign);
    acts, s := Extend(self, acts, s, Stand);
    acts, s := Extend(self, acts, s, Dispatch);
    i := |acts|;
    acts, s := Extend(self, acts, s, Campaign);
    acts, s := Extend(self, acts, s, BeatLand(1, 2));
    acts, s := Extend(self, acts, s, Stand);
    acts, s := Extend(self, acts, s, Dispatch);
    j := |acts|;
    acts, s := Extend(self, acts, s, Campaign);
  }
}
