/** The consumer-group state machine that committed log entries drive (internal/raft/fsm.go). */
module GroupFsm {

  // A log entry's payload, already decoded.  Undecodable stands for a payload whose
  // decoding fails; Noop for the no-op type and for every unknown type.
  datatype Command =
    | JoinGroup(groupId: string, memberId: string, topics: seq<string>)
    | LeaveGroup(groupId: string, memberId: string)
    | AssignGroup(groupId: string, generation: int, assignment: map<string, seq<int>>)
    | Noop
    | Undecodable

  datatype MemberInfo = MemberInfo(id: string, topics: seq<string>)

  // The value of one group, and of the table of groups.
  datatype GroupValue = GroupValue(
    id: string, generation: int, members: map<string, MemberInfo>, assignment: map<string, seq<int>>)
  type Groups = map<string, GroupValue>

  function GetOrCreate(gs: Groups, id: string): GroupValue {
    if id in gs then gs[id] else GroupValue(id, 0, map[], map[])
  }

  // What one committed command does to the table of groups.
  function ApplyCommand(gs: Groups, c: Command): Groups {
    match c
    case JoinGroup(g, m, topics) =>
      var v := GetOrCreate(gs, g);
      gs[g := v.(members := v.members[m := MemberInfo(m, topics)])]
    case LeaveGroup(g, m) =>
      if g in gs then gs[g := gs[g].(members := gs[g].members - {m}, assignment := gs[g].assignment - {m})]
      else gs
    case AssignGroup(g, gen, a) =>
      gs[g := GetOrCreate(gs, g).(generation := gen, assignment := a)]
    case Noop => gs
    case Undecodable => gs
  }

  // The table after a whole history of commands, oldest first.
  function Replay(cs: seq<Command>): Groups {
    if cs == [] then map[] else ApplyCommand(Replay(cs[..|cs| - 1]), cs[|cs| - 1])
  }

  predicate Concerns(c: Command, g: string) {
    (c.JoinGroup? || c.LeaveGroup? || c.AssignGroup?) && c.groupId == g
  }

  function OnlyFor(cs: seq<Command>, g: string): seq<Command> {
    if cs == [] then []
    else
      var rest := OnlyFor(cs[..|cs| - 1], g);
      if Concerns(cs[|cs| - 1], g) then rest + [cs[|cs| - 1]] else rest
  }

  // Two tables that have the same for group g still do after the same command, or one that names another group.
  lemma AppliedProjects(all: Groups, some: Groups, c: Command, g: string)
    requires g in all <==> g in some
    requires g in all ==> all[g] == some[g]
    ensures var after := if Concerns(c, g) then ApplyCommand(some, c) else some;
            (g in ApplyCommand(all, c) <==> g in after) && (g in after ==> ApplyCommand(all, c)[g] == after[g])
  {
  }

  /** A group's value is decided by the commands that name it: all others can be dropped from the history. */
  lemma {:induction false} ReplayProjects(cs: seq<Command>, g: string)
    ensures g in Replay(cs) <==> g in Replay(OnlyFor(cs, g))
    ensures g in Replay(cs) ==> Replay(cs)[g] == Replay(OnlyFor(cs, g))[g]
  {
    if cs != [] {
      var last := cs[|cs| - 1];
      var (all, some) := (Replay(cs[..|cs| - 1]), Replay(OnlyFor(cs[..|cs| - 1], g)));
      ReplayProjects(cs[..|cs| - 1], g);
      AppliedProjects(all, some, last, g);
      if Concerns(last, g) {
        var kept := OnlyFor(cs[..|cs| - 1], g) + [last];
        assert kept[..|kept| - 1] == OnlyFor(cs[..|cs| - 1], g);
        assert Replay(kept) == ApplyCommand(some, last);
      }
    }
  }

  // -----  What a history leaves behind  -----

  predicate Joins(c: Command, g: string, m: string) {
    c.JoinGroup? && c.groupId == g && c.memberId == m
  }

  predicate Leaves(c: Command, g: string, m: string) {
    c.LeaveGroup? && c.groupId == g && c.memberId == m
  }

  predicate Assigns(c: Command, g: string) {
    c.AssignGroup? && c.groupId == g
  }

  // The k-th command made m a member of g, and none since concerns that.
  ghost predicate JoinStands(cs: seq<Command>, g: string, m: string, k: int) {
    && 0 <= k < |cs| && Joins(cs[k], g, m)
    && forall j :: k < j < |cs| ==> !Joins(cs[j], g, m) && !Leaves(cs[j], g, m)
  }

  // The k-th command is the last that assigned shares in g.
  ghost predicate LastAssign(cs: seq<Command>, g: string, k: int) {
    && 0 <= k < |cs| && Assigns(cs[k], g)
    && forall j :: k < j < |cs| ==> !Assigns(cs[j], g)
  }

  // m has left g by a command after the k-th.
  ghost predicate LeftSince(cs: seq<Command>, g: string, m: string, k: int) {
    exists j :: 0 <= j < |cs| && k < j && Leaves(cs[j], g, m)
  }

  /** A group is in the table exactly if some member has joined it or some assignment was made for it. */
  lemma {:induction false} GroupIff(cs: seq<Command>, g: string)
    ensures g in Replay(cs) <==> exists k :: 0 <= k < |cs| && (Assigns(cs[k], g) || (cs[k].JoinGroup? && cs[k].groupId == g))
    ensures g in Replay(cs) ==> Replay(cs)[g].id == g
  {
    hide ApplyCommand;
    if cs != [] {
      var n := |cs| - 1;
      GroupIff(cs[..n], g);
      GroupAfter(Replay(cs[..n]), cs[n], g);
      forall k | 0 <= k < n ensures cs[..n][k] == cs[k] {}
    }
  }

  lemma GroupAfter(gs: Groups, c: Command, g: string)
    ensures g in ApplyCommand(gs, c) <==> g in gs || Assigns(c, g) || (c.JoinGroup? && c.groupId == g)
    ensures g in ApplyCommand(gs, c) && (g in gs ==> gs[g].id == g) ==> ApplyCommand(gs, c)[g].id == g
  {
  }

  predicate HasMember(gs: Groups, g: string, m: string) {
    g in gs && m in gs[g].members
  }

  lemma MemberAfter(gs: Groups, c: Command, g: string, m: string)
    ensures HasMember(ApplyCommand(gs, c), g, m) <==> Joins(c, g, m) || (HasMember(gs, g, m) && !Leaves(c, g, m))
    ensures Joins(c, g, m) ==> ApplyCommand(gs, c)[g].members[m] == MemberInfo(m, c.topics)
    ensures HasMember(gs, g, m) && !Joins(c, g, m) && !Leaves(c, g, m) ==> ApplyCommand(gs, c)[g].members[m] == gs[g].members[m]
  {
  }

  /** m is a member of g exactly if the last command to join or leave it was a join, with the topics of that join. */
  lemma {:induction false} MemberIff(cs: seq<Command>, g: string, m: string)
    ensures HasMember(Replay(cs), g, m) <==> exists k :: JoinStands(cs, g, m, k)
    ensures forall k :: JoinStands(cs, g, m, k) ==>
      HasMember(Replay(cs), g, m) && Replay(cs)[g].members[m] == MemberInfo(m, cs[k].topics)
  {
    hide ApplyCommand, HasMember;
    NothingAssigned(g, m, []);
    if cs != [] {
      var n := |cs| - 1;
      var c := cs[n];
      MemberIff(cs[..n], g, m);
      MemberAfter(Replay(cs[..n]), c, g, m);
      forall k | 0 <= k < n ensures JoinStands(cs, g, m, k) <==> JoinStands(cs[..n], g, m, k) && !Joins(c, g, m) && !Leaves(c, g, m) {
        StandsLonger(cs, g, m, k);
      }
      assert Joins(c, g, m) <==> JoinStands(cs, g, m, n);
    }
  }

  lemma StandsLonger(cs: seq<Command>, g: string, m: string, k: int)
    requires cs != [] && 0 <= k < |cs| - 1
    ensures var (n, c) := (|cs| - 1, cs[|cs| - 1]);
            JoinStands(cs, g, m, k) <==> JoinStands(cs[..n], g, m, k) && !Joins(c, g, m) && !Leaves(c, g, m)
  {
    var n := |cs| - 1;
    assert forall j :: 0 <= j < n ==> cs[..n][j] == cs[j];
  }

  // What g's assignment says of m, if anything.
  predicate HasShare(gs: Groups, g: string, m: string, share: seq<int>) {
    g in gs && m in gs[g].assignment && gs[g].assignment[m] == share
  }

  function GenerationOf(gs: Groups, g: string): int {
    if g in gs then gs[g].generation else 0
  }

  lemma AssignmentAfter(gs: Groups, c: Command, g: string, m: string, share: seq<int>)
    ensures GenerationOf(ApplyCommand(gs, c), g) == if Assigns(c, g) then c.generation else GenerationOf(gs, g)
    ensures HasShare(ApplyCommand(gs, c), g, m, share)
            <==> if Assigns(c, g) then m in c.assignment && c.assignment[m] == share
                 else HasShare(gs, g, m, share) && !Leaves(c, g, m)
  {
  }

  /**
   The generation of g is that of the last assignment made for it, and its shares are those of that assignment for all
   that have not left since; before the first there is generation 0 and no share.
   */
  lemma {:induction false} AssignmentIs(cs: seq<Command>, g: string, m: string, share: seq<int>)
    ensures (forall k :: !LastAssign(cs, g, k)) ==> GenerationOf(Replay(cs), g) == 0 && !HasShare(Replay(cs), g, m, share)
    ensures forall k :: LastAssign(cs, g, k) ==>
      && GenerationOf(Replay(cs), g) == cs[k].generation
      && (HasShare(Replay(cs), g, m, share)
          <==> m in cs[k].assignment && cs[k].assignment[m] == share && !LeftSince(cs, g, m, k))
  {
    hide ApplyCommand, HasShare, GenerationOf;
    NothingAssigned(g, m, share);
    if cs != [] {
      var n := |cs| - 1;
      AssignmentIs(cs[..n], g, m, share);
      AssignmentAfter(Replay(cs[..n]), cs[n], g, m, share);
      forall k | 0 <= k < n
        ensures LastAssign(cs, g, k) <==> LastAssign(cs[..n], g, k) && !Assigns(cs[n], g)
        ensures LeftSince(cs, g, m, k) <==> LeftSince(cs[..n], g, m, k) || Leaves(cs[n], g, m)
      {
        LastsLonger(cs, g, m, k);
      }
      assert Assigns(cs[n], g) <==> LastAssign(cs, g, n);
      assert !LeftSince(cs, g, m, n);
    }
  }

  lemma NothingAssigned(g: string, m: string, share: seq<int>)
    ensures GenerationOf(map[], g) == 0 && !HasShare(map[], g, m, share) && !HasMember(map[], g, m)
  {
  }

  lemma LastsLonger(cs: seq<Command>, g: string, m: string, k: int)
    requires cs != [] && 0 <= k < |cs| - 1
    ensures var (n, c) := (|cs| - 1, cs[|cs| - 1]);
            && (LastAssign(cs, g, k) <==> LastAssign(cs[..n], g, k) && !Assigns(c, g))
            && (LeftSince(cs, g, m, k) <==> LeftSince(cs[..n], g, m, k) || Leaves(c, g, m))
  {
    var n := |cs| - 1;
    assert forall j :: 0 <= j < n ==> cs[..n][j] == cs[j];
    if LeftSince(cs[..n], g, m, k) {
      var j :| 0 <= j < n && k < j && Leaves(cs[..n][j], g, m);
      assert Leaves(cs[j], g, m);
    }
  }

  class GroupInfo {
    const id: string
    var generation: int
    var members: map<string, MemberInfo>
    var assignment: map<string, seq<int>>

    constructor (id: string)
      ensures this.id == id && Value() == GroupValue(id, 0, map[], map[])
    {
      this.id := id;
      generation := 0;
      members := map[];
      assignment := map[];
    }

    function Value(): GroupValue
      reads this
    {
      GroupValue(id, generation, members, assignment)
    }
  }

  class GroupState {
    var groups: map<string, GroupInfo>

    // No two group ids share an object: an update through one cannot show through another.
    ghost predicate Valid()
      reads this, groups.Values
    {
      && (forall g <- groups :: groups[g].id == g)
    }

    ghost function Contents(): Groups
      reads this, groups.Values
    {
      map g | g in groups :: groups[g].Value()
    }

    constructor ()
      ensures Valid() && Contents() == map[] && groups == map[]
    {
      groups := map[];
    }

    method getOrCreate(id: string) returns (g: GroupInfo)
      requires Valid()
      modifies this
      ensures Valid() && id in groups && groups[id] == g
      ensures id in old(groups) ==> groups == old(groups)
      ensures id !in old(groups) ==> fresh(g) && groups == old(groups)[id := g]
      ensures g.Value() == GetOrCreate(old(Contents()), id)
    {
      if id in groups {
        return groups[id];
      }
      g := new GroupInfo(id);
      groups := groups[id := g];
    }

    // When only the object of group gid changed, the table changed only there.
    twostate lemma OnlyGroupChanged(gid: string)
      requires old(Valid()) && Valid() && gid in groups
      requires old(groups).Keys + {gid} == groups.Keys
      requires forall g <- old(groups) :: groups[g] == old(groups[g])
      requires forall g <- groups | g != gid :: g in old(groups) && unchanged(groups[g])
      ensures Contents() == old(Contents())[gid := groups[gid].Value()]
    {
      forall g <- groups | g != gid ensures groups[g].Value() == old(Contents())[g] {
        assert groups[g].Value() == old(groups[g].Value());
      }
    }

    method applyJoin(gid: string, m: string, topics: seq<string>)
      requires Valid()
      modifies this, groups.Values
      ensures Valid() && Contents() == ApplyCommand(old(Contents()), JoinGroup(gid, m, topics))
      ensures forall o <- groups.Values :: o in old(groups.Values) || fresh(o)
    {
      var g := getOrCreate(gid);
      g.members := g.members[m := MemberInfo(m, topics)];
      OnlyGroupChanged(gid);
    }

    method applyLeave(gid: string, m: string)
      requires Valid()
      modifies this, groups.Values
      ensures Valid() && Contents() == ApplyCommand(old(Contents()), LeaveGroup(gid, m))
      ensures groups == old(groups)
    {
      if gid in groups {
        var g := groups[gid];
        g.members := g.members - {m};
        g.assignment := g.assignment - {m};
        OnlyGroupChanged(gid);
      }
    }

    method applyAssign(gid: string, gen: int, a: map<string, seq<int>>)
      requires Valid()
      modifies this, groups.Values
      ensures Valid() && Contents() == ApplyCommand(old(Contents()), AssignGroup(gid, gen, a))
      ensures forall o <- groups.Values :: o in old(groups.Values) || fresh(o)
    {
      var g := getOrCreate(gid);
      g.generation := gen;
      g.assignment := a;
      OnlyGroupChanged(gid);
    }

    /** Applying a committed entry changes the table exactly as ApplyCommand says. */
    method Apply(c: Command)
      requires Valid()
      modifies this, groups.Values
      ensures Valid() && Contents() == ApplyCommand(old(Contents()), c)
      ensures forall o <- groups.Values :: o in old(groups.Values) || fresh(o)
    {
      match c
      case JoinGroup(gid, m, topics) => applyJoin(gid, m, topics);
      case LeaveGroup(gid, m) => applyLeave(gid, m);
      case AssignGroup(gid, gen, a) => applyAssign(gid, gen, a);
      case Noop =>
      case Undecodable =>
    }
  }
}
