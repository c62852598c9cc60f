/**
 * The server-side team handlers: create, list, fetch, update and delete a
 * team, and add or remove a member, over an in-memory team collection and a
 * user directory keyed by e-mail. Each handler returns the HTTP status and
 * the JSON envelope `{ success, data?, errors?, msg? }` it would send.
 */
module TeamController {
  import opened Wrappers

  /** Record identifiers. The handlers only ever compare them for equality. */
  type UserId = nat
  type TeamId = nat

  datatype Team = Team(
    name: string,
    description: string,
    owner: UserId,
    admins: seq<UserId>,
    members: seq<UserId>)

  /** The fields a PUT/PATCH request body may change. */
  datatype Patch = Patch(name: Option<string>, description: Option<string>)

  /** The `data` field of a reply. */
  datatype Data =
    | NoData
    | OneTeam(id: TeamId, team: Team)
    | TeamList(teams: map<TeamId, Team>)

  /** Status code and JSON envelope; `errors == []` stands for an absent `errors` field. */
  datatype Reply = Reply(status: nat, success: bool, data: Data, errors: seq<string>, msg: Option<string>)

  const DuplicateTeamMessage := "You already have a team with this name"
  const TeamNotFoundMessage := "Team not found"
  const NotAuthorizedUpdateMessage := "Not authorized to update this team"
  const NotAuthorizedDeleteMessage := "Not authorized to delete this team"
  const UnknownEmailMessage := "User with this email does not exist"
  const AlreadyMemberMessage := "User already in the team"
  const NotMemberMessage := "User not present in the team"
  const MemberAddedMessage := "Member successfully added!"
  const MemberRemovedMessage := "Member successfully removed!"

  /** A failed reply: `{ success: false, errors: [message] }`. */
  function Failure(status: nat, message: string): Reply {
    Reply(status, false, NoData, [message], None)
  }

  /** No user appears twice in a roster. */
  predicate NoDuplicates(s: seq<UserId>) {
    forall i, j :: 0 <= i < j < |s| ==> s[i] != s[j]
  }

  /** The owner heads the roster, as `createTeam` leaves it. */
  predicate OwnerFirst(t: Team) {
    |t.members| > 0 && t.members[0] == t.owner
  }

  /** Some team of `owner` already carries `name`. */
  predicate HasTeamNamed(teams: map<TeamId, Team>, name: string, owner: UserId) {
    exists id :: id in teams && teams[id].name == name && teams[id].owner == owner
  }

  /** No two teams share both name and owner. */
  predicate UniqueNames(teams: map<TeamId, Team>) {
    forall a, b :: a in teams && b in teams && a != b ==>
      teams[a].name != teams[b].name || teams[a].owner != teams[b].owner
  }

  /** The team `createTeam` stores for `owner`. */
  function NewTeam(name: string, description: string, owner: UserId): (t: Team)
    ensures t.owner == owner && t.name == name && t.description == description
    ensures owner in t.admins && owner in t.members
    ensures t.admins == t.members == [owner]
    ensures OwnerFirst(t)
  {
    Team(name, description, owner, [owner], [owner])
  }

  /** A team after `findByIdAndUpdate` with a request body carrying `p`. */
  function Patched(t: Team, p: Patch): (r: Team)
    ensures r.owner == t.owner && r.admins == t.admins && r.members == t.members
    ensures p.name.None? ==> r.name == t.name
    ensures p.description.None? ==> r.description == t.description
    ensures p.name.Some? ==> r.name == p.name.value
    ensures p.description.Some? ==> r.description == p.description.value
  {
    t.(name := p.name.GetOr(t.name), description := p.description.GetOr(t.description))
  }

  /** `members.indexOf(x)` for an `x` that occurs: the first position holding `x`. */
  function IndexOf(s: seq<UserId>, x: UserId): (i: nat)
    requires x in s
    ensures i < |s| && s[i] == x
    ensures x !in s[..i]
  {
    if s[0] == x then 0
    else
      var j := IndexOf(s[1..], x);
      assert s[..j + 1] == [s[0]] + s[1..][..j];
      1 + j
  }

  /**
   * The roster after `members.splice(members.indexOf(u))`: `splice` with no
   * delete count drops every element from the first `u` on.
   */
  function TruncateAt(members: seq<UserId>, u: UserId): (r: seq<UserId>)
    requires u in members
    ensures r <= members && |r| < |members|
    ensures u !in r && members[|r|] == u
  {
    members[..IndexOf(members, u)]
  }

  /** The roster with the first `u` removed and everyone else kept in order. */
  function RemoveOnce(members: seq<UserId>, u: UserId): (r: seq<UserId>)
    requires u in members
    ensures |r| == |members| - 1
    ensures multiset(r) == multiset(members) - multiset{u}
  {
    var i := IndexOf(members, u);
    assert members == members[..i] + [u] + members[i + 1..];
    members[..i] + members[i + 1..]
  }

  /** On a roster without duplicates, removing `u` once keeps exactly the other members. */
  lemma RemoveOnceKeepsOthers(members: seq<UserId>, u: UserId)
    requires u in members && NoDuplicates(members)
    ensures NoDuplicates(RemoveOnce(members, u))
    ensures forall x :: x in RemoveOnce(members, u) <==> x in members && x != u
  {
    var i := IndexOf(members, u);
    var r := RemoveOnce(members, u);
    assert r == members[..i] + members[i + 1..];
    forall p, q | 0 <= p < q < |r| ensures r[p] != r[q] {
      var p' := if p < i then p else p + 1;
      var q' := if q < i then q else q + 1;
      assert r[p] == members[p'] && r[q] == members[q'] && p' < q';
    }
    forall x ensures x in r <==> x in members && x != u {
      if x in r {
        var k :| 0 <= k < |r| && r[k] == x;
        var k' := if k < i then k else k + 1;
        assert members[k'] == x && k' != i;
      }
      if x in members && x != u {
        var k :| 0 <= k < |members| && members[k] == x;
        assert k != i;
        assert r[if k < i then k else k - 1] == x;
      }
    }
  }

  /** Truncation keeps nothing new: every survivor was a member before. */
  lemma TruncateKeepsRosterShape(members: seq<UserId>, u: UserId)
    requires u in members && NoDuplicates(members)
    ensures NoDuplicates(TruncateAt(members, u))
    ensures forall x :: x in TruncateAt(members, u) ==> x in members && x != u
  {
    var r := TruncateAt(members, u);
    forall x | x in r ensures x in members {
      var k :| 0 <= k < |r| && r[k] == x;
      assert members[k] == x;
    }
  }

  /**
   * With the owner at the head of the roster, as `createTeam` leaves it,
   * removing anyone else by truncation keeps the owner a member.
   */
  lemma OwnerSurvivesTruncation(members: seq<UserId>, owner: UserId, u: UserId)
    requires |members| > 0 && members[0] == owner
    requires u in members && u != owner
    ensures |TruncateAt(members, u)| > 0 && TruncateAt(members, u)[0] == owner
    ensures owner in TruncateAt(members, u)
  {
    var i := IndexOf(members, u);
    assert i != 0;
  }

  /** Removing the owner from a roster the owner heads empties it. */
  lemma OwnerRemovalEmptiesRoster(members: seq<UserId>, owner: UserId)
    requires |members| > 0 && members[0] == owner
    ensures TruncateAt(members, owner) == []
  {
    assert IndexOf(members, owner) == 0;
  }

  /** With the intended single removal, the owner stays wherever it sits. */
  lemma OwnerSurvivesRemoveOnce(members: seq<UserId>, owner: UserId, u: UserId)
    requires owner in members && u in members && u != owner
    ensures owner in RemoveOnce(members, u)
  {
    var r := RemoveOnce(members, u);
    assert multiset(r) == multiset(members) - multiset{u};
    assert owner in multiset(members);
    assert owner in multiset(r);
  }

  /** Truncation loses members behind the removed one: removing 2 from [1, 2, 3] also loses 3. */
  lemma TruncationDropsLaterMembers()
    ensures TruncateAt([1, 2, 3], 2) == [1]
    ensures RemoveOnce([1, 2, 3], 2) == [1, 3]
  {
    assert IndexOf([1, 2, 3], 2) == 1;
  }

  /**
   * `updateTeam` does not look for another team of the same owner with the
   * new name: two teams of one owner can end up with the same name.
   */
  lemma UpdateCanDuplicateName()
    ensures var teams := map[0 := Team("A", "", 7, [7], [7]), 1 := Team("B", "", 7, [7], [7])];
            UniqueNames(teams) &&
            !UniqueNames(teams[1 := Patched(teams[1], Patch(Some("A"), None))])
  {
    var teams := map[0 := Team("A", "", 7, [7], [7]), 1 := Team("B", "", 7, [7], [7])];
    var after := teams[1 := Patched(teams[1], Patch(Some("A"), None))];
    assert after[0].name == after[1].name && after[0].owner == after[1].owner;
  }

  /** The team collection as the handlers see it, with the user directory beside it. */
  class TeamStore {
    var teams: map<TeamId, Team>
    var users: map<string, UserId>
    /** Every stored id is below this one; `Team.create` hands it out next. */
    var nextId: TeamId

    ghost predicate Valid()
      reads this
    {
      (forall id :: id in teams ==> id < nextId) &&
      (forall id :: id in teams ==> NoDuplicates(teams[id].members))
    }

    constructor (users: map<string, UserId>)
      ensures Valid()
      ensures this.teams == map[] && this.users == users
    {
      this.teams := map[];
      this.users := users;
      this.nextId := 0;
    }

    /** POST /teams: create a team owned by `caller`, unless it already has one of that name. */
    method CreateTeam(caller: UserId, name: string, description: string) returns (r: Reply)
      requires Valid()
      modifies this`teams, this`nextId
      ensures Valid()
      ensures HasTeamNamed(old(teams), name, caller) ==>
        r == Failure(403, DuplicateTeamMessage) && teams == old(teams)
      ensures !HasTeamNamed(old(teams), name, caller) ==>
        r.status == 200 && r.success && r.data.OneTeam? && r.data.id !in old(teams) &&
        r.data.team == NewTeam(name, description, caller) &&
        teams == old(teams)[r.data.id := r.data.team] &&
        r.errors == [] && r.msg == Some("Team successfully created!") &&
        OwnerFirst(teams[r.data.id])
      ensures UniqueNames(old(teams)) ==> UniqueNames(teams)
    {
      if exists id :: id in teams && teams[id].name == name && teams[id].owner == caller {
        return Failure(403, DuplicateTeamMessage);
      }
      var id := nextId;
      var team := NewTeam(name, description, caller);
      teams := teams[id := team];
      nextId := nextId + 1;
      r := Reply(200, true, OneTeam(id, team), [], Some("Team successfully created!"));
    }

    /** GET /teams: exactly the teams `caller` owns, whatever rosters it sits on. */
    method FetchTeams(caller: UserId) returns (r: Reply)
      ensures r.status == 200 && r.success && r.errors == []
      ensures r.msg == Some("Teams successfully fetched")
      ensures r.data.TeamList?
      ensures forall id :: id in r.data.teams <==> id in teams && teams[id].owner == caller
      ensures forall id :: id in r.data.teams ==> r.data.teams[id] == teams[id]
    {
      var owned := map id | id in teams && teams[id].owner == caller :: teams[id];
      r := Reply(200, true, TeamList(owned), [], Some("Teams successfully fetched"));
    }

    /** GET /teams/:id: the stored team, with no ownership or membership check. */
    method FetchTeam(id: TeamId) returns (r: Reply)
      ensures id !in teams ==> r == Failure(404, TeamNotFoundMessage)
      ensures id in teams ==>
        r == Reply(200, true, OneTeam(id, teams[id]), [], Some("Team successfully fetched"))
    {
      if id !in teams {
        return Failure(404, TeamNotFoundMessage);
      }
      r := Reply(200, true, OneTeam(id, teams[id]), [], Some("Team successfully fetched"));
    }

    /** PUT /teams/:id: only the owner may apply a patch; it touches that team only. */
    method UpdateTeam(caller: UserId, id: TeamId, patch: Patch) returns (r: Reply)
      requires Valid()
      modifies this`teams
      ensures Valid()
      ensures id !in old(teams) ==> r == Failure(404, TeamNotFoundMessage) && teams == old(teams)
      ensures id in old(teams) && old(teams)[id].owner != caller ==>
        r == Failure(401, NotAuthorizedUpdateMessage) && teams == old(teams)
      ensures id in old(teams) && old(teams)[id].owner == caller ==>
        teams == old(teams)[id := Patched(old(teams)[id], patch)] &&
        r == Reply(200, true, OneTeam(id, teams[id]), [], Some("Team updated!"))
    {
      if id !in teams {
        return Failure(404, TeamNotFoundMessage);
      }
      if teams[id].owner != caller {
        return Failure(401, NotAuthorizedUpdateMessage);
      }
      teams := teams[id := Patched(teams[id], patch)];
      r := Reply(200, true, OneTeam(id, teams[id]), [], Some("Team updated!"));
    }

    /** DELETE /teams/:id: only the owner may delete; every other team is left as it was. */
    method DeleteTeam(caller: UserId, id: TeamId) returns (r: Reply)
      requires Valid()
      modifies this`teams
      ensures Valid()
      ensures id !in old(teams) ==> r == Failure(404, TeamNotFoundMessage) && teams == old(teams)
      ensures id in old(teams) && old(teams)[id].owner != caller ==>
        r == Failure(401, NotAuthorizedDeleteMessage) && teams == old(teams)
      ensures id in old(teams) && old(teams)[id].owner == caller ==>
        teams == old(teams) - {id} &&
        r == Reply(200, true, NoData, [], Some("Team successfully deleted!"))
      ensures UniqueNames(old(teams)) ==> UniqueNames(teams)
    {
      if id !in teams {
        return Failure(404, TeamNotFoundMessage);
      }
      if teams[id].owner != caller {
        return Failure(401, NotAuthorizedDeleteMessage);
      }
      teams := teams - {id};
      r := Reply(200, true, NoData, [], Some("Team successfully deleted!"));
    }

    /**
     * POST /teams/:id/members: append the user registered under `email`.
     * The team itself comes from middleware that has already loaded it.
     */
    method AddTeamMember(teamId: TeamId, email: string) returns (r: Reply)
      requires Valid() && teamId in teams
      modifies this`teams
      ensures Valid()
      ensures email !in users ==> r == Failure(404, UnknownEmailMessage) && teams == old(teams)
      ensures email in users && users[email] in old(teams)[teamId].members ==>
        r == Failure(409, AlreadyMemberMessage) && teams == old(teams)
      ensures email in users && users[email] !in old(teams)[teamId].members ==>
        teams == old(teams)[teamId := old(teams)[teamId].(members := old(teams)[teamId].members + [users[email]])] &&
        r == Reply(200, true, OneTeam(teamId, teams[teamId]), [MemberAddedMessage], None)
      ensures OwnerFirst(old(teams)[teamId]) ==> teamId in teams && OwnerFirst(teams[teamId])
      ensures UniqueNames(old(teams)) ==> UniqueNames(teams)
    {
      if email !in users {
        return Failure(404, UnknownEmailMessage);
      }
      var user := users[email];
      var members := teams[teamId].members;
      if user in members {
        return Failure(409, AlreadyMemberMessage);
      }
      teams := teams[teamId := teams[teamId].(members := members + [user])];
      r := Reply(200, true, OneTeam(teamId, teams[teamId]), [MemberAddedMessage], None);
    }

    /**
     * DELETE /teams/:id/members as written: an unknown e-mail is a success,
     * and the roster is cut at the user's position.
     */
    method RemoveTeamMember(teamId: TeamId, email: string) returns (r: Reply)
      requires Valid() && teamId in teams
      modifies this`teams
      ensures Valid()
      ensures email !in users ==>
        r == Reply(200, true, NoData, [UnknownEmailMessage], None) && teams == old(teams)
      ensures email in users && users[email] !in old(teams)[teamId].members ==>
        r == Failure(404, NotMemberMessage) && teams == old(teams)
      ensures email in users && users[email] in old(teams)[teamId].members ==>
        teams == old(teams)[teamId := old(teams)[teamId].(members := TruncateAt(old(teams)[teamId].members, users[email]))] &&
        r == Reply(200, true, OneTeam(teamId, teams[teamId]), [MemberRemovedMessage], None)
      ensures OwnerFirst(old(teams)[teamId]) ==>
        teamId in teams && (OwnerFirst(teams[teamId]) || teams[teamId].members == [])
      ensures OwnerFirst(old(teams)[teamId]) && email in users && users[email] == old(teams)[teamId].owner ==>
        teams[teamId].members == []
      ensures UniqueNames(old(teams)) ==> UniqueNames(teams)
    {
      if email !in users {
        return Reply(200, true, NoData, [UnknownEmailMessage], None);
      }
      var user := users[email];
      var members := teams[teamId].members;
      if user !in members {
        return Failure(404, NotMemberMessage);
      }
      TruncateKeepsRosterShape(members, user);
      if OwnerFirst(teams[teamId]) {
        if user == teams[teamId].owner {
          OwnerRemovalEmptiesRoster(members, user);
        } else {
          OwnerSurvivesTruncation(members, teams[teamId].owner, user);
        }
      }
      members := TruncateAt(members, user);
      teams := teams[teamId := teams[teamId].(members := members)];
      r := Reply(200, true, OneTeam(teamId, teams[teamId]), [MemberRemovedMessage], None);
    }

    /** DELETE /teams/:id/members as evidently intended: `splice(index, 1)` removes one entry. */
    method RemoveTeamMemberOnce(teamId: TeamId, email: string) returns (r: Reply)
      requires Valid() && teamId in teams
      modifies this`teams
      ensures Valid()
      ensures email !in users ==>
        r == Reply(200, true, NoData, [UnknownEmailMessage], None) && teams == old(teams)
      ensures email in users && users[email] !in old(teams)[teamId].members ==>
        r == Failure(404, NotMemberMessage) && teams == old(teams)
      ensures email in users && users[email] in old(teams)[teamId].members ==>
        teamId in teams &&
        (forall x :: x in teams[teamId].members <==> x in old(teams)[teamId].members && x != users[email]) &&
        |teams[teamId].members| == |old(teams)[teamId].members| - 1 &&
        teams == old(teams)[teamId := old(teams)[teamId].(members := RemoveOnce(old(teams)[teamId].members, users[email]))] &&
        r == Reply(200, true, OneTeam(teamId, teams[teamId]), [MemberRemovedMessage], None)
      ensures UniqueNames(old(teams)) ==> UniqueNames(teams)
    {
      if email !in users {
        return Reply(200, true, NoData, [UnknownEmailMessage], None);
      }
      var user := users[email];
      var members := teams[teamId].members;
      if user !in members {
        return Failure(404, NotMemberMessage);
      }
      RemoveOnceKeepsOthers(members, user);
      members := RemoveOnce(members, user);
      teams := teams[teamId := teams[teamId].(members := members)];
      r := Reply(200, true, OneTeam(teamId, teams[teamId]), [MemberRemovedMessage], None);
    }
  }
}
