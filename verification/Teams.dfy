/**
 The teams of the API (voxchain_api/services/teams_store.py): records and two inverse indexes in Redis. Each write
 goes through one transaction.
 */
module Teams {
  import opened Wrappers
  import opened Availability
  import opened Quorum

  datatype Record = Record(name: string, owner: string, coordinator: string, url: string, categories: string,
                           createdAt: string, defaultDecision: string)

  /** teams, team:<id>, team:members:<id>, worker:team:<worker>, team:owner:<owner>. */
  datatype Db = Db(ids: set<string>, teams: map<string, Record>, members: map<string, set<string>>,
                   workerTeam: map<string, string>, ownerTeam: map<string, string>)

  const EMPTY: Db := Db({}, map[], map[], map[], map[])

  /** TeamError, with the status the router answers. */
  datatype TeamError = Conflict | NotFound

  datatype Role = CoordinatorRole | MemberRole

  function MembersOf(db: Db, id: string): set<string> {
    if id in db.members then db.members[id] else {}
  }

  function TeamOfWorker(db: Db, w: string): Option<string> {
    if w in db.workerTeam then Some(db.workerTeam[w]) else None
  }

  /** team_of_owner: an index that points at no team is dropped on the way. */
  function TeamOfOwner(db: Db, o: string): (Db, Option<string>) {
    if o !in db.ownerTeam then (db, None)
    else if db.ownerTeam[o] !in db.teams then (db.(ownerTeam := db.ownerTeam - {o}), None)
    else (db, Some(db.ownerTeam[o]))
  }

  /** role_of_worker */
  function RoleOfWorker(db: Db, w: string): Option<Role> {
    var t := TeamOfWorker(db, w);
    if t.None? || t.value !in db.teams then None
    else Some(if db.teams[t.value].coordinator == w then CoordinatorRole else MemberRole)
  }

  // ---- the operations ----

  /** create_team, with the random id it draws. */
  function Created(db: Db, id: string, team: Record): (Db, Result<string, TeamError>) {
    var (d, already) := TeamOfOwner(db, team.owner);
    if already.Some? || TeamOfWorker(d, team.coordinator).Some? then (d, Failure(Conflict))
    else
      (d.(ids := d.ids + {id}, teams := d.teams[id := team],
          workerTeam := d.workerTeam[team.coordinator := id], ownerTeam := d.ownerTeam[team.owner := id]),
       Success(id))
  }

  /** join_team */
  function Joined(db: Db, id: string, w: string): (Db, Result<string, TeamError>) {
    if id !in db.teams then (db, Failure(NotFound))
    else if TeamOfWorker(db, w).Some? then (db, Failure(Conflict))
    else (db.(members := db.members[id := MembersOf(db, id) + {w}], workerTeam := db.workerTeam[w := id]), Success(id))
  }

  function MemberGone(db: Db, id: string, w: string): Db {
    db.(members := db.members[id := MembersOf(db, id) - {w}], workerTeam := db.workerTeam - {w})
  }

  /** leave_team: the coordinator may not. */
  function Left(db: Db, w: string): (Db, Result<string, TeamError>) {
    var t := TeamOfWorker(db, w);
    if t.None? then (db, Failure(NotFound))
    else if RoleOfWorker(db, w) == Some(CoordinatorRole) then (db, Failure(Conflict))
    else (MemberGone(db, t.value, w), Success(t.value))
  }

  /** detach_worker: a coordinator is only reported. */
  function Detached(db: Db, w: string): (Db, Option<(string, Role)>) {
    var t := TeamOfWorker(db, w);
    if t.None? then (db, None)
    else
      var role := RoleOfWorker(db, w).GetOr(MemberRole);
      (if role == MemberRole then MemberGone(db, t.value, w) else db, Some((t.value, role)))
  }

  /** dissolve_team, and the workers it frees. */
  function Dissolved(db: Db, id: string): (Db, Result<set<string>, TeamError>) {
    if id !in db.teams then (db, Failure(NotFound))
    else
      var team := db.teams[id];
      var crew := MembersOf(db, id) + {team.coordinator};
      (Db(db.ids - {id}, db.teams - {id}, db.members - {id}, db.workerTeam - crew, db.ownerTeam - {team.owner}), Success(crew))
  }

  /** set_categories and set_default_decision change the record of a team that exists. */
  function Edited(db: Db, id: string, categories: Option<string>, decision: Option<string>): (Db, Result<string, TeamError>) {
    if id !in db.teams then (db, Failure(NotFound))
    else
      var t := db.teams[id];
      (db.(teams := db.teams[id := t.(categories := categories.GetOr(t.categories), defaultDecision := decision.GetOr(t.defaultDecision))]),
       Success(id))
  }

  // ---- the invariant ----

  predicate InTeam(db: Db, id: string, w: string) {
    id in db.teams && (w == db.teams[id].coordinator || w in MembersOf(db, id))
  }

  /** worker:team and the records say the same, both ways. */
  predicate WorkersIndexed(teams: map<string, Record>, members: map<string, set<string>>, workers: map<string, string>) {
    && (forall w :: w in workers ==> workers[w] in teams)
    && (forall w :: w in workers ==> w == teams[workers[w]].coordinator || (workers[w] in members && w in members[workers[w]]))
    && (forall id :: id in teams ==> teams[id].coordinator in workers && workers[teams[id].coordinator] == id)
    && (forall id, w :: id in members && w in members[id] ==> w in workers && workers[w] == id)
  }

  /** team:owner and the records say the same, both ways. */
  predicate OwnersIndexed(teams: map<string, Record>, owners: map<string, string>) {
    && (forall o :: o in owners ==> owners[o] in teams && teams[owners[o]].owner == o)
    && (forall id :: id in teams ==> teams[id].owner in owners && owners[teams[id].owner] == id)
  }

  predicate WellFormed(ids: set<string>, teams: map<string, Record>, members: map<string, set<string>>) {
    && ids == teams.Keys && members.Keys <= teams.Keys
    && (forall id :: id in teams ==> teams[id].coordinator != "")
    && (forall id :: id in members && id in teams ==> teams[id].coordinator !in members[id])
  }

  predicate Indexed(db: Db) {
    && WorkersIndexed(db.teams, db.members, db.workerTeam) && OwnersIndexed(db.teams, db.ownerTeam)
    && WellFormed(db.ids, db.teams, db.members)
  }

  lemma OwnerIndexIsSound(db: Db, o: string)
    requires Indexed(db)
    ensures TeamOfOwner(db, o).0 == db
    ensures TeamOfOwner(db, o).1.Some? <==> o in db.ownerTeam
  {
    hide WorkersIndexed, WellFormed;
  }

  lemma WorkersWithTeam(teams: map<string, Record>, members: map<string, set<string>>, workers: map<string, string>, id: string, t: Record)
    requires WorkersIndexed(teams, members, workers) && id !in teams && t.coordinator !in workers && id !in members
    ensures WorkersIndexed(teams[id := t], members, workers[t.coordinator := id])
  {
  }

  lemma OwnersWithTeam(teams: map<string, Record>, owners: map<string, string>, id: string, t: Record)
    requires OwnersIndexed(teams, owners) && id !in teams && t.owner !in owners
    ensures OwnersIndexed(teams[id := t], owners[t.owner := id])
  {
  }

  lemma WellFormedWithTeam(ids: set<string>, teams: map<string, Record>, members: map<string, set<string>>, id: string, t: Record)
    requires WellFormed(ids, teams, members) && id !in teams && t.coordinator != ""
    ensures WellFormed(ids + {id}, teams[id := t], members) && id !in members
  {
  }

  lemma CreatedIndexed(db: Db, id: string, team: Record)
    requires Indexed(db) && id !in db.teams && team.coordinator != ""
    ensures Indexed(Created(db, id, team).0)
  {
    OwnerIndexIsSound(db, team.owner);
    hide WorkersIndexed, OwnersIndexed, WellFormed;
    WellFormedWithTeam(db.ids, db.teams, db.members, id, team);
    if team.owner !in db.ownerTeam && team.coordinator !in db.workerTeam {
      WorkersWithTeam(db.teams, db.members, db.workerTeam, id, team);
      OwnersWithTeam(db.teams, db.ownerTeam, id, team);
    }
  }

  lemma WorkersWithMember(teams: map<string, Record>, members: map<string, set<string>>, workers: map<string, string>, id: string, w: string)
    requires WorkersIndexed(teams, members, workers) && id in teams && w !in workers
    ensures var sofar := if id in members then members[id] else {};
      WorkersIndexed(teams, members[id := sofar + {w}], workers[w := id]) && teams[id].coordinator != w
  {
  }

  lemma JoinedIndexed(db: Db, id: string, w: string)
    requires Indexed(db)
    ensures Indexed(Joined(db, id, w).0)
  {
    if id in db.teams && w !in db.workerTeam {
      WorkersWithMember(db.teams, db.members, db.workerTeam, id, w);
    }
    hide WorkersIndexed, OwnersIndexed;
  }

  lemma WorkersWithoutMember(teams: map<string, Record>, members: map<string, set<string>>, workers: map<string, string>, w: string)
    requires WorkersIndexed(teams, members, workers) && w in workers && w != teams[workers[w]].coordinator
    ensures var id := workers[w];
      && id in members && WorkersIndexed(teams, members[id := members[id] - {w}], workers - {w})
  {
  }

  lemma MemberGoneIndexed(db: Db, w: string)
    requires Indexed(db) && w in db.workerTeam && RoleOfWorker(db, w) != Some(CoordinatorRole)
    ensures Indexed(MemberGone(db, db.workerTeam[w], w))
  {
    assert db.workerTeam[w] in db.teams;
    WorkersWithoutMember(db.teams, db.members, db.workerTeam, w);
    hide WorkersIndexed, OwnersIndexed;
  }

  predicate IsCrew(workers: map<string, string>, id: string, crew: set<string>) {
    (forall w :: w in crew ==> w in workers && workers[w] == id) && (forall w :: w in workers && workers[w] == id ==> w in crew)
  }

  lemma CrewIs(db: Db, id: string)
    requires Indexed(db) && id in db.teams
    ensures IsCrew(db.workerTeam, id, MembersOf(db, id) + {db.teams[id].coordinator})
  {
    hide OwnersIndexed, WellFormed;
  }

  lemma WorkersWithoutTeam(teams: map<string, Record>, members: map<string, set<string>>, workers: map<string, string>, id: string, crew: set<string>)
    requires WorkersIndexed(teams, members, workers) && id in teams && IsCrew(workers, id, crew)
    ensures WorkersIndexed(teams - {id}, members - {id}, workers - crew)
  {
  }

  lemma OwnersWithoutTeam(teams: map<string, Record>, owners: map<string, string>, id: string)
    requires OwnersIndexed(teams, owners) && id in teams
    ensures OwnersIndexed(teams - {id}, owners - {teams[id].owner})
  {
    forall other | other in teams - {id} ensures teams[other].owner != teams[id].owner {
    }
  }

  lemma DissolvedIndexed(db: Db, id: string)
    requires Indexed(db)
    ensures Indexed(Dissolved(db, id).0)
  {
    if id in db.teams {
      CrewIs(db, id);
      hide WorkersIndexed, OwnersIndexed, IsCrew;
      WorkersWithoutTeam(db.teams, db.members, db.workerTeam, id, MembersOf(db, id) + {db.teams[id].coordinator});
      OwnersWithoutTeam(db.teams, db.ownerTeam, id);
    }
  }

  lemma EditedIndexed(db: Db, id: string, categories: Option<string>, decision: Option<string>)
    requires Indexed(db)
    ensures Indexed(Edited(db, id, categories, decision).0)
  {
    hide WorkersIndexed, OwnersIndexed;
    var d := Edited(db, id, categories, decision).0;
    if id in db.teams {
      var t := d.teams[id];
      WorkersEdited(db.teams, db.members, db.workerTeam, id, t);
      OwnersEdited(db.teams, db.ownerTeam, id, t);
    }
  }

  lemma WorkersEdited(teams: map<string, Record>, members: map<string, set<string>>, workers: map<string, string>, id: string, t: Record)
    requires WorkersIndexed(teams, members, workers) && id in teams && t.coordinator == teams[id].coordinator
    ensures WorkersIndexed(teams[id := t], members, workers)
  {
  }

  lemma OwnersEdited(teams: map<string, Record>, owners: map<string, string>, id: string, t: Record)
    requires OwnersIndexed(teams, owners) && id in teams && t.owner == teams[id].owner
    ensures OwnersIndexed(teams[id := t], owners)
  {
  }

  /** dissolve_team frees exactly the workers indexed to the team, and its founder. */
  lemma DissolvesExactly(db: Db, id: string)
    requires Indexed(db) && id in db.teams
    ensures var (d, crew) := Dissolved(db, id);
      && crew == Success(set w | w in db.workerTeam && db.workerTeam[w] == id)
      && (forall w :: w in d.workerTeam <==> w in db.workerTeam && db.workerTeam[w] != id)
      && (forall w :: w in d.workerTeam ==> d.workerTeam[w] == db.workerTeam[w])
      && (forall o :: o in d.ownerTeam <==> o in db.ownerTeam && db.ownerTeam[o] != id)
  {
    var crew := MembersOf(db, id) + {db.teams[id].coordinator};
    assert crew == set w | w in db.workerTeam && db.workerTeam[w] == id;
  }

  // ---- runs ----

  datatype Op =
    | Create(id: string, team: Record)
    | Join(id: string, worker: string)
    | Leave(worker: string)
    | Detach(worker: string)
    | Dissolve(id: string)
    | Edit(id: string, categories: Option<string>, decision: Option<string>)

  function Applied(db: Db, op: Op): Db {
    match op
    case Create(id, team) => Created(db, id, team).0
    case Join(id, w) => Joined(db, id, w).0
    case Leave(w) => Left(db, w).0
    case Detach(w) => Detached(db, w).0
    case Dissolve(id) => Dissolved(db, id).0
    case Edit(id, categories, decision) => Edited(db, id, categories, decision).0
  }

  function AfterOps(db: Db, ops: seq<Op>): Db
    decreases |ops|
  {
    if ops == [] then db else AfterOps(Applied(db, ops[0]), ops[1..])
  }

  /** New teams get an id no team has, and name a coordinator. */
  predicate FreshIds(db: Db, ops: seq<Op>)
    decreases |ops|
  {
    ops != [] ==>
      && (ops[0].Create? ==> ops[0].id !in db.teams && ops[0].team.coordinator != "")
      && FreshIds(Applied(db, ops[0]), ops[1..])
  }

  lemma AppliedIndexed(db: Db, op: Op)
    requires Indexed(db) && (op.Create? ==> op.id !in db.teams && op.team.coordinator != "")
    ensures Indexed(Applied(db, op))
  {
    hide Indexed;
    match op
    case Create(id, team) => CreatedIndexed(db, id, team);
    case Join(id, w) => JoinedIndexed(db, id, w);
    case Leave(w) => if w in db.workerTeam && RoleOfWorker(db, w) != Some(CoordinatorRole) { MemberGoneIndexed(db, w); }
    case Detach(w) => if w in db.workerTeam && RoleOfWorker(db, w) != Some(CoordinatorRole) { MemberGoneIndexed(db, w); }
    case Dissolve(id) => DissolvedIndexed(db, id);
    case Edit(id, categories, decision) => EditedIndexed(db, id, categories, decision);
  }

  /** Operations keep the agreement of records and indexes. */
  lemma {:induction false} IndexesAgree(db: Db, ops: seq<Op>)
    requires Indexed(db) && FreshIds(db, ops)
    ensures var end := AfterOps(db, ops);
      && Indexed(end)
      && (forall w, t :: (w in end.workerTeam && end.workerTeam[w] == t) <==> InTeam(end, t, w))
      && (forall o, t :: (o in end.ownerTeam && end.ownerTeam[o] == t) <==> (t in end.teams && end.teams[t].owner == o))
    decreases |ops|
  {
    if ops != [] {
      AppliedIndexed(db, ops[0]);
      hide Indexed, Applied;
      IndexesAgree(Applied(db, ops[0]), ops[1..]);
    }
  }

  /** After any operations from an empty store: worker:team maps w to t iff t exists and w is its coordinator or a member,
      team:owner maps o to t iff t exists and o founded it, and no coordinator is a member of its own team. */
  lemma TeamsAgree(ops: seq<Op>, w: string, o: string, t: string)
    requires FreshIds(EMPTY, ops)
    ensures var end := AfterOps(EMPTY, ops);
      && ((w in end.workerTeam && end.workerTeam[w] == t) <==> InTeam(end, t, w))
      && ((o in end.ownerTeam && end.ownerTeam[o] == t) <==> (t in end.teams && end.teams[t].owner == o))
      && (t in end.teams ==> end.teams[t].coordinator !in MembersOf(end, t))
      && Indexed(end)
  {
    IndexesAgree(EMPTY, ops);
  }

  // ---- what the coordinator of the network reads ----

  /** A row of teams_composition for a team. */
  ghost predicate IsRow(db: Db, row: Team) {
    && row.teamId in db.teams && row.coordinator == db.teams[row.teamId].coordinator
    && DistinctTexts(row.members) && forall w :: w in row.members <==> w in MembersOf(db, row.teamId)
  }

  lemma RowIndexed(db: Db, row: Team, id: string)
    requires Indexed(db) && IsRow(db, row)
    ensures id in Crew(row) ==> id in db.workerTeam && db.workerTeam[id] == row.teamId
    ensures row.coordinator != "" && row.coordinator !in row.members
  {
  }

  lemma CrewDistinct(row: Team)
    requires DistinctTexts(row.members) && row.coordinator !in row.members
    ensures DistinctTexts(Crew(row))
  {
  }

  lemma RowsDistinct(db: Db, rows: seq<Team>)
    requires Indexed(db) && forall i :: 0 <= i < |rows| ==> IsRow(db, rows[i])
    ensures forall i :: 0 <= i < |rows| ==> rows[i].coordinator != "" && DistinctTexts(Crew(rows[i]))
  {
    hide Indexed;
    forall i | 0 <= i < |rows| ensures rows[i].coordinator != "" && DistinctTexts(Crew(rows[i])) {
      RowIndexed(db, rows[i], "");
      CrewDistinct(rows[i]);
    }
  }

  lemma RowsShareNobody(db: Db, rows: seq<Team>, i: nat, j: nat, id: string)
    requires Indexed(db) && i < j < |rows| && IsRow(db, rows[i]) && IsRow(db, rows[j])
    requires rows[i].teamId != rows[j].teamId
    ensures !(id in Crew(rows[i]) && id in Crew(rows[j]))
  {
    hide Indexed, Crew, IsRow;
    RowIndexed(db, rows[i], id);
    RowIndexed(db, rows[j], id);
  }

  /** The rows read from indexed records, in any order, are teams the quorum theorem holds for. */
  lemma RowsAreConsistent(db: Db, rows: seq<Team>, live: seq<Worker>)
    requires Indexed(db) && forall i :: 0 <= i < |rows| ==> IsRow(db, rows[i])
    requires forall i, j :: 0 <= i < j < |rows| ==> rows[i].teamId != rows[j].teamId
    ensures ConsistentTeams(live, rows)
  {
    RowsDistinct(db, rows);
    hide Indexed, Crew, IsRow, DistinctTexts;
    forall i, j, id | 0 <= i < j < |rows| ensures id in Crew(rows[i]) ==> id !in Crew(rows[j]) {
      RowsShareNobody(db, rows, i, j, id);
    }
  }

  // ---- the object ----

  class TeamsStore {
    var ids: set<string>
    var teams: map<string, Record>
    var members: map<string, set<string>>
    var workerTeam: map<string, string>
    var ownerTeam: map<string, string>

    function DbOf(): Db
      reads this
    {
      Db(ids, teams, members, workerTeam, ownerTeam)
    }

    constructor ()
      ensures DbOf() == EMPTY
    {
      ids, teams, members, workerTeam, ownerTeam := {}, map[], map[], map[], map[];
    }

    method TeamOf(owner: string) returns (t: Option<string>)
      modifies this`ownerTeam
      ensures (DbOf(), t) == TeamOfOwner(old(DbOf()), owner)
    {
      if owner !in ownerTeam {
        return None;
      }
      t := Some(ownerTeam[owner]);
      if t.value !in teams {
        ownerTeam := ownerTeam - {owner};
        t := None;
      }
    }

    method CreateTeam(id: string, team: Record) returns (r: Result<string, TeamError>)
      modifies this
      ensures (DbOf(), r) == Created(old(DbOf()), id, team)
    {
      var already := TeamOf(team.owner);
      if already.Some? {
        return Failure(Conflict);
      }
      if team.coordinator in workerTeam {
        return Failure(Conflict);
      }
      teams := teams[id := team];
      ids := ids + {id};
      workerTeam := workerTeam[team.coordinator := id];
      ownerTeam := ownerTeam[team.owner := id];
      return Success(id);
    }

    method JoinTeam(id: string, worker: string) returns (r: Result<string, TeamError>)
      modifies this
      ensures (DbOf(), r) == Joined(old(DbOf()), id, worker)
    {
      if id !in teams {
        return Failure(NotFound);
      }
      if worker in workerTeam {
        return Failure(Conflict);
      }
      members := members[id := (if id in members then members[id] else {}) + {worker}];
      workerTeam := workerTeam[worker := id];
      return Success(id);
    }

    method LeaveTeam(worker: string) returns (r: Result<string, TeamError>)
      modifies this
      ensures (DbOf(), r) == Left(old(DbOf()), worker)
    {
      if worker !in workerTeam {
        return Failure(NotFound);
      }
      var id := workerTeam[worker];
      if id in teams && teams[id].coordinator == worker {
        return Failure(Conflict);
      }
      members := members[id := (if id in members then members[id] else {}) - {worker}];
      workerTeam := workerTeam - {worker};
      return Success(id);
    }

    method DetachWorker(worker: string) returns (r: Option<(string, Role)>)
      modifies this
      ensures (DbOf(), r) == Detached(old(DbOf()), worker)
    {
      if worker !in workerTeam {
        return None;
      }
      var id := workerTeam[worker];
      if id in teams && teams[id].coordinator == worker {
        return Some((id, CoordinatorRole));
      }
      members := members[id := (if id in members then members[id] else {}) - {worker}];
      workerTeam := workerTeam - {worker};
      return Some((id, MemberRole));
    }

    /** The pipeline deletes the index of each affected worker, and then the team. */
    method DissolveTeam(id: string) returns (r: Result<set<string>, TeamError>)
      modifies this
      ensures (DbOf(), r) == Dissolved(old(DbOf()), id)
    {
      if id !in teams {
        return Failure(NotFound);
      }
      var team := teams[id];
      var crew := (if id in members then members[id] else {}) + {team.coordinator};
      var rest := crew;
      while rest != {}
        invariant rest <= crew && workerTeam == old(workerTeam) - (crew - rest)
        invariant ids == old(ids) && teams == old(teams) && members == old(members) && ownerTeam == old(ownerTeam)
        decreases rest
      {
        var w :| w in rest;
        workerTeam := workerTeam - {w};
        rest := rest - {w};
      }
      assert crew - rest == crew;
      members := members - {id};
      teams := teams - {id};
      ownerTeam := ownerTeam - {team.owner};
      ids := ids - {id};
      return Success(crew);
    }
  }
}
