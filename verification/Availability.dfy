/** Who would mine a window: policies, eligibility and the quorum (common/blockchain/availability.py), and the
    decision each miner takes on its own (standalone_worker.py, pool_coordinator/coordinator.py). */
module Availability {
  import opened Wrappers
  import opened Platform
  import opened Challenge
  import opened Categories

  /** A voting policy as it is stored. Missing fields are None or empty. */
  datatype Policy = Policy(
    categories: Selection, rejectedActions: seq<string>, decision: Option<string>,
    action: Option<string>, lawId: Option<string>)

  /** What the announcement of a window says. */
  datatype Announcement = Announcement(category: Option<string>, action: Option<string>, lawId: Option<string>)

  predicate Truthy(o: Option<string>) {
    o.Some? && o.value != ""
  }

  predicate Accepts(decision: Option<string>) {
    decision.GetOr("accept") == "accept"
  }

  /** policy_accepts on a policy that is not empty. */
  predicate PolicyAccepts(p: Policy, ch: Announcement) {
    && CoversCategory(p.categories, ch.category)
    && !(ch.action.Some? && ch.action.value in p.rejectedActions)
    && (|| Accepts(p.decision)
        || (&& !(Truthy(p.action) && ch.action == p.action)
            && !(Truthy(p.lawId) && ch.lawId == p.lawId)
            && (Truthy(p.action) || Truthy(p.lawId))))
  }

  /** prevetoed: a refusal of this very law, given in advance. */
  predicate Prevetoed(p: Policy, lawId: Option<string>) {
    Truthy(lawId) && !Accepts(p.decision) && !Truthy(p.action) && p.lawId == lawId
  }

  /** policy_convokes */
  predicate PolicyConvokes(p: Policy, ch: Announcement) {
    PolicyAccepts(if Prevetoed(p, ch.lawId) then p.(decision := Some("accept")) else p, ch)
  }

  /** Deliberation convokes everybody who would mine, and besides them exactly those whose only objection is a
      veto of this very law. */
  lemma ConvokedIsAcceptingOrPrevetoed(p: Policy, ch: Announcement)
    ensures PolicyConvokes(p, ch) <==>
      || PolicyAccepts(p, ch)
      || (&& Prevetoed(p, ch.lawId) && CoversCategory(p.categories, ch.category)
          && !(ch.action.Some? && ch.action.value in p.rejectedActions))
    ensures Prevetoed(p, ch.lawId) ==> !PolicyAccepts(p, ch)
  {
  }

  // ---- population ----

  /** worker:status:<id>. A missing or non-positive measurement is estimated from the hardware. */
  datatype Worker = Worker(
    workerId: string, mode: string, categories: Selection, rejectedActions: seq<string>,
    measured: Option<real>, hasGpu: bool, capacity: int, owner: string, defaultDecision: string)

  /** A row of teams_composition. policy is None when it is missing, unreadable or empty. */
  datatype Team = Team(
    teamId: string, name: string, owner: string, coordinator: string, members: seq<string>,
    categories: Selection, policy: Option<Policy>, defaultDecision: string)

  datatype Hps = Hps(cpu: real, gpu: real)

  /** hashrate_of */
  function HashrateOf(w: Worker, hps: Hps): real {
    if w.measured.Some? && w.measured.value > 0.0 then w.measured.value
    else (if w.hasGpu then hps.gpu else hps.cpu) * (if w.capacity > 1 then w.capacity else 1) as real
  }

  lemma HashrateNonNegative(w: Worker, hps: Hps)
    requires hps.cpu >= 0.0 && hps.gpu >= 0.0
    ensures HashrateOf(w, hps) >= 0.0
  {
  }

  /** The coordinator and the members of a team. */
  function Crew(t: Team): seq<string> {
    [t.coordinator] + t.members
  }

  /** _team_policy */
  function TeamPolicy(t: Team): Policy {
    if t.policy.Some? then t.policy.value else Policy(t.categories, [], None, None, None)
  }

  function StandalonePolicy(w: Worker): Policy {
    Policy(w.categories, w.rejectedActions, None, None, None)
  }

  /** deliberates: only a standalone has an owner who answers for it. */
  predicate Deliberates(w: Worker) {
    (if w.mode == "" then "standalone" else w.mode) == "standalone"
  }

  // ---- the live workers as a dictionary by id ----

  predicate DistinctIds(ws: seq<Worker>) {
    && (forall i, j :: 0 <= i < j < |ws| ==> ws[i].workerId != ws[j].workerId)
    && (forall i :: 0 <= i < |ws| ==> ws[i].workerId != "")
  }

  predicate IsLive(ws: seq<Worker>, id: string) {
    exists i :: 0 <= i < |ws| && ws[i].workerId == id
  }

  /** The dictionary built from the reports: a repeated id keeps its place and takes the last report. */
  function Live(reports: seq<Worker>): (ws: seq<Worker>)
    ensures DistinctIds(ws)
    ensures forall id :: IsLive(ws, id) <==> id != "" && IsLive(reports, id)
  {
    if reports == [] then []
    else
      var n := |reports| - 1;
      var before, w := Live(reports[..n]), reports[n];
      assert reports == reports[..n] + [w];
      assert forall id :: IsLive(reports, id) <==> IsLive(reports[..n], id) || id == w.workerId by {
        forall id | IsLive(reports, id) ensures IsLive(reports[..n], id) || id == w.workerId {
          var i :| 0 <= i < |reports| && reports[i].workerId == id;
          if i < n { assert reports[..n][i].workerId == id; }
        }
        forall id | IsLive(reports[..n], id) || id == w.workerId ensures IsLive(reports, id) {
          if IsLive(reports[..n], id) {
            var i :| 0 <= i < n && reports[..n][i].workerId == id;
            assert reports[i].workerId == id;
          } else {
            assert reports[n].workerId == id;
          }
        }
      }
      Stored(before, w)
  }

  /** vivos[w.workerId] = w, unless the id is empty. */
  function Stored(ws: seq<Worker>, w: Worker): (r: seq<Worker>)
    requires DistinctIds(ws)
    ensures DistinctIds(r)
    ensures forall id :: IsLive(r, id) <==> IsLive(ws, id) || (id == w.workerId && id != "")
  {
    if w.workerId == "" then ws
    else if IsLive(ws, w.workerId) then
      var i := IndexOf(ws, w.workerId);
      var r := ws[i := w];
      assert forall k :: 0 <= k < |r| ==> r[k].workerId == ws[k].workerId;
      r
    else
      var r := ws + [w];
      assert r[|ws|].workerId == w.workerId;
      assert forall k :: 0 <= k < |ws| ==> r[k].workerId == ws[k].workerId;
      r
  }

  lemma LiveAt(ws: seq<Worker>, i: nat)
    requires i < |ws|
    ensures IsLive(ws, ws[i].workerId)
  {
  }

  function IndexOf(ws: seq<Worker>, id: string): (i: nat)
    requires IsLive(ws, id)
    ensures i < |ws| && ws[i].workerId == id && forall k :: 0 <= k < i ==> ws[k].workerId != id
  {
    if ws[0].workerId == id then 0
    else
      assert forall k :: 1 <= k < |ws| ==> ws[1..][k - 1] == ws[k];
      assert IsLive(ws[1..], id) by {
        var k :| 0 <= k < |ws| && ws[k].workerId == id;
        assert ws[1..][k - 1].workerId == id;
      }
      1 + IndexOf(ws[1..], id)
  }

  // ---- eligibility ----

  /** The policy that answers for a worker: that of the last team that lists it, if any. */
  function TeamPolicyOf(id: string, teams: seq<Team>): Option<Policy> {
    if teams == [] then None
    else if id in Crew(teams[|teams| - 1]) then Some(TeamPolicy(teams[|teams| - 1]))
    else TeamPolicyOf(id, teams[..|teams| - 1])
  }

  predicate Agrees(p: Policy, ch: Announcement, convocation: bool) {
    if convocation then PolicyConvokes(p, ch) else PolicyAccepts(p, ch)
  }

  /** The announcement with its category in normal form. */
  function Normalized(ch: Announcement): Announcement {
    ch.(category := Some(NormalizeCategory(ch.category)))
  }

  predicate Eligible(w: Worker, teams: seq<Team>, ch: Announcement, convocation: bool) {
    var team := TeamPolicyOf(w.workerId, teams);
    if team.Some? then Agrees(team.value, ch, convocation)
    else (convocation ==> Deliberates(w)) && Agrees(StandalonePolicy(w), ch, convocation)
  }

  function Filter(ws: seq<Worker>, keep: Worker -> bool): (r: seq<Worker>)
    ensures forall w :: w in r <==> w in ws && keep(w)
  {
    if ws == [] then []
    else if keep(ws[|ws| - 1]) then Filter(ws[..|ws| - 1], keep) + [ws[|ws| - 1]]
    else Filter(ws[..|ws| - 1], keep)
  }

  /** eligible_workers on values. */
  function EligibleOf(reports: seq<Worker>, teams: seq<Team>, ch: Announcement, convocation: bool): seq<Worker> {
    Filter(Live(reports), w => Eligible(w, teams, Normalized(ch), convocation))
  }

  /** eligible_workers: fills a table of policies by worker, then collects the workers that agree. */
  method EligibleWorkers(reports: seq<Worker>, teams: seq<Team>, challenge: Announcement, convocation: bool)
    returns (eligible: seq<Worker>)
    ensures eligible == EligibleOf(reports, teams, challenge, convocation)
  {
    hide Agrees, Live, Normalized, IsLive;
    var ch := Normalized(challenge);
    var live := Live(reports);
    var policyOf: map<string, Policy> := map[];
    for t := 0 to |teams|
      invariant forall id :: id in policyOf <==> IsLive(live, id) && TeamPolicyOf(id, teams[..t]).Some?
      invariant forall id :: id in policyOf ==> TeamPolicyOf(id, teams[..t]) == Some(policyOf[id])
    {
      var crew := Crew(teams[t]);
      ghost var before := policyOf;
      for m := 0 to |crew|
        invariant forall id :: id in policyOf <==> id in before || (id in crew[..m] && IsLive(live, id))
        invariant forall id :: id in policyOf ==>
          policyOf[id] == if id in crew[..m] && IsLive(live, id) then TeamPolicy(teams[t]) else before[id]
      {
        if IsLive(live, crew[m]) {
          policyOf := policyOf[crew[m] := TeamPolicy(teams[t])];
        }
        assert crew[..m + 1] == crew[..m] + [crew[m]];
      }
      assert crew[..|crew|] == crew;
      assert teams[..t + 1][..t] == teams[..t];
    }
    assert teams[..|teams|] == teams;
    eligible := [];
    ghost var keep := w => Eligible(w, teams, ch, convocation);
    for i := 0 to |live|
      invariant eligible == Filter(live[..i], keep)
    {
      var w := live[i];
      LiveAt(live, i);
      assert live[..i + 1][..i] == live[..i];
      if w.workerId in policyOf {
        if Agrees(policyOf[w.workerId], ch, convocation) {
          eligible := eligible + [w];
        }
      } else if !convocation || Deliberates(w) {
        if Agrees(StandalonePolicy(w), ch, convocation) {
          eligible := eligible + [w];
        }
      }
    }
    assert live[..|live|] == live;
  }

  datatype Availability = Availability(ok: bool, category: string, live: nat, eligible: nat, required: int)

  /** assess */
  function Assess(reports: seq<Worker>, teams: seq<Team>, ch: Announcement, minimum: int, byCategory: bool,
                  convocation: bool): Availability {
    var area := NormalizeCategory(ch.category);
    if minimum <= 0 then Availability(true, area, |reports|, |reports|, 0)
    else
      var eligible := if byCategory then |EligibleOf(reports, teams, ch, convocation)|
                      else |Filter(reports, (w: Worker) => w.workerId != "")|;
      Availability(eligible >= minimum, area, |reports|, eligible, minimum)
  }

  // ---- what a miner decides by itself ----

  /** StandaloneWorker.handle_challenge on a challenge without participants. */
  predicate StandaloneMines(rejected: set<string>, agenda: seq<string>, ch: Announcement) {
    && ch.action.GetOr("") !in rejected
    && !(agenda != [] && NormalizeCategory(ch.category) !in agenda)
  }

  /** A standalone worker that reports what it declares is counted exactly when it would mine. */
  lemma StandaloneCountedIffMines(w: Worker, teams: seq<Team>, rejected: set<string>, agenda: seq<string>, ch: Announcement)
    requires TeamPolicyOf(w.workerId, teams).None? && Truthy(ch.action)
    requires ParseCategories(w.categories) == agenda
    requires forall a :: a != "" ==> (a in w.rejectedActions <==> a in rejected)
    ensures Eligible(w, teams, Normalized(ch), false) <==> StandaloneMines(rejected, agenda, ch)
  {
    NormalizeIdempotent(ch.category);
  }

  /** The policy a pool without anything declared works with. */
  const DEFAULT_POLICY: Policy := Policy(Items([]), [], Some("accept"), None, None)

  /** _sync_voting_policy: what the coordinator of a pool works with after reading pool:policy:<id>. A decision
      other than accept and reject is refused and the policy in force stays. */
  function Synced(inForce: Policy, stored: Option<Policy>): Policy {
    if stored.None? then DEFAULT_POLICY
    else
      var p := stored.value.(decision := Some(stored.value.decision.GetOr("accept")),
                             categories := Items(ParseCategories(stored.value.categories)));
      if p.decision.value in ["accept", "reject"] then p else inForce
  }

  /** The policy read as a refusal of what it names. */
  function AsRefusal(p: Policy): Policy {
    p.(decision := Some("reject"))
  }

  /** With a stored policy whose decision is known, the coordinator counts a team exactly when its pool would
      mine. With an unknown decision the count reads it as a refusal and the pool keeps the policy it has, so they agree
      exactly when those two give one verdict. Without a stored policy they agree exactly when the agenda of the team
      covers the area: the pool mines everything, and the count goes by the agenda. */
  lemma TeamCountedIffPoolMines(t: Team, inForce: Policy, ch: Announcement)
    ensures t.policy.Some? && t.policy.value.decision.GetOr("accept") in ["accept", "reject"] ==>
      (PolicyAccepts(TeamPolicy(t), Normalized(ch)) <==> PolicyAccepts(Synced(inForce, t.policy), ch))
    ensures t.policy.Some? && t.policy.value.decision.GetOr("accept") !in ["accept", "reject"] ==>
      && (PolicyAccepts(TeamPolicy(t), Normalized(ch)) <==> PolicyAccepts(AsRefusal(t.policy.value), ch))
      && (PolicyAccepts(Synced(inForce, t.policy), ch) <==> PolicyAccepts(inForce, ch))
    ensures t.policy.None? ==>
      && PolicyAccepts(Synced(inForce, t.policy), ch)
      && (PolicyAccepts(TeamPolicy(t), Normalized(ch)) <==> CoversCategory(t.categories, ch.category))
  {
    NormalizeIdempotent(ch.category);
    if t.policy.Some? {
      AgendaRoundTrip(t.policy.value.categories);
    } else {
      assert ParseCategories(Items([])) == [] by {
        if ParseCategories(Items([])) != [] {
          AgendaMember(Items([]), ParseCategories(Items([]))[0]);
        }
      }
    }
  }

  /** An unknown decision that names neither an action nor a law: the team is never counted, and its pool goes on as
      before. */
  lemma UnknownDecisionIsNotCounted(t: Team, inForce: Policy, ch: Announcement)
    requires t.policy.Some? && t.policy.value.decision.GetOr("accept") !in ["accept", "reject"]
    requires !Truthy(t.policy.value.action) && !Truthy(t.policy.value.lawId)
    ensures !PolicyAccepts(TeamPolicy(t), Normalized(ch))
    ensures PolicyAccepts(Synced(inForce, t.policy), ch) <==> PolicyAccepts(inForce, ch)
  {
    TeamCountedIffPoolMines(t, inForce, ch);
  }

  /** A newly founded team with an agenda and no policy yet: the quorum leaves it out, its pool mines. */
  lemma UncountedPoolMines(inForce: Policy)
    ensures var t := Team("t", "t", "o", "c", [], Items(["salud"]), None, "");
      var ch := Announcement(Some("economia"), Some(ActionText(Promulgacion)), Some("L"));
      !PolicyAccepts(TeamPolicy(t), Normalized(ch)) && PolicyAccepts(Synced(inForce, t.policy), ch)
  {
    var t := Team("t", "t", "o", "c", [], Items(["salud"]), None, "");
    var ch := Announcement(Some("economia"), Some(ActionText(Promulgacion)), Some("L"));
    TeamCountedIffPoolMines(t, inForce, ch);
    assert VALID_CATEGORIES[1] == "salud" && VALID_CATEGORIES[0] == "economia";
    SlugOfValid("salud");
    SlugOfValid("economia");
    AgendaMember(Items(["salud"]), "salud");
    AgendaMember(Items(["salud"]), "economia");
    assert ["salud"][0] == "salud" && Selected(["salud"], "salud");
    assert |"salud"| != |"economia"|;
    assert !Selected(["salud"], "economia");
  }
}
