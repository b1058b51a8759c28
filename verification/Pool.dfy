/**
 The pool coordinator (pool_coordinator/coordinator.py): it cuts each window into fragments, hands them to its
 miners and takes back those of a miner that falls silent. The functions say what each method does to the state;
 the class does it in place.
 */
module Pool {
  import opened Wrappers
  import opened Platform
  import opened Text
  import opened Categories
  import opened Availability
  import Deliberation
  import Fragments

  /** KEEPALIVE_TTL, in microseconds. */
  const KEEPALIVE_TTL: int := 15_000_000

  datatype Fragment = Fragment(
    wid: string, lawId: Option<string>, action: Option<string>, category: string, base: string, nZeros: int,
    lo: int, hi: int, deadline: Option<int>)

  datatype Miner = Miner(id: string, capacity: int, hasGpu: bool, lastSeen: int)

  /** A challenge as it arrives. nonceSpace is 0 where the message has none. */
  datatype Challenge = Challenge(
    wid: string, lawId: Option<string>, action: Option<string>, category: Option<string>, base: string, nZeros: int,
    deadline: string, nonceSpace: int, participants: Option<seq<string>>)

  datatype Setup = Setup(p: Platform, poolId: string, nonceSpace: int, fragmentSize: int)

  /** The fields of one coordinator. miners keeps the order of registration. */
  datatype State = State(
    miners: seq<Miner>, pending: seq<Fragment>, handed: map<string, Fragment>, solved: set<string>,
    closed: set<string>, policy: Policy, running: bool, standby: bool, counter: nat)

  // ---- miners ----

  function MinerName(setup: Setup, n: nat): string {
    setup.poolId + "-miner-" + Decimal(n)
  }

  function Registered(setup: Setup, s: State, capacity: int, hasGpu: bool, now: int): State {
    s.(counter := s.counter + 1, miners := s.miners + [Miner(MinerName(setup, s.counter + 1), capacity, hasGpu, now)])
  }

  predicate Knows(miners: seq<Miner>, id: string) {
    exists i :: 0 <= i < |miners| && miners[i].id == id
  }

  function Touched(miners: seq<Miner>, id: string, now: int): seq<Miner> {
    seq(|miners|, i requires 0 <= i < |miners| => if miners[i].id == id then miners[i].(lastSeen := now) else miners[i])
  }

  predicate Stale(m: Miner, now: int) {
    m.lastSeen < now - KEEPALIVE_TTL
  }

  predicate Over(s: State, wid: string) {
    wid in s.solved || wid in s.closed
  }

  /** One miner is dropped; its fragment goes to the front of the queue unless the window is over. */
  function MinerGone(s: State, id: string): State {
    var back := if id in s.handed && !Over(s, s.handed[id].wid) then [s.handed[id]] else [];
    s.(handed := s.handed - {id}, pending := back + s.pending)
  }

  function AllGone(s: State, stale: seq<Miner>): State
    decreases |stale|
  {
    if stale == [] then s else AllGone(MinerGone(s, stale[0].id), stale[1..])
  }

  function OnlyIf(miners: seq<Miner>, keep: Miner -> bool): (r: seq<Miner>)
    ensures forall m :: m in r <==> m in miners && keep(m)
  {
    if miners == [] then [] else (if keep(miners[0]) then [miners[0]] else []) + OnlyIf(miners[1..], keep)
  }

  /** _purge_stale_miners */
  function Purged(s: State, now: int): State {
    AllGone(s.(miners := OnlyIf(s.miners, m => !Stale(m, now))), OnlyIf(s.miners, m => Stale(m, now)))
  }

  // ---- fragments ----

  predicate Expired(f: Fragment, now: int) {
    f.deadline.Some? && now > f.deadline.value
  }

  /** The queue from its first fragment that is still in time. */
  function FromFirstInTime(pending: seq<Fragment>, now: int): seq<Fragment> {
    if pending == [] || !Expired(pending[0], now) then pending else FromFirstInTime(pending[1..], now)
  }

  /** _tomar_fragmento */
  function Taken(s: State, now: int): (State, Option<Fragment>) {
    var rest := FromFirstInTime(s.pending, now);
    if rest == [] then (s.(pending := []), None) else (s.(pending := rest[1..]), Some(rest[0]))
  }

  /** get_next_task */
  function Asked(s: State, id: string, now: int): (State, Option<Fragment>) {
    if s.standby || !Knows(s.miners, id) then (s, None)
    else
      var (t, f) := Taken(s, now);
      if f.None? then (t, None) else (t.(handed := t.handed[id := f.value]), f)
  }

  /** _get_auto_miner_fragment */
  function AutoAsked(s: State, now: int): (State, Option<Fragment>) {
    if s.standby then (s, None) else Taken(s, now)
  }

  function Without(fs: seq<Fragment>, gone: set<string>): (r: seq<Fragment>)
    ensures forall f :: f in r <==> f in fs && f.wid !in gone
    ensures |r| <= |fs|
  {
    if fs == [] then [] else (if fs[0].wid in gone then [] else [fs[0]]) + Without(fs[1..], gone)
  }

  /** _discard_fragments, of any number of windows */
  function Discarded(s: State, gone: set<string>): State {
    s.(pending := Without(s.pending, gone),
       handed := map id | id in s.handed && s.handed[id].wid !in gone :: s.handed[id])
  }

  /** Windows that have a fragment queued or handed out. */
  function Windows(s: State): set<string> {
    (set f | f in s.pending :: f.wid) + (set id | id in s.handed :: s.handed[id].wid)
  }

  // ---- messages ----

  /** submit_result: published or not. A missing nonce or window is None or "". */
  function Submitted(s: State, wid: string, nonce: Option<int>): (State, bool) {
    if wid == "" || nonce.None? || Over(s, wid) then (s, false)
    else (Discarded(s.(solved := s.solved + {wid}), {wid}), true)
  }

  /** handle_window_closed */
  function WindowOver(s: State, wid: string): State {
    if wid == "" then s else Discarded(s.(closed := s.closed + {wid}), {wid})
  }

  function DeadlineOf(setup: Setup, ch: Challenge): Option<int> {
    if ch.deadline == "" then None else setup.p.fromisoformat(ch.deadline)
  }

  function AnnouncementOf(ch: Challenge): Announcement {
    Announcement(ch.category, ch.action, ch.lawId)
  }

  /** _check_voting_policy */
  predicate Takes(setup: Setup, s: State, ch: Challenge) {
    if ch.participants.Some? then Deliberation.Participates(ch.participants, setup.poolId)
    else PolicyAccepts(s.policy, AnnouncementOf(ch))
  }

  /** The challenge is worked on. */
  predicate Accepted(setup: Setup, s: State, ch: Challenge, now: int) {
    && s.running && ch.wid != "" && !Over(s, ch.wid)
    && (DeadlineOf(setup, ch).Some? ==> now <= DeadlineOf(setup, ch).value)
    && Takes(setup, s, ch)
  }

  function SpaceOf(setup: Setup, ch: Challenge): int {
    if ch.nonceSpace != 0 then ch.nonceSpace else setup.nonceSpace
  }

  function FragmentOf(setup: Setup, ch: Challenge, tile: (int, int)): Fragment {
    Fragment(ch.wid, ch.lawId, ch.action, NormalizeCategory(ch.category), ch.base, ch.nZeros, tile.0, tile.1, DeadlineOf(setup, ch))
  }

  function FragmentsOf(setup: Setup, ch: Challenge, tiles: seq<(int, int)>): seq<Fragment> {
    seq(|tiles|, i requires 0 <= i < |tiles| => FragmentOf(setup, ch, tiles[i]))
  }

  /** handle_challenge, with a positive fragment size: what is left of other windows goes, and the tiles of this one
      are queued. */
  function Challenged(setup: Setup, s: State, ch: Challenge, now: int): State
    requires setup.fragmentSize > 0
  {
    if !Accepted(setup, s, ch, now) then s
    else
      var d := Discarded(s, Windows(s) - {ch.wid});
      d.(pending := d.pending + FragmentsOf(setup, ch, Fragments.Tiles(0, SpaceOf(setup, ch), setup.fragmentSize)))
  }

  /** _drop_inactive_windows, on a replica that takes over. */
  function OnlyActive(s: State, active: Option<string>): State {
    Discarded(s, Windows(s) - (if active.Some? then {active.value} else {}))
  }

  // ---- discarding is a filter ----

  lemma {:induction false} WithoutTwice(fs: seq<Fragment>, a: set<string>, b: set<string>)
    ensures Without(Without(fs, a), b) == Without(fs, a + b)
  {
    if fs != [] {
      WithoutTwice(fs[1..], a, b);
      var rest := Without(fs[1..], a);
      if fs[0].wid !in a {
        assert Without(fs, a) == [fs[0]] + rest && ([fs[0]] + rest)[1..] == rest;
      } else {
        assert Without(fs, a) == rest;
      }
    }
  }

  lemma DiscardedTwice(s: State, a: set<string>, b: set<string>)
    ensures Discarded(Discarded(s, a), b) == Discarded(s, a + b)
  {
    WithoutTwice(s.pending, a, b);
    assert Discarded(Discarded(s, a), b).handed == Discarded(s, a + b).handed;
  }

  lemma {:induction false} WithoutNone(fs: seq<Fragment>)
    ensures Without(fs, {}) == fs
  {
    if fs != [] {
      WithoutNone(fs[1..]);
    }
  }

  lemma DiscardedNone(s: State)
    ensures Discarded(s, {}) == s
  {
    WithoutNone(s.pending);
    assert Discarded(s, {}).handed == s.handed;
  }

  // ---- the object ----

  class PoolCoordinator {
    const setup: Setup

    /** _miners, in order of registration. */
    var miners: seq<Miner>
    var pending: seq<Fragment>
    var handed: map<string, Fragment>
    var solved: set<string>
    var closed: set<string>
    var policy: Policy
    var running: bool
    var standby: bool
    var counter: nat
    /** The nonces published to the network. */
    var published: seq<(string, int)>

    constructor (setup: Setup)
      ensures this.setup == setup && published == []
      ensures StateOf() == State([], [], map[], {}, {}, DEFAULT_POLICY, false, false, 0)
    {
      this.setup := setup;
      miners, pending, handed, solved, closed := [], [], map[], {}, {};
      policy := DEFAULT_POLICY;
      running, standby, counter, published := false, false, 0, [];
    }

    function StateOf(): State
      reads this
    {
      State(miners, pending, handed, solved, closed, policy, running, standby, counter)
    }

    method RegisterMiner(capacity: int, hasGpu: bool, now: int) returns (id: string)
      modifies this
      ensures StateOf() == Registered(setup, old(StateOf()), capacity, hasGpu, now) && published == old(published)
      ensures id == miners[|miners| - 1].id
    {
      counter := counter + 1;
      id := MinerName(setup, counter);
      miners := miners + [Miner(id, capacity, hasGpu, now)];
    }

    method HandleHeartbeat(id: string, now: int) returns (known: bool)
      modifies this
      ensures known <==> Knows(old(miners), id)
      ensures StateOf() == old(StateOf()).(miners := Touched(old(miners), id, now)) && published == old(published)
    {
      known := false;
      var seen: seq<Miner> := [];
      for i := 0 to |miners|
        invariant miners == old(miners) && StateOf() == old(StateOf()) && published == old(published)
        invariant |seen| == i && seen == Touched(miners, id, now)[..i]
        invariant known <==> exists k :: 0 <= k < i && miners[k].id == id
      {
        if miners[i].id == id {
          known := true;
          seen := seen + [miners[i].(lastSeen := now)];
        } else {
          seen := seen + [miners[i]];
        }
      }
      miners := seen;
    }

    method PurgeStaleMiners(now: int)
      modifies this
      ensures StateOf() == Purged(old(StateOf()), now) && published == old(published)
    {
      ghost var end := Purged(StateOf(), now);
      var stale := OnlyIf(miners, m => Stale(m, now));
      miners := OnlyIf(miners, m => !Stale(m, now));
      while stale != []
        invariant AllGone(StateOf(), stale) == end && published == old(published)
        decreases |stale|
      {
        var id := stale[0].id;
        ghost var before := StateOf();
        assert [] + pending == pending;
        if id in handed {
          var f := handed[id];
          handed := handed - {id};
          if f.wid !in solved && f.wid !in closed {
            pending := [f] + pending;
          }
        } else {
          assert handed - {id} == handed;
        }
        assert StateOf() == MinerGone(before, id);
        stale := stale[1..];
      }
    }

    /** _tomar_fragmento */
    method TakeFragment(now: int) returns (f: Option<Fragment>)
      modifies this
      ensures (StateOf(), f) == Taken(old(StateOf()), now) && published == old(published)
    {
      while pending != []
        invariant StateOf() == old(StateOf()).(pending := pending) && published == old(published)
        invariant FromFirstInTime(pending, now) == FromFirstInTime(old(pending), now)
        decreases |pending|
      {
        var first := pending[0];
        pending := pending[1..];
        if !Expired(first, now) {
          return Some(first);
        }
      }
      return None;
    }

    method GetNextTask(id: string, now: int) returns (task: Option<Fragment>)
      modifies this
      ensures (StateOf(), task) == Asked(old(StateOf()), id, now) && published == old(published)
    {
      hide Taken;
      if standby || !Knows(miners, id) {
        return None;
      }
      task := TakeFragment(now);
      if task.Some? {
        handed := handed[id := task.value];
      }
    }

    method GetAutoMinerFragment(now: int) returns (task: Option<Fragment>)
      modifies this
      ensures (StateOf(), task) == AutoAsked(old(StateOf()), now) && published == old(published)
    {
      hide Taken;
      if standby {
        return None;
      }
      task := TakeFragment(now);
    }

    method DiscardFragments(wid: string)
      modifies this
      ensures StateOf() == Discarded(old(StateOf()), {wid}) && published == old(published)
    {
      pending := Without(pending, {wid});
      handed := map id | id in handed && handed[id].wid != wid :: handed[id];
    }

    /** The windows in gone go one by one, in whatever order the set gives them. */
    method DiscardAll(gone: set<string>)
      modifies this
      ensures StateOf() == Discarded(old(StateOf()), gone) && published == old(published)
    {
      hide Discarded;
      DiscardedNone(StateOf());
      var rest := gone;
      assert gone - rest == {};
      while rest != {}
        invariant rest <= gone && StateOf() == Discarded(old(StateOf()), gone - rest) && published == old(published)
        decreases rest
      {
        var wid :| wid in rest;
        DiscardFragments(wid);
        DiscardedTwice(old(StateOf()), gone - rest, {wid});
        assert gone - rest + {wid} == gone - (rest - {wid});
        rest := rest - {wid};
      }
      assert gone - {} == gone;
    }

    method SubmitResult(wid: string, nonce: Option<int>) returns (ok: bool)
      modifies this
      ensures (StateOf(), ok) == Submitted(old(StateOf()), wid, nonce)
      ensures published == old(published) + if ok then [(wid, nonce.value)] else []
    {
      hide Discarded;
      if wid == "" || nonce.None? {
        return false;
      }
      if wid in solved || wid in closed {
        return false;
      }
      solved := solved + {wid};
      DiscardFragments(wid);
      published := published + [(wid, nonce.value)];
      return true;
    }

    method HandleWindowClosed(wid: string)
      modifies this
      ensures StateOf() == WindowOver(old(StateOf()), wid) && published == old(published)
    {
      hide Discarded;
      if wid == "" {
        return;
      }
      closed := closed + {wid};
      DiscardFragments(wid);
    }

    /** A fragment size that is not positive raises, and the challenge changes nothing. */
    method HandleChallenge(ch: Challenge, now: int) returns (r: Result<bool, Fragments.RangeError>)
      modifies this
      ensures published == old(published)
      ensures setup.fragmentSize > 0 ==> StateOf() == Challenged(setup, old(StateOf()), ch, now)
      ensures r.Failure? <==> setup.fragmentSize <= 0 && Accepted(setup, old(StateOf()), ch, now)
      ensures setup.fragmentSize <= 0 ==> StateOf() == old(StateOf())
    {
      hide Discarded, Takes, Windows, DeadlineOf;
      if !running || ch.wid == "" || ch.wid in solved || ch.wid in closed {
        return Success(false);
      }
      var deadline := DeadlineOf(setup, ch);
      if deadline.Some? && now > deadline.value {
        return Success(false);
      }
      if !Takes(setup, StateOf(), ch) {
        return Success(false);
      }
      var chunks := Fragments.FragmentRange(0, SpaceOf(setup, ch), setup.fragmentSize);
      if chunks.Failure? {
        return Failure(chunks.error);
      }
      DiscardAll(Windows(StateOf()) - {ch.wid});
      ghost var kept := pending;
      for i := 0 to |chunks.value|
        invariant StateOf() == Discarded(old(StateOf()), Windows(old(StateOf())) - {ch.wid}).(pending := pending)
        invariant published == old(published)
        invariant pending == kept + FragmentsOf(setup, ch, chunks.value)[..i]
      {
        pending := pending + [FragmentOf(setup, ch, chunks.value[i])];
      }
      return Success(true);
    }

    /** _drop_inactive_windows, with the window the store calls active. */
    method DropInactiveWindows(activeWindow: Option<string>)
      modifies this
      ensures StateOf() == OnlyActive(old(StateOf()), activeWindow) && published == old(published)
    {
      hide Discarded, Windows;
      DiscardAll(Windows(StateOf()) - (if activeWindow.Some? then {activeWindow.value} else {}));
    }
  }
}
