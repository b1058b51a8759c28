/**
 Whole runs of a pool: one window at a time, one nonce per window, and no fragment of an open window is ever lost,
 however miners come, go and fall silent.
 */
module PoolRuns {
  import opened Wrappers
  import opened Platform
  import opened Text
  import opened Challenge
  import opened Availability
  import opened Pool
  import Fragments
  import Miner

  /** The coordinator, the fragment its own miner is sweeping, the fragments whose miner came back for another, and
      the nonces published. */
  datatype Run = Run(pool: State, hand: Option<Fragment>, swept: set<Fragment>, published: seq<(string, int)>)

  datatype Event =
    | Register(capacity: int, hasGpu: bool, now: int)
    | Beat(id: string, now: int)
    | Purge(now: int)
    | Ask(id: string, now: int)
    | AutoAsk(now: int)
    | Report(wid: string, nonce: Option<int>)
    | Announce(ch: Pool.Challenge, now: int)
    | WindowClosed(wid: string)
    | TakeOver(active: Option<string>)
    | Wait(standby: bool)
    | SetPolicy(policy: Policy)
    | StartStop(running: bool)

  function Next(setup: Setup, x: Run, ev: Event): Run
    requires setup.fragmentSize > 0
  {
    var s := x.pool;
    match ev
    case Register(capacity, hasGpu, now) => x.(pool := Registered(setup, s, capacity, hasGpu, now))
    case Beat(id, now) => x.(pool := s.(miners := Touched(s.miners, id, now)))
    case Purge(now) => x.(pool := Purged(s, now))
    case Ask(id, now) =>
      var (t, f) := Asked(s, id, now);
      x.(pool := t, swept := x.swept + if f.Some? && id in s.handed then {s.handed[id]} else {})
    case AutoAsk(now) =>
      var (t, f) := AutoAsked(s, now);
      x.(pool := t, hand := f, swept := x.swept + if x.hand.Some? then {x.hand.value} else {})
    case Report(wid, nonce) =>
      var (t, ok) := Submitted(s, wid, nonce);
      x.(pool := t, published := x.published + if ok then [(wid, nonce.value)] else [])
    case Announce(ch, now) => x.(pool := Challenged(setup, s, ch, now))
    case WindowClosed(wid) => x.(pool := WindowOver(s, wid))
    case TakeOver(active) => x.(pool := OnlyActive(s, active))
    case Wait(standby) => x.(pool := s.(standby := standby))
    case SetPolicy(policy) => x.(pool := s.(policy := policy))
    case StartStop(running) => x.(pool := s.(running := running))
  }

  function After(setup: Setup, x: Run, events: seq<Event>): Run
    requires setup.fragmentSize > 0
    decreases |events|
  {
    if events == [] then x else After(setup, Next(setup, x, events[0]), events[1..])
  }

  // ---- one window at a time, one nonce per window ----

  /** Every fragment queued or handed out is of wid. */
  predicate Only(s: State, wid: string) {
    (forall f :: f in s.pending ==> f.wid == wid) && forall id :: id in s.handed ==> s.handed[id].wid == wid
  }

  /** At most one window is worked on, it is not over, and what was published was published once. */
  ghost predicate Tidy(x: Run) {
    && (exists wid :: Only(x.pool, wid))
    && (forall f :: f in x.pool.pending ==> !Over(x.pool, f.wid))
    && (forall id :: id in x.pool.handed ==> !Over(x.pool, x.pool.handed[id].wid))
    && (forall i :: 0 <= i < |x.published| ==> x.published[i].0 in x.pool.solved)
    && (forall i, j :: 0 <= i < j < |x.published| ==> x.published[i].0 != x.published[j].0)
  }

  /** The work of b is work of a. */
  predicate Less(a: State, b: State) {
    && (forall f :: f in b.pending ==> f in a.pending || f in a.handed.Values)
    && (forall id :: id in b.handed ==> b.handed[id] in a.handed.Values || b.handed[id] in a.pending)
  }

  lemma LessIsOnly(a: State, b: State, wid: string)
    requires Less(a, b) && Only(a, wid)
    ensures Only(b, wid)
  {
    assert forall f :: f in a.handed.Values ==> exists id :: id in a.handed && a.handed[id] == f;
  }

  lemma LessIsTidy(x: Run, t: State)
    requires Tidy(x) && Less(x.pool, t) && t.solved == x.pool.solved && t.closed == x.pool.closed
    ensures Tidy(x.(pool := t))
  {
    var wid :| Only(x.pool, wid);
    LessIsOnly(x.pool, t, wid);
    assert forall f :: f in x.pool.handed.Values ==> exists id :: id in x.pool.handed && x.pool.handed[id] == f;
  }

  lemma {:induction false} FromFirst(pending: seq<Fragment>, now: int)
    ensures forall f :: f in FromFirstInTime(pending, now) ==> f in pending
  {
    if pending != [] && Expired(pending[0], now) {
      FromFirst(pending[1..], now);
    }
  }

  lemma TakenIsLess(s: State, now: int)
    ensures Less(s, Taken(s, now).0) && (Taken(s, now).1.Some? ==> Taken(s, now).1.value in s.pending)
    ensures Taken(s, now).0 == s.(pending := Taken(s, now).0.pending)
  {
    FromFirst(s.pending, now);
    assert forall id :: id in s.handed ==> s.handed[id] in s.handed.Values;
  }

  lemma AskedIsLess(s: State, id: string, now: int)
    ensures Less(s, Asked(s, id, now).0)
    ensures Asked(s, id, now).0 == s.(pending := Asked(s, id, now).0.pending, handed := Asked(s, id, now).0.handed)
  {
    TakenIsLess(s, now);
    assert forall id :: id in s.handed ==> s.handed[id] in s.handed.Values;
  }

  lemma {:induction false} AllGoneIsLess(s: State, stale: seq<Pool.Miner>)
    ensures Less(s, AllGone(s, stale))
    ensures AllGone(s, stale) == s.(pending := AllGone(s, stale).pending, handed := AllGone(s, stale).handed)
    decreases |stale|
  {
    assert forall id :: id in s.handed ==> s.handed[id] in s.handed.Values;
    if stale != [] {
      var t := MinerGone(s, stale[0].id);
      AllGoneIsLess(t, stale[1..]);
      assert forall f :: f in t.handed.Values ==> f in s.handed.Values;
    }
  }

  lemma DiscardedIsLess(s: State, gone: set<string>)
    ensures Less(s, Discarded(s, gone))
  {
    assert forall id :: id in s.handed ==> s.handed[id] in s.handed.Values;
  }

  /** Discarding a window and marking it over keeps the rest in order. */
  lemma OverIsTidy(x: Run, t: State, wid: string, nonce: Option<int>)
    requires Tidy(x) && (t == x.pool.(solved := x.pool.solved + {wid}) || t == x.pool.(closed := x.pool.closed + {wid}))
    requires nonce.Some? ==> wid !in x.pool.solved && wid in t.solved
    ensures Tidy(x.(pool := Discarded(t, {wid}), published := x.published + if nonce.Some? then [(wid, nonce.value)] else []))
  {
    DiscardedIsLess(t, {wid});
    var w :| Only(x.pool, w);
    LessIsOnly(t, Discarded(t, {wid}), w);
    assert x.published + [] == x.published;
  }

  lemma ChallengedIsTidy(setup: Setup, x: Run, ch: Pool.Challenge, now: int)
    requires setup.fragmentSize > 0 && Tidy(x)
    ensures Tidy(x.(pool := Challenged(setup, x.pool, ch, now)))
  {
    hide Takes, DeadlineOf, SpaceOf;
    if Accepted(setup, x.pool, ch, now) {
      var t := Challenged(setup, x.pool, ch, now);
      assert Only(t, ch.wid);
    }
  }

  lemma NextIsTidy(setup: Setup, x: Run, ev: Event)
    requires setup.fragmentSize > 0 && Tidy(x)
    ensures Tidy(Next(setup, x, ev))
  {
    hide Tidy, Less, Taken, Asked, AutoAsked, Discarded, Challenged, AllGone, Windows;
    var s := x.pool;
    match ev
    case Register(capacity, hasGpu, now) => SameWork(x, Registered(setup, s, capacity, hasGpu, now));
    case Beat(id, now) => SameWork(x, s.(miners := Touched(s.miners, id, now)));
    case Purge(now) => PurgedIsTidy(x, now);
    case Ask(id, now) =>
      AskedIsLess(s, id, now);
      LessIsTidy(x, Asked(s, id, now).0);
      SweepingIsTidy(x.(pool := Asked(s, id, now).0), Next(setup, x, ev).hand, Next(setup, x, ev).swept);
    case AutoAsk(now) =>
      AutoAskedIsLess(s, now);
      LessIsTidy(x, AutoAsked(s, now).0);
      SweepingIsTidy(x.(pool := AutoAsked(s, now).0), Next(setup, x, ev).hand, Next(setup, x, ev).swept);
    case Report(wid, nonce) =>
      if Submitted(s, wid, nonce).1 {
        OverIsTidy(x, s.(solved := s.solved + {wid}), wid, nonce);
      } else {
        assert x.published + [] == x.published;
      }
    case Announce(ch, now) => ChallengedIsTidy(setup, x, ch, now);
    case WindowClosed(wid) => OverIsTidy(x, s.(closed := s.closed + {wid}), wid, None); assert x.published + [] == x.published;
    case TakeOver(active) =>
      var gone := Windows(s) - (if active.Some? then {active.value} else {});
      DiscardedIsLess(s, gone);
      DiscardedKeeps(s, gone);
      LessIsTidy(x, Discarded(s, gone));
    case Wait(standby) => SameWork(x, s.(standby := standby));
    case SetPolicy(policy) => SameWork(x, s.(policy := policy));
    case StartStop(running) => SameWork(x, s.(running := running));
  }

  lemma DiscardedKeeps(s: State, gone: set<string>)
    ensures Discarded(s, gone).solved == s.solved && Discarded(s, gone).closed == s.closed
  {
  }

  lemma AutoAskedIsLess(s: State, now: int)
    ensures Less(s, AutoAsked(s, now).0)
    ensures AutoAsked(s, now).0 == s.(pending := AutoAsked(s, now).0.pending)
  {
    TakenIsLess(s, now);
    assert forall id :: id in s.handed ==> s.handed[id] in s.handed.Values;
  }

  lemma SweepingIsTidy(x: Run, hand: Option<Fragment>, swept: set<Fragment>)
    requires Tidy(x)
    ensures Tidy(x.(hand := hand, swept := swept))
  {
    var wid :| Only(x.pool, wid);
    assert Only(x.(hand := hand, swept := swept).pool, wid);
  }

  lemma SameWork(x: Run, t: State)
    requires Tidy(x) && t.pending == x.pool.pending && t.handed == x.pool.handed && t.solved == x.pool.solved && t.closed == x.pool.closed
    ensures Tidy(x.(pool := t))
  {
    var wid :| Only(x.pool, wid);
    assert Only(t, wid);
  }

  lemma PurgedIsTidy(x: Run, now: int)
    requires Tidy(x)
    ensures Tidy(x.(pool := Purged(x.pool, now)))
  {
    var t := x.pool.(miners := OnlyIf(x.pool.miners, m => !Stale(m, now)));
    SameWork(x, t);
    AllGoneIsLess(t, OnlyIf(x.pool.miners, m => Stale(m, now)));
    hide AllGone, Less, Tidy, OnlyIf;
    LessIsTidy(x.(pool := t), Purged(x.pool, now));
  }

  lemma {:induction false} RunIsTidy(setup: Setup, x: Run, events: seq<Event>)
    requires setup.fragmentSize > 0 && Tidy(x)
    ensures Tidy(After(setup, x, events))
    decreases |events|
  {
    hide Tidy, Next;
    if events != [] {
      NextIsTidy(setup, x, events[0]);
      RunIsTidy(setup, Next(setup, x, events[0]), events[1..]);
    }
  }

  const START: State := State([], [], map[], {}, {}, DEFAULT_POLICY, false, false, 0)

  /** Over any run of a coordinator: all the work there is belongs to one window that is neither won nor closed, and no
      window gets more than one nonce published. */
  lemma OneWindowOneNonce(setup: Setup, events: seq<Event>)
    requires setup.fragmentSize > 0
    ensures var x := After(setup, Run(START, None, {}, []), events);
      && (forall f, g :: f in x.pool.pending && g in x.pool.pending ==> f.wid == g.wid)
      && (forall f, id :: f in x.pool.pending && id in x.pool.handed ==> x.pool.handed[id].wid == f.wid)
      && (forall f :: f in x.pool.pending ==> !Over(x.pool, f.wid))
      && (forall id :: id in x.pool.handed ==> !Over(x.pool, x.pool.handed[id].wid))
      && (forall i, j :: 0 <= i < j < |x.published| ==> x.published[i].0 != x.published[j].0)
  {
    var start := Run(START, None, {}, []);
    assert Only(START, "");
    RunIsTidy(setup, start, events);
    hide After;
    var wid :| Only(After(setup, start, events).pool, wid);
  }

  // ---- no fragment is lost ----

  /** Nothing is in two places. */
  ghost predicate Apart(x: Run, wid: string) {
    var s := x.pool;
    && (forall i, j :: 0 <= i < j < |s.pending| ==> s.pending[i] != s.pending[j])
    && (forall a, b :: a in s.handed && b in s.handed && a != b ==> s.handed[a] != s.handed[b])
    && (forall f :: f in s.pending ==> f !in s.handed.Values && f !in x.swept && x.hand != Some(f))
    && (forall id :: id in s.handed ==> s.handed[id] !in x.swept && x.hand != Some(s.handed[id]))
    && (x.hand.Some? && x.hand.value.wid == wid ==> x.hand.value !in x.swept)
  }

  /** The fragments of the window, wherever they are, are its tiles. */
  ghost predicate Covers(x: Run, wid: string, tiles: set<Fragment>) {
    forall f :: f in tiles <==>
      f.wid == wid && (f in x.pool.pending || f in x.pool.handed.Values || x.hand == Some(f) || f in x.swept)
  }

  /** While wid is open, each of its tiles is in exactly one place: queued once, with one miner, with the coordinator's
      own miner, or swept. */
  ghost predicate Conserved(x: Run, wid: string, tiles: set<Fragment>) {
    !Over(x.pool, wid) && Only(x.pool, wid) && Apart(x, wid) && Covers(x, wid, tiles)
  }

  /** What happens while a window is open: anything but the end of that window, its deadline, or the next challenge. */
  predicate Calm(setup: Setup, x: Run, wid: string, deadline: Option<int>, ev: Event)
    requires setup.fragmentSize > 0
  {
    match ev
    case Ask(_, now) => deadline.Some? ==> now <= deadline.value
    case AutoAsk(now) => deadline.Some? ==> now <= deadline.value
    case Report(w, _) => w != wid
    case WindowClosed(w) => w != wid
    case TakeOver(active) => active == Some(wid)
    case Announce(ch, now) => !Accepted(setup, x.pool, ch, now)
    case _ => true
  }

  predicate Dated(tiles: set<Fragment>, deadline: Option<int>) {
    forall f :: f in tiles ==> f.deadline == deadline
  }

  lemma InTime(x: Run, wid: string, tiles: set<Fragment>, deadline: Option<int>, now: int)
    requires Conserved(x, wid, tiles) && Dated(tiles, deadline) && (deadline.Some? ==> now <= deadline.value)
    ensures Taken(x.pool, now) == if x.pool.pending == [] then (x.pool, None)
      else (x.pool.(pending := x.pool.pending[1..]), Some(x.pool.pending[0]))
  {
    if x.pool.pending != [] {
      assert x.pool.pending[0] in tiles;
    }
  }

  lemma Tail(pending: seq<Fragment>)
    requires pending != [] && forall i, j :: 0 <= i < j < |pending| ==> pending[i] != pending[j]
    ensures forall f :: f in pending <==> f == pending[0] || f in pending[1..]
    ensures pending[0] !in pending[1..] && forall i, j :: 0 <= i < j < |pending[1..]| ==> pending[1..][i] != pending[1..][j]
  {
  }

  lemma HandedOver(handed: map<string, Fragment>, id: string, f: Fragment)
    requires f !in handed.Values && forall a, b :: a in handed && b in handed && a != b ==> handed[a] != handed[b]
    ensures var next := handed[id := f];
      && (forall a, b :: a in next && b in next && a != b ==> next[a] != next[b])
      && (forall g :: g in next.Values <==> g == f || (g in handed.Values && !(id in handed && g == handed[id])))
  {
    var next := handed[id := f];
    assert forall a :: a in handed ==> handed[a] in handed.Values;
    assert next[id] == f;
    forall g | g in handed.Values && !(id in handed && g == handed[id]) ensures g in next.Values {
      var a :| a in handed && handed[a] == g;
      assert next[a] == g;
    }
  }

  /** The first queued fragment goes to a miner; the one it had is swept. */
  function GivenTo(x: Run, id: string): Run
    requires x.pool.pending != []
  {
    var s := x.pool;
    x.(pool := s.(pending := s.pending[1..], handed := s.handed[id := s.pending[0]]),
       swept := x.swept + if id in s.handed then {s.handed[id]} else {})
  }

  lemma GivenApart(x: Run, id: string, wid: string)
    requires Apart(x, wid) && x.pool.pending != []
    ensures Apart(GivenTo(x, id), wid)
  {
    var s := x.pool;
    Tail(s.pending);
    HandedOver(s.handed, id, s.pending[0]);
    assert forall a :: a in s.handed ==> s.handed[a] in s.handed.Values;
  }

  lemma GivenCovers(x: Run, id: string, wid: string, tiles: set<Fragment>)
    requires Apart(x, wid) && Covers(x, wid, tiles) && Only(x.pool, wid) && x.pool.pending != []
    ensures Covers(GivenTo(x, id), wid, tiles) && Only(GivenTo(x, id).pool, wid)
  {
    var s := x.pool;
    Tail(s.pending);
    HandedOver(s.handed, id, s.pending[0]);
    hide Apart;
    assert forall a :: a in s.handed ==> s.handed[a] in s.handed.Values;
  }

  lemma GivenOut(x: Run, id: string, wid: string, tiles: set<Fragment>)
    requires Conserved(x, wid, tiles) && x.pool.pending != []
    ensures Conserved(GivenTo(x, id), wid, tiles)
  {
    GivenApart(x, id, wid);
    GivenCovers(x, id, wid, tiles);
    hide Apart, Covers, Only;
  }

  lemma AskConserves(x: Run, id: string, now: int, wid: string, tiles: set<Fragment>, deadline: Option<int>)
    requires Conserved(x, wid, tiles) && Dated(tiles, deadline) && (deadline.Some? ==> now <= deadline.value)
    ensures var (t, f) := Asked(x.pool, id, now);
      Conserved(x.(pool := t, swept := x.swept + if f.Some? && id in x.pool.handed then {x.pool.handed[id]} else {}), wid, tiles)
  {
    InTime(x, wid, tiles, deadline, now);
    hide Conserved, Taken, Knows;
    if x.pool.pending != [] {
      GivenOut(x, id, wid, tiles);
    }
    assert x.swept + {} == x.swept;
  }

  lemma AutoAskConserves(x: Run, now: int, wid: string, tiles: set<Fragment>, deadline: Option<int>)
    requires Conserved(x, wid, tiles) && Dated(tiles, deadline) && (deadline.Some? ==> now <= deadline.value)
    ensures var (t, f) := AutoAsked(x.pool, now);
      Conserved(x.(pool := t, hand := f, swept := x.swept + if x.hand.Some? then {x.hand.value} else {}), wid, tiles)
  {
    InTime(x, wid, tiles, deadline, now);
    hide Conserved, Taken;
    TakenByOwnMiner(x, wid, tiles);
  }

  /** The coordinator's own miner is done with its fragment, and gets the first queued one or none. */
  lemma TakenByOwnMiner(x: Run, wid: string, tiles: set<Fragment>)
    requires Conserved(x, wid, tiles)
    ensures var swept := x.swept + if x.hand.Some? then {x.hand.value} else {};
      && Conserved(x.(hand := None, swept := swept), wid, tiles)
      && (x.pool.pending != [] ==>
            Conserved(x.(pool := x.pool.(pending := x.pool.pending[1..]), hand := Some(x.pool.pending[0]), swept := swept), wid, tiles))
  {
    assert forall a :: a in x.pool.handed ==> x.pool.handed[a] in x.pool.handed.Values;
    if x.pool.pending != [] {
      Tail(x.pool.pending);
    }
  }

  lemma Removed(handed: map<string, Fragment>, id: string)
    requires id in handed && forall a, b :: a in handed && b in handed && a != b ==> handed[a] != handed[b]
    ensures var rest := handed - {id};
      && (forall g :: g in handed.Values <==> g == handed[id] || g in rest.Values) && handed[id] !in rest.Values
      && (forall a, b :: a in rest && b in rest && a != b ==> rest[a] != rest[b])
  {
    var rest := handed - {id};
    forall g | g in handed.Values ensures g == handed[id] || g in rest.Values {
      var a :| a in handed && handed[a] == g;
      assert a != id ==> rest[a] == g;
    }
  }

  lemma MinerGoneConserves(x: Run, id: string, wid: string, tiles: set<Fragment>)
    requires Conserved(x, wid, tiles)
    ensures Conserved(x.(pool := MinerGone(x.pool, id)), wid, tiles)
  {
    var s := x.pool;
    if id in s.handed {
      Removed(s.handed, id);
      assert forall a :: a in s.handed ==> s.handed[a] in s.handed.Values;
    } else {
      assert s.handed - {id} == s.handed && [] + s.pending == s.pending;
    }
  }

  lemma {:induction false} AllGoneConserves(x: Run, stale: seq<Pool.Miner>, wid: string, tiles: set<Fragment>)
    requires Conserved(x, wid, tiles)
    ensures Conserved(x.(pool := AllGone(x.pool, stale)), wid, tiles)
    decreases |stale|
  {
    hide Conserved, MinerGone;
    if stale != [] {
      MinerGoneConserves(x, stale[0].id, wid, tiles);
      AllGoneConserves(x.(pool := MinerGone(x.pool, stale[0].id)), stale[1..], wid, tiles);
    }
  }

  lemma {:induction false} NothingToDiscard(fs: seq<Fragment>, gone: set<string>)
    requires forall f :: f in fs ==> f.wid !in gone
    ensures Without(fs, gone) == fs
  {
    if fs != [] {
      NothingToDiscard(fs[1..], gone);
    }
  }

  lemma DiscardsNothing(s: State, gone: set<string>, wid: string)
    requires Only(s, wid) && wid !in gone
    ensures Discarded(s, gone) == s
  {
    NothingToDiscard(s.pending, gone);
    assert Discarded(s, gone).handed == s.handed;
  }

  lemma OnlyHere(x: Run, wid: string, tiles: set<Fragment>)
    requires Conserved(x, wid, tiles)
    ensures Only(x.pool, wid)
  {
  }

  lemma DiscardConserves(x: Run, t: State, gone: set<string>, wid: string, tiles: set<Fragment>)
    requires Conserved(x, wid, tiles) && wid !in gone && !Over(t, wid)
    requires t == x.pool.(solved := t.solved, closed := t.closed)
    ensures Discarded(t, gone) == t && Conserved(x.(pool := t), wid, tiles)
  {
    OnlyHere(x, wid, tiles);
    DiscardsNothing(t, gone, wid);
    hide Conserved, Discarded;
    SameWorkConserves(x, t, x.published, wid, tiles);
  }

  lemma SameWorkConserves(x: Run, t: State, published: seq<(string, int)>, wid: string, tiles: set<Fragment>)
    requires Conserved(x, wid, tiles) && t.pending == x.pool.pending && t.handed == x.pool.handed && !Over(t, wid)
    ensures Conserved(x.(pool := t, published := published), wid, tiles)
  {
  }

  lemma StillOpen(x: Run, wid: string, tiles: set<Fragment>)
    requires Conserved(x, wid, tiles)
    ensures !Over(x.pool, wid)
  {
  }

  lemma NextConserves(setup: Setup, x: Run, ev: Event, wid: string, tiles: set<Fragment>, deadline: Option<int>)
    requires setup.fragmentSize > 0 && Conserved(x, wid, tiles) && Dated(tiles, deadline) && Calm(setup, x, wid, deadline, ev)
    ensures Conserved(Next(setup, x, ev), wid, tiles)
  {
    hide Conserved, Taken, Asked, AutoAsked, Discarded, AllGone, Windows, Accepted;
    StillOpen(x, wid, tiles);
    var s := x.pool;
    match ev
    case Register(capacity, hasGpu, now) => SameWorkConserves(x, Registered(setup, s, capacity, hasGpu, now), x.published, wid, tiles);
    case Beat(id, now) => SameWorkConserves(x, s.(miners := Touched(s.miners, id, now)), x.published, wid, tiles);
    case Purge(now) =>
      var t := s.(miners := OnlyIf(s.miners, m => !Stale(m, now)));
      SameWorkConserves(x, t, x.published, wid, tiles);
      AllGoneConserves(x.(pool := t), OnlyIf(s.miners, m => Stale(m, now)), wid, tiles);
    case Ask(id, now) => AskConserves(x, id, now, wid, tiles, deadline);
    case AutoAsk(now) => AutoAskConserves(x, now, wid, tiles, deadline);
    case Report(w, nonce) =>
      var t := s.(solved := s.solved + {w});
      DiscardConserves(x, t, {w}, wid, tiles);
      SameWorkConserves(x, t, Next(setup, x, ev).published, wid, tiles);
      SameWorkConserves(x, s, Next(setup, x, ev).published, wid, tiles);
    case Announce(ch, now) =>
    case WindowClosed(w) => DiscardConserves(x, s.(closed := s.closed + {w}), {w}, wid, tiles);
    case TakeOver(active) => DiscardConserves(x, s, Windows(s) - {wid}, wid, tiles);
    case Wait(standby) => SameWorkConserves(x, s.(standby := standby), x.published, wid, tiles);
    case SetPolicy(policy) => SameWorkConserves(x, s.(policy := policy), x.published, wid, tiles);
    case StartStop(running) => SameWorkConserves(x, s.(running := running), x.published, wid, tiles);
  }

  // ---- from the challenge on ----

  function Cut(setup: Setup, ch: Pool.Challenge): seq<Fragment>
    requires setup.fragmentSize > 0
  {
    FragmentsOf(setup, ch, Fragments.Tiles(0, SpaceOf(setup, ch), setup.fragmentSize))
  }

  function TilesOf(setup: Setup, ch: Pool.Challenge): set<Fragment>
    requires setup.fragmentSize > 0
  {
    set f | f in Cut(setup, ch)
  }

  /** Nothing of this window has been seen: its challenge is delivered once. */
  predicate Unseen(x: Run, wid: string) {
    && (forall f :: f in x.pool.pending ==> f.wid != wid) && (forall id :: id in x.pool.handed ==> x.pool.handed[id].wid != wid)
    && (x.hand.Some? ==> x.hand.value.wid != wid) && (forall f :: f in x.swept ==> f.wid != wid)
  }

  lemma CutApart(setup: Setup, ch: Pool.Challenge)
    requires setup.fragmentSize > 0
    ensures var cut := Cut(setup, ch);
      && (forall i, j :: 0 <= i < j < |cut| ==> cut[i] != cut[j])
      && (forall f :: f in cut ==> f.wid == ch.wid && f.deadline == DeadlineOf(setup, ch) && f.base == ch.base && f.nZeros == ch.nZeros)
  {
    var size, space := setup.fragmentSize, SpaceOf(setup, ch);
    var tiles, cut := Fragments.Tiles(0, space, size), Cut(setup, ch);
    hide DeadlineOf, SpaceOf;
    forall i, j | 0 <= i < j < |cut| ensures cut[i] != cut[j] {
      Fragments.TilesDisjoint(0, space, size, i, j);
      Fragments.TileAt(0, space, size, i);
    }
  }

  lemma {:induction false} AllDiscarded(fs: seq<Fragment>, gone: set<string>)
    requires forall f :: f in fs ==> f.wid in gone
    ensures Without(fs, gone) == []
  {
    if fs != [] {
      AllDiscarded(fs[1..], gone);
    }
  }

  lemma OthersGone(s: State, wid: string)
    requires (forall f :: f in s.pending ==> f.wid != wid) && forall id :: id in s.handed ==> s.handed[id].wid != wid
    ensures var d := Discarded(s, Windows(s) - {wid}); d.pending == [] && d.handed == map[]
  {
    AllDiscarded(s.pending, Windows(s) - {wid});
    assert Discarded(s, Windows(s) - {wid}).handed == map[];
  }

  lemma FreshlyCut(setup: Setup, y: Run, ch: Pool.Challenge)
    requires setup.fragmentSize > 0 && y.pool.pending == Cut(setup, ch) && y.pool.handed == map[] && !Over(y.pool, ch.wid)
    requires (y.hand.Some? ==> y.hand.value.wid != ch.wid) && forall f :: f in y.swept ==> f.wid != ch.wid
    ensures Conserved(y, ch.wid, TilesOf(setup, ch))
  {
    CutApart(setup, ch);
    hide Cut, DeadlineOf;
  }

  /** The accepted challenge of a new window leaves exactly its tiles queued. */
  lemma ChallengeConserves(setup: Setup, x: Run, ch: Pool.Challenge, now: int)
    requires setup.fragmentSize > 0 && Accepted(setup, x.pool, ch, now) && Unseen(x, ch.wid)
    ensures Conserved(Next(setup, x, Announce(ch, now)), ch.wid, TilesOf(setup, ch))
  {
    var y := Next(setup, x, Announce(ch, now));
    OthersGone(x.pool, ch.wid);
    CutIs(setup, ch);
    assert [] + Cut(setup, ch) == Cut(setup, ch);
    hide Windows, Takes, DeadlineOf, SpaceOf, Cut, Conserved;
    FreshlyCut(setup, y, ch);
  }

  lemma CutIs(setup: Setup, ch: Pool.Challenge)
    requires setup.fragmentSize > 0
    ensures Cut(setup, ch) == FragmentsOf(setup, ch, Fragments.Tiles(0, SpaceOf(setup, ch), setup.fragmentSize))
  {
  }

  lemma TilesDated(setup: Setup, ch: Pool.Challenge)
    requires setup.fragmentSize > 0
    ensures Dated(TilesOf(setup, ch), DeadlineOf(setup, ch))
  {
    CutApart(setup, ch);
  }

  /** The event is the accepted challenge. */
  predicate Begins(setup: Setup, x: Run, ch: Pool.Challenge, ev: Event) {
    ev.Announce? && ev.ch == ch && Accepted(setup, x.pool, ch, ev.now)
  }

  /** The life of a window in a pool: its challenge, delivered once and accepted, and then calm events. */
  ghost predicate Life(setup: Setup, runs: seq<Run>, events: seq<Event>, ch: Pool.Challenge)
    requires setup.fragmentSize > 0
  {
    && |runs| == |events| + 1 && Unseen(runs[0], ch.wid)
    && forall i {:trigger events[i]} :: 0 <= i < |events| ==>
      && runs[i + 1] == Next(setup, runs[i], events[i])
      && (if i == 0 then Begins(setup, runs[0], ch, events[0]) else Calm(setup, runs[i], ch.wid, DeadlineOf(setup, ch), events[i]))
  }

  lemma LifeAt(setup: Setup, runs: seq<Run>, events: seq<Event>, ch: Pool.Challenge, i: nat)
    requires setup.fragmentSize > 0 && Life(setup, runs, events, ch) && i < |events|
    ensures |runs| == |events| + 1 && Unseen(runs[0], ch.wid) && runs[i + 1] == Next(setup, runs[i], events[i])
    ensures if i == 0 then Begins(setup, runs[0], ch, events[0]) else Calm(setup, runs[i], ch.wid, DeadlineOf(setup, ch), events[i])
  {
    hide Next, Begins, Calm, Unseen, DeadlineOf;
  }

  /** From its challenge to its end or deadline, whatever miners register, report alive, ask, fall silent and are
      purged: the tiles of the nonce space of a window are each in exactly one place. */
  lemma {:induction false} FragmentsConserved(setup: Setup, runs: seq<Run>, events: seq<Event>, ch: Pool.Challenge, j: nat)
    requires setup.fragmentSize > 0 && Life(setup, runs, events, ch) && 1 <= j < |runs|
    ensures Conserved(runs[j], ch.wid, TilesOf(setup, ch))
    decreases j
  {
    hide Conserved, Next, Calm, Life, TilesOf, Dated, Accepted, DeadlineOf, Unseen;
    assert |runs| == |events| + 1 by {
      LifeLength(setup, runs, events, ch);
    }
    LifeAt(setup, runs, events, ch, j - 1);
    if j == 1 {
      ChallengeConserves(setup, runs[0], ch, events[0].now);
    } else {
      FragmentsConserved(setup, runs, events, ch, j - 1);
      TilesDated(setup, ch);
      NextConserves(setup, runs[j - 1], events[j - 1], ch.wid, TilesOf(setup, ch), DeadlineOf(setup, ch));
    }
  }

  lemma LifeLength(setup: Setup, runs: seq<Run>, events: seq<Event>, ch: Pool.Challenge)
    requires setup.fragmentSize > 0 && Life(setup, runs, events, ch)
    ensures |runs| == |events| + 1
  {
    hide Next, Begins, Calm, Unseen;
  }

  // ---- completeness ----

  /** The linear scan: the first nonce of [lo, hi) that solves the challenge. */
  function Scan(p: Platform, base: string, nZeros: int, lo: int, hi: int): (r: Option<int>)
    ensures r.None? <==> forall n :: lo <= n < hi ==> !VerifyNonce(p, base, n, nZeros)
    ensures r.Some? ==> lo <= r.value < hi && VerifyNonce(p, base, r.value, nZeros)
    ensures r.Some? ==> forall n :: lo <= n < r.value ==> !VerifyNonce(p, base, n, nZeros)
    decreases hi - lo
  {
    if lo >= hi then None
    else if VerifyNonce(p, base, lo, nZeros) then Some(lo)
    else Scan(p, base, nZeros, lo + 1, hi)
  }

  /** What sweeping the fragment brings back. */
  function SweepOf(p: Platform, f: Fragment): Option<int> {
    Scan(p, f.base, f.nZeros, f.lo, f.hi)
  }

  /** What a miner does with a fragment: it brings back the first nonce in it that solves its challenge, or none if there is
      none. */
  method Sweep(p: Platform, f: Fragment) returns (r: Result<Option<(int, string)>, Miner.MinerError>)
    requires f.nZeros >= 0
    ensures r.Success? ==> (r.value.Some? <==> SweepOf(p, f).Some?)
    ensures r.Success? && r.value.Some? ==> Some(r.value.value.0) == SweepOf(p, f) && r.value.value.1 == ComputeHash(p, f.base, r.value.value.0)
    ensures r.Failure? ==> f.nZeros > 32
  {
    r := Miner.BruteForce(p, f.base, PrefixForZeros(f.nZeros), f.lo, f.hi);
    forall n ensures Miner.Hit(p, f.base, n, PrefixForZeros(f.nZeros)) <==> VerifyNonce(p, f.base, n, f.nZeros) {
      Miner.HitIsVerified(p, f.base, n, f.nZeros);
    }
  }

  /** A fragment of the window that is with a miner or has been swept. */
  predicate HandedOut(x: Run, wid: string, f: Fragment) {
    f.wid == wid && (f in x.pool.handed.Values || x.hand == Some(f) || f in x.swept)
  }

  lemma TileSweeps(setup: Setup, ch: Pool.Challenge, f: Fragment)
    requires setup.fragmentSize > 0 && f in TilesOf(setup, ch)
    ensures SweepOf(setup.p, f).Some? ==> Scan(setup.p, ch.base, ch.nZeros, 0, SpaceOf(setup, ch)).Some?
  {
    var space := SpaceOf(setup, ch);
    var tiles := Fragments.Tiles(0, space, setup.fragmentSize);
    hide VerifyNonce, DeadlineOf, SpaceOf, Scan;
    var i :| 0 <= i < |Cut(setup, ch)| && Cut(setup, ch)[i] == f;
    Fragments.TileAt(0, space, setup.fragmentSize, i);
    assert f == FragmentOf(setup, ch, tiles[i]);
    TileFromZero(i, setup.fragmentSize);
    assert 0 <= f.lo && f.hi <= space;
  }

  lemma TileFromZero(i: nat, size: int)
    requires size > 0
    ensures i * size >= 0
  {
  }

  lemma ScannedTile(setup: Setup, ch: Pool.Challenge, n: int) returns (f: Fragment)
    requires setup.fragmentSize > 0 && 0 <= n < SpaceOf(setup, ch) && VerifyNonce(setup.p, ch.base, n, ch.nZeros)
    ensures f in TilesOf(setup, ch) && SweepOf(setup.p, f).Some?
  {
    var tiles := Fragments.Tiles(0, SpaceOf(setup, ch), setup.fragmentSize);
    var i := Fragments.TilesCover(0, SpaceOf(setup, ch), setup.fragmentSize, n);
    f := FragmentOf(setup, ch, tiles[i]);
    hide VerifyNonce, DeadlineOf, SpaceOf, Scan;
    assert Cut(setup, ch)[i] == f;
  }

  /** However its miners come and go, when nothing is queued any more the pool has in its hands or behind it a fragment whose
      sweep brings a nonce exactly if a linear scan of the whole nonce space finds one: if all sweeps return nothing, there is
      nothing. */
  lemma PoolScansEverything(setup: Setup, runs: seq<Run>, events: seq<Event>, ch: Pool.Challenge, j: nat)
    requires setup.fragmentSize > 0 && Life(setup, runs, events, ch) && 1 <= j < |runs| && runs[j].pool.pending == []
    ensures Scan(setup.p, ch.base, ch.nZeros, 0, SpaceOf(setup, ch)).Some?
      <==> exists f :: HandedOut(runs[j], ch.wid, f) && SweepOf(setup.p, f).Some?
  {
    hide Life, Next, TilesOf, Conserved, Apart, Only, Over, VerifyNonce, SweepOf, SpaceOf;
    FragmentsConserved(setup, runs, events, ch, j);
    ConservedCovers(runs[j], ch.wid, TilesOf(setup, ch));
    var scan := Scan(setup.p, ch.base, ch.nZeros, 0, SpaceOf(setup, ch));
    if scan.Some? {
      var f := ScannedTile(setup, ch, scan.value);
      assert HandedOut(runs[j], ch.wid, f);
    }
    forall f | HandedOut(runs[j], ch.wid, f) && SweepOf(setup.p, f).Some? ensures scan.Some? {
      TileSweeps(setup, ch, f);
    }
  }

  lemma ConservedCovers(x: Run, wid: string, tiles: set<Fragment>)
    requires Conserved(x, wid, tiles)
    ensures Covers(x, wid, tiles)
  {
  }
}
