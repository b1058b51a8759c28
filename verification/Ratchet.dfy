/** The difficulty ratchet: n rises at once and falls one zero after decayWindows low measurements in a row
    (DifficultyRatchet in common/blockchain/difficulty.py, kept in Redis by redis_store.py). */
module Ratchet {
  import opened Wrappers
  import opened Text

  datatype State = State(current: Option<int>, lowStreak: int)

  const FRESH: State := State(None, 0)

  /** update() on values. */
  function Updated(s: State, decay: int, measured: int): (r: State)
    ensures r.current.Some?
  {
    if s.current.None? then State(Some(measured), s.lowStreak)
    else if measured > s.current.value then State(Some(measured), 0)
    else if measured < s.current.value then
      if s.lowStreak + 1 >= decay then State(Some(s.current.value - 1), 0)
      else State(s.current, s.lowStreak + 1)
    else State(s.current, 0)
  }

  // ---- persistence ----

  type Fields = map<string, string>

  /** save_difficulty_state */
  function Saved(s: State): Fields {
    map["current" := if s.current.None? then "" else IntText(s.current.value),
        "low_streak" := IntText(s.lowStreak)]
  }

  /** restore(): an absent state leaves the memory as it was; a field that does not parse stops the reading
      there. */
  function Restored(s: State, f: Fields): State {
    if f == map[] then s
    else
      var text := if "current" in f then f["current"] else "";
      var current := if text == "" then Some(None) else
                     (match ParseInt(text) case Some(n) => Some(Some(n)) case None => None);
      if current.None? then s
      else
        var streak := if "low_streak" in f && f["low_streak"] != "" then ParseInt(f["low_streak"]) else Some(0);
        State(current.value, streak.GetOr(s.lowStreak))
  }

  /** What one process saves another restores, whatever it remembered. */
  lemma RestoredSaved(mine: State, s: State)
    ensures Restored(mine, Saved(s)) == s
  {
    var f := Saved(s);
    assert "current" in f;
    ParseIntText(s.lowStreak);
    assert f["low_streak"] == IntText(s.lowStreak);
    if s.current.Some? {
      ParseIntText(s.current.value);
      assert f["current"] == IntText(s.current.value);
    }
  }

  /** The object of the coordinator, one per process and scope. */
  class DifficultyRatchet {
    const decayWindows: int
    var current: Option<int>
    var lowStreak: int

    constructor (decayWindows: int)
      ensures StateOf() == FRESH && this.decayWindows == decayWindows
    {
      this.decayWindows := decayWindows;
      current := None;
      lowStreak := 0;
    }

    function StateOf(): State
      reads this
    {
      State(current, lowStreak)
    }

    method Restore(state: Fields)
      modifies this
      ensures StateOf() == Restored(old(StateOf()), state)
    {
      if state == map[] {
        return;
      }
      var text := if "current" in state then state["current"] else "";
      if text == "" {
        current := None;
      } else {
        var n := ParseInt(text);
        if n.None? {
          return;
        }
        current := Some(n.value);
      }
      var low := if "low_streak" in state && state["low_streak"] != "" then ParseInt(state["low_streak"]) else Some(0);
      if low.None? {
        return;
      }
      lowStreak := low.value;
    }

    method Update(measured: int) returns (n: int)
      modifies this
      ensures StateOf() == Updated(old(StateOf()), decayWindows, measured)
      ensures StateOf().current == Some(n)
    {
      if current.None? {
        current := Some(measured);
        return measured;
      }
      if measured > current.value {
        current := Some(measured);
        lowStreak := 0;
      } else if measured < current.value {
        lowStreak := lowStreak + 1;
        if lowStreak >= decayWindows {
          current := Some(current.value - 1);
          lowStreak := 0;
        }
      } else {
        lowStreak := 0;
      }
      return current.value;
    }
  }

  // ---- whole runs of one process ----

  /** State after the first k measurements. */
  function RunTo(s: State, decay: int, ms: seq<int>, k: nat): State
    requires k <= |ms|
  {
    if k == 0 then s else Updated(RunTo(s, decay, ms, k - 1), decay, ms[k - 1])
  }

  /** n after the k-th update. */
  function NAfter(s: State, decay: int, ms: seq<int>, k: nat): int
    requires 0 < k <= |ms|
  {
    RunTo(s, decay, ms, k).current.value
  }

  /** A ratchet that has measured nothing has no streak: so it starts, and so every saved state is. */
  predicate Sane(s: State) {
    s.lowStreak >= 0 && (s.current.None? ==> s.lowStreak == 0)
  }

  /** A measurement m taken age updates ago still holds n up. */
  predicate HeldUp(now: State, m: int, age: nat) {
    now.current.Some? && m <= now.current.value && (m == now.current.value ==> now.lowStreak <= age)
  }

  lemma StillHeldUp(s: State, decay: int, measured: int, m: int, age: nat)
    requires HeldUp(s, m, age) && age + 1 < decay
    ensures HeldUp(Updated(s, decay, measured), m, age + 1)
  {
  }

  lemma {:induction false} MeasurementHolds(s: State, decay: int, ms: seq<int>, k: nat, j: nat)
    requires j < k <= |ms| && k - j <= decay && Sane(s)
    ensures HeldUp(RunTo(s, decay, ms, k), ms[j], k - 1 - j)
  {
    if j < k - 1 {
      MeasurementHolds(s, decay, ms, k - 1, j);
      StillHeldUp(RunTo(s, decay, ms, k - 1), decay, ms[k - 1], ms[j], k - 2 - j);
    } else {
      SaneRun(s, decay, ms, k - 1);
    }
  }

  lemma {:induction false} SaneRun(s: State, decay: int, ms: seq<int>, k: nat)
    requires k <= |ms| && Sane(s)
    ensures Sane(RunTo(s, decay, ms, k))
  {
    if k > 0 {
      SaneRun(s, decay, ms, k - 1);
    }
  }

  /** n is never below any of the last decay measurements: lowering it takes that many low ones in a row. */
  lemma NeverBelowRecent(s: State, decay: int, ms: seq<int>, k: nat)
    requires 0 < k <= |ms| && Sane(s)
    ensures forall j :: 0 <= j < k && k - j <= decay ==> ms[j] <= NAfter(s, decay, ms, k)
  {
    forall j | 0 <= j < k && k - j <= decay ensures ms[j] <= NAfter(s, decay, ms, k) {
      MeasurementHolds(s, decay, ms, k, j);
    }
  }

  /** decay * n - streak falls by at most one per update. */
  lemma {:induction false} LoweringCosts(s: State, decay: int, ms: seq<int>, k: nat)
    requires k <= |ms| && s.current.Some? && decay >= 1 && s.lowStreak >= 0
    ensures var now := RunTo(s, decay, ms, k);
      && now.current.Some? && now.lowStreak >= 0
      && decay * now.current.value - now.lowStreak >= decay * s.current.value - s.lowStreak - k
  {
    if k > 0 {
      LoweringCosts(s, decay, ms, k - 1);
      var before := RunTo(s, decay, ms, k - 1);
      RaiseScales(decay, before.current.value, ms[k - 1]);
      assert decay * (before.current.value - 1) == decay * before.current.value - decay;
    }
  }

  lemma RaiseScales(decay: int, a: int, b: int)
    requires decay >= 1
    ensures b > a ==> decay * b >= decay * a
  {
    if b > a {
      assert decay * (b - a) >= 0;
    }
  }

  /** k updates lower n by at most (k + the initial streak) / decay zeros, rounded down. */
  lemma LowersSlowly(s: State, decay: int, ms: seq<int>, k: nat)
    requires 0 < k <= |ms| && s.current.Some? && decay >= 1 && s.lowStreak >= 0
    ensures s.current.value - NAfter(s, decay, ms, k) <= (k + s.lowStreak) / decay
  {
    LoweringCosts(s, decay, ms, k);
    var drop := s.current.value - NAfter(s, decay, ms, k);
    assert decay * drop == decay * s.current.value - decay * NAfter(s, decay, ms, k);
    QuotientAtLeast(drop, k + s.lowStreak, decay);
  }

  lemma QuotientAtLeast(x: int, y: nat, d: int)
    requires d >= 1 && d * x <= y
    ensures x <= y / d
  {
    var q := y / d;
    assert d * q + y % d == y;
    assert d * (q + 1) == d * q + d;
    assert d * x < d * (q + 1);
    assert x < q + 1 by { Cancel(d, x, q + 1); }
  }

  lemma Cancel(d: int, a: int, b: int)
    requires d >= 1 && d * a < d * b
    ensures a < b
  {
    assert d * (b - a) > 0;
  }

  // ---- many processes over one store ----

  /** The persisted state and the memory of every coordinator that may take the lead. */
  datatype Shared = Shared(store: Fields, memory: nat -> State)

  /** _n_con_trinquete on process who: restore, update, save. */
  function Measured(w: Shared, decay: int, who: nat, measured: int): Shared {
    var s := Updated(Restored(w.memory(who), w.store), decay, measured);
    Shared(Saved(s), (i: nat) => if i == who then s else w.memory(i))
  }

  function SharedTo(w: Shared, decay: int, whos: seq<nat>, ms: seq<int>, k: nat): Shared
    requires k <= |ms| == |whos|
  {
    if k == 0 then w else Measured(SharedTo(w, decay, whos, ms, k - 1), decay, whos[k - 1], ms[k - 1])
  }

  /** Either the store holds s, or it holds nothing and no process remembers anything but s. */
  ghost predicate StandsAt(w: Shared, s: State) {
    w.store == Saved(s) || (w.store == map[] && forall i :: w.memory(i) == s)
  }

  /** Handing the measurements to any processes in any order gives the run of a single process: a failover is
      no way around the hysteresis. */
  lemma {:induction false} FailoverIsInvisible(w: Shared, s: State, decay: int, whos: seq<nat>, ms: seq<int>, k: nat)
    requires k <= |ms| == |whos| && StandsAt(w, s)
    ensures StandsAt(SharedTo(w, decay, whos, ms, k), RunTo(s, decay, ms, k))
    ensures k > 0 ==> SharedTo(w, decay, whos, ms, k).memory(whos[k - 1]).current == Some(NAfter(s, decay, ms, k))
  {
    if k > 0 {
      FailoverIsInvisible(w, s, decay, whos, ms, k - 1);
      MeasuredStands(SharedTo(w, decay, whos, ms, k - 1), RunTo(s, decay, ms, k - 1), decay, whos[k - 1], ms[k - 1]);
    }
  }

  lemma MeasuredStands(w: Shared, s: State, decay: int, who: nat, measured: int)
    requires StandsAt(w, s)
    ensures StandsAt(Measured(w, decay, who, measured), Updated(s, decay, measured))
    ensures Measured(w, decay, who, measured).memory(who) == Updated(s, decay, measured)
  {
    RestoredSaved(w.memory(who), s);
  }
}
