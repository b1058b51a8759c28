/**
 What every single write of a lone leader keeps in Redis: a valid chain with at most one block per window, laws
 whose pending action the chain does not contain yet, and a window pointer that can be resumed.
 */
module NctInvariant {
  import opened Wrappers
  import opened Platform
  import opened Text
  import opened Challenge
  import opened Laws
  import opened Chain
  import opened Store

  // ---- the chain ----

  predicate FromWindow(p: Platform, b: Block, windows: map<string, Window>) {
    && b.votingWindowId in windows
    && var w := windows[b.votingWindowId];
       w.lawId == b.lawId && w.action == b.action && VerifyNonce(p, w.base, b.nonce, b.nZerosRequired)
  }

  /** Nothing is stored beside the chain. */
  predicate NoStrayBlocks(chain: seq<string>, blocks: map<string, Fields>) {
    forall h :: h in blocks ==> h in chain
  }

  /** The stored chain is complete, linked, and each block answers the challenge of its window. */
  ghost predicate Linked(p: Platform, chain: seq<string>, blocks: map<string, Fields>, windows: map<string, Window>) {
    && WellStored(p, blocks) && Complete(chain, blocks) && NoStrayBlocks(chain, blocks)
    && LinksOk(p, GetChain(chain, blocks))
    && forall i :: 0 <= i < |GetChain(chain, blocks)| ==> FromWindow(p, GetChain(chain, blocks)[i], windows)
  }

  /** Some block of bs performs this action on this law. */
  ghost predicate Has(bs: seq<Block>, id: string, action: Action) {
    exists i :: 0 <= i < |bs| && bs[i].lawId == id && bs[i].action == action
  }

  /** Some block of bs comes from this window. */
  ghost predicate FromWid(bs: seq<Block>, wid: string) {
    exists i :: 0 <= i < |bs| && bs[i].votingWindowId == wid
  }

  /** One block per window; per law at most a promulgation and, after it, a repeal. */
  ghost predicate SafeChain(bs: seq<Block>) {
    && (forall i, j :: 0 <= i < j < |bs| ==> bs[i].votingWindowId != bs[j].votingWindowId)
    && (forall i, j :: 0 <= i < j < |bs| && bs[i].lawId == bs[j].lawId ==> bs[i].action == Promulgacion && bs[j].action == Derogacion)
    && (forall j :: 0 <= j < |bs| && bs[j].action == Derogacion ==> Has(bs[..j], bs[j].lawId, Promulgacion))
  }

  /** The action the law waits for is the next one the chain may take on it. */
  ghost predicate Ready(bs: seq<Block>, law: Law) {
    if law.action == Promulgacion then !Has(bs, law.lawId, Promulgacion)
    else Has(bs, law.lawId, Promulgacion) && !Has(bs, law.lawId, Derogacion)
  }

  predicate LastIs(bs: seq<Block>, wid: string) {
    bs != [] && bs[|bs| - 1].votingWindowId == wid
  }

  // ---- the rest of the store ----

  ghost predicate LawsOk(bs: seq<Block>, laws: map<string, Law>) {
    forall id :: id in laws ==>
      && laws[id].lawId == id
      && (laws[id].status == Promulgated ==> Has(bs, id, Promulgacion) && !Has(bs, id, Derogacion))
  }

  predicate WindowsOk(windows: map<string, Window>, counter: nat, laws: map<string, Law>) {
    forall wid :: wid in windows ==> WindowNumber(wid) <= counter && windows[wid].lawId in laws
  }

  ghost predicate QueueOk(bs: seq<Block>, laws: map<string, Law>, queue: seq<string>) {
    forall id :: id in queue ==> id in laws && Ready(bs, laws[id])
  }

  ghost predicate DeliberationOk(bs: seq<Block>, laws: map<string, Law>, deliberation: Option<Announced>) {
    deliberation.Some? ==>
      && deliberation.value.lawId in laws
      && (laws[deliberation.value.lawId].status == InDeliberation ==> Ready(bs, laws[deliberation.value.lawId]))
  }

  /** An unresolved window can be resumed: its texts parse, its law is in it, and either its block is the last of
      the chain or it has none and its law is ready. */
  ghost predicate Resumable(p: Platform, bs: seq<Block>, laws: map<string, Law>, queue: seq<string>, wid: string, w: Window) {
    && w.lawId in laws && w.lawId !in queue
    && laws[w.lawId].status == InWindow && laws[w.lawId].action == w.action
    && ParseInt(w.nZeros).Some? && p.fromisoformat(w.deadline).Some?
    && (LastIs(bs, wid) || (!FromWid(bs, wid) && Ready(bs, laws[w.lawId])))
  }

  ghost predicate PointerOk(p: Platform, bs: seq<Block>, laws: map<string, Law>, queue: seq<string>,
                            windows: map<string, Window>, active: Option<string>) {
    active.Some? ==>
      && active.value in windows
      && (windows[active.value].result.None? ==> Resumable(p, bs, laws, queue, active.value, windows[active.value]))
  }

  /** The invariant of every Redis state a lone leader can leave behind, at any write. */
  ghost predicate Durable(p: Platform, db: Db) {
    && Linked(p, db.chain, db.blocks, db.windows)
    && SafeChain(Blocks(db))
    && LawsOk(Blocks(db), db.laws)
    && WindowsOk(db.windows, db.counter, db.laws)
    && db.guards.Keys <= db.windows.Keys
    && QueueOk(Blocks(db), db.laws, db.queue)
    && DeliberationOk(Blocks(db), db.laws, db.deliberation)
    && PointerOk(p, Blocks(db), db.laws, db.queue, db.windows, db.active)
  }

  lemma EmptyDurable(p: Platform)
    ensures Durable(p, EMPTY)
  {
    assert GetChain([], map[]) == [];
  }

  /** The law of the unresolved active window, if there is one. */
  predicate Holds(db: Db, id: string) {
    && db.active.Some? && db.active.value in db.windows
    && db.windows[db.active.value].result.None? && db.windows[db.active.value].lawId == id
  }

  // ---- one lemma per kind of write ----

  /** Writes to turns, cooldowns, difficulty, answers, results and discarded texts, and the counter going up. */
  lemma SideWrite(p: Platform, db: Db, d: Db)
    requires Durable(p, db)
    requires d == db.(discarded := d.discarded, counter := d.counter, lastAuthor := d.lastAuthor, turns := d.turns,
                      cooldowns := d.cooldowns, difficulty := d.difficulty, decisions := d.decisions, results := d.results)
    requires d.counter >= db.counter
    ensures Durable(p, d)
  {
    hide Linked, SafeChain, LawsOk, QueueOk, DeliberationOk, PointerOk, GetChain;
  }

  /** A law changes in fields that say nothing about its place. */
  lemma LawTouched(p: Platform, db: Db, id: string, law: Law)
    requires Durable(p, db) && id in db.laws
    requires law.lawId == id && law.status == db.laws[id].status && law.action == db.laws[id].action
    ensures Durable(p, db.(laws := db.laws[id := law]))
  {
    hide Linked, SafeChain, GetChain, Has, FromWid, LastIs;
  }

  lemma StatusWrite(p: Platform, db: Db, id: string, status: Status)
    requires Durable(p, db) && id in db.laws
    requires status == Promulgated ==> Has(Blocks(db), id, Promulgacion) && !Has(Blocks(db), id, Derogacion)
    requires status == InDeliberation ==> Ready(Blocks(db), db.laws[id])
    requires Holds(db, id) ==> status == InWindow
    ensures Durable(p, SetLawStatus(db, id, status))
  {
    hide Linked, SafeChain, GetChain, Has, FromWid, LastIs;
  }

  /** A promulgated law is marked for repeal. */
  lemma RepealWrite(p: Platform, db: Db, id: string)
    requires Durable(p, db) && id in db.laws && db.laws[id].status == Promulgated
    ensures Durable(p, SetLawAction(db, id, Derogacion))
    ensures Ready(Blocks(db), SetLawAction(db, id, Derogacion).laws[id])
  {
    hide Linked, SafeChain, GetChain, Has, FromWid, LastIs;
  }

  /** A law nobody has seen before has no block. */
  lemma UnseenHasNoBlock(p: Platform, db: Db, id: string, action: Action)
    requires Durable(p, db) && id !in db.laws
    ensures !Has(Blocks(db), id, action)
  {
    var bs := Blocks(db);
    forall i | 0 <= i < |bs| ensures bs[i].lawId in db.laws {
      assert FromWindow(p, bs[i], db.windows);
    }
  }

  lemma NewLaw(p: Platform, db: Db, id: string, law: Law)
    requires Durable(p, db) && id !in db.laws
    requires law.lawId == id && law.status == PendingQueue && law.action == Promulgacion
    ensures Durable(p, db.(laws := db.laws[id := law]))
    ensures Ready(Blocks(db), law)
  {
    UnseenHasNoBlock(p, db, id, Promulgacion);
    hide Linked, SafeChain, GetChain, Has, FromWid, LastIs;
  }

  lemma EnqueueWrite(p: Platform, db: Db, id: string)
    requires Durable(p, db) && id in db.laws && Ready(Blocks(db), db.laws[id]) && !Holds(db, id)
    ensures Durable(p, EnqueueLaw(db, id))
  {
    hide Linked, SafeChain, GetChain, Has, FromWid, LastIs, Ready;
  }

  lemma RemoveWrite(p: Platform, db: Db, id: string)
    requires Durable(p, db)
    ensures Durable(p, RemoveFromQueue(db, id))
  {
    hide Linked, SafeChain, GetChain, Has, FromWid, LastIs, Ready;
  }

  /** The window records seen through the chain are the same. */
  lemma LinkedTransfers(p: Platform, chain: seq<string>, blocks: map<string, Fields>, a: map<string, Window>, b: map<string, Window>)
    requires Linked(p, chain, blocks, a)
    requires forall wid :: wid in a ==> wid in b && b[wid].lawId == a[wid].lawId && b[wid].action == a[wid].action && b[wid].base == a[wid].base
    ensures Linked(p, chain, blocks, b)
  {
    var bs := GetChain(chain, blocks);
    hide GetChain, LinksOk, WellStored, VerifyNonce, NoStrayBlocks;
    forall i | 0 <= i < |bs| ensures FromWindow(p, bs[i], b) {
      assert FromWindow(p, bs[i], a);
    }
  }

  lemma NewWindow(p: Platform, db: Db, wid: string, w: Window)
    requires Durable(p, db) && wid !in db.windows
    requires WindowNumber(wid) <= db.counter && w.lawId in db.laws
    ensures Durable(p, SaveWindow(db, wid, w))
  {
    var d := SaveWindow(db, wid, w);
    LinkedTransfers(p, db.chain, db.blocks, db.windows, d.windows);
    hide Linked, SafeChain, GetChain, Has, FromWid, LastIs, Ready, WindowNumber;
  }

  /** A window record that keeps what the chain sees of it, and either is resolved or is as it was. */
  lemma WindowTouched(p: Platform, db: Db, wid: string, w: Window)
    requires Durable(p, db) && wid in db.windows
    requires w.lawId == db.windows[wid].lawId && w.action == db.windows[wid].action && w.base == db.windows[wid].base
    requires w.result.Some?
    ensures Durable(p, SaveWindow(db, wid, w))
  {
    var d := SaveWindow(db, wid, w);
    LinkedTransfers(p, db.chain, db.blocks, db.windows, d.windows);
    hide Linked, SafeChain, GetChain, LawsOk, QueueOk, DeliberationOk, Resumable, WindowNumber;
  }

  lemma ResultWrite(p: Platform, db: Db, wid: string, result: WindowResult, nonce: Option<int>, winner: Option<string>)
    requires Durable(p, db)
    ensures Durable(p, SetWindowResult(db, wid, result, nonce, winner))
    ensures db.active == Some(wid) ==> forall id :: !Holds(SetWindowResult(db, wid, result, nonce, winner), id)
  {
    hide Durable;
    var d := SetWindowResult(db, wid, result, nonce, winner);
    if wid in db.windows {
      WindowTouched(p, db, wid, d.windows[wid]);
    }
  }

  lemma GuardWrite(p: Platform, db: Db, guards: map<string, string>)
    requires Durable(p, db) && guards.Keys <= db.windows.Keys
    ensures Durable(p, db.(guards := guards))
  {
    hide Linked, SafeChain, GetChain, LawsOk, QueueOk, DeliberationOk, PointerOk, WindowsOk;
  }

  lemma PointerWrite(p: Platform, db: Db, wid: string)
    requires Durable(p, db) && wid in db.windows
    requires db.windows[wid].result.None? ==> Resumable(p, Blocks(db), db.laws, db.queue, wid, db.windows[wid])
    ensures Durable(p, SetActiveWindow(db, wid))
  {
    hide Linked, SafeChain, GetChain, LawsOk, QueueOk, DeliberationOk, Resumable, WindowsOk;
  }

  lemma PointerCleared(p: Platform, db: Db)
    requires Durable(p, db)
    ensures Durable(p, ClearActiveWindow(db))
  {
    hide Linked, SafeChain, GetChain, LawsOk, QueueOk, DeliberationOk, Resumable, WindowsOk;
  }

  lemma AnnouncementWrite(p: Platform, db: Db, a: Announced)
    requires Durable(p, db) && a.lawId in db.laws && Ready(Blocks(db), db.laws[a.lawId])
    ensures Durable(p, SaveDeliberation(db, a))
  {
    hide Linked, SafeChain, GetChain, LawsOk, QueueOk, PointerOk, WindowsOk, Ready;
  }

  lemma AnnouncementCleared(p: Platform, db: Db)
    requires Durable(p, db)
    ensures Durable(p, ClearDeliberation(db))
  {
    hide Linked, SafeChain, GetChain, LawsOk, QueueOk, PointerOk, WindowsOk, Ready;
  }

  // ---- the append ----

  lemma HasExtended(bs: seq<Block>, b: Block, id: string, action: Action)
    ensures Has(bs + [b], id, action) <==> Has(bs, id, action) || (b.lawId == id && b.action == action)
  {
    if Has(bs, id, action) {
      var i :| 0 <= i < |bs| && bs[i].lawId == id && bs[i].action == action;
      assert (bs + [b])[i] == bs[i];
    }
    assert (bs + [b])[|bs|] == b;
  }

  lemma PrefixHas(bs: seq<Block>, j: nat, id: string, action: Action)
    requires j <= |bs| && Has(bs[..j], id, action)
    ensures Has(bs, id, action)
  {
    var k :| 0 <= k < j && bs[..j][k].lawId == id && bs[..j][k].action == action;
    assert bs[k].lawId == id && bs[k].action == action;
  }

  /** A repeal needs its promulgation, so a law without promulgation has no block at all. */
  lemma NoPromulgationNoBlock(bs: seq<Block>, id: string)
    requires SafeChain(bs) && !Has(bs, id, Promulgacion)
    ensures forall i :: 0 <= i < |bs| ==> bs[i].lawId != id
  {
    forall i | 0 <= i < |bs| && bs[i].action == Derogacion ensures Has(bs, bs[i].lawId, Promulgacion) {
      PrefixHas(bs, i, bs[i].lawId, Promulgacion);
    }
  }

  /** The block of a ready law, from a window that has none, keeps the chain safe. */
  lemma SafeExtension(bs: seq<Block>, b: Block, law: Law)
    requires SafeChain(bs) && !FromWid(bs, b.votingWindowId)
    requires Ready(bs, law) && b.lawId == law.lawId && b.action == law.action
    ensures SafeChain(bs + [b])
  {
    var c := bs + [b];
    forall i, j | 0 <= i < j < |c| && c[i].lawId == c[j].lawId ensures c[i].action == Promulgacion && c[j].action == Derogacion {
      if j == |bs| {
        assert c[i] == bs[i];
        if law.action == Promulgacion {
          NoPromulgationNoBlock(bs, law.lawId);
        }
      }
    }
    forall j | 0 <= j < |c| && c[j].action == Derogacion ensures Has(c[..j], c[j].lawId, Promulgacion) {
      if j < |bs| {
        assert c[..j] == bs[..j];
      } else {
        assert c[..j] == bs;
      }
    }
  }

  lemma BlocksExtended(p: Platform, bs: seq<Block>, b: Block, windows: map<string, Window>)
    requires LinksOk(p, bs) && forall i :: 0 <= i < |bs| ==> FromWindow(p, bs[i], windows)
    requires IsHashValid(p, b) && FromWindow(p, b, windows) && b.previousHash == ExpectedPrevious(bs, |bs|)
    ensures LinksOk(p, bs + [b]) && forall i :: 0 <= i < |bs + [b]| ==> FromWindow(p, (bs + [b])[i], windows)
  {
    hide FromWindow, IsHashValid;
    forall i | 0 <= i < |bs| + 1 ensures LinkOk(p, bs + [b], i) {
      if i < |bs| {
        assert LinkOk(p, bs, i);
      }
    }
  }

  /** The tip of a stored chain is what the next block must name. */
  lemma TipIsExpected(p: Platform, db: Db)
    requires Linked(p, db.chain, db.blocks, db.windows)
    ensures LastBlockHash(db) == ExpectedPrevious(Blocks(db), |Blocks(db)|)
  {
    hide GetChain, WellStored, Complete, LinksOk, FromWindow, NoStrayBlocks;
    ChainAligned(p, db.chain, db.blocks);
  }

  lemma LinkedExtension(p: Platform, db: Db, b: Block)
    requires CollisionFree(p) && Linked(p, db.chain, db.blocks, db.windows)
    requires IsHashValid(p, b) && FromWindow(p, b, db.windows) && b.previousHash == LastBlockHash(db)
    ensures AppendBlock(db, b).1
    ensures var d := AppendBlock(db, b).0;
      Linked(p, d.chain, d.blocks, d.windows) && Blocks(d) == Blocks(db) + [b]
  {
    AppendExtends(p, db, b);
    TipIsExpected(p, db);
    hide GetChain, WellStored, VerifyNonce, ToFields, FromFields, Complete, LinksOk, FromWindow, LastBlockHash;
    BlocksExtended(p, Blocks(db), b, db.windows);
  }

  /** The block resume looks at is the last of the chain. */
  lemma LastBlockIsLast(p: Platform, db: Db)
    requires Linked(p, db.chain, db.blocks, db.windows)
    ensures var last := GetBlock(db.blocks, LastBlockHash(db));
      if Blocks(db) == [] then last.None? else last == Some(Blocks(db)[|Blocks(db)| - 1])
  {
    ChainAligned(p, db.chain, db.blocks);
    if db.chain != [] {
      assert db.chain[|db.chain| - 1] in db.blocks;
    }
  }

  /** Laws other than the one sealed see the same chain. */
  lemma ReadyExtended(bs: seq<Block>, b: Block, law: Law)
    requires law.lawId != b.lawId
    ensures Ready(bs + [b], law) <==> Ready(bs, law)
  {
    HasExtended(bs, b, law.lawId, Promulgacion);
    HasExtended(bs, b, law.lawId, Derogacion);
  }

  /** The window of mem seals: its block goes to the end of the chain, and its law waits for the close. */
  lemma AppendWrite(p: Platform, db: Db, b: Block)
    requires CollisionFree(p) && Durable(p, db)
    requires db.active == Some(b.votingWindowId) && Holds(db, b.lawId) && !LastIs(Blocks(db), b.votingWindowId)
    requires IsHashValid(p, b) && FromWindow(p, b, db.windows) && b.previousHash == LastBlockHash(db)
    ensures AppendBlock(db, b).1 && Durable(p, AppendBlock(db, b).0)
    ensures Blocks(AppendBlock(db, b).0) == Blocks(db) + [b]
  {
    var d := AppendBlock(db, b).0;
    var bs, law := Blocks(db), db.laws[b.lawId];
    LinkedExtension(p, db, b);
    SafeExtension(bs, b, law);
    AppendLaws(bs, b, db.laws, db.queue, db.deliberation);
    PointerAppended(p, bs, b, db);
    hide GetChain, WellStored, VerifyNonce, ToFields, FromFields, Complete, SafeChain, Has, LawsOk, QueueOk, DeliberationOk, Linked, WindowsOk, PointerOk;
  }

  lemma PointerAppended(p: Platform, bs: seq<Block>, b: Block, db: Db)
    requires PointerOk(p, bs, db.laws, db.queue, db.windows, db.active)
    requires db.active == Some(b.votingWindowId) && Holds(db, b.lawId)
    ensures PointerOk(p, bs + [b], db.laws, db.queue, db.windows, db.active)
  {
    assert LastIs(bs + [b], b.votingWindowId);
  }

  lemma AppendLaws(bs: seq<Block>, b: Block, laws: map<string, Law>, queue: seq<string>, deliberation: Option<Announced>)
    requires LawsOk(bs, laws) && QueueOk(bs, laws, queue) && DeliberationOk(bs, laws, deliberation)
    requires b.lawId in laws && laws[b.lawId].status == InWindow && b.lawId !in queue
    ensures LawsOk(bs + [b], laws) && QueueOk(bs + [b], laws, queue) && DeliberationOk(bs + [b], laws, deliberation)
  {
    hide Has, Ready;
    forall id | id in laws && laws[id].status == Promulgated ensures Has(bs + [b], id, Promulgacion) && !Has(bs + [b], id, Derogacion) {
      HasExtended(bs, b, id, Promulgacion);
      HasExtended(bs, b, id, Derogacion);
    }
    forall id | id in queue ensures Ready(bs + [b], laws[id]) {
      ReadyExtended(bs, b, laws[id]);
    }
    if deliberation.Some? && laws[deliberation.value.lawId].status == InDeliberation {
      ReadyExtended(bs, b, laws[deliberation.value.lawId]);
    }
  }

  /** Once its block is the last one, a law may be marked with what the block did. */
  lemma SealedLaw(p: Platform, db: Db, wid: string)
    requires Durable(p, db) && LastIs(Blocks(db), wid) && wid in db.windows
    ensures var w := db.windows[wid];
      w.action == Promulgacion ==> Has(Blocks(db), w.lawId, Promulgacion) && !Has(Blocks(db), w.lawId, Derogacion)
  {
    var bs := Blocks(db);
    var last := |bs| - 1;
    assert FromWindow(p, bs[last], db.windows);
    if db.windows[wid].action == Promulgacion {
      assert Has(bs, bs[last].lawId, Promulgacion);
      forall i | 0 <= i < |bs| && bs[i].lawId == bs[last].lawId ensures i == last {
      }
    }
  }
}
