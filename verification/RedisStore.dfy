/**
 The store as an object over Redis (common/storage/redis_store.py). Redis runs each command on its own, so every
 method is one write; trace remembers the state after each of them.
 */
module RedisStore {
  import opened Wrappers
  import opened Platform
  import opened Laws
  import opened Chain
  import opened Categories
  import Ratchet
  import Store
  import Turns

  lemma RemoveStep(kept: seq<string>, rest: seq<string>, id: string)
    requires rest != []
    ensures (if rest[0] == id then kept else kept + [rest[0]]) + Store.Remove(rest[1..], id) == kept + Store.Remove(rest, id)
  {
  }

  lemma RemoveEnds(id: string)
    ensures Store.Remove([], id) == []
  {
  }

  class VoxChainStore {
    var r: Store.Db
    ghost var trace: seq<Store.Db>

    constructor ()
      ensures r == Store.EMPTY && trace == []
    {
      r := Store.EMPTY;
      trace := [];
    }

    /** The last write took the state to db. */
    twostate predicate Wrote(db: Store.Db)
      reads this
    {
      r == db && trace == old(trace) + [db]
    }

    method SaveLaw(id: string, author: string, textHash: string, createdAt: string, category: string,
                   textCompressed: string, textOriginalLen: int)
      modifies this
      ensures Wrote(Store.SaveLaw(old(r), id, author, textHash, createdAt, category, textCompressed, textOriginalLen))
    {
      var prior := Store.GetLaw(r, id);
      var law := Law(id, author, if prior.Some? then prior.value.requestedBy else "", textHash, textCompressed,
                     if textOriginalLen == 0 && prior.Some? then prior.value.textOriginalLen else textOriginalLen,
                     createdAt, PendingQueue, Promulgacion, NormalizeCategory(Some(category)),
                     if prior.Some? then prior.value.silent else 0);
      r := r.(laws := r.laws[id := law]);
      trace := trace + [r];
    }

    method SetLawStatus(id: string, status: Status)
      modifies this
      ensures Wrote(Store.SetLawStatus(old(r), id, status))
    {
      if id in r.laws {
        r := r.(laws := r.laws[id := r.laws[id].(status := status)]);
      }
      trace := trace + [r];
    }

    method SetLawAction(id: string, action: Action)
      modifies this
      ensures Wrote(Store.SetLawAction(old(r), id, action))
    {
      if id in r.laws {
        r := r.(laws := r.laws[id := r.laws[id].(action := action)]);
      }
      trace := trace + [r];
    }

    method SetLawRequestedBy(id: string, author: string)
      modifies this
      ensures Wrote(Store.SetLawRequestedBy(old(r), id, author))
    {
      if id in r.laws {
        r := r.(laws := r.laws[id := r.laws[id].(requestedBy := author)]);
      }
      trace := trace + [r];
    }

    method SetSilentDeliberations(id: string, n: int)
      modifies this
      ensures Wrote(Store.SetSilentDeliberations(old(r), id, n))
    {
      if id in r.laws {
        r := r.(laws := r.laws[id := r.laws[id].(silent := n)]);
      }
      trace := trace + [r];
    }

    method EnqueueLaw(id: string)
      modifies this
      ensures Wrote(Store.EnqueueLaw(old(r), id))
    {
      r := r.(queue := r.queue + [id]);
      trace := trace + [r];
    }

    /** LREM 0: every occurrence is removed. */
    method RemoveFromQueue(id: string)
      modifies this
      ensures Wrote(Store.RemoveFromQueue(old(r), id))
    {
      hide Store.Remove;
      RemoveEnds(id);
      var kept: seq<string> := [];
      var rest := r.queue;
      while rest != []
        invariant r == old(r) && trace == old(trace)
        invariant kept + Store.Remove(rest, id) == Store.Remove(r.queue, id)
        decreases |rest|
      {
        RemoveStep(kept, rest, id);
        if rest[0] != id {
          kept := kept + [rest[0]];
        }
        rest := rest[1..];
      }
      r := r.(queue := kept);
      trace := trace + [r];
    }

    method MarkTextHashDiscarded(textHash: string)
      modifies this
      ensures Wrote(Store.MarkTextHashDiscarded(old(r), textHash))
    {
      r := r.(discarded := r.discarded + {textHash});
      trace := trace + [r];
    }

    /** INCR */
    method NextWindowNumber() returns (n: nat)
      modifies this
      ensures Wrote(Store.NextWindowNumber(old(r))) && n == r.counter
    {
      r := r.(counter := r.counter + 1);
      trace := trace + [r];
      return r.counter;
    }

    method SetLastAuthor(author: string)
      modifies this
      ensures Wrote(Store.SetLastAuthor(old(r), author))
    {
      r := r.(lastAuthor := Some(author));
      trace := trace + [r];
    }

    /** LPUSH and LTRIM in one transaction. */
    method PushWindowAuthor(author: string)
      modifies this
      ensures Wrote(Store.PushWindowAuthor(old(r), author))
    {
      r := r.(turns := Turns.Push(r.turns, author));
      trace := trace + [r];
    }

    method SetCooldown(author: string, until: int, reason: Store.CooldownReason)
      modifies this
      ensures Wrote(Store.SetCooldown(old(r), author, until, reason))
    {
      r := r.(cooldowns := r.cooldowns[author := Store.Cooldown(until, reason)]);
      trace := trace + [r];
    }

    method SaveDifficultyState(scope: string, s: Ratchet.State)
      modifies this
      ensures Wrote(Store.SaveDifficultyState(old(r), scope, s))
    {
      r := r.(difficulty := r.difficulty[scope := Ratchet.Saved(s)]);
      trace := trace + [r];
    }

    method SaveWindow(wid: string, w: Store.Window)
      modifies this
      ensures Wrote(Store.SaveWindow(old(r), wid, w))
    {
      r := r.(windows := r.windows[wid := w]);
      trace := trace + [r];
    }

    method SetWindowResult(wid: string, result: Store.WindowResult, nonce: Option<int>, winner: Option<string>)
      modifies this
      ensures Wrote(Store.SetWindowResult(old(r), wid, result, nonce, winner))
    {
      if wid in r.windows {
        var w := r.windows[wid].(result := Some(result));
        if nonce.Some? {
          w := w.(winningNonce := nonce);
        }
        if winner.Some? {
          w := w.(winner := winner);
        }
        r := r.(windows := r.windows[wid := w]);
      }
      trace := trace + [r];
    }

    /** SETNX: a refused guard writes nothing. */
    method TrySealWindow(wid: string, winner: string) returns (won: bool)
      modifies this
      ensures won <==> wid !in old(r).guards
      ensures if won then Wrote(Store.TrySealWindow(old(r), wid, winner).0) else r == old(r) && trace == old(trace)
    {
      if wid in r.guards {
        return false;
      }
      r := r.(guards := r.guards[wid := winner]);
      trace := trace + [r];
      return true;
    }

    method ReleaseWindowSeal(wid: string)
      modifies this
      ensures Wrote(Store.ReleaseWindowSeal(old(r), wid))
    {
      r := r.(guards := r.guards - {wid});
      trace := trace + [r];
    }

    method SetActiveWindow(wid: string)
      modifies this
      ensures Wrote(Store.SetActiveWindow(old(r), wid))
    {
      r := r.(active := Some(wid));
      trace := trace + [r];
    }

    method ClearActiveWindow()
      modifies this
      ensures Wrote(Store.ClearActiveWindow(old(r)))
    {
      r := r.(active := None);
      trace := trace + [r];
    }

    method SaveDeliberation(a: Store.Announced)
      modifies this
      ensures Wrote(Store.SaveDeliberation(old(r), a))
    {
      r := r.(deliberation := Some(a));
      trace := trace + [r];
    }

    method ClearDeliberation()
      modifies this
      ensures Wrote(Store.ClearDeliberation(old(r)))
    {
      r := r.(deliberation := None);
      trace := trace + [r];
    }

    method SetDeliberationDecision(id: string, voter: string, decision: string)
      modifies this
      ensures Wrote(Store.SetDeliberationDecision(old(r), id, voter, decision))
    {
      var sofar := if id in r.decisions then r.decisions[id] else map[];
      r := r.(decisions := r.decisions[id := sofar[voter := decision]]);
      trace := trace + [r];
    }

    method ClearDeliberationDecisions(id: string)
      modifies this
      ensures Wrote(Store.ClearDeliberationDecisions(old(r), id))
    {
      r := r.(decisions := r.decisions - {id});
      trace := trace + [r];
    }

    method SaveDeliberationResult(id: string, result: Store.DeliberationResult)
      modifies this
      ensures Wrote(Store.SaveDeliberationResult(old(r), id, result))
    {
      r := r.(results := r.results[id := result]);
      trace := trace + [r];
    }

    /** The script compares the tip with the block's parent and appends, in one step; a refusal writes nothing. */
    method AppendBlock(b: Block) returns (appended: bool)
      modifies this
      ensures appended == Store.AppendBlock(old(r), b).1
      ensures if appended then Wrote(Store.AppendBlock(old(r), b).0) else r == old(r) && trace == old(trace)
    {
      if |r.chain| > 0 {
        var tip := r.chain[|r.chain| - 1];
        if tip != b.previousHash {
          return false;
        }
      }
      r := r.(chain := r.chain + [b.blockHash], blocks := r.blocks[b.blockHash := ToFields(b)]);
      trace := trace + [r];
      return true;
    }

    /** get_chain: reads block by block. */
    method GetChain() returns (bs: seq<Block>)
      ensures bs == Store.Blocks(r)
    {
      bs := [];
      for i := 0 to |r.chain|
        invariant bs == Store.GetChain(r.chain[..i], r.blocks)
      {
        var b := Store.GetBlock(r.blocks, r.chain[i]);
        assert r.chain[..i + 1][..i] == r.chain[..i];
        if b.Some? {
          bs := bs + [b.value];
        }
      }
      assert r.chain[..|r.chain|] == r.chain;
    }
  }
}
