/**
 * The per-type pool of pre-minted NMDC identifiers: it is refilled from the
 * minting service when it runs low, and hands out identifiers by popping
 * the last one. The minting service is an oracle parameter.
 */
module IdPool {
  import opened Common

  /** One call to the minting service: the type, the number of IDs asked for,
      and which attempt of a refill the call is. */
  datatype MintRequest = MintRequest(nmdcType: string, count: nat, attempt: nat)

  /** The minting service: the IDs it returns for each call, or None when the call raises. */
  type Minter = MintRequest -> Option<seq<string>>

  /** What a refill does: the batch it appends (or the error it raises) and
      how many calls to the minting service it makes. */
  datatype Refill = Refill(batch: Result<seq<string>>, calls: nat)

  /**
   * The retry loop of a refill, from attempt `k` on: the batch of the first
   * attempt that succeeds; a RuntimeError once `retries` attempts have
   * failed; and nothing at all when `retries` is not positive.
   */
  function RetryFrom(mint: Minter, nmdcType: string, count: nat, retries: int, k: nat): Refill
    decreases retries - k
  {
    if k >= retries then
      Refill(if k == 0 then Ok([]) else Err(Error(RuntimeError, [nmdcType])), 0)
    else
      match mint(MintRequest(nmdcType, count, k))
      case Some(ids) => Refill(Ok(ids), 1)
      case None =>
        var rest := RetryFrom(mint, nmdcType, count, retries, k + 1);
        Refill(rest.batch, rest.calls + 1)
  }

  /** The refill `_refill_pool` performs with its default of three retries. */
  function DefaultRefill(mint: Minter, nmdcType: string, count: nat): Refill
  {
    RetryFrom(mint, nmdcType, count, 3, 0)
  }

  /** The first attempt (from `from` on) that succeeds is the one whose batch is appended,
      and the calls made are exactly the attempts up to and including it. */
  lemma {:induction false} RetryStopsAtFirstSuccess(mint: Minter, nmdcType: string, count: nat, retries: int, from: nat, k: nat)
    requires from <= k < retries
    requires mint(MintRequest(nmdcType, count, k)).Some?
    requires forall j :: from <= j < k ==> mint(MintRequest(nmdcType, count, j)).None?
    ensures RetryFrom(mint, nmdcType, count, retries, from)
            == Refill(Ok(mint(MintRequest(nmdcType, count, k)).value), k - from + 1)
    decreases k - from
  {
    if from < k {
      RetryStopsAtFirstSuccess(mint, nmdcType, count, retries, from + 1, k);
    }
  }

  /** When every one of the `retries` attempts fails, all of them are made and RuntimeError is raised. */
  lemma {:induction false} RetryGivesUp(mint: Minter, nmdcType: string, count: nat, retries: int, from: nat)
    requires 0 < retries && from <= retries
    requires forall j :: from <= j < retries ==> mint(MintRequest(nmdcType, count, j)).None?
    ensures RetryFrom(mint, nmdcType, count, retries, from)
            == Refill(Err(Error(RuntimeError, [nmdcType])), retries - from)
    decreases retries - from
  {
    if from < retries {
      RetryGivesUp(mint, nmdcType, count, retries, from + 1);
    }
  }

  /** A refill never makes more than `retries` calls, and when it succeeds after
      calling the service, the last call made is the one that succeeded. */
  lemma {:induction false} RetryBounded(mint: Minter, nmdcType: string, count: nat, retries: int, from: nat)
    ensures var r := RetryFrom(mint, nmdcType, count, retries, from);
      (from <= retries ==> r.calls == 0 || from + r.calls <= retries)
      && (r.batch.Ok? && r.calls > 0 ==>
            mint(MintRequest(nmdcType, count, from + r.calls - 1)) == Some(r.batch.value))
    decreases retries - from
  {
    if from < retries && mint(MintRequest(nmdcType, count, from)).None? {
      RetryBounded(mint, nmdcType, count, retries, from + 1);
    }
  }

  /** The pool `get_id` pops from: the old pool, followed by the refill's batch
      when the pool held no more than `threshold` IDs. */
  function PoolAfterRefill(pool: seq<string>, threshold: nat, refill: Refill): (p: seq<string>)
    requires |pool| > threshold || refill.batch.Ok?
    ensures |pool| > threshold ==> p == pool
    ensures |pool| <= threshold ==> |p| == |pool| + |refill.batch.value| && p[..|pool|] == pool
  {
    if |pool| > threshold then pool else pool + refill.batch.value
  }

  /**
   * `get_id` on one type's pool: the ID handed out and what is left of the
   * pool. The ID comes from the end of the (possibly refilled) pool, and
   * putting it back restores that pool; an empty pool after the refill, or
   * a refill that gave up, raises RuntimeError.
   */
  function TakeId(nmdcType: string, pool: seq<string>, threshold: nat, refill: Refill): (r: (Result<string>, seq<string>))
    ensures |pool| <= threshold && refill.batch.Err? ==> r == (Err(refill.batch.error), pool)
    ensures |pool| > threshold || refill.batch.Ok? ==>
      var p := PoolAfterRefill(pool, threshold, refill);
      (p == [] <==> r.0.Err?)
      && (r.0.Err? ==> r.0.error.kind == RuntimeError && r.1 == p)
      && (r.0.Ok? ==> r.1 + [r.0.value] == p && |r.1| == |p| - 1)
  {
    if |pool| <= threshold && refill.batch.Err? then (Err(refill.batch.error), pool)
    else
      var p := PoolAfterRefill(pool, threshold, refill);
      if p == [] then (Err(Error(RuntimeError, [nmdcType])), p)
      else (Ok(p[|p| - 1]), p[..|p| - 1])
  }

  /** When the pool (after any refill) holds distinct IDs, the ID handed out is
      no longer in the pool, so the next call cannot hand it out again. */
  lemma TakeIdRemovesId(nmdcType: string, pool: seq<string>, threshold: nat, refill: Refill)
    requires |pool| > threshold || refill.batch.Ok?
    requires NoDuplicates(PoolAfterRefill(pool, threshold, refill))
    ensures var r := TakeId(nmdcType, pool, threshold, refill);
      r.0.Ok? ==> r.0.value !in r.1 && NoDuplicates(r.1)
  {
    var p := PoolAfterRefill(pool, threshold, refill);
    var r := TakeId(nmdcType, pool, threshold, refill);
    if r.0.Ok? {
      assert r.1 == p[..|p| - 1] && r.0.value == p[|p| - 1];
    }
  }

  /** What `n` successive `get_id` calls on one type hand out: the IDs in
      order, the error that stopped them (if any) and what is left of the pool. */
  datatype Taken = Taken(ids: seq<string>, error: Option<Error>, pool: seq<string>)

  /**
   * `n` successive `get_id` calls on one type's pool, stopping at the first
   * that raises. Every call refills from the same service answer, because
   * the minting oracle is a function of the request.
   */
  function TakeIds(nmdcType: string, pool: seq<string>, threshold: nat, refill: Refill, n: nat): (r: Taken)
    ensures |r.ids| <= n
    ensures r.error.None? <==> |r.ids| == n
  {
    if n == 0 then Taken([], None, pool)
    else
      var before := TakeIds(nmdcType, pool, threshold, refill, n - 1);
      if before.error.Some? then before
      else
        var next := TakeId(nmdcType, before.pool, threshold, refill);
        match next.0
        case Ok(id) => Taken(before.ids + [id], None, next.1)
        case Err(e) => Taken(before.ids, Some(e), next.1)
  }

  /** One more ID after `n` successful ones: the next `TakeId` on the pool left. */
  lemma TakeIdsNext(nmdcType: string, pool: seq<string>, threshold: nat, refill: Refill, n: nat,
                    ids: seq<string>, rest: seq<string>)
    requires TakeIds(nmdcType, pool, threshold, refill, n) == Taken(ids, None, rest)
    ensures var next := TakeId(nmdcType, rest, threshold, refill);
      TakeIds(nmdcType, pool, threshold, refill, n + 1)
        == match next.0
           case Ok(id) => Taken(ids + [id], None, next.1)
           case Err(e) => Taken(ids, Some(e), next.1)
  {
  }

  /** After `n` successful calls, a successful next call appends its ID. */
  lemma TakeIdsOk(nmdcType: string, pool: seq<string>, threshold: nat, refill: Refill, n: nat,
                  ids: seq<string>, rest: seq<string>, id: string, rest': seq<string>)
    requires TakeIds(nmdcType, pool, threshold, refill, n) == Taken(ids, None, rest)
    requires TakeId(nmdcType, rest, threshold, refill) == (Ok(id), rest')
    ensures TakeIds(nmdcType, pool, threshold, refill, n + 1) == Taken(ids + [id], None, rest')
  {
    TakeIdsNext(nmdcType, pool, threshold, refill, n, ids, rest);
  }

  /** Once a call has raised, asking for more IDs changes nothing. */
  lemma {:induction false} TakeIdsStops(nmdcType: string, pool: seq<string>, threshold: nat, refill: Refill, n: nat, m: nat)
    requires n <= m && TakeIds(nmdcType, pool, threshold, refill, n).error.Some?
    ensures TakeIds(nmdcType, pool, threshold, refill, m) == TakeIds(nmdcType, pool, threshold, refill, n)
    decreases m - n
  {
    if n < m {
      TakeIdsStops(nmdcType, pool, threshold, refill, n, m - 1);
    }
  }

  class IDPool {
    const poolSize: nat
    const refillThreshold: nat
    /** The unused IDs of each type, handed out from the end. */
    var pools: map<string, seq<string>>

    /** `self.pools[t]` of the default dictionary: empty for a type never seen. */
    function Pool(t: string): seq<string>
      reads this
    {
      if t in pools then pools[t] else []
    }

    constructor (poolSize: nat := 100, refillThreshold: nat := 10)
      ensures this.poolSize == poolSize && this.refillThreshold == refillThreshold
      ensures pools == map[]
    {
      this.poolSize := poolSize;
      this.refillThreshold := refillThreshold;
      pools := map[];
    }

    /**
     * `_refill_pool`: asks the service for `poolSize` IDs of the type, up to
     * `retries` times, and appends the first batch it gets after the IDs
     * already pooled. No other type's pool changes.
     */
    method RefillPool(nmdcType: string, mint: Minter, retries: int := 3) returns (err: Option<Error>, ghost calls: nat)
      modifies this
      ensures var spec := RetryFrom(mint, nmdcType, poolSize, retries, 0);
        calls == spec.calls
        && (spec.batch.Ok? ==>
              err == None
              && pools == if calls == 0 then old(pools) else old(pools)[nmdcType := old(Pool(nmdcType)) + spec.batch.value])
        && (spec.batch.Err? ==> err == Some(spec.batch.error) && pools == old(pools))
    {
      ghost var spec := RetryFrom(mint, nmdcType, poolSize, retries, 0);
      var attempt: nat := 0;
      calls := 0;
      while attempt < retries
        invariant attempt == 0 || attempt < retries
        invariant calls == attempt && pools == old(pools)
        invariant spec.batch == RetryFrom(mint, nmdcType, poolSize, retries, attempt).batch
        invariant spec.calls == attempt + RetryFrom(mint, nmdcType, poolSize, retries, attempt).calls
        decreases retries - attempt
      {
        var answer := mint(MintRequest(nmdcType, poolSize, attempt));
        calls := calls + 1;
        if answer.Some? {
          pools := pools[nmdcType := Pool(nmdcType) + answer.value];
          err := None;
          return;
        }
        attempt := attempt + 1;
        if attempt >= retries {
          err := Some(Error(RuntimeError, [nmdcType]));
          return;
        }
      }
      err := None;
    }

    /**
     * `get_id`: refills the type's pool exactly when it holds at most
     * `refillThreshold` IDs, then pops and returns its last ID. The pools of
     * other types are untouched; the type gains an (empty) entry if it had none.
     */
    method GetId(nmdcType: string, mint: Minter) returns (id: Result<string>, refilled: bool)
      modifies this
      ensures refilled == (|old(Pool(nmdcType))| <= refillThreshold)
      ensures (id, Pool(nmdcType))
              == TakeId(nmdcType, old(Pool(nmdcType)), refillThreshold, DefaultRefill(mint, nmdcType, poolSize))
      ensures forall u :: u != nmdcType ==> Pool(u) == old(Pool(u))
      ensures pools.Keys == old(pools.Keys) + {nmdcType}
    {
      pools := pools[nmdcType := Pool(nmdcType)];
      refilled := |Pool(nmdcType)| <= refillThreshold;
      if refilled {
        var err, calls := RefillPool(nmdcType, mint);
        if err.Some? {
          id := Err(err.value);
          return;
        }
      }
      var p := Pool(nmdcType);
      if p == [] {
        id := Err(Error(RuntimeError, [nmdcType]));
        return;
      }
      id := Ok(p[|p| - 1]);
      pools := pools[nmdcType := p[..|p| - 1]];
    }
  }
}
