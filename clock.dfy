/** The stateful side of the block clock: `insert` and `init` as they rewrite
    the clock's maps, `block` (served from the map, or fetched from the
    provider, inserted and emitted) and `advance` (range resolution and the
    fail-fast synchronisation loop). The provider is a parameter: each call
    sees one fixed answer per height. */
module ClockSync {
  import opened Wrappers
  import opened Heights
  import opened BlockLedger

  /** What the block provider answers during one call: the tip height that
      `getHeight()` resolves to (None when it rejects), and what
      `getBlock(n)` resolves to for each height (None when it rejects or
      yields nothing). */
  datatype Provider = Provider(tip: Option<int>, getBlock: int -> Option<BlockInput>)

  /** A provider that answers every height with a block of that height. */
  ghost predicate Honest(p: Provider)
  {
    forall n :: p.getBlock(n).Some? ==> p.getBlock(n).value.height == Some(n)
  }

  datatype FetchError =
    | MissingProvider               // "Missing provider 'getBlock'"
    | FetchFailed(id: int)          // "Failed to get block <id>", or getBlock rejected
    | Rejected(cause: InsertError)  // insert threw

  /** The effect of `block(n)`: the ledger after it, what it resolves to,
      and the blocks it emitted as 'block' events. */
  datatype Fetched = Fetched(ledger: Ledger, result: Result<Block, FetchError>, emitted: seq<Block>)

  /** `block(n)` for a numeric height. */
  function Fetch(l: Ledger, n: int, provider: Option<Provider>): (f: Fetched)
    ensures n in l.ordered ==> f == Fetched(l, Ok(l.ordered[n].(height := n)), [])
    ensures f.result.Err? ==> f.ledger == l && f.emitted == []
    ensures n !in l.ordered && f.result.Ok? ==>
      && f.emitted == [f.result.value]
      && f.result.value.height in f.ledger.ordered
      && f.ledger.ordered[f.result.value.height] == f.result.value
    ensures n !in l.ordered && provider.None? ==> f.result == Err(MissingProvider)
    ensures n !in l.ordered && provider.Some? && provider.value.getBlock(n).None? ==>
      f.result == Err(FetchFailed(n))
    ensures n !in l.ordered && provider.Some? && provider.value.getBlock(n).Some? ==>
      var b := provider.value.getBlock(n).value;
      && (f.result.Ok? <==> Inserted(l, b).Ok?)
      && (Inserted(l, b).Ok? ==> f.ledger == Inserted(l, b).value && f.result == Ok(Record(b)))
      && (Inserted(l, b).Err? ==> f.result == Err(Rejected(Inserted(l, b).error)))
    ensures WellFormed(l) ==> WellFormed(f.ledger)
    ensures l.ordered.Keys <= f.ledger.ordered.Keys
  {
    if n in l.ordered then Fetched(l, Ok(l.ordered[n].(height := n)), [])
    else if provider.None? then Fetched(l, Err(MissingProvider), [])
    else match provider.value.getBlock(n)
      case None => Fetched(l, Err(FetchFailed(n)), [])
      case Some(b) =>
        match Inserted(l, b)
        case Err(e) => Fetched(l, Err(Rejected(e)), [])
        case Ok(next) => Fetched(next, Ok(Record(b)), [Record(b)])
  }

  /** A fetch from an honest provider stores the block under the requested
      height and changes no other height. */
  lemma FetchHonest(l: Ledger, n: int, p: Provider, h: int)
    requires Honest(p)
    requires Fetch(l, n, Some(p)).result.Ok?
    ensures var f := Fetch(l, n, Some(p));
      n in f.ledger.ordered && f.result.value.height == n && f.ledger.ordered[n].(height := n) == f.result.value
    ensures h != n ==> (h in Fetch(l, n, Some(p)).ledger.ordered <==> h in l.ordered)
    ensures h != n && h in l.ordered ==> Fetch(l, n, Some(p)).ledger.ordered[h] == l.ordered[h]
  {
    if n !in l.ordered {
      assert p.getBlock(n).Some?;
    }
  }

  // ---------------------------------------------------------------- advance

  /** The `options` of `advance`; `undefined` fields are None. */
  datatype AdvanceOptions = AdvanceOptions(
    toBlock: Option<int>,
    startBlock: Option<int>,
    subset: Option<seq<int>>)

  /** What `advance` resolves to. */
  datatype AdvanceResult =
    | NoHeightSource                   // throws "Missing provider method 'getHeight'"
    | TipUnavailable                   // getHeight() rejected
    | Skipped                          // "skipped clock sync": resolves to undefined
    | Synced(newBlocks: map<int, Block>)

  /** The range `advance` walks, or the result it returns before walking. */
  datatype Plan = Finish(result: AdvanceResult) | Range(from: int, to: int)

  /** `n` passes the subset filter (`subset.indexOf(n) !== -1`). */
  predicate InRange(subset: Option<seq<int>>, n: int)
  {
    subset.None? || n in subset.value
  }

  /** The height `advance` synchronises to: `toBlock` when given, else the
      provider's tip; None when neither is available. */
  function Target(opts: AdvanceOptions, provider: Option<Provider>): (t: Option<int>)
    ensures opts.toBlock.Some? ==> t == opts.toBlock
    ensures opts.toBlock.None? ==> (t.Some? <==> provider.Some? && provider.value.tip.Some?)
    ensures opts.toBlock.None? && t.Some? ==> t == provider.value.tip
  {
    if opts.toBlock.Some? then opts.toBlock
    else if provider.Some? then provider.value.tip
    else None
  }

  /** The range resolution at the head of `advance`. */
  function Resolve(l: Ledger, opts: AdvanceOptions, provider: Option<Provider>): (p: Plan)
    requires WellFormed(l)
    ensures p.Finish? && p.result.Synced? ==> p.result.newBlocks == map[] && opts.subset == Some([])
    ensures p == Finish(NoHeightSource) <==> opts.toBlock.None? && provider.None?
    ensures p == Finish(TipUnavailable) <==> opts.toBlock.None? && provider.Some? && provider.value.tip.None?
    ensures p == Finish(Skipped) <==>
      Target(opts, provider).Some? && Initialized(l) && Target(opts, provider).value <= MaxHeight(l)
    ensures p.Finish? && p.result.Synced? <==>
      && Target(opts, provider).Some? && opts.subset == Some([])
      && !(Initialized(l) && Target(opts, provider).value <= MaxHeight(l))
    ensures p.Range? ==> Target(opts, provider) == Some(p.to)
    ensures p.Range? && Initialized(l) ==> forall h :: h in l.ordered ==> h < p.to
    ensures p.Range? && Initialized(l) && opts.subset.None? ==>
      p.from - 1 in l.ordered && forall h :: h in l.ordered ==> h < p.from
    ensures p.Range? && !Initialized(l) && opts.subset.None? ==>
      p.from == (if opts.startBlock.Some? then opts.startBlock.value else p.to)
    ensures p.Range? && opts.subset.Some? ==>
      p.from in opts.subset.value && forall x :: x in opts.subset.value ==> p.from <= x
  {
    if opts.toBlock.None? && provider.None? then Finish(NoHeightSource)
    else if opts.toBlock.None? && provider.value.tip.None? then Finish(TipUnavailable)
    else
      var to := if opts.toBlock.Some? then opts.toBlock.value else provider.value.tip.value;
      if Initialized(l) && to <= MaxHeight(l) then Finish(Skipped)
      else
        var from := if Initialized(l) then MaxHeight(l) + 1 else opts.startBlock.GetOr(to);
        match opts.subset
        case None => Range(from, to)
        case Some(s) =>
          if s == [] then Finish(Synced(map[]))
          else
            var elems := set x | x in s;
            assert s[0] in elems;
            var least := Least(elems);
            assert forall x :: x in s ==> x in elems;
            Range(least, to)
  }

  /** The state of the synchronisation loop: the ledger, the blocks put in
      `newBlocks`, the 'block' events emitted so far, and the height whose
      fetch failed and stopped the loop, if any. */
  datatype Sync = Sync(ledger: Ledger, got: map<int, Block>, log: seq<Block>, stoppedAt: Option<int>)

  /** The `for (n = from; n <= to; n++)` loop of `advance`, from height `n`
      on: out-of-subset heights are skipped, the first failing `block(n)`
      breaks out. */
  function Walk(l: Ledger, n: int, to: int, subset: Option<seq<int>>, provider: Option<Provider>,
                got: map<int, Block>, log: seq<Block>): (w: Sync)
    decreases to - n + 1
    ensures w.stoppedAt.Some? ==> n <= w.stoppedAt.value <= to && InRange(subset, w.stoppedAt.value)
  {
    if n > to then Sync(l, got, log, None)
    else if !InRange(subset, n) then Walk(l, n + 1, to, subset, provider, got, log)
    else
      var f := Fetch(l, n, provider);
      if f.result.Err? then Sync(l, got, log, Some(n))
      else Walk(f.ledger, n + 1, to, subset, provider, got[n := f.result.value], log + f.emitted)
  }

  /** Fail-fast: `newBlocks` gains exactly the in-subset heights from `n` up
      to the stop (the first failing height, else past `to`). */
  lemma {:induction false} WalkStops(l: Ledger, n: int, to: int, subset: Option<seq<int>>, provider: Option<Provider>,
                                     got: map<int, Block>, log: seq<Block>)
    decreases to - n + 1
    ensures var w := Walk(l, n, to, subset, provider, got, log);
      forall k :: k in w.got <==>
        k in got || (n <= k <= to && InRange(subset, k) && (w.stoppedAt.None? || k < w.stoppedAt.value))
  {
    if n <= to {
      if !InRange(subset, n) {
        WalkStops(l, n + 1, to, subset, provider, got, log);
      } else {
        var f := Fetch(l, n, provider);
        if f.result.Ok? {
          WalkStops(f.ledger, n + 1, to, subset, provider, got[n := f.result.value], log + f.emitted);
          WalkStopPoint(f.ledger, n + 1, to, subset, provider, got[n := f.result.value], log + f.emitted);
        }
      }
    }
  }

  /** The loop stops early only at an in-subset height of the range whose
      fetch fails, against the ledger as the loop left it. */
  lemma {:induction false} WalkStopPoint(l: Ledger, n: int, to: int, subset: Option<seq<int>>, provider: Option<Provider>,
                                         got: map<int, Block>, log: seq<Block>)
    decreases to - n + 1
    ensures var w := Walk(l, n, to, subset, provider, got, log);
      w.stoppedAt.Some? ==>
        && n <= w.stoppedAt.value <= to
        && InRange(subset, w.stoppedAt.value)
        && Fetch(w.ledger, w.stoppedAt.value, provider).result.Err?
  {
    if n <= to {
      if !InRange(subset, n) {
        WalkStopPoint(l, n + 1, to, subset, provider, got, log);
      } else {
        var f := Fetch(l, n, provider);
        if f.result.Ok? {
          WalkStopPoint(f.ledger, n + 1, to, subset, provider, got[n := f.result.value], log + f.emitted);
        }
      }
    }
  }

  /** What the loop keeps: blocks already in `newBlocks` (all below `n`),
      the stored heights, the ledger invariant, and the events emitted
      before, to which it only appends. */
  lemma {:induction false} WalkKeeps(l: Ledger, n: int, to: int, subset: Option<seq<int>>, provider: Option<Provider>,
                                     got: map<int, Block>, log: seq<Block>)
    decreases to - n + 1
    requires forall k :: k in got ==> k < n
    ensures var w := Walk(l, n, to, subset, provider, got, log);
      && (forall k :: k in got ==> k in w.got && w.got[k] == got[k])
      && l.ordered.Keys <= w.ledger.ordered.Keys
      && (WellFormed(l) ==> WellFormed(w.ledger))
      && |log| <= |w.log| && w.log[..|log|] == log
  {
    if n <= to {
      if !InRange(subset, n) {
        WalkKeeps(l, n + 1, to, subset, provider, got, log);
      } else {
        var f := Fetch(l, n, provider);
        if f.result.Ok? {
          var log' := log + f.emitted;
          WalkKeeps(f.ledger, n + 1, to, subset, provider, got[n := f.result.value], log');
          var w := Walk(f.ledger, n + 1, to, subset, provider, got[n := f.result.value], log');
          assert w.log[..|log|] == w.log[..|log'|][..|log|];
        }
      }
    }
  }

  /** Heights already stored are served from the map: when every height the
      walk visits is stored, it makes no provider call, emits nothing,
      leaves the ledger as it was and reports the stored blocks. */
  lemma {:induction false} WalkCached(l: Ledger, n: int, to: int, subset: Option<seq<int>>, provider: Option<Provider>,
                                      got: map<int, Block>, log: seq<Block>)
    decreases to - n + 1
    requires forall k :: n <= k <= to && InRange(subset, k) ==> k in l.ordered
    requires forall k :: k in got ==> k < n
    ensures var w := Walk(l, n, to, subset, provider, got, log);
      && w.ledger == l && w.log == log && w.stoppedAt.None?
      && (forall k :: k in got ==> k in w.got && w.got[k] == got[k])
      && (forall k :: k in w.got && k !in got ==> k in l.ordered && w.got[k] == l.ordered[k].(height := k))
      && (forall k :: k in w.got ==> k in got || k in l.ordered)
  {
    if n <= to {
      if !InRange(subset, n) {
        WalkCached(l, n + 1, to, subset, provider, got, log);
      } else {
        var f := Fetch(l, n, provider);
        assert f.ledger == l && f.emitted == [] && log + f.emitted == log;
        WalkCached(l, n + 1, to, subset, provider, got[n := l.ordered[n].(height := n)], log);
      }
    }
  }

  /** Every block in `got` is the one stored under its height. */
  ghost predicate Agrees(l: Ledger, got: map<int, Block>)
  {
    forall k :: k in got ==> k in l.ordered && l.ordered[k].(height := k) == got[k]
  }

  /** With an honest provider the returned `newBlocks` agree with the ledger:
      every height the walk adds is stored with the same timestamp and hash. */
  lemma {:induction false} WalkHonest(l: Ledger, n: int, to: int, subset: Option<seq<int>>, p: Provider,
                                      got: map<int, Block>, log: seq<Block>)
    decreases to - n + 1
    requires Honest(p)
    requires forall k :: k in got ==> k < n
    requires Agrees(l, got)
    ensures var w := Walk(l, n, to, subset, Some(p), got, log); Agrees(w.ledger, w.got)
  {
    if n <= to {
      if !InRange(subset, n) {
        WalkHonest(l, n + 1, to, subset, p, got, log);
      } else {
        var f := Fetch(l, n, Some(p));
        if f.result.Ok? {
          var got' := got[n := f.result.value];
          forall k | k in got'
            ensures k in f.ledger.ordered && f.ledger.ordered[k].(height := k) == got'[k]
          {
            FetchHonest(l, n, p, k);
          }
          WalkHonest(f.ledger, n + 1, to, subset, p, got', log + f.emitted);
        }
      }
    }
  }

  // ---------------------------------------------------------------- the clock

  /** A clock: its `blocks` maps and the 'block' events it has emitted. */
  class Clock {
    var blocks: Ledger
    var emitted: seq<Block>

    ghost predicate Valid()
      reads this
    {
      WellFormed(blocks)
    }

    /** `new Clock()`; `new Clock(list)` is this followed by `Init(list)`. */
    constructor ()
      ensures Valid() && blocks == Empty && emitted == []
    {
      blocks := Empty;
      emitted := [];
      new;
      EmptyWellFormed();
    }

    /** `insert(block)`: validate, check continuity with `height - 1`, then
        write both maps; a thrown error leaves both maps as they were. */
    method Insert(b: BlockInput) returns (error: Option<InsertError>)
      requires Valid()
      modifies this
      ensures Valid()
      ensures Inserted(old(blocks), b).Ok? ==> error.None? && blocks == Inserted(old(blocks), b).value
      ensures Inserted(old(blocks), b).Err? ==> error == Some(Inserted(old(blocks), b).error) && blocks == old(blocks)
      ensures emitted == old(emitted)
    {
      if b.height.None? {
        return Some(MissingField("height"));
      }
      if b.timestamp.None? {
        return Some(MissingField("timestamp"));
      }
      if b.hash.None? {
        return Some(MissingField("hash"));
      }
      var height, hash := b.height.value, b.hash.value;
      if height - 1 in blocks.ordered && b.parentHash.Some? && b.parentHash.value != ""
         && blocks.ordered[height - 1].hash != b.parentHash.value {
        return Some(Inconsistency(height));
      }
      blocks := blocks.(nominal := blocks.nominal[hash := height]);
      blocks := blocks.(ordered := blocks.ordered[height := Record(b)]);
      assert blocks == Inserted(old(blocks), b).value;
      error := None;
    }

    /** `init(list)`: reset both maps, then insert each element with the
        preceding element's hash as its parent; the first error propagates
        and leaves the elements before it inserted. */
    method Init(bs: seq<BlockInput>) returns (error: Option<InsertError>)
      modifies this
      ensures Valid()
      ensures blocks == Load(bs, |bs|).ledger && error == Load(bs, |bs|).error
      ensures emitted == old(emitted)
    {
      blocks := Empty;
      EmptyWellFormed();
      var n := 0;
      while n < |bs|
        invariant 0 <= n <= |bs|
        invariant Valid()
        invariant Load(bs, n) == Loaded(blocks, None)
        invariant emitted == old(emitted)
      {
        var e := Insert(WithParent(bs, n));
        if e.Some? {
          LoadKeepsError(bs, n + 1, |bs|);
          return e;
        }
        n := n + 1;
      }
      error := None;
    }

    /** `block(n)`: a stored height is answered from the map; otherwise the
        provider's block is inserted, emitted and returned. */
    method Block(n: int, provider: Option<Provider>) returns (r: Result<BlockLedger.Block, FetchError>)
      requires Valid()
      modifies this
      ensures Valid()
      ensures var f := Fetch(old(blocks), n, provider);
        r == f.result && blocks == f.ledger && emitted == old(emitted) + f.emitted
    {
      if n in blocks.ordered {
        return Ok(blocks.ordered[n].(height := n));
      }
      if provider.None? {
        return Err(MissingProvider);
      }
      var fetched := provider.value.getBlock(n);
      if fetched.None? {
        return Err(FetchFailed(n));
      }
      var b := fetched.value;
      var e := Insert(b);
      if e.Some? {
        return Err(Rejected(e.value));
      }
      emitted := emitted + [Record(b)];
      r := Ok(Record(b));
    }

    /** `advance(options)`: resolve the range, then fetch each in-subset
        height in ascending order, stopping at the first failure. */
    method Advance(opts: AdvanceOptions, provider: Option<Provider>) returns (r: AdvanceResult)
      requires Valid()
      modifies this
      ensures Valid()
      ensures Resolve(old(blocks), opts, provider).Finish? ==>
        r == Resolve(old(blocks), opts, provider).result && blocks == old(blocks) && emitted == old(emitted)
      ensures Resolve(old(blocks), opts, provider).Range? ==>
        var p := Resolve(old(blocks), opts, provider);
        var w := Walk(old(blocks), p.from, p.to, opts.subset, provider, map[], old(emitted));
        r == Synced(w.got) && blocks == w.ledger && emitted == w.log
    {
      var plan := Resolve(blocks, opts, provider);
      if plan.Finish? {
        return plan.result;
      }
      var from, to := plan.from, plan.to;
      var got: map<int, BlockLedger.Block> := map[];
      var n := from;
      while n <= to
        invariant Valid()
        invariant Walk(old(blocks), from, to, opts.subset, provider, map[], old(emitted))
               == Walk(blocks, n, to, opts.subset, provider, got, emitted)
      {
        if InRange(opts.subset, n) {
          var res := Block(n, provider);
          if res.Err? {
            break;
          }
          got := got[n := res.value];
        }
        n := n + 1;
      }
      r := Synced(got);
    }
  }

  /** Once `init` has failed, later elements change nothing. */
  lemma {:induction false} LoadKeepsError(bs: seq<BlockInput>, k: nat, m: nat)
    requires k <= m <= |bs|
    requires Load(bs, k).error.Some?
    ensures Load(bs, m) == Load(bs, k)
    decreases m - k
  {
    if k < m {
      LoadKeepsError(bs, k, m - 1);
    }
  }
}
