/** The two lookup maps of the block clock and everything that reads them:
    `ordered` (height to block record) and `nominal` (hash to height), the
    validating `insert`, the reload of a saved list, the confirmation-gated
    reads, `compareHash`, `list` and the `initialized`/`min`/`max` getters. */
module BlockLedger {
  import opened Wrappers
  import opened Heights

  /** A committed block as `ordered` stores it: `{ timestamp, height, hash }`. */
  datatype Block = Block(timestamp: int, height: int, hash: string)

  /** A block as handed to `insert`; a field that is `undefined` is `None`. */
  datatype BlockInput = BlockInput(
    height: Option<int>,
    timestamp: Option<int>,
    hash: Option<string>,
    parentHash: Option<string>)

  /** The clock's `blocks` object. */
  datatype Ledger = Ledger(ordered: map<int, Block>, nominal: map<string, int>)

  datatype InsertError =
    | MissingField(name: string)   // "Block data incomplete, missing '<name>'"
    | Inconsistency(height: int)   // "Inconsistency in block data at block <height>"

  /** The state `init` starts from. */
  const Empty := Ledger(map[], map[])

  /** What every reachable ledger satisfies: a record sits under its own
      height, every indexed height is stored, and nothing is stored while
      the index is empty. */
  ghost predicate WellFormed(l: Ledger)
  {
    && (forall h :: h in l.ordered ==> l.ordered[h].height == h)
    && (forall x :: x in l.nominal ==> l.nominal[x] in l.ordered)
    && (l.nominal == map[] ==> l.ordered == map[])
  }

  lemma EmptyWellFormed()
    ensures WellFormed(Empty)
  {
  }

  // ---------------------------------------------------------------- insert

  /** `height`, `timestamp` and `hash` are all defined. */
  predicate Complete(b: BlockInput)
  {
    b.height.Some? && b.timestamp.Some? && b.hash.Some?
  }

  /** The record `insert` stores for a complete block. */
  function Record(b: BlockInput): Block
    requires Complete(b)
  {
    Block(b.timestamp.value, b.height.value, b.hash.value)
  }

  /** A given (truthy: defined and non-empty) `parentHash` that differs from
      the hash stored at `height - 1`. */
  predicate Discontinuous(l: Ledger, b: BlockInput)
    requires Complete(b)
  {
    var h := b.height.value;
    && h - 1 in l.ordered
    && b.parentHash.Some? && b.parentHash.value != ""
    && l.ordered[h - 1].hash != b.parentHash.value
  }

  /** The ledger after `insert(b)`, or the error it throws (then nothing changed). */
  function Inserted(l: Ledger, b: BlockInput): (r: Result<Ledger, InsertError>)
    ensures r.Err? && r.error.MissingField? <==> !Complete(b)
    ensures r == Err(MissingField("height")) <==> b.height.None?
    ensures r == Err(MissingField("timestamp")) <==> b.height.Some? && b.timestamp.None?
    ensures r == Err(MissingField("hash")) <==> b.height.Some? && b.timestamp.Some? && b.hash.None?
    ensures Complete(b) ==> (r == Err(Inconsistency(b.height.value)) <==> Discontinuous(l, b))
    ensures r.Ok? <==> Complete(b) && !Discontinuous(l, b)
    ensures r.Ok? ==> Complete(b) && r.value.ordered == l.ordered[b.height.value := Record(b)]
    ensures r.Ok? ==> r.value.nominal == l.nominal[b.hash.value := b.height.value]
    ensures r.Ok? && WellFormed(l) ==> WellFormed(r.value)
  {
    if b.height.None? then Err(MissingField("height"))
    else if b.timestamp.None? then Err(MissingField("timestamp"))
    else if b.hash.None? then Err(MissingField("hash"))
    else if Discontinuous(l, b) then Err(Inconsistency(b.height.value))
    else
      var next := Ledger(l.ordered[b.height.value := Record(b)], l.nominal[b.hash.value := b.height.value]);
      assert b.hash.value in next.nominal;
      Ok(next)
  }

  /** An absent parent hash, or nothing stored at `height - 1`, never makes a
      complete block fail. */
  lemma InsertWithoutParentSucceeds(l: Ledger, b: BlockInput)
    requires Complete(b)
    requires b.parentHash.None? || b.height.value - 1 !in l.ordered
    ensures Inserted(l, b).Ok?
  {
  }

  /** A successful insert touches only `ordered[height]` and `nominal[hash]`. */
  lemma InsertFrame(l: Ledger, b: BlockInput, h: int, x: string)
    requires Inserted(l, b).Ok?
    ensures h != b.height.value ==> (h in Inserted(l, b).value.ordered <==> h in l.ordered)
    ensures h != b.height.value && h in l.ordered ==> Inserted(l, b).value.ordered[h] == l.ordered[h]
    ensures x != b.hash.value ==> (x in Inserted(l, b).value.nominal <==> x in l.nominal)
    ensures x != b.hash.value && x in l.nominal ==> Inserted(l, b).value.nominal[x] == l.nominal[x]
  {
  }

  // ---------------------------------------------------------------- init

  /** The n-th list element with `parentHash` replaced by the hash of the
      element before it (absent for the first). */
  function WithParent(bs: seq<BlockInput>, n: nat): BlockInput
    requires n < |bs|
  {
    bs[n].(parentHash := if n == 0 then None else bs[n - 1].hash)
  }

  /** The ledger after `init` has inserted the first `k` list elements, and
      the error that stopped it, if any (later elements are not inserted). */
  datatype Loaded = Loaded(ledger: Ledger, error: Option<InsertError>)

  function Load(bs: seq<BlockInput>, k: nat): (r: Loaded)
    requires k <= |bs|
    ensures WellFormed(r.ledger)
  {
    if k == 0 then EmptyWellFormed(); Loaded(Empty, None)
    else
      var p := Load(bs, k - 1);
      if p.error.Some? then p
      else match Inserted(p.ledger, WithParent(bs, k - 1))
        case Ok(l) => Loaded(l, None)
        case Err(e) => Loaded(p.ledger, Some(e))
  }

  // ---------------------------------------------------------------- getters

  /** Under the invariant the hash index is empty exactly when nothing is
      stored. */
  lemma IndexedIffStored(l: Ledger)
    ensures WellFormed(l) ==> (|l.nominal| > 0 <==> l.ordered.Keys != {})
  {
    if WellFormed(l) && |l.nominal| > 0 {
      var x :| x in l.nominal;
      assert l.nominal[x] in l.ordered.Keys;
    }
    if l.ordered.Keys != {} {
      var h := Pick(l.ordered.Keys);
    }
  }

  /** `initialized`: the hash index is non-empty, which for a reachable
      ledger means that some height is stored. */
  predicate Initialized(l: Ledger)
    ensures WellFormed(l) ==> (Initialized(l) <==> l.ordered.Keys != {})
  {
    IndexedIffStored(l);
    |l.nominal| > 0
  }

  /** The height of `max`. */
  function MaxHeight(l: Ledger): (m: int)
    requires WellFormed(l) && Initialized(l)
    ensures m in l.ordered && forall h :: h in l.ordered ==> h <= m
  {
    Greatest(l.ordered.Keys)
  }

  /** The height of `min`. */
  function MinHeight(l: Ledger): (m: int)
    requires WellFormed(l) && Initialized(l)
    ensures m in l.ordered && forall h :: h in l.ordered ==> m <= h
  {
    Least(l.ordered.Keys)
  }

  /** `max`: the highest stored block, `null` before any insert. */
  function Max(l: Ledger): (r: Option<Block>)
    requires WellFormed(l)
    ensures r.Some? <==> l.ordered.Keys != {}
    ensures r.Some? ==> r.value.height in l.ordered && l.ordered[r.value.height] == r.value
    ensures r.Some? ==> forall h :: h in l.ordered ==> h <= r.value.height
  {
    if Initialized(l) then Some(l.ordered[MaxHeight(l)]) else None
  }

  /** `min`: the lowest stored block, `null` before any insert. */
  function Min(l: Ledger): (r: Option<Block>)
    requires WellFormed(l)
    ensures r.Some? <==> l.ordered.Keys != {}
    ensures r.Some? ==> r.value.height in l.ordered && l.ordered[r.value.height] == r.value
    ensures r.Some? ==> forall h :: h in l.ordered ==> r.value.height <= h
  {
    if Initialized(l) then Some(l.ordered[MinHeight(l)]) else None
  }

  // ---------------------------------------------------------------- reads

  /** The confirmation gate `!confirm || max.height - height > confirm`;
      `confirm == 0` stands for an absent (falsy) argument. */
  predicate Confirmed(l: Ledger, height: int, confirm: int)
    requires WellFormed(l) && Initialized(l)
  {
    confirm == 0 || MaxHeight(l) - height > confirm
  }

  /** `readHeight(n, confirm)`. */
  function ReadHeight(l: Ledger, n: int, confirm: int): (r: Option<Block>)
    requires WellFormed(l)
    ensures r.Some? ==> n in l.ordered && r.value == l.ordered[n] && r.value.height == n
    ensures r.Some? && confirm > 0 ==> exists h :: h in l.ordered && h - n > confirm
    ensures n in l.ordered && confirm == 0 ==> r.Some?
  {
    if n in l.ordered then
        var b := l.ordered[n];
      if Confirmed(l, b.height, confirm) then Some(Block(b.timestamp, n, b.hash)) else None
    else None
  }

  /** `readHash(hash, confirm)`: the reply carries the queried hash, the
      height indexed for it and the timestamp stored at that height. */
  function ReadHash(l: Ledger, x: string, confirm: int): (r: Option<Block>)
    requires WellFormed(l)
    ensures r.Some? ==> x in l.nominal && r.value.hash == x && r.value.height == l.nominal[x]
    ensures r.Some? ==> r.value.timestamp == l.ordered[l.nominal[x]].timestamp
    ensures x in l.nominal && confirm == 0 ==> r.Some?
  {
    if x in l.nominal then
      var n := l.nominal[x];
      var b := l.ordered[n];
      assert Initialized(l);
      if Confirmed(l, b.height, confirm) then Some(Block(b.timestamp, n, x)) else None
    else None
  }

  /** A block is readable at depth `confirm` exactly when it is stored and,
      for a positive depth, some stored block lies more than `confirm`
      heights above it. */
  lemma ReadHeightConfirmation(l: Ledger, n: int, confirm: int)
    requires WellFormed(l)
    ensures ReadHeight(l, n, confirm).Some? <==>
      n in l.ordered && (confirm == 0 || exists h :: h in l.ordered && h - n > confirm)
  {
    if n in l.ordered && confirm != 0 && exists h :: h in l.ordered && h - n > confirm {
      var h :| h in l.ordered && h - n > confirm;
      assert h <= MaxHeight(l);
    }
  }

  /** `readHash` and `readHeight` pass the same gate and agree on height and
      timestamp; they agree on everything when the hash index is current. */
  lemma ReadHashMatchesReadHeight(l: Ledger, x: string, confirm: int)
    requires WellFormed(l)
    requires x in l.nominal
    ensures ReadHash(l, x, confirm).Some? <==> ReadHeight(l, l.nominal[x], confirm).Some?
    ensures ReadHash(l, x, confirm).Some? ==>
      ReadHeight(l, l.nominal[x], confirm) == Some(ReadHash(l, x, confirm).value.(hash := l.ordered[l.nominal[x]].hash))
    ensures l.ordered[l.nominal[x]].hash == x ==> ReadHash(l, x, confirm) == ReadHeight(l, l.nominal[x], confirm)
  {
  }

  /** `compareHash(a, b)`: the height of `b` minus the height of `a` when both
      hashes are indexed, 0 otherwise. */
  function CompareHash(l: Ledger, a: string, b: string): (d: int)
    requires WellFormed(l)
    ensures a in l.nominal && b in l.nominal ==> d == l.nominal[b] - l.nominal[a]
    ensures a !in l.nominal || b !in l.nominal ==> d == 0
  {
    var i := ReadHash(l, a, 0);
    var f := ReadHash(l, b, 0);
    if i.None? || f.None? then 0 else f.value.height - i.value.height
  }

  lemma CompareHashProperties(l: Ledger, a: string, b: string, c: string)
    requires WellFormed(l)
    ensures CompareHash(l, a, a) == 0
    ensures CompareHash(l, a, b) == -CompareHash(l, b, a)
    ensures a in l.nominal && b in l.nominal && c in l.nominal ==>
      CompareHash(l, a, b) + CompareHash(l, b, c) == CompareHash(l, a, c)
  {
  }

  // ---------------------------------------------------------------- list

  /** Every block of `bs` lies strictly below every later one. */
  ghost predicate AscendingHeights(bs: seq<Block>)
  {
    forall i, j :: 0 <= i < j < |bs| ==> bs[i].height < bs[j].height
  }

  /** Every element of `bs` is the record stored under its height. */
  ghost predicate AllStored(l: Ledger, bs: seq<Block>)
  {
    forall i :: 0 <= i < |bs| ==> bs[i].height in l.ordered && bs[i] == l.ordered[bs[i].height]
  }

  /** Every element of `bs` has a height within `[low, high]`. */
  ghost predicate WithinBounds(bs: seq<Block>, low: int, high: int)
  {
    forall i :: 0 <= i < |bs| ==> low <= bs[i].height <= high
  }

  /** Every stored height within `[low, high]` has an element of `bs`. */
  ghost predicate CoversRange(l: Ledger, bs: seq<Block>, low: int, high: int)
  {
    forall h :: h in l.ordered && low <= h <= high ==> exists i :: 0 <= i < |bs| && bs[i].height == h
  }

  /** The records stored under `hs`, each with `height` taken from its key. */
  function Records(l: Ledger, hs: seq<int>): (r: seq<Block>)
    requires forall i :: 0 <= i < |hs| ==> hs[i] in l.ordered
    ensures |r| == |hs|
    ensures forall i :: 0 <= i < |r| ==> r[i] == l.ordered[hs[i]].(height := hs[i])
  {
    if hs == [] then [] else [l.ordered[hs[0]].(height := hs[0])] + Records(l, hs[1..])
  }

  lemma RecordsInRange(l: Ledger, low: int, high: int, hs: seq<int>, r: seq<Block>)
    requires WellFormed(l)
    requires StrictlyAscending(hs)
    requires forall h :: h in hs <==> h in l.ordered && low <= h <= high
    requires forall i :: 0 <= i < |hs| ==> hs[i] in l.ordered
    requires |r| == |hs|
    requires forall i :: 0 <= i < |r| ==> r[i] == l.ordered[hs[i]].(height := hs[i])
    ensures forall i, j :: 0 <= i < j < |r| ==> r[i].height < r[j].height
    ensures forall i :: 0 <= i < |r| ==> r[i].height in l.ordered && r[i] == l.ordered[r[i].height]
    ensures forall i :: 0 <= i < |r| ==> low <= r[i].height <= high
    ensures forall h :: h in l.ordered && low <= h <= high ==> exists i :: 0 <= i < |r| && r[i].height == h
  {
    forall i | 0 <= i < |r|
      ensures r[i].height in l.ordered && r[i] == l.ordered[r[i].height] && low <= r[i].height <= high
    {
      assert hs[i] in hs;
    }
    forall h | h in l.ordered && low <= h <= high
      ensures exists i :: 0 <= i < |r| && r[i].height == h
    {
      var i :| 0 <= i < |hs| && hs[i] == h;
      assert r[i].height == h;
    }
  }

  /** The stored heights within `[low, high]`, ascending. */
  function Window(l: Ledger, low: int, high: int): (hs: seq<int>)
    ensures StrictlyAscending(hs)
    ensures forall h :: h in hs <==> h in l.ordered && low <= h <= high
    ensures forall i :: 0 <= i < |hs| ==> hs[i] in l.ordered
  {
    Ascending(set h | h in l.ordered && low <= h <= high)
  }

  /** The lower bound `list` applies: the given one, else the stored `min`. */
  function LowBound(l: Ledger, lo: Option<int>): int
    requires WellFormed(l) && Initialized(l)
  {
    lo.GetOr(MinHeight(l))
  }

  /** The upper bound `list` applies: the given one, else the stored `max`. */
  function HighBound(l: Ledger, hi: Option<int>): int
    requires WellFormed(l) && Initialized(l)
  {
    hi.GetOr(MaxHeight(l))
  }

  /** `list({ min: lo, max: hi })`: stored blocks in ascending height order,
      each with `height` set from its key, limited to `[lo, hi]`; an absent
      bound defaults to the stored `min`/`max` height. */
  function List(l: Ledger, lo: Option<int>, hi: Option<int>): (r: seq<Block>)
    requires WellFormed(l)
    ensures !Initialized(l) ==> r == []
    ensures AscendingHeights(r)
    ensures AllStored(l, r)
    ensures Initialized(l) ==> WithinBounds(r, LowBound(l, lo), HighBound(l, hi))
    ensures Initialized(l) ==> CoversRange(l, r, LowBound(l, lo), HighBound(l, hi))
  {
    if !Initialized(l) then []
    else
      var low := LowBound(l, lo);
      var high := HighBound(l, hi);
      var hs := Window(l, low, high);
      var r := Records(l, hs);
      RecordsInRange(l, low, high, hs, r);
      assert AscendingHeights(r) && AllStored(l, r) && WithinBounds(r, low, high) && CoversRange(l, r, low, high);
      r
  }

  // ---------------------------------------------------------------- reload

  /** A listed block as `init` receives it (no `parentHash` of its own). */
  function AsInput(b: Block): BlockInput
  {
    BlockInput(Some(b.height), Some(b.timestamp), Some(b.hash), None)
  }

  function AsInputs(bs: seq<Block>): (r: seq<BlockInput>)
    ensures |r| == |bs| && forall i :: 0 <= i < |bs| ==> r[i] == AsInput(bs[i])
  {
    seq(|bs|, i requires 0 <= i < |bs| => AsInput(bs[i]))
  }

  /** The height map built by inserting `bs` in order. */
  ghost function Stored(bs: seq<Block>): map<int, Block>
  {
    if bs == [] then map[] else Stored(bs[..|bs| - 1])[bs[|bs| - 1].height := bs[|bs| - 1]]
  }

  lemma {:induction false} StoredAt(bs: seq<Block>)
    requires AscendingHeights(bs)
    ensures forall h :: h in Stored(bs) <==> exists i :: 0 <= i < |bs| && bs[i].height == h
    ensures forall i :: 0 <= i < |bs| ==> Stored(bs)[bs[i].height] == bs[i]
  {
    if bs != [] {
      var init := bs[..|bs| - 1];
      StoredAt(init);
      forall h ensures h in Stored(bs) <==> exists i :: 0 <= i < |bs| && bs[i].height == h {
        if h in Stored(init) {
          var i :| 0 <= i < |init| && init[i].height == h;
          assert bs[i].height == h;
        }
        if exists i :: 0 <= i < |bs| && bs[i].height == h {
          var i :| 0 <= i < |bs| && bs[i].height == h;
          if i < |bs| - 1 { assert init[i].height == h; }
        }
      }
      forall i | 0 <= i < |bs| ensures Stored(bs)[bs[i].height] == bs[i] {
        if i < |bs| - 1 {
          assert init[i] == bs[i];
          assert bs[i].height < bs[|bs| - 1].height;
        }
      }
    }
  }

  /** The parent hash `init` gives the k-th element of an ascending list
      agrees with whatever the earlier elements stored at `height - 1`. */
  lemma ParentConsistent(bs: seq<Block>, k: nat, l: Ledger)
    requires 0 < k <= |bs|
    requires AscendingHeights(bs)
    requires l.ordered == Stored(bs[..k - 1])
    ensures !Discontinuous(l, WithParent(AsInputs(bs), k - 1))
  {
    var prefix := bs[..k - 1];
    StoredAt(prefix);
    var h := bs[k - 1].height;
    if h - 1 in l.ordered && k >= 2 {
      var i :| 0 <= i < |prefix| && prefix[i].height == h - 1;
      assert i == k - 2;
    }
  }

  /** Feeding a strictly ascending list through `init` never fails, and the
      first `k` elements end up stored under their heights. */
  lemma {:induction false} LoadAscending(bs: seq<Block>, k: nat)
    requires k <= |bs|
    requires AscendingHeights(bs)
    ensures Load(AsInputs(bs), k).error.None?
    ensures Load(AsInputs(bs), k).ledger.ordered == Stored(bs[..k])
  {
    if k > 0 {
      LoadAscending(bs, k - 1);
      var p := Load(AsInputs(bs), k - 1);
      assert bs[..k][..k - 1] == bs[..k - 1];
      ParentConsistent(bs, k, p.ledger);
    }
  }

  /** Inserting every stored block, ascending, rebuilds the height map. */
  lemma StoredListed(l: Ledger, bs: seq<Block>)
    requires AscendingHeights(bs)
    requires AllStored(l, bs)
    requires forall h :: h in l.ordered ==> exists i :: 0 <= i < |bs| && bs[i].height == h
    ensures Stored(bs) == l.ordered
  {
    StoredAt(bs);
    var m := Stored(bs);
    assert forall h :: h in m <==> h in l.ordered;
    forall h | h in l.ordered
      ensures m[h] == l.ordered[h]
    {
      var i :| 0 <= i < |bs| && bs[i].height == h;
    }
    assert m.Keys == l.ordered.Keys;
  }

  /** A sequence covering `[min, max]` covers every stored height. */
  lemma CoversEverything(l: Ledger, bs: seq<Block>)
    requires WellFormed(l) && Initialized(l)
    requires CoversRange(l, bs, MinHeight(l), MaxHeight(l))
    ensures forall h :: h in l.ordered ==> exists i :: 0 <= i < |bs| && bs[i].height == h
  {
    forall h | h in l.ordered
      ensures exists i :: 0 <= i < |bs| && bs[i].height == h
    {
      assert MinHeight(l) <= h <= MaxHeight(l);
    }
  }

  /** The unbounded `list()` holds every stored height. */
  lemma ListCoversStore(l: Ledger)
    requires WellFormed(l)
    ensures var bs := List(l, None, None);
      forall h :: h in l.ordered ==> exists i :: 0 <= i < |bs| && bs[i].height == h
  {
    if Initialized(l) {
      CoversEverything(l, List(l, None, None));
    }
  }

  /** `init(list())` never throws and rebuilds the same height map. */
  lemma ReloadRoundTrip(l: Ledger)
    requires WellFormed(l)
    ensures Load(AsInputs(List(l, None, None)), |List(l, None, None)|).error.None?
    ensures Load(AsInputs(List(l, None, None)), |List(l, None, None)|).ledger.ordered == l.ordered
  {
    var bs := List(l, None, None);
    LoadAscending(bs, |bs|);
    assert bs[..|bs|] == bs;
    ListCoversStore(l);
    StoredListed(l, bs);
  }

  /** The heights of `bs`, in order. */
  function HeightsOf(bs: seq<Block>): (hs: seq<int>)
    ensures |hs| == |bs| && forall i :: 0 <= i < |bs| ==> hs[i] == bs[i].height
  {
    seq(|bs|, i requires 0 <= i < |bs| => bs[i].height)
  }

  /** Two ascending listings that each hold exactly the stored records are
      the same listing. */
  lemma ListingUnique(l: Ledger, r: seq<Block>, bs: seq<Block>)
    requires AscendingHeights(r) && AscendingHeights(bs)
    requires AllStored(l, r) && AllStored(l, bs)
    requires forall h :: h in l.ordered ==> exists i :: 0 <= i < |r| && r[i].height == h
    requires forall h :: h in l.ordered ==> exists i :: 0 <= i < |bs| && bs[i].height == h
    ensures r == bs
  {
    var xs, ys := HeightsOf(r), HeightsOf(bs);
    forall h
      ensures h in xs <==> h in ys
    {
      if h in xs {
        var i :| 0 <= i < |xs| && xs[i] == h;
        var j :| 0 <= j < |bs| && bs[j].height == h;
        assert ys[j] == h;
      }
      if h in ys {
        var j :| 0 <= j < |ys| && ys[j] == h;
        var i :| 0 <= i < |r| && r[i].height == h;
        assert xs[i] == h;
      }
    }
    AscendingUnique(xs, ys);
    forall i | 0 <= i < |r|
      ensures r[i] == bs[i]
    {
      assert xs[i] == ys[i];
    }
  }

  /** `init` of a strictly ascending list never throws, and `list()` then
      returns that very list. */
  lemma ListOfLoaded(bs: seq<Block>)
    requires AscendingHeights(bs)
    ensures Load(AsInputs(bs), |bs|).error.None?
    ensures List(Load(AsInputs(bs), |bs|).ledger, None, None) == bs
  {
    var l := Load(AsInputs(bs), |bs|).ledger;
    LoadAscending(bs, |bs|);
    assert bs[..|bs|] == bs;
    StoredAt(bs);
    assert AllStored(l, bs);
    ListCoversStore(l);
    ListingUnique(l, List(l, None, None), bs);
  }

  /** `bs` as a caller hands it to `insert` block by block, each naming its
      predecessor's hash as `parentHash` (the first names none). */
  function Chained(bs: seq<Block>): (r: seq<BlockInput>)
    ensures |r| == |bs|
    ensures forall i {:trigger r[i]} :: 0 <= i < |bs| ==>
      && r[i].height == Some(bs[i].height) && r[i].timestamp == Some(bs[i].timestamp) && r[i].hash == Some(bs[i].hash)
      && r[i].parentHash == (if i == 0 then None else Some(bs[i - 1].hash))
  {
    seq(|bs|, i requires 0 <= i < |bs| => AsInput(bs[i]).(parentHash := if i == 0 then None else Some(bs[i - 1].hash)))
  }

  /** The ledger after `insert` of each of `ins` in turn, or the first error
      thrown (the later ones are not attempted). */
  function InsertAll(l: Ledger, ins: seq<BlockInput>): Result<Ledger, InsertError>
  {
    if ins == [] then Ok(l)
    else match InsertAll(l, ins[..|ins| - 1])
      case Err(e) => Err(e)
      case Ok(m) => Inserted(m, ins[|ins| - 1])
  }

  /** One more `insert` after a run of them: an earlier error stands,
      otherwise the new block is inserted into the maps reached so far. */
  lemma InsertAllSnoc(l: Ledger, ins: seq<BlockInput>, b: BlockInput)
    ensures InsertAll(l, ins + [b]) ==
      match InsertAll(l, ins)
      case Err(e) => Err(e)
      case Ok(m) => Inserted(m, b)
  {
    assert (ins + [b])[..|ins|] == ins;
  }

  lemma SplitLast<T>(c: seq<T>, k: nat)
    requires 0 < k <= |c|
    ensures c[..k] == c[..k - 1] + [c[k - 1]]
  {
  }

  /** What `init` has reached: its maps, or the error that stopped it. */
  function Outcome(p: Loaded): Result<Ledger, InsertError>
  {
    if p.error.None? then Ok(p.ledger) else Err(p.error.value)
  }

  /** Calling `insert` one by one on the first `k` list elements, each with
      the parent hash `init` gives it, ends exactly as `init` does: the same
      maps, or the same first error. */
  lemma {:induction false} InsertAllAsLoad(xs: seq<BlockInput>, ins: seq<BlockInput>, k: nat)
    requires k <= |xs| == |ins|
    requires forall i :: 0 <= i < |ins| ==> ins[i] == WithParent(xs, i)
    ensures InsertAll(Empty, ins[..k]) == Outcome(Load(xs, k))
  {
    if k > 0 {
      InsertAllAsLoad(xs, ins, k - 1);
      SplitLast(ins, k);
      InsertAllSnoc(Empty, ins[..k - 1], ins[k - 1]);
    }
  }

  /** A correctly chained, strictly ascending sequence inserted in order
      raises no error, and `list()` then returns the same sequence. */
  lemma ChainedInsertsListBack(bs: seq<Block>)
    requires AscendingHeights(bs)
    ensures InsertAll(Empty, Chained(bs)).Ok?
    ensures WellFormed(InsertAll(Empty, Chained(bs)).value)
    ensures List(InsertAll(Empty, Chained(bs)).value, None, None) == bs
  {
    var ins := Chained(bs);
    forall i | 0 <= i < |ins|
      ensures ins[i] == WithParent(AsInputs(bs), i)
    {
    }
    InsertAllAsLoad(AsInputs(bs), ins, |bs|);
    assert ins[..|bs|] == ins;
    ListOfLoaded(bs);
  }

  /** `readHash` can report a hash together with the timestamp of a
      different block that later replaced it at the same height: `insert`
      overwrites `ordered[height]` but never clears the old hash's entry. */
  lemma ReadHashAfterOverwrite()
    ensures var first := Inserted(Empty, BlockInput(Some(5), Some(100), Some("x"), None)).value;
            var second := Inserted(first, BlockInput(Some(5), Some(200), Some("y"), None)).value;
            && WellFormed(second)
            && second.ordered[5].hash == "y"
            && ReadHash(second, "x", 0) == Some(Block(200, 5, "x"))
  {
    EmptyWellFormed();
  }
}
