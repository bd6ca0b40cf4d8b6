/** Mapping between the `index` blocks (plus `default_ttl_seconds`) of an
    azurerm_cosmosdb_mongo_collection resource and the index list of the
    Cosmos DB MongoDB collection API, in both directions. */
module CosmosMongoIndex {
  import opened Wrappers

  /** First keys that `flatten` does not report as user indexes. */
  const IdKey := "_id"
  const DefaultIndexKey := "DocumentDBDefaultIndex"
  const TsKey := "_ts"

  predicate IsReservedKey(key: string) {
    key == IdKey || key == DefaultIndexKey || key == TsKey
  }

  const Int32Min: int := -0x8000_0000
  const Int32Max: int := 0x7FFF_FFFF

  /** Go's conversion `int32(v)`: the low 32 bits of v read as two's complement. */
  function Int32Of(v: int): (r: int)
    ensures Int32Min <= r <= Int32Max
    ensures (v - r) % 0x1_0000_0000 == 0
    ensures Int32Min <= v <= Int32Max ==> r == v
  {
    var low := v % 0x1_0000_0000;
    if low <= Int32Max then low else low - 0x1_0000_0000
  }

  // ----- Terraform side -----

  /** One `index` block of the configuration, or one `system_indexes` entry of the state. */
  datatype IndexBlock = IndexBlock(keys: seq<string>, unique: bool)

  // ----- API side (documentdb.MongoIndex and its parts; None is a nil pointer) -----

  datatype MongoIndexKeys = MongoIndexKeys(keys: Option<seq<string>>)

  /** `expireAfterSeconds` holds an int32 value. */
  datatype MongoIndexOptions = MongoIndexOptions(expireAfterSeconds: Option<int>, unique: Option<bool>)

  datatype MongoIndex = MongoIndex(key: Option<MongoIndexKeys>, options: Option<MongoIndexOptions>)

  /** The three results of `flatten`: user indexes, system indexes and the TTL. */
  datatype FlattenedIndexes = FlattenedIndexes(indexes: seq<IndexBlock>, systemIndexes: seq<IndexBlock>, ttl: Option<int>)

  const NoIndexes := FlattenedIndexes([], [], None)

  // ----- TTL selection in Create and Update -----

  /** The TTL handed to `expand`: only a strictly positive `default_ttl_seconds`
      produces one; 0 and -1 (the smallest value the schema allows) mean none. */
  function DefaultTtl(defaultTtlSeconds: int): (ttl: Option<int>)
    ensures ttl.Some? <==> defaultTtlSeconds > 0
    ensures ttl.Some? ==> ttl.value == defaultTtlSeconds
  {
    if defaultTtlSeconds > 0 then Some(defaultTtlSeconds) else None
  }

  // ----- expand -----

  function ExpandIndex(b: IndexBlock): MongoIndex {
    MongoIndex(Some(MongoIndexKeys(Some(b.keys))), Some(MongoIndexOptions(None, Some(b.unique))))
  }

  function TtlIndex(ttl: int): MongoIndex {
    MongoIndex(Some(MongoIndexKeys(Some([TsKey]))), Some(MongoIndexOptions(Some(Int32Of(ttl)), None)))
  }

  /** The API index list for the given blocks and optional TTL: one index per
      block, in order, then one `_ts` index when there is a TTL. */
  function ExpandIndexes(indexes: seq<IndexBlock>, defaultTtl: Option<int>): (r: seq<MongoIndex>)
    ensures |r| == |indexes| + (if defaultTtl.Some? then 1 else 0)
    ensures forall i :: 0 <= i < |indexes| ==> r[i] == ExpandIndex(indexes[i])
    ensures defaultTtl.Some? ==> r[|indexes|] == TtlIndex(defaultTtl.value)
  {
    if |indexes| == 0 then
      (if defaultTtl.Some? then [TtlIndex(defaultTtl.value)] else [])
    else
      [ExpandIndex(indexes[0])] + ExpandIndexes(indexes[1..], defaultTtl)
  }

  /** expandCosmosMongoCollectionIndex: grows the result slice block by block,
      then appends the `_ts` index when a TTL is given. */
  method ExpandCosmosMongoCollectionIndex(indexes: seq<IndexBlock>, defaultTtl: Option<int>)
    returns (results: seq<MongoIndex>)
    ensures results == ExpandIndexes(indexes, defaultTtl)
  {
    results := [];
    if |indexes| != 0 {
      for i := 0 to |indexes|
        invariant |results| == i
        invariant forall j :: 0 <= j < i ==> results[j] == ExpandIndex(indexes[j])
      {
        results := results + [ExpandIndex(indexes[i])];
      }
    }
    if defaultTtl.Some? {
      results := results + [TtlIndex(defaultTtl.value)];
    }
  }

  // ----- flatten -----

  /** Where `flatten` sends one API index. */
  datatype Route = System(block: IndexBlock) | Ttl(expireAfterSeconds: Option<int>) | User(block: IndexBlock) | Skipped

  /** The keys of an index when it has at least one. */
  function KeysOf(v: MongoIndex): Option<seq<string>> {
    if v.key.Some? && v.key.value.keys.Some? && |v.key.value.keys.value| > 0 then v.key.value.keys else None
  }

  /** The `unique` flag as reported: false when the options or the flag are nil. */
  function UniqueOf(v: MongoIndex): bool {
    if v.options.Some? && v.options.value.unique.Some? then v.options.value.unique.value else false
  }

  function ExpireOf(v: MongoIndex): Option<int> {
    if v.options.Some? then v.options.value.expireAfterSeconds else None
  }

  function RouteOf(v: MongoIndex): Route {
    match KeysOf(v)
    case None => Skipped
    case Some(keys) =>
      if keys[0] == IdKey then System(IndexBlock(keys, true))
      else if keys[0] == DefaultIndexKey then System(IndexBlock(keys, UniqueOf(v)))
      else if keys[0] == TsKey then Ttl(ExpireOf(v))
      else User(IndexBlock(keys, UniqueOf(v)))
  }

  /** One step of the loop: file the routed index; a `_ts` index without an
      expiry leaves the TTL as it was. */
  function Absorb(acc: FlattenedIndexes, route: Route): FlattenedIndexes {
    match route
    case System(b) => acc.(systemIndexes := acc.systemIndexes + [b])
    case User(b) => acc.(indexes := acc.indexes + [b])
    case Ttl(e) => if e.Some? then acc.(ttl := e) else acc
    case Skipped => acc
  }

  /** What the loop has produced after reading all of vs, left to right. */
  function FlattenSeq(vs: seq<MongoIndex>): FlattenedIndexes {
    if |vs| == 0 then NoIndexes else Absorb(FlattenSeq(vs[..|vs| - 1]), RouteOf(vs[|vs| - 1]))
  }

  /** flattenCosmosMongoCollectionIndex on a possibly nil index list. */
  function Flatten(input: Option<seq<MongoIndex>>): FlattenedIndexes {
    match input
    case None => NoIndexes
    case Some(vs) => FlattenSeq(vs)
  }

  method FlattenCosmosMongoCollectionIndex(input: Option<seq<MongoIndex>>)
    returns (indexes: seq<IndexBlock>, systemIndexes: seq<IndexBlock>, ttl: Option<int>)
    ensures input.None? ==> indexes == [] && systemIndexes == [] && ttl.None?
    ensures FlattenedIndexes(indexes, systemIndexes, ttl) == Flatten(input)
  {
    indexes, systemIndexes, ttl := [], [], None;
    if input.None? {
      return;
    }
    var vs := input.value;
    for i := 0 to |vs|
      invariant FlattenedIndexes(indexes, systemIndexes, ttl) == FlattenSeq(vs[..i])
    {
      var v := vs[i];
      assert vs[..i + 1][..i] == vs[..i];
      if v.key.Some? && v.key.value.keys.Some? && |v.key.value.keys.value| > 0 {
        var keys := v.key.value.keys.value;
        var key := keys[0];
        if key == IdKey {
          systemIndexes := systemIndexes + [IndexBlock(keys, true)];
        } else if key == DefaultIndexKey {
          var isUnique := false;
          if v.options.Some? && v.options.value.unique.Some? {
            isUnique := v.options.value.unique.value;
          }
          systemIndexes := systemIndexes + [IndexBlock(keys, isUnique)];
        } else if key == TsKey {
          if v.options.Some? && v.options.value.expireAfterSeconds.Some? {
            ttl := v.options.value.expireAfterSeconds;
          }
        } else {
          var isUnique := false;
          if v.options.Some? && v.options.value.unique.Some? {
            isUnique := v.options.value.unique.value;
          }
          indexes := indexes + [IndexBlock(keys, isUnique)];
        }
      }
    }
    assert vs[..|vs|] == vs;
  }

  // ----- properties of flatten -----

  /** Flattening two lists one after the other: user and system indexes are
      concatenated and a TTL found in the second list overrides the first. */
  function Join(x: FlattenedIndexes, y: FlattenedIndexes): FlattenedIndexes {
    FlattenedIndexes(x.indexes + y.indexes, x.systemIndexes + y.systemIndexes, if y.ttl.Some? then y.ttl else x.ttl)
  }

  /** Both output lists keep the input order, and the TTL is set by the later part. */
  lemma {:induction false} FlattenConcat(a: seq<MongoIndex>, b: seq<MongoIndex>)
    ensures FlattenSeq(a + b) == Join(FlattenSeq(a), FlattenSeq(b))
    decreases |b|
  {
    if |b| == 0 {
      assert a + b == a;
      assert FlattenSeq(a).indexes + [] == FlattenSeq(a).indexes;
      assert FlattenSeq(a).systemIndexes + [] == FlattenSeq(a).systemIndexes;
    } else {
      var b' := b[..|b| - 1];
      assert (a + b)[..|a + b| - 1] == a + b';
      assert (a + b)[|a + b| - 1] == b[|b| - 1];
      FlattenConcat(a, b');
      var x, y := FlattenSeq(a), FlattenSeq(b');
      match RouteOf(b[|b| - 1])
      case System(blk) =>
        assert x.systemIndexes + (y.systemIndexes + [blk]) == (x.systemIndexes + y.systemIndexes) + [blk];
      case User(blk) =>
        assert x.indexes + (y.indexes + [blk]) == (x.indexes + y.indexes) + [blk];
      case Ttl(e) =>
      case Skipped =>
    }
  }

  /** The expiry an index contributes to the TTL, if any. */
  function TtlOf(v: MongoIndex): Option<int> {
    if RouteOf(v).Ttl? then RouteOf(v).expireAfterSeconds else None
  }

  /** There is a TTL exactly when some `_ts` index carries an expiry, and it
      is the expiry of the last such index. */
  lemma {:induction false} FlattenTtlIsLast(vs: seq<MongoIndex>)
    ensures FlattenSeq(vs).ttl.None? <==> forall i :: 0 <= i < |vs| ==> TtlOf(vs[i]).None?
    ensures FlattenSeq(vs).ttl.Some? ==>
      exists i :: 0 <= i < |vs| && TtlOf(vs[i]) == FlattenSeq(vs).ttl &&
        forall j :: i < j < |vs| ==> TtlOf(vs[j]).None?
  {
    if |vs| > 0 {
      var p, v := vs[..|vs| - 1], vs[|vs| - 1];
      FlattenTtlIsLast(p);
      assert forall i :: 0 <= i < |p| ==> p[i] == vs[i];
      if TtlOf(v).Some? {
        assert TtlOf(vs[|vs| - 1]) == FlattenSeq(vs).ttl;
      } else {
        assert FlattenSeq(vs).ttl == FlattenSeq(p).ttl;
        if FlattenSeq(p).ttl.Some? {
          var i :| 0 <= i < |p| && TtlOf(p[i]) == FlattenSeq(p).ttl &&
            forall j :: i < j < |p| ==> TtlOf(p[j]).None?;
          assert TtlOf(vs[i]) == FlattenSeq(vs).ttl;
        }
      }
    }
  }

  /** A user index: at least one key, and a first key that is not reserved. */
  predicate Settable(b: IndexBlock) {
    |b.keys| > 0 && !IsReservedKey(b.keys[0])
  }

  /** Every reported index comes from an input index with the same keys:
      user indexes have a non-reserved first key and report the input's
      `unique` flag (false when nil); system indexes start with `_id` or
      `DocumentDBDefaultIndex`, and an `_id` index is always unique. No more
      indexes are reported than were given. */
  lemma {:induction false} FlattenClassifies(vs: seq<MongoIndex>)
    ensures |FlattenSeq(vs).indexes| + |FlattenSeq(vs).systemIndexes| <= |vs|
    ensures forall b :: b in FlattenSeq(vs).indexes ==>
      Settable(b) && exists i :: 0 <= i < |vs| && KeysOf(vs[i]) == Some(b.keys) && b.unique == UniqueOf(vs[i])
    ensures forall b :: b in FlattenSeq(vs).systemIndexes ==>
      |b.keys| > 0 && (b.keys[0] == IdKey || b.keys[0] == DefaultIndexKey) &&
      exists i :: 0 <= i < |vs| && KeysOf(vs[i]) == Some(b.keys) && b.unique == (b.keys[0] == IdKey || UniqueOf(vs[i]))
  {
    if |vs| > 0 {
      var p, v := vs[..|vs| - 1], vs[|vs| - 1];
      FlattenClassifies(p);
      assert forall i :: 0 <= i < |p| ==> p[i] == vs[i];
      var n := |vs| - 1;
      assert v == vs[n];
    }
  }

  /** Every input index with keys is reported in the list its first key selects. */
  lemma {:induction false} FlattenKeepsEveryIndex(vs: seq<MongoIndex>)
    ensures forall i :: 0 <= i < |vs| && RouteOf(vs[i]).User? ==> RouteOf(vs[i]).block in FlattenSeq(vs).indexes
    ensures forall i :: 0 <= i < |vs| && RouteOf(vs[i]).System? ==> RouteOf(vs[i]).block in FlattenSeq(vs).systemIndexes
  {
    if |vs| > 0 {
      var p := vs[..|vs| - 1];
      FlattenKeepsEveryIndex(p);
      assert forall i :: 0 <= i < |p| ==> p[i] == vs[i];
    }
  }

  // ----- round trip -----

  /** Flattening the expansion of user blocks alone gives the blocks back. */
  lemma {:induction false} FlattenExpandedBlocks(idx: seq<IndexBlock>)
    requires forall i :: 0 <= i < |idx| ==> Settable(idx[i])
    ensures FlattenSeq(ExpandIndexes(idx, None)) == FlattenedIndexes(idx, [], None)
  {
    if |idx| > 0 {
      var p, b := idx[..|idx| - 1], idx[|idx| - 1];
      FlattenExpandedBlocks(p);
      var e := ExpandIndexes(idx, None);
      assert e[..|e| - 1] == ExpandIndexes(p, None);
      assert RouteOf(e[|e| - 1]) == User(b);
      assert p + [b] == idx;
    }
  }

  /** A `_ts` index with an expiry appended last sets the TTL and nothing else. */
  lemma FlattenAppendTtl(e: seq<MongoIndex>, ttl: int)
    ensures FlattenSeq(e + [TtlIndex(ttl)]) == FlattenSeq(e).(ttl := Some(Int32Of(ttl)))
  {
  }

  /** flatten(expand(idx, ttl)) gives idx back as user indexes, no system
      indexes, and the TTL as it was sent (after the int32 conversion),
      provided every block has keys and a non-reserved first key. */
  lemma {:induction false} ExpandFlattenRoundTrip(idx: seq<IndexBlock>, defaultTtl: Option<int>)
    requires forall i :: 0 <= i < |idx| ==> Settable(idx[i])
    ensures Flatten(Some(ExpandIndexes(idx, defaultTtl))) ==
      FlattenedIndexes(idx, [], if defaultTtl.Some? then Some(Int32Of(defaultTtl.value)) else None)
  {
    FlattenExpandedBlocks(idx);
    if defaultTtl.Some? {
      assert ExpandIndexes(idx, defaultTtl) == ExpandIndexes(idx, None) + [TtlIndex(defaultTtl.value)];
      FlattenAppendTtl(ExpandIndexes(idx, None), defaultTtl.value);
    } else {
      assert ExpandIndexes(idx, defaultTtl) == ExpandIndexes(idx, None);
    }
  }

  /** From configuration back to state: `default_ttl_seconds` (at least -1 per
      the schema) comes back unchanged when positive and as no TTL otherwise,
      as long as it fits in an int32. */
  lemma {:induction false} ConfigRoundTrip(idx: seq<IndexBlock>, defaultTtlSeconds: int)
    requires forall i :: 0 <= i < |idx| ==> Settable(idx[i])
    requires -1 <= defaultTtlSeconds <= Int32Max
    ensures Flatten(Some(ExpandIndexes(idx, DefaultTtl(defaultTtlSeconds)))) ==
      FlattenedIndexes(idx, [], if defaultTtlSeconds > 0 then Some(defaultTtlSeconds) else None)
  {
    ExpandFlattenRoundTrip(idx, DefaultTtl(defaultTtlSeconds));
  }

  /** A `default_ttl_seconds` of 2^31 is sent as -2^31 by the int32 conversion. */
  lemma TtlBeyondInt32Wraps()
    ensures Flatten(Some(ExpandIndexes([], DefaultTtl(0x8000_0000)))).ttl == Some(Int32Min)
  {
  }

  /** A configured index whose first key is `_id` comes back as a unique system index. */
  lemma IdIndexComesBackAsSystemIndex(keys: seq<string>, unique: bool)
    requires |keys| > 0 && keys[0] == IdKey
    ensures Flatten(Some(ExpandIndexes([IndexBlock(keys, unique)], None))) ==
      FlattenedIndexes([], [IndexBlock(keys, true)], None)
  {
    var e := ExpandIndexes([IndexBlock(keys, unique)], None);
    assert e[..0] == [];
    assert e[0] == ExpandIndex(IndexBlock(keys, unique));
    assert RouteOf(e[0]) == System(IndexBlock(keys, true));
    assert FlattenSeq(e) == Absorb(FlattenSeq(e[..0]), RouteOf(e[0]));
  }
}

