/** embed_texts and _parse_vectors of app/services/embeddings.py: any payload that passes the checks
    covers every index, so the batched vectors are those of the texts, in input order. */
module Embeddings {
  import opened Wrappers

  const EMBEDDING_BATCH_SIZE: nat := 20

  /** A number of the provider's JSON; `convertible` says that float() does not overflow. */
  datatype RawNumber = NotANumber | RawNumber(value: real, convertible: bool, finite: bool)

  type Vector = seq<real>

  /** One entry of the data list. */
  datatype Item =
    | NotAnObject
    | Item(index: Option<int>, embedding: Option<seq<RawNumber>>)

  datatype Error = InvalidCount | InvalidItem | InvalidIndex | WrongDimension | NotNumeric | InvalidVector | NotFinite
    | RequestFailed

  // ---- One vector ----

  predicate Numeric(raw: seq<RawNumber>) {
    forall i :: 0 <= i < |raw| ==> raw[i].RawNumber? && raw[i].convertible && raw[i].finite
  }

  function Floats(raw: seq<RawNumber>): (v: Vector)
    requires Numeric(raw)
    ensures |v| == |raw|
  {
    seq(|raw|, i requires 0 <= i < |raw| => raw[i].value)
  }

  /** An item that passes all checks that do not concern the other items. */
  predicate ItemOk(item: Item, count: nat, dimension: nat) {
    && item.Item? && item.index.Some? && 0 <= item.index.value < count
    && item.embedding.Some? && |item.embedding.value| == dimension && Numeric(item.embedding.value)
  }

  function IndexOf(item: Item): int {
    if item.Item? && item.index.Some? then item.index.value else -1
  }

  predicate DifferentIndexes(items: seq<Item>, n: nat)
    requires n <= |items|
  {
    forall i, j :: 0 <= i < j < n ==> IndexOf(items[i]) != IndexOf(items[j])
  }

  predicate PayloadOk(items: seq<Item>, count: nat, dimension: nat) {
    && |items| == count
    && (forall i :: 0 <= i < |items| ==> ItemOk(items[i], count, dimension))
    && DifferentIndexes(items, |items|)
  }

  /** One of the first n items has index k and vector v. */
  predicate Places(items: seq<Item>, n: nat, count: nat, dimension: nat, k: int, v: Vector)
    requires n <= |items|
  {
    exists i :: 0 <= i < n && ItemOk(items[i], count, dimension) && IndexOf(items[i]) == k
      && v == Floats(items[i].embedding.value)
  }

  ghost predicate AllSeen(items: seq<Item>, n: nat, count: nat, dimension: nat, vectors: map<int, Vector>)
    requires n <= |items|
  {
    forall i :: 0 <= i < n ==> ItemOk(items[i], count, dimension) && IndexOf(items[i]) in vectors
  }

  ghost predicate AllPlaced(items: seq<Item>, n: nat, count: nat, dimension: nat, vectors: map<int, Vector>)
    requires n <= |items|
  {
    forall k <- vectors :: 0 <= k < count && Places(items, n, count, dimension, k, vectors[k])
  }

  /** The loop so far: exactly the seen indexes, each with its vector. */
  ghost predicate Indexed(items: seq<Item>, n: nat, count: nat, dimension: nat, vectors: map<int, Vector>)
    requires n <= |items|
  {
    && AllSeen(items, n, count, dimension, vectors) && DifferentIndexes(items, n)
    && AllPlaced(items, n, count, dimension, vectors) && |vectors| == n
  }

  // ---- Coverage ----

  function Below(n: nat): (s: set<int>)
    ensures |s| == n && forall k :: k in s <==> 0 <= k < n
  {
    if n == 0 then {} else Below(n - 1) + {n - 1}
  }

  lemma SubsetSize(a: set<int>, b: set<int>)
    requires a <= b
    ensures |a| <= |b| && (|a| == |b| ==> a == b)
  {
    assert b == a + (b - a);
    assert |b| == |a| + |b - a|;
  }

  /** As many different indexes as there are places cover every place. */
  lemma AllCovered(vectors: map<int, Vector>, count: nat)
    requires |vectors| == count && forall k <- vectors :: 0 <= k < count
    ensures forall k :: 0 <= k < count ==> k in vectors
  {
    assert vectors.Keys <= Below(count);
    SubsetSize(vectors.Keys, Below(count));
  }

  // ---- Parsing ----

  /** Each error of an item is raised for its own reason. */
  predicate ItemErrorFits(error: Error, item: Item, count: nat, dimension: nat, seen: set<int>) {
    match error
    case InvalidItem => item.NotAnObject?
    case InvalidIndex =>
      item.Item? && (item.index.None? || !(0 <= item.index.value < count) || item.index.value in seen)
    case WrongDimension => item.Item? && (item.embedding.None? || |item.embedding.value| != dimension)
    case NotNumeric => item.Item? && item.embedding.Some? && exists x <- item.embedding.value :: x.NotANumber?
    case InvalidVector =>
      item.Item? && item.embedding.Some? && exists x <- item.embedding.value :: x.RawNumber? && !x.convertible
    case NotFinite => item.Item? && item.embedding.Some? && exists x <- item.embedding.value :: x.RawNumber? && !x.finite
    case _ => false
  }

  /** The checks of one item, in the source's order. */
  method CheckItem(item: Item, count: nat, dimension: nat, seen: set<int>) returns (r: Result<(int, Vector), Error>)
    ensures r.Ok? <==> ItemOk(item, count, dimension) && item.index.value !in seen
    ensures r.Ok? ==> r.value == (item.index.value, Floats(item.embedding.value))
    ensures r.Err? ==> ItemErrorFits(r.error, item, count, dimension, seen)
  {
    if item.NotAnObject? { return Err(InvalidItem); }
    if item.index.None? || !(0 <= item.index.value < count) || item.index.value in seen { return Err(InvalidIndex); }
    if item.embedding.None? || |item.embedding.value| != dimension { return Err(WrongDimension); }
    var raw := item.embedding.value;
    if exists i :: 0 <= i < |raw| && raw[i].NotANumber? { return Err(NotNumeric); }
    if exists i :: 0 <= i < |raw| && !raw[i].convertible { return Err(InvalidVector); }
    if exists i :: 0 <= i < |raw| && !raw[i].finite { return Err(NotFinite); }
    return Ok((item.index.value, Floats(raw)));
  }

  lemma NothingIndexed(items: seq<Item>, count: nat, dimension: nat)
    ensures Indexed(items, 0, count, dimension, map[])
  {
  }

  lemma IndexedNext(items: seq<Item>, n: nat, count: nat, dimension: nat, vectors: map<int, Vector>, k: int, v: Vector)
    requires n < |items| && Indexed(items, n, count, dimension, vectors)
    requires ItemOk(items[n], count, dimension) && IndexOf(items[n]) == k && 0 <= k < count && k !in vectors
    requires Places(items, n + 1, count, dimension, k, v)
    ensures Indexed(items, n + 1, count, dimension, vectors[k := v])
  {
    hide ItemOk, IndexOf, AllSeen, AllPlaced, DifferentIndexes, Places;
    SeenNext(items, n, count, dimension, vectors, k, v);
    DifferentNext(items, n, count, dimension, vectors);
    PlacedNext(items, n, count, dimension, vectors, k, v);
    assert vectors[k := v].Keys == vectors.Keys + {k};
  }

  lemma SeenNext(items: seq<Item>, n: nat, count: nat, dimension: nat, vectors: map<int, Vector>, k: int, v: Vector)
    requires n < |items| && AllSeen(items, n, count, dimension, vectors)
    requires ItemOk(items[n], count, dimension) && IndexOf(items[n]) == k
    ensures AllSeen(items, n + 1, count, dimension, vectors[k := v])
  {
  }

  lemma PlacedNext(items: seq<Item>, n: nat, count: nat, dimension: nat, vectors: map<int, Vector>, k: int, v: Vector)
    requires n < |items| && AllPlaced(items, n, count, dimension, vectors)
    requires 0 <= k < count && Places(items, n + 1, count, dimension, k, v)
    ensures AllPlaced(items, n + 1, count, dimension, vectors[k := v])
  {
    hide Places;
    forall x | x in vectors ensures Places(items, n + 1, count, dimension, x, vectors[x]) {
      StaysPlaced(items, n, count, dimension, x, vectors[x]);
    }
  }

  lemma StaysPlaced(items: seq<Item>, n: nat, count: nat, dimension: nat, k: int, v: Vector)
    requires n < |items| && Places(items, n, count, dimension, k, v)
    ensures Places(items, n + 1, count, dimension, k, v)
  {
  }

  lemma DifferentNext(items: seq<Item>, n: nat, count: nat, dimension: nat, vectors: map<int, Vector>)
    requires n < |items| && DifferentIndexes(items, n) && AllSeen(items, n, count, dimension, vectors)
    requires IndexOf(items[n]) !in vectors
    ensures DifferentIndexes(items, n + 1)
  {
  }

  lemma Placed(items: seq<Item>, n: nat, count: nat, dimension: nat)
    requires n < |items| && ItemOk(items[n], count, dimension)
    ensures 0 <= items[n].index.value < count && IndexOf(items[n]) == items[n].index.value
    ensures Places(items, n + 1, count, dimension, items[n].index.value, Floats(items[n].embedding.value))
  {
  }

  lemma Refuses(items: seq<Item>, n: nat, count: nat, dimension: nat, vectors: map<int, Vector>)
    requires n < |items| && Indexed(items, n, count, dimension, vectors)
    requires !(ItemOk(items[n], count, dimension) && items[n].index.value !in vectors)
    ensures !PayloadOk(items, count, dimension)
  {
    hide Numeric;
    if ItemOk(items[n], count, dimension) {
      assert Places(items, n, count, dimension, items[n].index.value, vectors[items[n].index.value]);
    }
  }

  lemma AllIndexed(items: seq<Item>, count: nat, dimension: nat, vectors: map<int, Vector>)
    requires |items| == count && Indexed(items, count, count, dimension, vectors)
    ensures PayloadOk(items, count, dimension)
    ensures forall k :: 0 <= k < count ==> k in vectors && Places(items, count, count, dimension, k, vectors[k])
  {
    hide Numeric, ItemOk, Places;
    AllCovered(vectors, count);
  }

  /** _parse_vectors: accepts exactly the payloads with one good item per index, and puts each vector at
      its index. */
  method ParseVectors(data: Option<seq<Item>>, count: nat, dimension: nat) returns (r: Result<seq<Vector>, Error>)
    ensures r.Ok? <==> data.Some? && PayloadOk(data.value, count, dimension)
    ensures r.Ok? ==> |r.value| == count
    ensures r.Ok? ==> forall k :: 0 <= k < count ==> Places(data.value, count, count, dimension, k, r.value[k])
    ensures r == Err(InvalidCount) <==> data.None? || |data.value| != count
    ensures r != Err(RequestFailed)
  {
    hide Indexed, Places, ItemOk;
    if data.None? || |data.value| != count { return Err(InvalidCount); }
    var items := data.value;
    var indexed: map<int, Vector> := map[];
    NothingIndexed(items, count, dimension);
    for n := 0 to |items|
      invariant Indexed(items, n, count, dimension, indexed)
    {
      var checked := CheckItem(items[n], count, dimension, indexed.Keys);
      if checked.Err? {
        Refuses(items, n, count, dimension, indexed);
        return Err(checked.error);
      }
      Placed(items, n, count, dimension);
      IndexedNext(items, n, count, dimension, indexed, checked.value.0, checked.value.1);
      indexed := indexed[checked.value.0 := checked.value.1];
    }
    AllIndexed(items, count, dimension, indexed);
    return Ok(seq(count, k requires 0 <= k < count && k in indexed => indexed[k]));
  }

  // ---- Batches ----

  /** What the provider answers to a batch: nothing if the request fails. */
  type Provider = seq<string> -> Option<Option<seq<Item>>>

  /** The vector of a text at place k of a batch whose payload passes the checks. */
  predicate VectorFor(provider: Provider, batch: seq<string>, k: nat, dimension: nat, v: Vector) {
    && provider(batch).Some? && provider(batch).value.Some?
    && PayloadOk(provider(batch).value.value, |batch|, dimension)
    && Places(provider(batch).value.value, |batch|, |batch|, dimension, k, v)
  }

  /** The batch that holds the i-th text. */
  function BatchOf(texts: seq<string>, i: nat): (batch: seq<string>)
    requires i < |texts|
    ensures i % EMBEDDING_BATCH_SIZE < |batch| <= EMBEDDING_BATCH_SIZE && batch[i % EMBEDDING_BATCH_SIZE] == texts[i]
  {
    var start := i - i % EMBEDDING_BATCH_SIZE;
    Batch(texts, start)
  }

  function Batch(texts: seq<string>, start: nat): (batch: seq<string>)
    requires start <= |texts|
    ensures |batch| == if |texts| - start < EMBEDDING_BATCH_SIZE then |texts| - start else EMBEDDING_BATCH_SIZE
    ensures forall k :: 0 <= k < |batch| ==> batch[k] == texts[start + k]
  {
    if |texts| - start < EMBEDDING_BATCH_SIZE then texts[start..] else texts[start..start + EMBEDDING_BATCH_SIZE]
  }

  /** The first n vectors are those of the first n texts, each from its own batch at its own place. */
  ghost predicate Embedded(provider: Provider, texts: seq<string>, dimension: nat, n: nat, vectors: seq<Vector>)
    requires n <= |texts|
  {
    |vectors| == n && forall i :: 0 <= i < n ==>
      VectorFor(provider, BatchOf(texts, i), i % EMBEDDING_BATCH_SIZE, dimension, vectors[i])
  }

  lemma PlaceInBatch(start: nat, k: nat)
    requires start % EMBEDDING_BATCH_SIZE == 0 && k < EMBEDDING_BATCH_SIZE
    ensures (start + k) % EMBEDDING_BATCH_SIZE == k
  {
  }

  lemma BatchEmbedded(provider: Provider, texts: seq<string>, dimension: nat, start: nat, vectors: seq<Vector>,
                      more: seq<Vector>)
    requires start <= |texts| && start % EMBEDDING_BATCH_SIZE == 0
    requires Embedded(provider, texts, dimension, start, vectors)
    requires |more| == |Batch(texts, start)|
    requires forall k :: 0 <= k < |more| ==> VectorFor(provider, Batch(texts, start), k, dimension, more[k])
    ensures Embedded(provider, texts, dimension, start + |more|, vectors + more)
  {
    hide VectorFor;
    var all := vectors + more;
    forall i | 0 <= i < start + |more|
      ensures VectorFor(provider, BatchOf(texts, i), i % EMBEDDING_BATCH_SIZE, dimension, all[i])
    {
      if i < start {
        assert all[i] == vectors[i];
      } else {
        PlaceInBatch(start, i - start);
        assert all[i] == more[i - start];
      }
    }
  }

  /** embed_texts: all texts in order, or an error. */
  method EmbedTexts(texts: seq<string>, provider: Provider, dimension: nat) returns (r: Result<seq<Vector>, Error>)
    ensures r.Ok? ==> Embedded(provider, texts, dimension, |texts|, r.value)
    ensures r.Err? ==> exists start: nat :: start < |texts| && RefusedAt(provider, texts, start, dimension)
                                            && (r.error == RequestFailed <==> provider(Batch(texts, start)).None?)
  {
    var vectors: seq<Vector> := [];
    var start: nat := 0;
    while start < |texts|
      invariant start % EMBEDDING_BATCH_SIZE == 0
      invariant Embedded(provider, texts, dimension, if start < |texts| then start else |texts|, vectors)
      decreases |texts| - start
    {
      var batch := Batch(texts, start);
      var response := provider(batch);
      if response.None? {
        assert RefusedAt(provider, texts, start, dimension);
        return Err(RequestFailed);
      }
      var parsed := ParseVectors(response.value, |batch|, dimension);
      if parsed.Err? {
        assert RefusedAt(provider, texts, start, dimension);
        return Err(parsed.error);
      }
      BatchEmbedded(provider, texts, dimension, start, vectors, parsed.value);
      vectors := vectors + parsed.value;
      start := start + EMBEDDING_BATCH_SIZE;
    }
    return Ok(vectors);
  }

  /** The request for a batch fails, or its payload does not pass the checks. */
  predicate Refused(provider: Provider, batch: seq<string>, dimension: nat) {
    provider(batch).None? || provider(batch).value.None? || !PayloadOk(provider(batch).value.value, |batch|, dimension)
  }

  predicate RefusedAt(provider: Provider, texts: seq<string>, start: nat, dimension: nat) {
    start <= |texts| && start % EMBEDDING_BATCH_SIZE == 0 && Refused(provider, Batch(texts, start), dimension)
  }

  /** Each place of a payload has one vector only, so the result is determined by the provider's answers. */
  lemma VectorIsUnique(items: seq<Item>, count: nat, dimension: nat, k: int, v: Vector, w: Vector)
    requires PayloadOk(items, count, dimension)
    requires Places(items, count, count, dimension, k, v) && Places(items, count, count, dimension, k, w)
    ensures v == w
  {
    var i :| 0 <= i < count && ItemOk(items[i], count, dimension) && IndexOf(items[i]) == k
      && v == Floats(items[i].embedding.value);
    var j :| 0 <= j < count && ItemOk(items[j], count, dimension) && IndexOf(items[j]) == k
      && w == Floats(items[j].embedding.value);
    assert i < j || j < i || i == j;
  }

  /** If the provider embeds every text on its own, and passes the checks, the result is the per-text map. */
  lemma BatchingIsTransparent(provider: Provider, texts: seq<string>, dimension: nat, vectors: seq<Vector>,
                              embedding: string -> Vector)
    requires Embedded(provider, texts, dimension, |texts|, vectors)
    requires forall batch: seq<string>, k: nat, v: Vector ::
               k < |batch| && VectorFor(provider, batch, k, dimension, v) ==> v == embedding(batch[k])
    ensures vectors == seq(|texts|, i requires 0 <= i < |texts| => embedding(texts[i]))
  {
    hide VectorFor;
    forall i | 0 <= i < |texts| ensures vectors[i] == embedding(texts[i]) {
      assert VectorFor(provider, BatchOf(texts, i), i % EMBEDDING_BATCH_SIZE, dimension, vectors[i]);
    }
  }
}
