/**
 * The in-memory cache of QR module matrices: at most 100 entries, keyed by
 * a digest of `url + ":" + errorCorrectionLevel`, evicted in strict
 * insertion order (FIFO: reading an entry does not make it younger).
 *
 * The digest (md5 in the service) and the QR encoder are parameters: the
 * cache holds its digest function, and each lookup receives the encoder.
 * The encoder's result is normalised to a square boolean matrix.
 */
module MatrixCache {
  import opened Common

  const MaxCacheSize: nat := 100

  predicate IsSquare(m: seq<seq<bool>>) {
    forall r :: 0 <= r < |m| ==> |m[r]| == |m|
  }

  /** A module matrix: `m[row][col]` is true for a dark module. */
  type Matrix = m: seq<seq<bool>> | IsSquare(m) witness []

  /** What `QRCode.create` gives back: an object with `modules`, an object
      without them, or an exception. */
  datatype Encoding = Encoded(modules: Matrix) | NoModules | Threw

  datatype MatrixError =
    | InvalidQRObject   // "Invalid QR code object received"
    | EncoderFailed     // QRCode.create threw

  /** The text that `getMatrixCacheKey` hashes. */
  function KeyText(url: string, level: string): string {
    url + ":" + level
  }

  /** `getMatrixCacheKey(url, level)` for a given digest function. */
  function CacheKey(digest: string -> string, url: string, level: string): string {
    digest(KeyText(url, level))
  }

  /** For levels without `:` (such as L, M, Q, H) distinct requests hash
      distinct texts, so only a digest collision can share an entry. */
  lemma KeyTextInjective(u1: string, l1: string, u2: string, l2: string)
    requires ':' !in l1 && ':' !in l2
    requires KeyText(u1, l1) == KeyText(u2, l2)
    ensures u1 == u2 && l1 == l2
  {
    var s := KeyText(u1, l1);
    assert s[|u1|] == ':' && s[|u2|] == ':';
    assert u1 == s[..|u1|] && u2 == s[..|u2|];
    assert l1 == s[|u1| + 1..] && l2 == s[|u2| + 1..];
  }

  predicate Distinct(keys: seq<string>) {
    forall i, j :: 0 <= i < j < |keys| ==> keys[i] != keys[j]
  }

  /** The abstract cache: keys in insertion order, and the entries. */
  datatype CacheState = CacheState(order: seq<string>, entries: map<string, Matrix>)

  /** The cache invariant: `order` lists every key exactly once, and the
      cache holds at most `MaxCacheSize` entries. */
  ghost predicate Wf(st: CacheState) {
    && Distinct(st.order)
    && (forall k :: k in st.entries <==> k in st.order)
    && |st.order| <= MaxCacheSize
  }

  function SetOf(keys: seq<string>): set<string> {
    set k | k in keys
  }

  lemma {:induction false} DistinctCardinality(keys: seq<string>)
    requires Distinct(keys)
    ensures |SetOf(keys)| == |keys|
    decreases |keys|
  {
    if keys != [] {
      var init := keys[..|keys| - 1];
      var last := keys[|keys| - 1];
      DistinctCardinality(init);
      assert SetOf(keys) == SetOf(init) + {last};
      assert last !in SetOf(init);
    }
  }

  /** The map's size (`matrixCache.size`) is the length of the order. */
  lemma SizeIsLength(st: CacheState)
    requires Wf(st)
    ensures |st.entries| == |st.order|
  {
    DistinctCardinality(st.order);
    assert st.entries.Keys == SetOf(st.order);
  }

  /** Storing a new key: when the cache is full, first delete the key that
      was inserted earliest, then append the new one. */
  function Insert(st: CacheState, key: string, m: Matrix): (r: CacheState)
    requires Wf(st) && key !in st.entries
  {
    SizeIsLength(st);
    if |st.entries| >= MaxCacheSize then
      CacheState(st.order[1..] + [key], (st.entries - {st.order[0]})[key := m])
    else
      CacheState(st.order + [key], st.entries[key := m])
  }

  /** One call of `getQRCodeMatrix` on the abstract cache: a hit returns the
      stored matrix and changes nothing; a miss consults the encoder and
      stores its matrix, or fails and changes nothing. */
  function Fetch(st: CacheState, key: string, enc: Encoding): (res: (Result<Matrix, MatrixError>, CacheState))
    requires Wf(st)
    ensures Wf(res.1) && |res.1.entries| <= MaxCacheSize
    ensures res.0.Ok? ==> key in res.1.entries && res.1.entries[key] == res.0.value
    ensures res.0.Err? ==> res.1 == st && key !in st.entries
    ensures key in st.entries ==> res == (Ok(st.entries[key]), st)
    ensures key !in st.entries ==> (res.0.Ok? <==> enc.Encoded?)
    ensures key !in st.entries && enc.NoModules? ==> res.0 == Err(InvalidQRObject)
    ensures key !in st.entries && enc.Threw? ==> res.0 == Err(EncoderFailed)
    ensures key !in st.entries && enc.Encoded? ==> res.0.value == enc.modules
  {
    SizeIsLength(st);
    if key in st.entries then (Ok(st.entries[key]), st)
    else
      match enc
      case Encoded(m) =>
        InsertKeepsInvariant(st, key, m);
        (Ok(m), Insert(st, key, m))
      case NoModules => (Err(InvalidQRObject), st)
      case Threw => (Err(EncoderFailed), st)
  }

  /** Insertion keeps the invariant, so the bound of 100 entries holds
      after every insertion. */
  lemma InsertKeepsInvariant(st: CacheState, key: string, m: Matrix)
    requires Wf(st) && key !in st.entries
    ensures Wf(Insert(st, key, m))
    ensures |Insert(st, key, m).entries| <= MaxCacheSize
  {
    SizeIsLength(st);
    var r := Insert(st, key, m);
    var kept := if |st.entries| >= MaxCacheSize then st.order[1..] else st.order;
    assert r.order == kept + [key];
    assert forall i :: 0 <= i < |kept| ==> kept[i] in st.order;
    assert Distinct(r.order) by {
      forall i, j | 0 <= i < j < |r.order| ensures r.order[i] != r.order[j] {
        if j == |kept| { assert r.order[i] == kept[i]; }
      }
    }
    SizeIsLength(r);
  }

  /** A miss on a full cache removes exactly the earliest-inserted key,
      keeps every other entry, and appends the new key last. */
  lemma FullMissEvictsOldest(st: CacheState, key: string, m: Matrix)
    requires Wf(st) && key !in st.entries && |st.order| == MaxCacheSize
    ensures var r := Fetch(st, key, Encoded(m)).1;
      && r.order == st.order[1..] + [key]
      && r.entries.Keys == st.entries.Keys - {st.order[0]} + {key}
      && (forall k :: k in st.entries && k != st.order[0] ==> r.entries[k] == st.entries[k])
      && r.entries[key] == m
  {
    SizeIsLength(st);
  }

  /** A miss on a cache that is not full only appends. */
  lemma MissAppends(st: CacheState, key: string, m: Matrix)
    requires Wf(st) && key !in st.entries && |st.order| < MaxCacheSize
    ensures var r := Fetch(st, key, Encoded(m)).1;
      && r.order == st.order + [key]
      && r.entries == st.entries[key := m]
  {
    SizeIsLength(st);
  }

  /** Memoisation: once a request succeeded, asking again returns the very
      same matrix, without change, whatever the encoder would now say. */
  lemma FetchMemoizes(st: CacheState, key: string, e1: Encoding, e2: Encoding)
    requires Wf(st)
    requires Fetch(st, key, e1).0.Ok?
    ensures var (r1, st1) := Fetch(st, key, e1);
      Fetch(st1, key, e2) == (r1, st1)
  {
  }

  /** FIFO, not LRU: reading the oldest entry of a full cache does not save
      it from the next eviction. */
  lemma ReadDoesNotProtect(st: CacheState, key: string, e: Encoding, newKey: string, m: Matrix)
    requires Wf(st) && |st.order| == MaxCacheSize
    requires key == st.order[0] && newKey !in st.entries
    ensures var st1 := Fetch(st, key, e).1;
      && st1 == st
      && key !in Fetch(st1, newKey, Encoded(m)).1.entries
  {
    SizeIsLength(st);
    var r := Fetch(st, newKey, Encoded(m)).1;
    assert r.order == st.order[1..] + [newKey];
    assert key !in st.order[1..] by {
      forall i | 0 <= i < |st.order| - 1 ensures st.order[1..][i] != key {
        assert st.order[1..][i] == st.order[i + 1];
      }
    }
  }

  /** The process-wide matrix cache of the service. */
  class Cache {
    const digest: string -> string
    var order: seq<string>
    var entries: map<string, Matrix>
    /** How often the encoder has been consulted. */
    ghost var encoderCalls: nat

    ghost predicate Valid()
      reads this
    {
      Wf(CacheState(order, entries))
    }

    function State(): CacheState
      reads this
    {
      CacheState(order, entries)
    }

    constructor (digest: string -> string)
      ensures Valid() && this.digest == digest
      ensures State() == CacheState([], map[]) && encoderCalls == 0
    {
      this.digest := digest;
      order := [];
      entries := map[];
      encoderCalls := 0;
    }

    /** `getQRCodeMatrix(url, errorCorrectionLevel)` with the encoder
        `QRCode.create` as `encode`. */
    method GetQRCodeMatrix(url: string, level: string, encode: (string, string) -> Encoding)
      returns (r: Result<Matrix, MatrixError>)
      requires Valid()
      modifies this
      ensures Valid()
      ensures (r, State()) == Fetch(old(State()), CacheKey(digest, url, level), encode(url, level))
      ensures encoderCalls == old(encoderCalls) + if CacheKey(digest, url, level) in old(entries) then 0 else 1
    {
      var key := CacheKey(digest, url, level);
      if key in entries {
        return Ok(entries[key]);
      }
      var qr := encode(url, level);
      encoderCalls := encoderCalls + 1;
      if !qr.Encoded? {
        return Err(if qr.NoModules? then InvalidQRObject else EncoderFailed);
      }
      SizeIsLength(State());
      InsertKeepsInvariant(State(), key, qr.modules);
      if |entries| >= MaxCacheSize {
        var first := order[0];
        entries := entries - {first};
        order := order[1..];
      }
      entries := entries[key := qr.modules];
      order := order + [key];
      r := Ok(qr.modules);
    }
  }
}
