/**
 * Relational tables as maps from a natural key to the rest of the row, and
 * the `INSERT ... ON CONFLICT (natural key) DO UPDATE` statement both
 * services use to persist fetched entities.  Three persistence policies
 * appear in the services: every row in its own try/catch (`UpsertEach`),
 * no catch at all, and one try around the whole loop (both `UpsertUntilFailure`).
 */
module Tables {

  /** One upsert: the natural key and the values of the other columns. */
  datatype Write<K, V> = Write(key: K, row: V)

  /** The conflict rule of a table whose `DO UPDATE` sets every non-key column. */
  function Overwrite<V>(stored: V, incoming: V): V
  {
    incoming
  }

  /** `INSERT ... ON CONFLICT (key) DO UPDATE`: a new key gets the row, an
      existing key gets `merge(stored, row)`; nothing else changes. */
  function Upsert<K, V>(t: map<K, V>, w: Write<K, V>, merge: (V, V) -> V): (r: map<K, V>)
    ensures r.Keys == t.Keys + {w.key}
    ensures forall k :: k in t && k != w.key ==> r[k] == t[k]
  {
    t[w.key := if w.key in t then merge(t[w.key], w.row) else w.row]
  }

  /** The keys written by the writes whose index is not in `failing`. */
  function WrittenKeys<K, V>(ws: seq<Write<K, V>>, failing: set<nat>): set<K>
  {
    set i | 0 <= i < |ws| && i !in failing :: ws[i].key
  }

  lemma WrittenKeysLast<K, V>(ws: seq<Write<K, V>>, failing: set<nat>)
    requires |ws| > 0
    ensures WrittenKeys(ws, failing) ==
            WrittenKeys(ws[..|ws| - 1], failing) + (if |ws| - 1 in failing then {} else {ws[|ws| - 1].key})
  {
    var n := |ws| - 1;
    var front := ws[..n];
    forall k | k in WrittenKeys(ws, failing)
      ensures k in WrittenKeys(front, failing) + (if n in failing then {} else {ws[n].key})
    {
      var i :| 0 <= i < |ws| && i !in failing && ws[i].key == k;
      if i < n {
        assert front[i] == ws[i];
      }
    }
    forall k | k in WrittenKeys(front, failing)
      ensures k in WrittenKeys(ws, failing)
    {
      var i :| 0 <= i < |front| && i !in failing && front[i].key == k;
      assert ws[i] == front[i];
    }
  }

  /** The writes applied in order, each inside its own try/catch: the ones
      whose index is in `failing` throw and are skipped, the others land. */
  function UpsertEach<K, V>(t: map<K, V>, ws: seq<Write<K, V>>, failing: set<nat>, merge: (V, V) -> V): (r: map<K, V>)
    ensures r.Keys == t.Keys + WrittenKeys(ws, failing)
    ensures forall k :: k in t && k !in WrittenKeys(ws, failing) ==> r[k] == t[k]
    decreases |ws|
  {
    if |ws| == 0 then t
    else
      var prior := UpsertEach(t, ws[..|ws| - 1], failing, merge);
      WrittenKeysLast(ws, failing);
      if |ws| - 1 in failing then prior else Upsert(prior, ws[|ws| - 1], merge)
  }

  /** One more step of the batch: the write at index `i` lands on the table the first `i` writes left, unless it throws. */
  lemma UpsertEachStep<K, V>(t: map<K, V>, ws: seq<Write<K, V>>, failing: set<nat>, merge: (V, V) -> V, i: nat)
    requires i < |ws|
    ensures UpsertEach(t, ws[..i + 1], failing, merge)
            == if i in failing then UpsertEach(t, ws[..i], failing, merge)
               else Upsert(UpsertEach(t, ws[..i], failing, merge), ws[i], merge)
  {
    assert ws[..i + 1][..i] == ws[..i];
  }

  /** The row a key holds after the batch is decided by its last successful
      write: that write's `Upsert` against the table as it stood just before it. */
  lemma {:induction false} UpsertEachLastWrite<K, V>(t: map<K, V>, ws: seq<Write<K, V>>, failing: set<nat>,
                                                     merge: (V, V) -> V, i: nat)
    requires i < |ws| && i !in failing
    requires forall j :: i < j < |ws| && j !in failing ==> ws[j].key != ws[i].key
    ensures ws[i].key in UpsertEach(t, ws, failing, merge)
    ensures UpsertEach(t, ws, failing, merge)[ws[i].key]
            == Upsert(UpsertEach(t, ws[..i], failing, merge), ws[i], merge)[ws[i].key]
    decreases |ws|
  {
    var n := |ws| - 1;
    var front := ws[..n];
    var k := ws[i].key;
    var prior := UpsertEach(t, front, failing, merge);
    assert UpsertEach(t, ws, failing, merge) == if n in failing then prior else Upsert(prior, ws[n], merge);
    if i < n {
      assert front[..i] == ws[..i];
      assert front[i] == ws[i];
      UpsertEachLastWrite(t, front, failing, merge, i);
      assert k in prior;
      if n !in failing {
        assert ws[n].key != k;
      }
    } else {
      assert front == ws[..i];
    }
  }

  /** For a table whose conflict rule overwrites, the last successful write of a key is what it holds. */
  lemma LastWriteWins<K, V>(t: map<K, V>, ws: seq<Write<K, V>>, failing: set<nat>, i: nat)
    requires i < |ws| && i !in failing
    requires forall j :: i < j < |ws| && j !in failing ==> ws[j].key != ws[i].key
    ensures UpsertEach(t, ws, failing, Overwrite)[ws[i].key] == ws[i].row
  {
    UpsertEachLastWrite(t, ws, failing, Overwrite, i);
  }

  /** With overwriting conflicts, a batch adds the map of its last successful writes to the table. */
  lemma {:induction false} UpsertEachOverlays<K, V>(t: map<K, V>, ws: seq<Write<K, V>>, failing: set<nat>)
    ensures UpsertEach(t, ws, failing, Overwrite) == t + UpsertEach(map[], ws, failing, Overwrite)
    decreases |ws|
  {
    if |ws| > 0 {
      UpsertEachOverlays(t, ws[..|ws| - 1], failing);
    }
  }

  /** Re-fetching the same list (with the same rows failing) leaves the table
      as the first fetch left it: rows are updated in place, never duplicated. */
  lemma RefetchIsIdempotent<K, V>(t: map<K, V>, ws: seq<Write<K, V>>, failing: set<nat>)
    ensures UpsertEach(UpsertEach(t, ws, failing, Overwrite), ws, failing, Overwrite)
            == UpsertEach(t, ws, failing, Overwrite)
  {
    var batch := UpsertEach(map[], ws, failing, Overwrite);
    UpsertEachOverlays(t, ws, failing);
    UpsertEachOverlays(t + batch, ws, failing);
    assert (t + batch) + batch == t + batch;
  }

  /** The index of the first of `n` writes that throws, or `n` when none does. */
  function FirstFailure(n: nat, failing: set<nat>): (i: nat)
    ensures i <= n
    ensures i < n ==> i in failing
    ensures forall j :: 0 <= j < i ==> j !in failing
    decreases n
  {
    if n == 0 then 0
    else
      var before := FirstFailure(n - 1, failing);
      if before < n - 1 then before else if n - 1 in failing then n - 1 else n
  }

  /** The writes applied in order until the first one throws; it and every later one are abandoned. */
  function UpsertUntilFailure<K, V>(t: map<K, V>, ws: seq<Write<K, V>>, failing: set<nat>, merge: (V, V) -> V): (r: map<K, V>)
    ensures r.Keys == t.Keys + WrittenKeys(ws[..FirstFailure(|ws|, failing)], {})
    ensures FirstFailure(|ws|, failing) == |ws| ==> r == UpsertEach(t, ws, failing, merge)
  {
    var stop := FirstFailure(|ws|, failing);
    if stop == |ws| then
      UpsertEachIgnoresUnusedFailures(t, ws, failing, merge);
      assert ws[..stop] == ws;
      UpsertEach(t, ws, {}, merge)
    else
      UpsertEach(t, ws[..stop], {}, merge)
  }

  /** The batch stops at `i` when the writes before it all land and `i` throws or is the end. */
  lemma UpsertUntilFailureStopsAt<K, V>(t: map<K, V>, ws: seq<Write<K, V>>, failing: set<nat>, merge: (V, V) -> V, i: nat)
    requires i <= |ws|
    requires forall j :: 0 <= j < i ==> j !in failing
    requires i == |ws| || i in failing
    ensures FirstFailure(|ws|, failing) == i
    ensures UpsertUntilFailure(t, ws, failing, merge) == UpsertEach(t, ws[..i], {}, merge)
  {
    assert ws[..|ws|] == ws;
  }

  /** One turn of a loop without a catch: when no write before `i` threw and
      write `i` does not throw, it lands on the table the earlier ones left. */
  lemma UpsertUntilFailureStep<K, V>(t: map<K, V>, ws: seq<Write<K, V>>, failing: set<nat>, merge: (V, V) -> V, i: nat)
    requires i < |ws| && FirstFailure(i, failing) == i && i !in failing
    ensures FirstFailure(i + 1, failing) == i + 1
    ensures UpsertEach(t, ws[..i + 1], {}, merge) == Upsert(UpsertEach(t, ws[..i], {}, merge), ws[i], merge)
  {
    UpsertEachStep(t, ws, {}, merge, i);
  }

  /** Failure indices that name no write change nothing. */
  lemma {:induction false} UpsertEachIgnoresUnusedFailures<K, V>(t: map<K, V>, ws: seq<Write<K, V>>, failing: set<nat>,
                                                                 merge: (V, V) -> V)
    requires forall j :: 0 <= j < |ws| ==> j !in failing
    ensures UpsertEach(t, ws, failing, merge) == UpsertEach(t, ws, {}, merge)
    decreases |ws|
  {
    if |ws| > 0 {
      UpsertEachIgnoresUnusedFailures(t, ws[..|ws| - 1], failing, merge);
    }
  }
}
