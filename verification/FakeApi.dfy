/** The keyset listing of the API the no-skip theorem is about. */
module FakeApi {
  import opened Store
  import opened Polling
  import T = Timestamp

  /** `rows` is the dataset sorted by stamp, ties by id; ids are distinct. */
  ghost predicate SortedByTs(cfg: Config, rows: seq<Item>) {
    forall i, j :: 0 <= i < j < |rows| ==>
      KeyLe(cfg, Ts(cfg, rows[i]), cfg.p.identity(rows[i]),
            rows[j]) && cfg.p.identity(rows[i]) != cfg.p.identity(rows[j])
  }

  ghost predicate Lists(cfg: Config, rows: seq<Item>, api: map<string, Item>) {
    && (forall x :: x in rows ==> cfg.p.identity(x) in api && api[cfg.p.identity(x)] == x)
    && (forall id :: id in api ==> api[id] in rows && cfg.p.identity(api[id]) == id)
  }

  predicate Selects(cfg: Config, from: Cursor, x: Item) { After(cfg, from, Ts(cfg, x), cfg.p.identity(x)) }

  /** A listing from a keyset returns at most `size` rows, leaves no gap, and says whether rows are left. */
  method ListSince(cfg: Config, ghost api: map<string, Item>, rows: seq<Item>, from: Cursor, size: nat)
    returns (items: seq<Item>, hasMore: bool)
    requires size >= 1 && T.WellFormed(cfg.ts, from) && SortedByTs(cfg, rows) && Lists(cfg, rows, api)
    requires forall a, b :: cfg.idLe(a, b) && cfg.idLe(b, a) ==> a == b
    ensures IsPage(cfg, api, from, items) && |items| <= size
    ensures hasMore ==> |items| == size && exists id :: id in api && Selects(cfg, from, api[id]) && api[id] !in items
    ensures !hasMore ==> forall id :: id in api && Selects(cfg, from, api[id]) ==> api[id] in items
  {
    var since := T.MarkOf(cfg.ts, from);
    items, hasMore := [], false;
    var i := 0;
    while i < |rows|
      invariant 0 <= i <= |rows| && !hasMore && |items| <= size
      invariant forall x :: x in items <==> x in rows[..i] && Selects(cfg, from, x)
    {
      var row := rows[i];
      var ts := Ts(cfg, row);
      if since.ms.Some? && ts < since.ms.value { i := i + 1; continue; }
      if since.tie.Some? && since.ms.Some? && ts == since.ms.value && cfg.idLe(cfg.p.identity(row), since.tie.value) {
        i := i + 1;
        continue;
      }
      if |items| == size {
        hasMore := true;
        assert row !in rows[..i] && api[cfg.p.identity(row)] == row;
        break;
      }
      items := items + [row];
      i := i + 1;
    }
    PrefixIsPage(cfg, api, rows, i, from, items);
    if !hasMore { assert rows[..i] == rows; }
  }

  /** A later row of the dataset is not before an earlier one. */
  lemma NotBefore(cfg: Config, rows: seq<Item>, j: nat, k: nat)
    requires SortedByTs(cfg, rows) && j < k < |rows|
    requires forall a, b :: cfg.idLe(a, b) && cfg.idLe(b, a) ==> a == b
    ensures !KeyLe(cfg, Ts(cfg, rows[k]), cfg.p.identity(rows[k]), rows[j])
  {
    assert KeyLe(cfg, Ts(cfg, rows[j]), cfg.p.identity(rows[j]), rows[k]);
  }

  lemma PrefixIsPage(cfg: Config, api: map<string, Item>, rows: seq<Item>, i: nat, from: Cursor, items: seq<Item>)
    requires i <= |rows| && SortedByTs(cfg, rows) && Lists(cfg, rows, api)
    requires forall a, b :: cfg.idLe(a, b) && cfg.idLe(b, a) ==> a == b
    requires forall x :: x in items <==> x in rows[..i] && Selects(cfg, from, x)
    ensures IsPage(cfg, api, from, items)
  {
    assert forall x :: x in items ==> x in rows;
    forall id, x | id in api && x in items && After(cfg, from, Ts(cfg, api[id]), id) &&
        KeyLe(cfg, Ts(cfg, api[id]), id, x)
      ensures api[id] in items
    {
      var k :| 0 <= k < |rows| && rows[k] == api[id];
      var j :| 0 <= j < i && rows[j] == x;
      if j < k { NotBefore(cfg, rows, j, k); }
      assert api[id] in rows[..i];
    }
  }
}
