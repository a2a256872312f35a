/** The customer database: its four tables as in-memory sequences of rows (standing for
    the SQLite tables in no particular order), seeding as primary-key upsert, and the list of
    customer ids shown in the picker. */
module Store {
  import opened Values
  import opened Ordering
  import opened Seqs

  /** A row of `customer_profile_org`. */
  datatype OrgRow = OrgRow(
    customerId: string, industry: Value, financialNeeds: Value, preferences: Value,
    revenueInDollars: Value, noOfEmployees: Value)

  /** A row of `customer_profile_ind`. */
  datatype IndRow = IndRow(
    customerId: string, age: Value, gender: Value, location: Value, interests: Value,
    preferences: Value, incomePerYear: Value, education: Value, occupation: Value)

  /** A row of `social_media_sentiment`; its primary key is (customer id, post id). */
  datatype SentimentRow = SentimentRow(
    customerId: string, postId: string, platform: Value, content: Value, timestamp: Value,
    sentimentScore: Value, intent: Value)

  /** A row of `transaction_history`; its primary key is (customer id, product id). */
  datatype TransactionRow = TransactionRow(
    customerId: string, productId: int, transactionType: Value, category: Value,
    amountInDollars: Value, purchaseDate: Value, paymentMode: Value)

  /** The four tables. */
  datatype Db = Db(
    org: seq<OrgRow>, ind: seq<IndRow>, sentiment: seq<SentimentRow>,
    transactions: seq<TransactionRow>)

  function OrgKey(r: OrgRow): string { r.customerId }
  function IndKey(r: IndRow): string { r.customerId }
  function SentimentKey(r: SentimentRow): (string, string) { (r.customerId, r.postId) }
  function TransactionKey(r: TransactionRow): (string, int) { (r.customerId, r.productId) }

  /** The primary keys present in a table. */
  function KeySet<R, K>(t: seq<R>, key: R -> K): set<K> {
    set i | 0 <= i < |t| :: key(t[i])
  }

  /** The primary-key constraint: no key occurs twice. */
  predicate UniqueKeys<R, K(==)>(t: seq<R>, key: R -> K) {
    forall i, j :: 0 <= i < j < |t| ==> key(t[i]) != key(t[j])
  }

  /** The rows of `t` whose key is not in `ks`, in their order. */
  function Without<R, K(==)>(t: seq<R>, key: R -> K, ks: set<K>): (r: seq<R>)
    ensures forall i :: 0 <= i < |r| ==> key(r[i]) !in ks && key(r[i]) in KeySet(t, key)
    ensures UniqueKeys(t, key) ==> UniqueKeys(r, key)
  {
    if t == [] then []
    else
      var rest := Without(t[1..], key, ks);
      assert forall i :: 0 <= i < |rest| ==> key(rest[i]) in KeySet(t, key) by {
        forall i | 0 <= i < |rest| ensures key(rest[i]) in KeySet(t, key) {
          var j :| 0 <= j < |t[1..]| && key(t[1..][j]) == key(rest[i]);
          assert t[1..][j] == t[j + 1];
        }
      }
      assert UniqueKeys(t, key) ==> key(t[0]) !in KeySet(t[1..], key) by {
        if UniqueKeys(t, key) {
          forall j | 0 <= j < |t| - 1 ensures key(t[1..][j]) != key(t[0]) {
            assert t[1..][j] == t[j + 1];
          }
        }
      }
      assert UniqueKeys(t, key) ==> UniqueKeys(t[1..], key) by {
        if UniqueKeys(t, key) {
          forall i, j | 0 <= i < j < |t| - 1 ensures key(t[1..][i]) != key(t[1..][j]) {
            assert t[1..][i] == t[i + 1] && t[1..][j] == t[j + 1];
          }
        }
      }
      (if key(t[0]) in ks then [] else [t[0]]) + rest
  }

  /** `INSERT OR REPLACE` of one row: SQLite deletes the row holding the same primary key,
      if there is one, and inserts the new row after all others. */
  function Upsert<R, K(==)>(t: seq<R>, key: R -> K, row: R): (r: seq<R>)
    ensures |r| >= 1 && r[|r| - 1] == row
    ensures KeySet(r, key) == KeySet(Without(t, key, {key(row)}), key) + {key(row)}
    ensures UniqueKeys(t, key) ==> UniqueKeys(r, key)
    ensures r[..|r| - 1] == Without(t, key, {key(row)})
  {
    var kept := Without(t, key, {key(row)});
    var r := kept + [row];
    assert r[..|r| - 1] == kept;
    assert KeySet(r, key) == KeySet(kept, key) + {key(row)} by {
      forall k | k in KeySet(r, key) ensures k in KeySet(kept, key) + {key(row)} {
        var i :| 0 <= i < |r| && key(r[i]) == k;
        if i < |kept| {
          assert r[i] == kept[i];
        }
      }
      forall k | k in KeySet(kept, key) ensures k in KeySet(r, key) {
        var i :| 0 <= i < |kept| && key(kept[i]) == k;
        assert r[i] == kept[i];
      }
      assert key(r[|kept|]) == key(row);
    }
    r
  }

  /** `executemany('INSERT OR REPLACE ...', rows)`: the rows are upserted one after another. */
  function UpsertAll<R, K(==)>(t: seq<R>, key: R -> K, rows: seq<R>): seq<R>
    decreases |rows|
  {
    if rows == [] then t else UpsertAll(Upsert(t, key, rows[0]), key, rows[1..])
  }

  lemma {:induction false} WithoutConcat<R, K>(a: seq<R>, b: seq<R>, key: R -> K, ks: set<K>)
    ensures Without(a + b, key, ks) == Without(a, key, ks) + Without(b, key, ks)
  {
    if a == [] {
      assert a + b == b;
    } else {
      var head := if key(a[0]) in ks then [] else [a[0]];
      ConcatTail(a, b);
      WithoutConcat(a[1..], b, key, ks);
      ConcatAssoc(head, Without(a[1..], key, ks), Without(b, key, ks));
    }
  }

  lemma {:induction false} WithoutTwice<R, K>(t: seq<R>, key: R -> K, ks: set<K>, ls: set<K>)
    ensures Without(Without(t, key, ks), key, ls) == Without(t, key, ks + ls)
  {
    if t != [] {
      var rest := Without(t[1..], key, ks);
      var head := if key(t[0]) in ks then [] else [t[0]];
      assert Without(t, key, ks) == head + rest;
      WithoutConcat(head, rest, key, ls);
      WithoutTwice(t[1..], key, ks, ls);
    }
  }

  /** The rows kept are rows of the table, and every row whose key is not removed is kept. */
  lemma {:induction false} WithoutMembers<R, K>(t: seq<R>, key: R -> K, ks: set<K>)
    ensures forall i :: 0 <= i < |Without(t, key, ks)| ==> Without(t, key, ks)[i] in t
    ensures forall i :: 0 <= i < |t| && key(t[i]) !in ks ==> t[i] in Without(t, key, ks)
  {
    if t != [] {
      var rest := Without(t[1..], key, ks);
      var head := if key(t[0]) in ks then [] else [t[0]];
      WithoutMembers(t[1..], key, ks);
      assert Without(t, key, ks) == head + rest;
      forall i | 0 <= i < |head + rest| ensures (head + rest)[i] in t {
        if i >= |head| {
          assert (head + rest)[i] == rest[i - |head|];
        }
      }
      forall i | 0 <= i < |t| && key(t[i]) !in ks ensures t[i] in head + rest {
        if i > 0 {
          assert t[i] == t[1..][i - 1];
        }
      }
    }
  }

  /** Removing keys a table does not hold changes nothing. */
  lemma {:induction false} WithoutAbsent<R, K>(t: seq<R>, key: R -> K, ks: set<K>)
    requires forall i :: 0 <= i < |t| ==> key(t[i]) !in ks
    ensures Without(t, key, ks) == t
  {
    if t != [] {
      assert forall i :: 0 <= i < |t[1..]| ==> t[1..][i] == t[i + 1];
      WithoutAbsent(t[1..], key, ks);
    }
  }

  /** Removing every key a table holds leaves nothing. */
  lemma {:induction false} WithoutAll<R, K>(t: seq<R>, key: R -> K, ks: set<K>)
    requires KeySet(t, key) <= ks
    ensures Without(t, key, ks) == []
  {
    if t != [] {
      assert KeySet(t[1..], key) <= KeySet(t, key) by {
        forall k | k in KeySet(t[1..], key) ensures k in KeySet(t, key) {
          var i :| 0 <= i < |t[1..]| && key(t[1..][i]) == k;
          assert t[1..][i] == t[i + 1];
        }
      }
      WithoutAll(t[1..], key, ks);
    }
  }

  /** Seeding a table leaves the rows whose keys are not seeded where they were, followed by
      the seeded rows as seeding an empty table would arrange them. */
  lemma {:induction false} UpsertAllSplit<R, K>(t: seq<R>, key: R -> K, rows: seq<R>)
    ensures UpsertAll(t, key, rows)
      == Without(t, key, KeySet(rows, key)) + UpsertAll([], key, rows)
    decreases |rows|
  {
    if rows == [] {
      assert KeySet(rows, key) == {};
      WithoutAbsent(t, key, {});
    } else {
      var r, rs := rows[0], rows[1..];
      var ks := KeySet(rs, key);
      var t1 := Upsert(t, key, r);
      UpsertAllSplit(t1, key, rs);
      WithoutUpsert(t, key, rows);
      UpsertSingle(key, r);
      UpsertAllSplit([r], key, rs);
      ConcatAssoc(Without(t, key, KeySet(rows, key)), Without([r], key, ks), UpsertAll([], key, rs));
    }
  }

  /** Upserting the first row and then removing the keys of the others removes the keys of
      all rows from the old table, and leaves the first row unless a later one replaces it. */
  lemma WithoutUpsert<R, K>(t: seq<R>, key: R -> K, rows: seq<R>)
    requires rows != []
    ensures Without(Upsert(t, key, rows[0]), key, KeySet(rows[1..], key))
      == Without(t, key, KeySet(rows, key)) + Without([rows[0]], key, KeySet(rows[1..], key))
  {
    var k, ks := key(rows[0]), KeySet(rows[1..], key);
    KeySetCons(rows, key);
    WithoutConcat(Without(t, key, {k}), [rows[0]], key, ks);
    WithoutTwice(t, key, {k}, ks);
  }

  /** Upserting into an empty table gives the one row. */
  lemma UpsertSingle<R, K>(key: R -> K, r: R)
    ensures Upsert([], key, r) == [r]
  {
  }

  lemma KeySetCons<R, K>(rows: seq<R>, key: R -> K)
    requires rows != []
    ensures KeySet(rows, key) == {key(rows[0])} + KeySet(rows[1..], key)
  {
    forall x | x in KeySet(rows, key) ensures x in {key(rows[0])} + KeySet(rows[1..], key) {
      var i :| 0 <= i < |rows| && key(rows[i]) == x;
      if i > 0 {
        assert rows[i] == rows[1..][i - 1];
      }
    }
    forall x | x in KeySet(rows[1..], key) ensures x in KeySet(rows, key) {
      var i :| 0 <= i < |rows[1..]| && key(rows[1..][i]) == x;
      assert rows[1..][i] == rows[i + 1];
    }
  }

  /** Seeding twice with the same rows gives the same table as seeding once: the
      `INSERT OR REPLACE` start-up seeding may run on every start. */
  lemma UpsertAllIdempotent<R, K>(t: seq<R>, key: R -> K, rows: seq<R>)
    ensures UpsertAll(UpsertAll(t, key, rows), key, rows) == UpsertAll(t, key, rows)
  {
    var ks := KeySet(rows, key);
    var seeded := UpsertAll([], key, rows);
    var once := UpsertAll(t, key, rows);
    UpsertAllSplit(t, key, rows);
    assert once == Without(t, key, ks) + seeded;
    UpsertAllSplit(once, key, rows);
    WithoutConcat(Without(t, key, ks), seeded, key, ks);
    WithoutTwice(t, key, ks, ks);
    assert ks + ks == ks;
    UpsertAllKeys([], key, rows);
    assert KeySet([], key) == {};
    WithoutAll(seeded, key, ks);
    assert Without(once, key, ks) == Without(t, key, ks);
  }

  /** Every key in a seeded table was already there or was seeded. */
  lemma {:induction false} UpsertAllKeys<R, K>(t: seq<R>, key: R -> K, rows: seq<R>)
    ensures KeySet(UpsertAll(t, key, rows), key) <= KeySet(t, key) + KeySet(rows, key)
    decreases |rows|
  {
    if rows != [] {
      var t' := Upsert(t, key, rows[0]);
      UpsertAllKeys(t', key, rows[1..]);
      assert KeySet(t', key) <= KeySet(t, key) + {key(rows[0])} by {
        var kept := Without(t, key, {key(rows[0])});
        forall x | x in KeySet(kept, key) ensures x in KeySet(t, key) {
          var i :| 0 <= i < |kept| && key(kept[i]) == x;
        }
      }
      assert KeySet(rows[1..], key) + {key(rows[0])} <= KeySet(rows, key) by {
        forall x | x in KeySet(rows[1..], key) ensures x in KeySet(rows, key) {
          var i :| 0 <= i < |rows[1..]| && key(rows[1..][i]) == x;
          assert rows[1..][i] == rows[i + 1];
        }
        assert key(rows[0]) == key(rows[0]);
      }
    }
  }

  /** Seeding keeps the primary-key constraint. */
  lemma {:induction false} UpsertAllUnique<R, K>(t: seq<R>, key: R -> K, rows: seq<R>)
    requires UniqueKeys(t, key)
    ensures UniqueKeys(UpsertAll(t, key, rows), key)
    decreases |rows|
  {
    if rows != [] {
      UpsertAllUnique(Upsert(t, key, rows[0]), key, rows[1..]);
    }
  }

  /** Seeding an empty table with rows whose keys are distinct stores exactly those rows,
      in their order. */
  lemma {:induction false} UpsertAllFresh<R, K>(key: R -> K, rows: seq<R>)
    requires UniqueKeys(rows, key)
    ensures UpsertAll([], key, rows) == rows
    decreases |rows|
  {
    if rows != [] {
      var r, rs := rows[0], rows[1..];
      UniqueTail(rows, key);
      UpsertAllFresh(key, rs);
      UpsertAllHead(key, r, rs);
      assert [r] + rs == rows;
    }
  }

  /** Seeding an empty table with a row whose key the later rows do not hold stores that row
      first. */
  lemma UpsertAllHead<R, K>(key: R -> K, r: R, rs: seq<R>)
    requires key(r) !in KeySet(rs, key)
    ensures UpsertAll([], key, [r] + rs) == [r] + UpsertAll([], key, rs)
  {
    assert ([r] + rs)[0] == r && ([r] + rs)[1..] == rs;
    UpsertSingle(key, r);
    UpsertAllSplit([r], key, rs);
    WithoutAbsent([r], key, KeySet(rs, key));
  }

  /** Under the primary-key constraint the tail keeps the constraint and does not hold the
      head's key. */
  lemma UniqueTail<R, K>(rows: seq<R>, key: R -> K)
    requires rows != [] && UniqueKeys(rows, key)
    ensures UniqueKeys(rows[1..], key)
    ensures key(rows[0]) !in KeySet(rows[1..], key)
  {
    TailIndex(rows);
  }

  /** `init_db`'s inserts: each table is seeded with its literal rows. */
  function Seed(db: Db, seed: Db): Db {
    Db(UpsertAll(db.org, OrgKey, seed.org),
       UpsertAll(db.ind, IndKey, seed.ind),
       UpsertAll(db.sentiment, SentimentKey, seed.sentiment),
       UpsertAll(db.transactions, TransactionKey, seed.transactions))
  }

  /** Every table keeps its primary-key constraint. */
  predicate WellKeyed(db: Db) {
    && UniqueKeys(db.org, OrgKey)
    && UniqueKeys(db.ind, IndKey)
    && UniqueKeys(db.sentiment, SentimentKey)
    && UniqueKeys(db.transactions, TransactionKey)
  }

  /** Running `init_db` again on a seeded database changes nothing, and seeding keeps every
      primary key unique. */
  lemma SeedIdempotent(db: Db, seed: Db)
    ensures Seed(Seed(db, seed), seed) == Seed(db, seed)
    ensures WellKeyed(db) ==> WellKeyed(Seed(db, seed))
  {
    UpsertAllIdempotent(db.org, OrgKey, seed.org);
    UpsertAllIdempotent(db.ind, IndKey, seed.ind);
    UpsertAllIdempotent(db.sentiment, SentimentKey, seed.sentiment);
    UpsertAllIdempotent(db.transactions, TransactionKey, seed.transactions);
    if WellKeyed(db) {
      UpsertAllUnique(db.org, OrgKey, seed.org);
      UpsertAllUnique(db.ind, IndKey, seed.ind);
      UpsertAllUnique(db.sentiment, SentimentKey, seed.sentiment);
      UpsertAllUnique(db.transactions, TransactionKey, seed.transactions);
    }
  }

  /** Seeding the empty database with literal rows whose keys are distinct stores them as
      given. */
  lemma SeedFresh(seed: Db)
    requires WellKeyed(seed)
    ensures Seed(Db([], [], [], []), seed) == seed
  {
    UpsertAllFresh(OrgKey, seed.org);
    UpsertAllFresh(IndKey, seed.ind);
    UpsertAllFresh(SentimentKey, seed.sentiment);
    UpsertAllFresh(TransactionKey, seed.transactions);
  }

  /** `SELECT customer_id FROM customer_profile_ind`. */
  function IndIds(db: Db): (ids: seq<string>)
    ensures |ids| == |db.ind|
  {
    seq(|db.ind|, i requires 0 <= i < |db.ind| => db.ind[i].customerId)
  }

  /** `SELECT customer_id FROM customer_profile_org`. */
  function OrgIds(db: Db): (ids: seq<string>)
    ensures |ids| == |db.org|
  {
    seq(|db.org|, i requires 0 <= i < |db.org| => db.org[i].customerId)
  }

  /** `get_all_customer_ids`: the individual ids and the organization ids, sorted. */
  function AllCustomerIds(db: Db): (ids: seq<string>)
    ensures Sorted(ids)
    ensures multiset(ids) == multiset(IndIds(db) + OrgIds(db))
    ensures |ids| == |db.ind| + |db.org|
  {
    SortStrings(IndIds(db) + OrgIds(db))
  }

  /** An id is listed exactly when one of the two profile tables holds it. */
  lemma AllCustomerIdsMembers(db: Db, id: string)
    ensures id in AllCustomerIds(db) <==>
      (exists i :: 0 <= i < |db.ind| && db.ind[i].customerId == id) ||
      (exists i :: 0 <= i < |db.org| && db.org[i].customerId == id)
  {
    var all := IndIds(db) + OrgIds(db);
    var ids := AllCustomerIds(db);
    assert id in ids <==> id in all by {
      assert id in ids <==> id in multiset(ids);
      assert id in all <==> id in multiset(all);
    }
    IdsMembers(db, id);
  }

  lemma IdsMembers(db: Db, id: string)
    ensures id in IndIds(db) + OrgIds(db) <==>
      (exists i :: 0 <= i < |db.ind| && db.ind[i].customerId == id) ||
      (exists i :: 0 <= i < |db.org| && db.org[i].customerId == id)
  {
    var a, b := IndIds(db), OrgIds(db);
    assert id in a + b <==> id in a || id in b;
    assert id in a <==> exists i :: 0 <= i < |db.ind| && db.ind[i].customerId == id by {
      if id in a {
        var i :| 0 <= i < |a| && a[i] == id;
      }
      if exists i :: 0 <= i < |db.ind| && db.ind[i].customerId == id {
        var i :| 0 <= i < |db.ind| && db.ind[i].customerId == id;
        assert a[i] == id;
      }
    }
    assert id in b <==> exists i :: 0 <= i < |db.org| && db.org[i].customerId == id by {
      if id in b {
        var i :| 0 <= i < |b| && b[i] == id;
      }
      if exists i :: 0 <= i < |db.org| && db.org[i].customerId == id {
        var i :| 0 <= i < |db.org| && db.org[i].customerId == id;
        assert b[i] == id;
      }
    }
  }

  /** The listing is the only sorted arrangement of the ids: any sorted list holding the
      same ids is it. */
  lemma AllCustomerIdsUnique(db: Db, ids: seq<string>)
    requires Sorted(ids)
    requires multiset(ids) == multiset(IndIds(db) + OrgIds(db))
    ensures ids == AllCustomerIds(db)
  {
    SortedUnique(ids, AllCustomerIds(db));
  }

  /** With the primary keys respected and no id in both profile tables, no id is listed
      twice. */
  lemma AllCustomerIdsDistinct(db: Db)
    requires UniqueKeys(db.ind, IndKey) && UniqueKeys(db.org, OrgKey)
    requires forall i, j :: 0 <= i < |db.ind| && 0 <= j < |db.org| ==>
      db.ind[i].customerId != db.org[j].customerId
    ensures Distinct(AllCustomerIds(db))
  {
    var all := IndIds(db) + OrgIds(db);
    assert Distinct(all) by {
      forall i, j | 0 <= i < j < |all| ensures all[i] != all[j] {
        if j < |db.ind| {
          assert IndKey(db.ind[i]) != IndKey(db.ind[j]);
        } else if i >= |db.ind| {
          assert OrgKey(db.org[i - |db.ind|]) != OrgKey(db.org[j - |db.ind|]);
        }
      }
    }
    DistinctMultiplicity(all);
    DistinctMultiplicity(AllCustomerIds(db));
  }
}
