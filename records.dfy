/** The Python dicts that carry a customer record, kept in insertion order (which is the
    order `dict.items()` yields), with the dict operations the application uses. */
module Records {
  import opened Values
  import opened Seqs

  /** The column names the application reads and writes (the customer tables' columns, the
      social-media and transaction columns it merges in, and the two names it renames),
      numbered; `Name` gives the text of each. */
  newtype Key = k: int | 0 <= k < 26

  const CustomerId: Key := 0
  const Age: Key := 1
  const Gender: Key := 2
  const Location: Key := 3
  const Interests: Key := 4
  const Preferences: Key := 5
  const IncomePerYear: Key := 6
  const Education: Key := 7
  const Occupation: Key := 8
  const Industry: Key := 9
  const FinancialNeeds: Key := 10
  const RevenueInDollars: Key := 11
  const NoOfEmployees: Key := 12
  const RevenueRange: Key := 13
  const EmployeeCountRange: Key := 14
  const Platform: Key := 15
  const Content: Key := 16
  const Timestamp: Key := 17
  const SentimentScore: Key := 18
  const Intent: Key := 19
  const TransactionType: Key := 20
  const Category: Key := 21
  const AmountUsd: Key := 22
  const PurchaseDate: Key := 23
  const PaymentMode: Key := 24
  const AmountInDollars: Key := 25

  /** The dict key string of a column. */
  function Name(k: Key): string {
    if k == CustomerId then "customer_id"
    else if k == Age then "age"
    else if k == Gender then "gender"
    else if k == Location then "location"
    else if k == Interests then "interests"
    else if k == Preferences then "preferences"
    else if k == IncomePerYear then "income_per_year"
    else if k == Education then "education"
    else if k == Occupation then "occupation"
    else if k == Industry then "industry"
    else if k == FinancialNeeds then "financial_needs"
    else if k == RevenueInDollars then "revenue_in_dollars"
    else if k == NoOfEmployees then "no_of_employees"
    else if k == RevenueRange then "revenue_range"
    else if k == EmployeeCountRange then "employee_count_range"
    else if k == Platform then "platform"
    else if k == Content then "content"
    else if k == Timestamp then "timestamp"
    else if k == SentimentScore then "sentiment_score"
    else if k == Intent then "intent"
    else if k == TransactionType then "transaction_type"
    else if k == Category then "category"
    else if k == AmountUsd then "amount_usd"
    else if k == PurchaseDate then "purchase_date"
    else if k == PaymentMode then "payment_mode"
    else "amount_in_dollars"
  }

  /** No column name holds a newline. */
  lemma NameNoNewline(k: Key)
    ensures '\n' !in Name(k)
  {
    if k < 9 {
      ProfileNameNoNewline(k);
    } else if k < 18 {
      MiddleNameNoNewline(k);
    } else {
      ActivityNameNoNewline(k);
    }
  }

  lemma ProfileNameNoNewline(k: Key)
    requires k < 9
    ensures '\n' !in Name(k)
  {
  }

  lemma MiddleNameNoNewline(k: Key)
    requires 9 <= k < 18
    ensures '\n' !in Name(k)
  {
  }

  lemma ActivityNameNoNewline(k: Key)
    requires 18 <= k
    ensures '\n' !in Name(k)
  {
  }

  /** A dict from field names to values; entries in insertion order. */
  type Record = seq<(Key, Value)>

  /** The dict invariant: no key occurs twice. */
  predicate Keyed(d: Record) {
    forall i, j :: 0 <= i < j < |d| ==> d[i].0 != d[j].0
  }

  /** Position of key `k` in `d`, or `|d|` when `k` is absent. */
  function Find(d: Record, k: Key): (i: nat)
    ensures i <= |d|
    ensures i < |d| ==> d[i].0 == k
    ensures forall j :: 0 <= j < i ==> d[j].0 != k
  {
    if d == [] then 0 else if d[0].0 == k then 0 else 1 + Find(d[1..], k)
  }

  /** `k in d`. */
  predicate HasKey(d: Record, k: Key) {
    Find(d, k) < |d|
  }

  /** `d.get(k)`: the value stored under `k`, or None when `k` is absent. */
  function Get(d: Record, k: Key): Value {
    if HasKey(d, k) then d[Find(d, k)].1 else Null
  }

  /** `d.get(k, default)`. */
  function GetOr(d: Record, k: Key, default: Value): Value {
    if HasKey(d, k) then d[Find(d, k)].1 else default
  }

  /** A key is present exactly when some entry carries it. */
  lemma HasKeyIff(d: Record, k: Key)
    ensures HasKey(d, k) <==> exists i :: 0 <= i < |d| && d[i].0 == k
  {
  }

  /** `d.get(k)` is the value of the first entry that carries `k`. */
  lemma GetAt(d: Record, i: nat, k: Key)
    requires i < |d| && d[i].0 == k
    requires forall j :: 0 <= j < i ==> d[j].0 != k
    ensures HasKey(d, k) && Find(d, k) == i && Get(d, k) == d[i].1
  {
  }

  /** `d.get(k)` is None when no entry carries `k`. */
  lemma GetAbsent(d: Record, k: Key)
    requires forall j :: 0 <= j < |d| ==> d[j].0 != k
    ensures !HasKey(d, k) && Get(d, k) == Null
  {
  }

  /** In a dict, `get` on the key of an entry returns that entry's value. */
  lemma GetKeyed(d: Record, i: nat)
    requires Keyed(d) && i < |d|
    ensures HasKey(d, d[i].0) && Get(d, d[i].0) == d[i].1
  {
    GetAt(d, i, d[i].0);
  }

  /** In a dict, `get` on a key returns the value the dict pairs with it. */
  lemma GetMember(d: Record, k: Key, v: Value)
    requires Keyed(d) && (k, v) in d
    ensures Get(d, k) == v
  {
    var i :| 0 <= i < |d| && d[i] == (k, v);
    GetKeyed(d, i);
  }

  /** A record is keyed when some numbering of the keys gives each entry its own position:
      two entries with one key would need two positions for it. */
  lemma KeyedByPosition(d: Record, position: Key -> int)
    requires forall i :: 0 <= i < |d| ==> position(d[i].0) == i
    ensures Keyed(d)
  {
  }

  /** `get` returns None for every key of `ks` when no entry carries one of them. */
  lemma GetAbsentAll(d: Record, ks: set<Key>)
    requires forall j :: 0 <= j < |d| ==> d[j].0 !in ks
    ensures forall k :: k in ks ==> !HasKey(d, k) && Get(d, k) == Null
  {
    forall k | k in ks ensures !HasKey(d, k) && Get(d, k) == Null {
      GetAbsent(d, k);
    }
  }

  /** `d[k] = v`: an existing key keeps its position and gets the new value; a new key goes
      at the end. */
  function Set(d: Record, k: Key, v: Value): (r: Record)
    ensures HasKey(r, k) && Get(r, k) == v
    ensures forall k' :: k' != k ==> HasKey(r, k') == HasKey(d, k') && Get(r, k') == Get(d, k')
    ensures HasKey(d, k) ==> |r| == |d| && Find(r, k) == Find(d, k)
    ensures !HasKey(d, k) ==> r == d + [(k, v)]
    ensures Keyed(d) ==> Keyed(r)
  {
    var i := Find(d, k);
    if i < |d| then
      SetInPlace(d, i, k, v);
      d[i := (k, v)]
    else
      SetAppend(d, k, v);
      d + [(k, v)]
  }

  /** Overwriting the value at a key's position moves no key. */
  lemma SetInPlace(d: Record, i: nat, k: Key, v: Value)
    requires i < |d| && d[i].0 == k
    ensures forall k' :: Find(d[i := (k, v)], k') == Find(d, k')
  {
    forall k' ensures Find(d[i := (k, v)], k') == Find(d, k') {
      FindSameKeys(d, d[i := (k, v)], k');
    }
  }

  /** Appending a new key finds it at the end and every other key where it was. */
  lemma SetAppend(d: Record, k: Key, v: Value)
    requires !HasKey(d, k)
    ensures forall k' :: Find(d + [(k, v)], k') == if k' == k || HasKey(d, k') then Find(d, k') else |d| + 1
  {
    forall k' ensures Find(d + [(k, v)], k') == if k' == k || HasKey(d, k') then Find(d, k') else |d| + 1 {
      FindConcat(d, [(k, v)], k');
    }
  }

  /** Where a key sits depends only on the keys, not on the values. */
  lemma FindSameKeys(d: Record, r: Record, k: Key)
    requires |r| == |d|
    requires forall j :: 0 <= j < |d| ==> r[j].0 == d[j].0
    ensures Find(r, k) == Find(d, k)
  {
  }

  /** Looking a key up in `a + b` finds it in `a` if it is there, and in `b` otherwise. */
  lemma FindConcat(a: Record, b: Record, k: Key)
    ensures Find(a + b, k) == if HasKey(a, k) then Find(a, k) else |a| + Find(b, k)
  {
    var i := Find(a + b, k);
    if HasKey(a, k) {
      assert (a + b)[Find(a, k)] == a[Find(a, k)];
    } else {
      var j := Find(b, k);
      if j < |b| {
        assert (a + b)[|a| + j] == b[j];
      }
      forall m | 0 <= m < |a| + j ensures (a + b)[m].0 != k {
        if m >= |a| {
          assert (a + b)[m] == b[m - |a|];
        }
      }
    }
  }

  lemma GetConcat(a: Record, b: Record, k: Key)
    ensures Get(a + b, k) == if HasKey(a, k) then Get(a, k) else Get(b, k)
    ensures HasKey(a + b, k) <==> HasKey(a, k) || HasKey(b, k)
  {
    FindConcat(a, b, k);
    if !HasKey(a, k) && HasKey(b, k) {
      assert (a + b)[|a| + Find(b, k)] == b[Find(b, k)];
    }
  }

  /** `d.pop(k)` for a key that is present (Python raises KeyError for an absent one): the
      value it held, and the dict without that entry. */
  function Pop(d: Record, k: Key): (r: (Value, Record))
    requires HasKey(d, k)
    ensures r.0 == Get(d, k)
    ensures |r.1| == |d| - 1
    ensures Keyed(d) ==> Keyed(r.1) && !HasKey(r.1, k)
    ensures forall k' :: k' != k ==>
      (HasKey(r.1, k') <==> HasKey(d, k')) && Get(r.1, k') == Get(d, k')
  {
    var i := Find(d, k);
    var rest := d[..i] + d[i + 1..];
    forall k' | k' != k
      ensures (HasKey(rest, k') <==> HasKey(d, k')) && Get(rest, k') == Get(d, k')
    {
      assert d == d[..i] + ([d[i]] + d[i + 1..]);
      GetConcat(d[..i], [d[i]] + d[i + 1..], k');
      GetConcat([d[i]], d[i + 1..], k');
      GetConcat(d[..i], d[i + 1..], k');
    }
    assert Keyed(d) ==> Keyed(rest) && !HasKey(rest, k) by {
      if Keyed(d) {
        assert forall j :: 0 <= j < |rest| ==> rest[j] == if j < i then d[j] else d[j + 1];
        HasKeyIff(rest, k);
      }
    }
    (d[i].1, rest)
  }

  /** Popping the entry that sits after a prefix without that key leaves the prefix and the
      suffix, in order. */
  lemma PopAt(a: Record, k: Key, v: Value, b: Record)
    requires !HasKey(a, k)
    ensures HasKey(a + [(k, v)] + b, k)
    ensures Pop(a + [(k, v)] + b, k) == (v, a + b)
  {
    var d := a + [(k, v)] + b;
    assert d == a + ([(k, v)] + b);
    FindConcat(a, [(k, v)] + b, k);
    assert d[..|a|] == a;
    assert d[|a| + 1..] == b;
  }

  /** `d.update(pairs)`: the entries of `pairs` are set one after another. */
  function Update(d: Record, pairs: Record): (r: Record)
    ensures forall k :: HasKey(r, k) <==> HasKey(d, k) || HasKey(pairs, k)
    ensures Keyed(d) ==> Keyed(r)
    ensures Keyed(pairs) ==>
      forall k :: Get(r, k) == if HasKey(pairs, k) then Get(pairs, k) else Get(d, k)
    decreases |pairs|
  {
    if pairs == [] then d
    else
      var r := Update(Set(d, pairs[0].0, pairs[0].1), pairs[1..]);
      forall k ensures HasKey(pairs, k) <==> k == pairs[0].0 || HasKey(pairs[1..], k) {
        HasKeyCons(pairs, k);
      }
      assert Keyed(pairs) ==>
        forall k :: Get(r, k) == if HasKey(pairs, k) then Get(pairs, k) else Get(d, k)
      by {
        if Keyed(pairs) {
          KeyedTail(pairs);
          forall k ensures Get(r, k) == if HasKey(pairs, k) then Get(pairs, k) else Get(d, k) {
            GetCons(pairs, k);
            if k == pairs[0].0 {
              HasKeyIff(pairs[1..], k);
            }
          }
        }
      }
      r
  }

  /** A non-empty dict's value for a key is its first entry's when that entry carries the key,
      and the rest's otherwise. */
  lemma GetCons(d: Record, k: Key)
    requires d != []
    ensures Get(d, k) == if d[0].0 == k then d[0].1 else Get(d[1..], k)
  {
  }

  /** A non-empty dict has a key when its first entry carries it or the rest has it. */
  lemma HasKeyCons(d: Record, k: Key)
    requires d != []
    ensures HasKey(d, k) <==> k == d[0].0 || HasKey(d[1..], k)
  {
  }

  /** Updating with keys the dict does not hold yet appends them, in their order. */
  lemma {:induction false} UpdateFresh(d: Record, pairs: Record)
    requires Keyed(pairs) && Fresh(d, pairs)
    ensures Update(d, pairs) == d + pairs
    decreases |pairs|
  {
    if pairs != [] {
      UpdateStep(d, pairs);
      UpdateFresh(d + [pairs[0]], pairs[1..]);
      AppendHead(d, pairs);
    } else {
      assert d + pairs == d;
    }
  }

  /** None of the keys of `pairs` is in `d`. */
  ghost predicate Fresh(d: Record, pairs: Record) {
    forall k :: HasKey(pairs, k) ==> !HasKey(d, k)
  }

  /** Updating with fresh pairs sets the first one by appending it, and leaves fresh pairs. */
  lemma UpdateStep(d: Record, pairs: Record)
    requires pairs != [] && Keyed(pairs) && Fresh(d, pairs)
    ensures Update(d, pairs) == Update(d + [pairs[0]], pairs[1..])
    ensures Keyed(pairs[1..]) && Fresh(d + [pairs[0]], pairs[1..])
  {
    FreshStep(d, pairs);
    KeyedTail(pairs);
  }

  /** The first fresh pair is appended, and the remaining pairs are fresh for the result. */
  lemma FreshStep(d: Record, pairs: Record)
    requires pairs != [] && Keyed(pairs) && Fresh(d, pairs)
    ensures Set(d, pairs[0].0, pairs[0].1) == d + [pairs[0]]
    ensures Fresh(d + [pairs[0]], pairs[1..])
  {
    var p := pairs[0];
    assert HasKey(pairs, p.0);
    assert pairs == [p] + pairs[1..];
    forall k | HasKey(pairs[1..], k) ensures !HasKey(d + [p], k) {
      var j := Find(pairs[1..], k);
      assert pairs[1 + j] == pairs[1..][j];
      GetConcat([p], pairs[1..], k);
      GetConcat(d, [p], k);
    }
  }

  lemma KeyedTail(pairs: Record)
    requires pairs != [] && Keyed(pairs)
    ensures Keyed(pairs[1..])
  {
    forall i, j | 0 <= i < j < |pairs| - 1 ensures pairs[1..][i].0 != pairs[1..][j].0 {
      assert pairs[1..][i] == pairs[i + 1] && pairs[1..][j] == pairs[j + 1];
    }
  }
}
