/** `get_customer_details`: one customer's merged record, the profile row with at most one
    social-media row and at most one transaction row merged in. */
module Details {
  import opened Values
  import opened Options
  import opened Records
  import opened Store
  import opened Seqs

  /** Position of the first row of `t` that `matches`, or `|t|` when none does. */
  function FirstIndex<R>(t: seq<R>, matches: R -> bool): (i: nat)
    ensures i <= |t|
    ensures i < |t| ==> matches(t[i])
    ensures forall j :: 0 <= j < i ==> !matches(t[j])
  {
    if t == [] then 0 else if matches(t[0]) then 0 else 1 + FirstIndex(t[1..], matches)
  }

  /** `cursor.fetchone()` after a `WHERE customer_id = ?` query: a matching row, or None.
      SQLite promises no particular row when several match (there is no ORDER BY); the model
      takes the first in table order. */
  function First<R>(t: seq<R>, matches: R -> bool): (r: Option<R>)
    ensures r.None? <==> forall i :: 0 <= i < |t| ==> !matches(t[i])
    ensures r.Some? ==> matches(r.value)
  {
    var i := FirstIndex(t, matches);
    if i < |t| then Some(t[i]) else None
  }

  function IndividualOf(db: Db, id: string): Option<IndRow> {
    First(db.ind, (r: IndRow) => r.customerId == id)
  }

  function OrganizationOf(db: Db, id: string): Option<OrgRow> {
    First(db.org, (r: OrgRow) => r.customerId == id)
  }

  function SentimentOf(db: Db, id: string): Option<SentimentRow> {
    First(db.sentiment, (r: SentimentRow) => r.customerId == id)
  }

  function TransactionOf(db: Db, id: string): Option<TransactionRow> {
    First(db.transactions, (r: TransactionRow) => r.customerId == id)
  }

  /** `dict(ind_row)`: the columns of `customer_profile_ind` in schema order. */
  function IndRecord(row: IndRow): Record {
    [(CustomerId, Str(row.customerId)), (Age, row.age), (Gender, row.gender),
     (Location, row.location), (Interests, row.interests), (Preferences, row.preferences),
     (IncomePerYear, row.incomePerYear), (Education, row.education),
     (Occupation, row.occupation)]
  }

  /** `dict(org_row)`: the columns of `customer_profile_org` in schema order. */
  function OrgRecord(row: OrgRow): Record {
    OrgHead(row) + [(RevenueInDollars, row.revenueInDollars), (NoOfEmployees, row.noOfEmployees)]
  }

  /** The organization columns that are not renamed. */
  function OrgHead(row: OrgRow): Record {
    [(CustomerId, Str(row.customerId)), (Industry, row.industry),
     (FinancialNeeds, row.financialNeeds), (Preferences, row.preferences)]
  }

  /** The entries the social-media update adds. */
  function SentimentFields(s: SentimentRow): Record {
    [(Platform, s.platform), (Content, s.content), (Timestamp, s.timestamp),
     (SentimentScore, s.sentimentScore), (Intent, s.intent)]
  }

  /** The entries the transaction update adds; the amount column is exposed as `amount_usd`. */
  function TransactionFields(t: TransactionRow): Record {
    [(TransactionType, t.transactionType), (Category, t.category),
     (AmountUsd, t.amountInDollars), (PurchaseDate, t.purchaseDate),
     (PaymentMode, t.paymentMode)]
  }

  /** The organization view: the unrenamed columns, then the revenue and employee columns
      under their new names. */
  function OrgView(row: OrgRow): Record {
    OrgHead(row) + [(RevenueRange, row.revenueInDollars), (EmployeeCountRange, row.noOfEmployees)]
  }

  /** What is merged into any profile: the first matching social-media row's fields, then the
      first matching transaction row's fields, each only when such a row exists. */
  function Merged(db: Db, id: string): Record {
    SentimentPart(db, id) + TransactionPart(db, id)
  }

  function SentimentPart(db: Db, id: string): Record {
    match SentimentOf(db, id) case Some(s) => SentimentFields(s) case None => []
  }

  function TransactionPart(db: Db, id: string): Record {
    match TransactionOf(db, id) case Some(t) => TransactionFields(t) case None => []
  }

  /** The profile part of the record: the individual row's columns, or else the organization
      view, or None for an id in neither table. */
  function Profile(db: Db, id: string): Option<Record> {
    match IndividualOf(db, id)
    case Some(row) => Some(IndRecord(row))
    case None =>
      match OrganizationOf(db, id)
      case Some(row) => Some(OrgView(row))
      case None => None
  }

  /** The merged record the lookup promises: the profile, then the merged activity. */
  function CustomerDetails(db: Db, id: string): Option<Record> {
    match Profile(db, id)
    case Some(p) => Some(p + Merged(db, id))
    case None => None
  }

  /** No key is shared by the two records. */
  predicate DisjointKeys(a: Record, b: Record) {
    forall i, j :: 0 <= i < |a| && 0 <= j < |b| ==> a[i].0 != b[j].0
  }

  lemma DisjointNoKey(a: Record, b: Record)
    requires DisjointKeys(a, b)
    ensures forall k :: HasKey(b, k) ==> !HasKey(a, k)
  {
  }

  lemma KeyedConcat(a: Record, b: Record)
    requires Keyed(a) && Keyed(b) && DisjointKeys(a, b)
    ensures Keyed(a + b)
  {
  }

  lemma KeyedSplit(a: Record, b: Record)
    requires Keyed(a + b)
    ensures Keyed(a) && Keyed(b) && DisjointKeys(a, b)
  {
    assert forall i :: 0 <= i < |a| ==> (a + b)[i] == a[i];
    assert forall j :: 0 <= j < |b| ==> (a + b)[|a| + j] == b[j];
  }

  lemma DisjointSplit(a: Record, b: Record, c: Record)
    ensures DisjointKeys(a, b + c) <==> DisjointKeys(a, b) && DisjointKeys(a, c)
    ensures DisjointKeys(a + b, c) <==> DisjointKeys(a, c) && DisjointKeys(b, c)
  {
    assert forall j :: 0 <= j < |b| ==> (b + c)[j] == b[j];
    assert forall j :: 0 <= j < |c| ==> (b + c)[|b| + j] == c[j];
    assert forall j :: 0 <= j < |a| ==> (a + b)[j] == a[j];
    assert forall j :: 0 <= j < |b| ==> (a + b)[|a| + j] == b[j];
  }

  lemma IndKeys(row: IndRow, s: SentimentRow, t: TransactionRow)
    ensures Keyed(IndRecord(row))
    ensures DisjointKeys(IndRecord(row), SentimentFields(s))
    ensures DisjointKeys(IndRecord(row), TransactionFields(t))
  {
  }

  lemma OrgKeys(row: OrgRow, s: SentimentRow, t: TransactionRow)
    ensures Keyed(OrgView(row))
    ensures DisjointKeys(OrgView(row), SentimentFields(s))
    ensures DisjointKeys(OrgView(row), TransactionFields(t))
  {
  }

  lemma ActivityKeys(s: SentimentRow, t: TransactionRow)
    ensures Keyed(SentimentFields(s)) && Keyed(TransactionFields(t))
    ensures DisjointKeys(SentimentFields(s), TransactionFields(t))
  {
  }

  /** The merged record never repeats a key: the profile, social-media and transaction keys
      are pairwise distinct. */
  lemma ProfileMergedKeyed(db: Db, id: string)
    requires Profile(db, id).Some?
    ensures Keyed(Profile(db, id).value + SentimentPart(db, id) + TransactionPart(db, id))
  {
    var sPart := SentimentPart(db, id);
    var tPart := TransactionPart(db, id);
    var s := if SentimentOf(db, id).Some? then SentimentOf(db, id).value
      else SentimentRow("", "", Null, Null, Null, Null, Null);
    var t := if TransactionOf(db, id).Some? then TransactionOf(db, id).value
      else TransactionRow("", 0, Null, Null, Null, Null, Null);
    ActivityKeys(s, t);
    var p := Profile(db, id).value;
    if IndividualOf(db, id).Some? {
      IndKeys(IndividualOf(db, id).value, s, t);
    } else {
      OrgKeys(OrganizationOf(db, id).value, s, t);
    }
    KeyedConcat(p, sPart);
    DisjointSplit(p, sPart, tPart);
    KeyedConcat(p + sPart, tPart);
  }

  /** `d.update(part)` with keys `d` does not hold appends `part`. */
  lemma UpdateDisjoint(d: Record, part: Record)
    requires Keyed(d + part)
    ensures Update(d, part) == d + part
  {
    KeyedSplit(d, part);
    DisjointNoKey(d, part);
    UpdateFresh(d, part);
  }

  /** Renaming one column: popping the entry that follows `head` and assigning its value to a
      new key moves it, renamed, to the end. */
  lemma RenameColumn(head: Record, from: Key, v: Value, tail: Record, to: Key)
    requires !HasKey(head, from)
    requires !HasKey(head + tail, to)
    ensures HasKey(head + [(from, v)] + tail, from)
    ensures var p := Pop(head + [(from, v)] + tail, from);
      Set(p.1, to, p.0) == head + tail + [(to, v)]
  {
    PopAt(head, from, v, tail);
  }

  /** Renaming the two range columns of `dict(org_row)` with `pop` and item assignment gives
      the organization view. */
  lemma RenameRangeColumns(row: OrgRow)
    ensures HasKey(OrgRecord(row), RevenueInDollars)
    ensures var p := Pop(OrgRecord(row), RevenueInDollars);
      var d := Set(p.1, RevenueRange, p.0);
      HasKey(d, NoOfEmployees) &&
      var q := Pop(d, NoOfEmployees);
      Set(q.1, EmployeeCountRange, q.0) == OrgView(row)
  {
    RenameRevenue(row);
    RenameEmployees(row);
  }

  /** The first renaming moves the revenue column, renamed, behind the employee column. */
  lemma RenameRevenue(row: OrgRow)
    ensures HasKey(OrgRecord(row), RevenueInDollars)
    ensures var p := Pop(OrgRecord(row), RevenueInDollars);
      Set(p.1, RevenueRange, p.0) == OrgHead(row) + [(NoOfEmployees, row.noOfEmployees)]
        + [(RevenueRange, row.revenueInDollars)]
  {
    var head := OrgHead(row);
    var employees := [(NoOfEmployees, row.noOfEmployees)];
    assert OrgRecord(row) == head + [(RevenueInDollars, row.revenueInDollars)] + employees;
    RenameColumn(head, RevenueInDollars, row.revenueInDollars, employees, RevenueRange);
  }

  /** The second renaming moves the employee column, renamed, to the end. */
  lemma RenameEmployees(row: OrgRow)
    ensures var d := OrgHead(row) + [(NoOfEmployees, row.noOfEmployees)]
      + [(RevenueRange, row.revenueInDollars)];
      HasKey(d, NoOfEmployees) &&
      var q := Pop(d, NoOfEmployees);
      Set(q.1, EmployeeCountRange, q.0) == OrgView(row)
  {
    var head := OrgHead(row);
    var revenue := [(RevenueRange, row.revenueInDollars)];
    RenameColumn(head, NoOfEmployees, row.noOfEmployees, revenue, EmployeeCountRange);
  }

  /** `get_customer_details(customer_id)`, step by step as the source does it: look up the
      individual row, else the organization row (renaming its two range columns with `pop`
      and item assignment), then `update` with the social-media and transaction fields. */
  method GetCustomerDetails(db: Db, id: string) returns (r: Option<Record>)
    ensures r == CustomerDetails(db, id)
    ensures r.Some? ==> Keyed(r.value)
  {
    var indRow := IndividualOf(db, id);
    var data: Record;
    if indRow.Some? {
      data := IndRecord(indRow.value);
    } else {
      var orgRow := OrganizationOf(db, id);
      if orgRow.None? {
        assert Profile(db, id).None?;
        return None;
      }
      var row := orgRow.value;
      data := OrgRecord(row);
      RenameRangeColumns(row);
      var popped := Pop(data, RevenueInDollars);
      data := Set(popped.1, RevenueRange, popped.0);
      popped := Pop(data, NoOfEmployees);
      data := Set(popped.1, EmployeeCountRange, popped.0);
    }
    ghost var profile := data;
    assert Profile(db, id) == Some(profile);
    ProfileMergedKeyed(db, id);
    KeyedSplit(profile + SentimentPart(db, id), TransactionPart(db, id));
    var sentimentRow := SentimentOf(db, id);
    if sentimentRow.Some? {
      UpdateDisjoint(data, SentimentFields(sentimentRow.value));
      data := Update(data, SentimentFields(sentimentRow.value));
    }
    assert data == profile + SentimentPart(db, id);
    var transactionRow := TransactionOf(db, id);
    if transactionRow.Some? {
      UpdateDisjoint(data, TransactionFields(transactionRow.value));
      data := Update(data, TransactionFields(transactionRow.value));
    }
    assert data == profile + SentimentPart(db, id) + TransactionPart(db, id);
    ConcatAssoc(profile, SentimentPart(db, id), TransactionPart(db, id));
    r := Some(data);
  }

  /** The lookup gives None exactly when neither profile table holds the id. */
  lemma DetailsNoneIff(db: Db, id: string)
    ensures CustomerDetails(db, id).None? <==>
      (forall i :: 0 <= i < |db.ind| ==> db.ind[i].customerId != id) &&
      (forall i :: 0 <= i < |db.org| ==> db.org[i].customerId != id)
  {
  }

  /** An id found in the individual table is never looked up as an organization: replacing
      the whole organization table changes nothing, and the result carries the individual
      columns. */
  lemma IndividualFirst(db: Db, id: string, orgs: seq<OrgRow>)
    requires exists i :: 0 <= i < |db.ind| && db.ind[i].customerId == id
    ensures CustomerDetails(db, id) == CustomerDetails(db.(org := orgs), id)
    ensures CustomerDetails(db, id).Some?
    ensures var r := CustomerDetails(db, id).value;
      Get(r, CustomerId) == Str(id) &&
      HasKey(r, Age) && HasKey(r, Gender) && HasKey(r, Occupation) &&
      !HasKey(r, Industry) && !HasKey(r, RevenueRange)
    ensures var r := CustomerDetails(db, id).value;
      forall k :: k in IndividualKeys ==>
        HasKey(r, k) && Get(r, k) == Get(IndRecord(IndividualOf(db, id).value), k)
    ensures var r := CustomerDetails(db, id).value;
      forall k :: k in OrganizationOnlyKeys ==> !HasKey(r, k)
  {
    var row := IndividualOf(db, id).value;
    var m := Merged(db, id);
    assert CustomerDetails(db, id).value == IndRecord(row) + m;
    IndRecordKeys(row);
    forall k | k in IndividualKeys
      ensures HasKey(IndRecord(row) + m, k) && Get(IndRecord(row) + m, k) == Get(IndRecord(row), k)
    {
      IndividualColumn(db, id, row, k);
    }
    forall k | k in OrganizationOnlyKeys ensures !HasKey(IndRecord(row) + m, k) {
      IndividualLacksColumn(db, id, row, k);
    }
    MergedLacks(db, id, CustomerId);
    MergedLacks(db, id, Industry);
    MergedLacks(db, id, RevenueRange);
    GetConcat(IndRecord(row), m, CustomerId);
    GetConcat(IndRecord(row), m, Age);
    GetConcat(IndRecord(row), m, Gender);
    GetConcat(IndRecord(row), m, Occupation);
    GetConcat(IndRecord(row), m, Industry);
    GetConcat(IndRecord(row), m, RevenueRange);
  }

  /** The columns of `customer_profile_individual`. */
  const IndividualKeys: set<Key> :=
    {CustomerId, Age, Gender, Location, Interests, Preferences, IncomePerYear, Education, Occupation}

  /** The keys an organization's record may carry and an individual's never does. */
  const OrganizationOnlyKeys: set<Key> :=
    {Industry, FinancialNeeds, RevenueInDollars, NoOfEmployees, RevenueRange, EmployeeCountRange}

  /** An individual column of the record holds the row's value: the merged activity never
      carries that key. */
  lemma IndividualColumn(db: Db, id: string, row: IndRow, k: Key)
    requires k in IndividualKeys
    ensures var r := IndRecord(row) + Merged(db, id);
      HasKey(r, k) && Get(r, k) == Get(IndRecord(row), k)
  {
    IndRecordHas(row, k);
    MergedLacks(db, id, k);
    GetConcat(IndRecord(row), Merged(db, id), k);
  }

  /** No organization column enters an individual's record. */
  lemma IndividualLacksColumn(db: Db, id: string, row: IndRow, k: Key)
    requires k in OrganizationOnlyKeys
    ensures !HasKey(IndRecord(row) + Merged(db, id), k)
  {
    IndRecordLacks(row, k);
    MergedLacks(db, id, k);
    GetConcat(IndRecord(row), Merged(db, id), k);
  }

  /** An individual row's dict holds every individual column and no organization column. */
  lemma IndRecordColumns(row: IndRow)
    ensures forall k :: k in IndividualKeys ==> HasKey(IndRecord(row), k)
    ensures forall k :: k in OrganizationOnlyKeys ==> !HasKey(IndRecord(row), k)
  {
    forall k | k in IndividualKeys ensures HasKey(IndRecord(row), k) {
      IndRecordHas(row, k);
    }
    forall k | k in OrganizationOnlyKeys ensures !HasKey(IndRecord(row), k) {
      IndRecordLacks(row, k);
    }
  }

  lemma IndRecordHas(row: IndRow, k: Key)
    requires k in IndividualKeys
    ensures HasKey(IndRecord(row), k)
  {
    var d := IndRecord(row);
    var i := if k == CustomerId then 0 else if k == Age then 1 else if k == Gender then 2
      else if k == Location then 3 else if k == Interests then 4 else if k == Preferences then 5
      else if k == IncomePerYear then 6 else if k == Education then 7 else 8;
    assert d[i].0 == k;
    HasKeyIff(d, k);
  }

  lemma IndRecordLacks(row: IndRow, k: Key)
    requires k in OrganizationOnlyKeys
    ensures !HasKey(IndRecord(row), k)
  {
    var d := IndRecord(row);
    HasKeyIff(d, k);
    assert d[0].0 != k && d[1].0 != k && d[2].0 != k && d[3].0 != k && d[4].0 != k;
    assert d[5].0 != k && d[6].0 != k && d[7].0 != k && d[8].0 != k;
  }

  lemma IndRecordKeys(row: IndRow)
    ensures Get(IndRecord(row), CustomerId) == Str(row.customerId)
    ensures HasKey(IndRecord(row), Age) && HasKey(IndRecord(row), Gender)
    ensures HasKey(IndRecord(row), Occupation)
    ensures !HasKey(IndRecord(row), Industry) && !HasKey(IndRecord(row), RevenueRange)
  {
    var d := IndRecord(row);
    HasKeyIff(d, Age);
    HasKeyIff(d, Gender);
    HasKeyIff(d, Occupation);
    HasKeyIff(d, Industry);
    HasKeyIff(d, RevenueRange);
    assert d[1].0 == Age && d[2].0 == Gender && d[8].0 == Occupation;
  }

  lemma IndRecordValues(row: IndRow)
    ensures Get(IndRecord(row), Age) == row.age
    ensures Get(IndRecord(row), Location) == row.location
    ensures Get(IndRecord(row), Gender) == row.gender
    ensures Get(IndRecord(row), Interests) == row.interests
  {
    var d := IndRecord(row);
    assert d[1].0 == Age && d[2].0 == Gender && d[3].0 == Location && d[4].0 == Interests;
    assert d[0].0 != Age && d[0].0 != Location && d[1].0 != Location && d[2].0 != Location;
    assert d[0].0 != Gender && d[1].0 != Gender;
    assert d[0].0 != Interests && d[1].0 != Interests && d[2].0 != Interests && d[3].0 != Interests;
  }

  /** The industry column keeps its name and value in the organization view. */
  lemma OrgViewIndustry(row: OrgRow)
    ensures Get(OrgView(row), Industry) == row.industry
  {
    var d := OrgView(row);
    assert d[1].0 == Industry && d[0].0 != Industry;
  }

  lemma OrgViewKeys(row: OrgRow)
    ensures Get(OrgView(row), CustomerId) == Str(row.customerId)
    ensures Get(OrgView(row), RevenueRange) == row.revenueInDollars
    ensures Get(OrgView(row), EmployeeCountRange) == row.noOfEmployees
    ensures HasKey(OrgView(row), RevenueRange) && HasKey(OrgView(row), EmployeeCountRange)
    ensures !HasKey(OrgView(row), RevenueInDollars) && !HasKey(OrgView(row), NoOfEmployees)
  {
    var d := OrgView(row);
    HasKeyIff(d, RevenueInDollars);
    HasKeyIff(d, NoOfEmployees);
    var tail := [(RevenueRange, row.revenueInDollars), (EmployeeCountRange, row.noOfEmployees)];
    HasKeyIff(OrgHead(row), RevenueRange);
    HasKeyIff(OrgHead(row), EmployeeCountRange);
    FindConcat(OrgHead(row), tail, RevenueRange);
    FindConcat(OrgHead(row), tail, EmployeeCountRange);
    assert Find(tail, EmployeeCountRange) == 1;
  }

  /** The merged activity holds only social-media and transaction keys. */
  lemma MergedLacks(db: Db, id: string, k: Key)
    requires k !in {Platform, Content, Timestamp, SentimentScore, Intent,
      TransactionType, Category, AmountUsd, PurchaseDate, PaymentMode}
    ensures !HasKey(Merged(db, id), k)
  {
    HasKeyIff(Merged(db, id), k);
    assert forall i :: 0 <= i < |SentimentPart(db, id)| ==> Merged(db, id)[i] == SentimentPart(db, id)[i];
    assert forall i :: 0 <= i < |TransactionPart(db, id)| ==>
      Merged(db, id)[|SentimentPart(db, id)| + i] == TransactionPart(db, id)[i];
  }

  /** An organization's record is about that customer and carries the two range columns under
      their new names, never under the original column names. */
  lemma OrganizationRenamed(db: Db, id: string)
    requires forall i :: 0 <= i < |db.ind| ==> db.ind[i].customerId != id
    requires OrganizationOf(db, id).Some?
    ensures CustomerDetails(db, id).Some?
    ensures var row := OrganizationOf(db, id).value;
      var r := CustomerDetails(db, id).value;
      Get(r, CustomerId) == Str(id) &&
      Get(r, RevenueRange) == row.revenueInDollars &&
      Get(r, EmployeeCountRange) == row.noOfEmployees &&
      HasKey(r, RevenueRange) && HasKey(r, EmployeeCountRange) &&
      !HasKey(r, RevenueInDollars) && !HasKey(r, NoOfEmployees)
  {
    var row := OrganizationOf(db, id).value;
    var view := OrgView(row);
    var m := Merged(db, id);
    assert CustomerDetails(db, id) == Some(view + m);
    OrgViewKeys(row);
    MergedLacks(db, id, RevenueInDollars);
    MergedLacks(db, id, NoOfEmployees);
    GetConcat(view, m, CustomerId);
    GetConcat(view, m, RevenueRange);
    GetConcat(view, m, EmployeeCountRange);
    GetConcat(view, m, RevenueInDollars);
    GetConcat(view, m, NoOfEmployees);
  }

  /** The keys the social-media update adds. */
  const SentimentKeys: set<Key> := {Platform, Content, Timestamp, SentimentScore, Intent}

  /** The keys the transaction update adds. */
  const TransactionKeys: set<Key> := {TransactionType, Category, AmountUsd, PurchaseDate, PaymentMode}

  /** Each of the five social-media fields appears exactly when the customer has a social-media
      row, and then holds that row's value; in particular the score and the platform. */
  lemma SentimentMerged(db: Db, id: string)
    requires CustomerDetails(db, id).Some?
    ensures var r := CustomerDetails(db, id).value;
      forall k :: k in SentimentKeys ==>
        (HasKey(r, k) <==>
          exists i :: 0 <= i < |db.sentiment| && db.sentiment[i].customerId == id) &&
        (SentimentOf(db, id).Some? ==> Get(r, k) == Get(SentimentFields(SentimentOf(db, id).value), k))
    ensures var r := CustomerDetails(db, id).value;
      SentimentOf(db, id).Some? ==>
        Get(r, SentimentScore) == SentimentOf(db, id).value.sentimentScore &&
        Get(r, Platform) == SentimentOf(db, id).value.platform
  {
    var p := Profile(db, id).value;
    var sPart := SentimentPart(db, id);
    var tPart := TransactionPart(db, id);
    assert CustomerDetails(db, id).value == p + (sPart + tPart);
    forall k | k in SentimentKeys
      ensures HasKey(p + (sPart + tPart), k) <==> SentimentOf(db, id).Some?
      ensures SentimentOf(db, id).Some? ==> Get(p + (sPart + tPart), k) == Get(sPart, k)
    {
      SentimentPartKeys(db, id, k);
      ProfileLacks(db, id, k);
      GetConcat(p, sPart + tPart, k);
      GetConcat(sPart, tPart, k);
    }
    if SentimentOf(db, id).Some? {
      SentimentFieldValues(SentimentOf(db, id).value);
    }
  }

  /** Each of the five transaction fields appears exactly when the customer has a transaction
      row, and then holds that row's value: the amount under `amount_usd` and never under its
      column name. */
  lemma TransactionMerged(db: Db, id: string)
    requires CustomerDetails(db, id).Some?
    ensures var r := CustomerDetails(db, id).value;
      forall k :: k in TransactionKeys ==>
        (HasKey(r, k) <==>
          exists i :: 0 <= i < |db.transactions| && db.transactions[i].customerId == id) &&
        (TransactionOf(db, id).Some? ==>
          Get(r, k) == Get(TransactionFields(TransactionOf(db, id).value), k))
    ensures !HasKey(CustomerDetails(db, id).value, AmountInDollars)
    ensures var r := CustomerDetails(db, id).value;
      TransactionOf(db, id).Some? ==>
        Get(r, AmountUsd) == TransactionOf(db, id).value.amountInDollars &&
        Get(r, TransactionType) == TransactionOf(db, id).value.transactionType
  {
    var p := Profile(db, id).value;
    var sPart := SentimentPart(db, id);
    var tPart := TransactionPart(db, id);
    assert CustomerDetails(db, id).value == p + (sPart + tPart);
    forall k | k in TransactionKeys
      ensures HasKey(p + (sPart + tPart), k) <==> TransactionOf(db, id).Some?
      ensures TransactionOf(db, id).Some? ==> Get(p + (sPart + tPart), k) == Get(tPart, k)
    {
      TransactionPartKeys(db, id, k);
      ProfileLacks(db, id, k);
      GetConcat(p, sPart + tPart, k);
      GetConcat(sPart, tPart, k);
    }
    TransactionPartLacks(db, id);
    ProfileLacks(db, id, AmountInDollars);
    GetConcat(p, sPart + tPart, AmountInDollars);
    GetConcat(sPart, tPart, AmountInDollars);
    if TransactionOf(db, id).Some? {
      TransactionFieldValues(TransactionOf(db, id).value);
    }
  }

  /** The social-media part holds a social-media key exactly when there is a row; the
      transaction part never does. */
  lemma SentimentPartKeys(db: Db, id: string, k: Key)
    requires k in SentimentKeys
    ensures HasKey(SentimentPart(db, id), k) <==> SentimentOf(db, id).Some?
    ensures !HasKey(TransactionPart(db, id), k)
  {
    HasKeyIff(SentimentPart(db, id), k);
    HasKeyIff(TransactionPart(db, id), k);
    if SentimentOf(db, id).Some? {
      var i := if k == Platform then 0 else if k == Content then 1 else if k == Timestamp then 2
        else if k == SentimentScore then 3 else 4;
      assert SentimentPart(db, id)[i].0 == k;
    }
  }

  /** The transaction part holds a transaction key exactly when there is a row; the
      social-media part never does. */
  lemma TransactionPartKeys(db: Db, id: string, k: Key)
    requires k in TransactionKeys
    ensures HasKey(TransactionPart(db, id), k) <==> TransactionOf(db, id).Some?
    ensures !HasKey(SentimentPart(db, id), k)
  {
    HasKeyIff(TransactionPart(db, id), k);
    HasKeyIff(SentimentPart(db, id), k);
    if TransactionOf(db, id).Some? {
      var i := if k == TransactionType then 0 else if k == Category then 1
        else if k == AmountUsd then 2 else if k == PurchaseDate then 3 else 4;
      assert TransactionPart(db, id)[i].0 == k;
    }
  }

  /** Neither part carries the transaction amount's column name. */
  lemma TransactionPartLacks(db: Db, id: string)
    ensures !HasKey(SentimentPart(db, id), AmountInDollars)
    ensures !HasKey(TransactionPart(db, id), AmountInDollars)
  {
    HasKeyIff(SentimentPart(db, id), AmountInDollars);
    HasKeyIff(TransactionPart(db, id), AmountInDollars);
  }

  lemma SentimentFieldValues(s: SentimentRow)
    ensures Get(SentimentFields(s), SentimentScore) == s.sentimentScore
    ensures Get(SentimentFields(s), Platform) == s.platform
  {
    GetAt(SentimentFields(s), 3, SentimentScore);
    GetAt(SentimentFields(s), 0, Platform);
  }

  lemma TransactionFieldValues(t: TransactionRow)
    ensures Get(TransactionFields(t), AmountUsd) == t.amountInDollars
    ensures Get(TransactionFields(t), TransactionType) == t.transactionType
  {
    GetAt(TransactionFields(t), 2, AmountUsd);
    GetAt(TransactionFields(t), 0, TransactionType);
  }

  /** A profile never holds a social-media or transaction key. */
  lemma ProfileLacks(db: Db, id: string, k: Key)
    requires Profile(db, id).Some?
    requires k in {Platform, Content, Timestamp, SentimentScore, Intent,
      TransactionType, Category, AmountUsd, PurchaseDate, PaymentMode,
      AmountInDollars}
    ensures !HasKey(Profile(db, id).value, k)
  {
    HasKeyIff(Profile(db, id).value, k);
  }

  /** A few rows of the seed data: the individual `CUST2025A` with a social-media row and two
      transactions, and the organization `ORG_US_004` with two transactions and no
      social-media row. */
  function SampleDb(): Db {
    Db(
      [OrgRow("ORG_US_004", Str(SampleIndustry),
        Str(SampleNeeds),
        Str(SamplePreferences), Str("150M-20M"), Str("800-150"))],
      [IndRow("CUST2025A", Int(25), Str("F"), Str("New York"), Str(SampleInterests),
        Str(SampleDiscounts), Int(180000), Str("Master's"), Str(SampleOccupation))],
      [SentimentRow("CUST2025A", "3267", Str("Instagram"),
        Str(SampleContent), Str("11/20/24 19:27"),
        Num(7.0 / 10.0, "0.7"), Str(SampleIntent))],
      [TransactionRow("CUST2025A", 201, Str(SampleShopping), Str("Gucci"), Int(3000), Str("1/5/2025"),
         Str("Credit Card")),
       TransactionRow("ORG_US_004", 202, Str(SampleLease), Str(SampleStore),
         Int(500000), Str("1/5/2025"), Str("Wire Transfer")),
       TransactionRow("CUST2025A", 205, Str("Stock Investment"), Str("Equity"), Int(25000),
         Str("1/2/2025"), Str("Auto Debit")),
       TransactionRow("ORG_US_004", 233, Str("Inventory Loan"), Str("Seasonal Stock"), Int(2000000),
         Str("1/20/2025"), Str("Business Loan"))])
  }

  /* Longer texts of the sample rows. */
  const SampleIndustry := "Fashion and Clothing"
  const SampleNeeds := "Supply Chain Financing, Inventory Loans, Retail Banking, Treasury Services, Cloud Platform"
  const SamplePreferences := "Direct-To-Customer eCommerce Platform"
  const SampleInterests := "Luxury Shopping, Travel, Dining"
  const SampleDiscounts := "Discounts, New Arrivals"
  const SampleOccupation := "Marketing Manager"
  const SampleContent := "Excited to get promoted! Time to plan for wealth creation"
  const SampleIntent := "Sales and Expansion"
  const SampleLease := "Retail Space Lease"
  const SampleStore := "New Flagship store"
  const SampleShopping := "Luxury Shopping"

  /** Which sample rows the lookups of the individual `CUST2025A` pick. */
  lemma SampleIndividualLookups(db: Db)
    requires db == SampleDb()
    ensures IndividualOf(db, "CUST2025A") == Some(db.ind[0])
    ensures SentimentOf(db, "CUST2025A") == Some(db.sentiment[0])
    ensures TransactionOf(db, "CUST2025A") == Some(db.transactions[0])
  {
  }

  /** Which sample rows the lookups of the organization `ORG_US_004` pick. */
  lemma SampleOrganizationLookups(db: Db)
    requires db == SampleDb()
    ensures IndividualOf(db, "ORG_US_004").None?
    ensures OrganizationOf(db, "ORG_US_004") == Some(db.org[0])
    ensures SentimentOf(db, "ORG_US_004").None?
    ensures TransactionOf(db, "ORG_US_004") == Some(db.transactions[1])
  {
    assert db.ind[0].customerId != "ORG_US_004";
    assert db.sentiment[0].customerId != "ORG_US_004";
    assert db.transactions[0].customerId != "ORG_US_004";
  }

  /** An individual with a social-media row and a transaction row: its record carries the
      profile columns, the score of that social-media row and the transaction's fields. */
  lemma IndividualDetails(db: Db, id: string, row: IndRow)
    requires IndividualOf(db, id) == Some(row)
    requires SentimentOf(db, id).Some? && TransactionOf(db, id).Some?
    ensures var r := CustomerDetails(db, id);
      r.Some? &&
      Get(r.value, CustomerId) == Str(id) &&
      Get(r.value, Age) == row.age &&
      Get(r.value, Gender) == row.gender &&
      Get(r.value, Location) == row.location &&
      Get(r.value, Interests) == row.interests &&
      Get(r.value, SentimentScore) == SentimentOf(db, id).value.sentimentScore &&
      Get(r.value, TransactionType) == TransactionOf(db, id).value.transactionType &&
      Get(r.value, AmountUsd) == TransactionOf(db, id).value.amountInDollars
  {
    IndividualFirst(db, id, []);
    SentimentMerged(db, id);
    TransactionMerged(db, id);
    var m := Merged(db, id);
    assert CustomerDetails(db, id).value == IndRecord(row) + m;
    MergedLacks(db, id, Age);
    MergedLacks(db, id, Location);
    MergedLacks(db, id, Gender);
    MergedLacks(db, id, Interests);
    GetConcat(IndRecord(row), m, Age);
    GetConcat(IndRecord(row), m, Location);
    GetConcat(IndRecord(row), m, Gender);
    GetConcat(IndRecord(row), m, Interests);
    IndRecordValues(row);
  }

  /** The individual lookup on the sample rows: profile columns, the social-media score and
      the first transaction. */
  lemma IndividualExample(db: Db)
    requires db == SampleDb()
    ensures var r := CustomerDetails(db, "CUST2025A");
      r.Some? &&
      Get(r.value, CustomerId) == Str("CUST2025A") &&
      Get(r.value, Age) == Int(25) &&
      Get(r.value, Gender) == Str("F") &&
      Get(r.value, Location) == Str("New York") &&
      Get(r.value, Interests) == Str(SampleInterests) &&
      Get(r.value, SentimentScore) == Num(7.0 / 10.0, "0.7") &&
      Get(r.value, TransactionType) == Str(SampleShopping) &&
      Get(r.value, AmountUsd) == Int(3000)
  {
    SampleIndividualLookups(db);
    IndividualDetails(db, "CUST2025A", db.ind[0]);
  }

  /** An organization with no social-media row and a transaction row: its record carries the
      renamed range columns and the transaction's fields, and no score. */
  lemma OrganizationDetails(db: Db, id: string, row: OrgRow)
    requires IndividualOf(db, id).None? && OrganizationOf(db, id) == Some(row)
    requires SentimentOf(db, id).None? && TransactionOf(db, id).Some?
    ensures var r := CustomerDetails(db, id);
      r.Some? &&
      Get(r.value, CustomerId) == Str(id) &&
      Get(r.value, Industry) == row.industry &&
      Get(r.value, RevenueRange) == row.revenueInDollars &&
      Get(r.value, EmployeeCountRange) == row.noOfEmployees &&
      Get(r.value, TransactionType) == TransactionOf(db, id).value.transactionType &&
      Get(r.value, AmountUsd) == TransactionOf(db, id).value.amountInDollars &&
      Get(r.value, SentimentScore) == Null
  {
    OrganizationRenamed(db, id);
    SentimentMerged(db, id);
    TransactionMerged(db, id);
    assert CustomerDetails(db, id).value == OrgView(row) + Merged(db, id);
    OrgViewIndustry(row);
    MergedLacks(db, id, Industry);
    GetConcat(OrgView(row), Merged(db, id), Industry);
  }

  /** The organization lookup on the sample rows: renamed range columns, the first of its two
      transactions, and no social-media fields. */
  lemma OrganizationExample(db: Db)
    requires db == SampleDb()
    ensures var r := CustomerDetails(db, "ORG_US_004");
      r.Some? &&
      Get(r.value, CustomerId) == Str("ORG_US_004") &&
      Get(r.value, Industry) == Str(SampleIndustry) &&
      Get(r.value, RevenueRange) == Str("150M-20M") &&
      Get(r.value, EmployeeCountRange) == Str("800-150") &&
      Get(r.value, TransactionType) == Str(SampleLease) &&
      Get(r.value, AmountUsd) == Int(500000) &&
      Get(r.value, SentimentScore) == Null
  {
    SampleOrganizationLookups(db);
    OrganizationDetails(db, "ORG_US_004", db.org[0]);
  }

  /** An id in neither profile table gives None. */
  lemma UnknownExample(db: Db)
    requires db == SampleDb()
    ensures CustomerDetails(db, "INVALID_ID").None?
  {
    assert IndividualOf(db, "INVALID_ID").None? by {
      assert db.ind[0].customerId != "INVALID_ID";
    }
    assert OrganizationOf(db, "INVALID_ID").None? by {
      assert db.org[0].customerId != "INVALID_ID";
    }
  }
}
