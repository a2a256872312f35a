/** The two records of the similarity-query tests in code/test/app-test.py, and the sentences
    the query is built from for each. */
module QueryTests {
  import opened Values
  import opened Records
  import opened Text
  import opened Query
  import QueryFacts

  /** The fixed phrases of the expected queries, as the tests write them. */
  const TestOpening := "I represent an organization"
  const TestPerson := "I\U{2019}m a "
  const TestContent := "The content related to this was '"
  const TestOptimistic := "I\U{2019}m optimistic" + " and seeking premium or growth-oriented solutions"
  const TestClosing := ". " + "What banking products match my profile, needs, and behavior?"

  /** Every clause of a four-clause group fires: each sentence appears, in order. */
  lemma AllFire4(c0: Clause, c1: Clause, c2: Clause, c3: Clause)
    requires c0.fires && c1.fires && c2.fires && c3.fires
    ensures Fired([c0, c1, c2, c3]) == [Sentence(c0), Sentence(c1), Sentence(c2), Sentence(c3)]
  {
    FiredQuad(c0, c1, c2, c3);
  }

  /** The organization of the organization test (code/test/app-test.py:183-199). */
  function OrganizationRecord(): Record {
    [(CustomerId, Str(OrgId)),
     (Industry, Str(OrgIndustry)),
     (RevenueRange, Str(OrgRevenue)),
     (EmployeeCountRange, Str(OrgEmployees)),
     (Preferences, Str(OrgPreferences)),
     (TransactionType, Str(OrgTransaction)),
     (Category, Str(OrgCategory)),
     (AmountUsd, Int(1000000)),
     (PurchaseDate, Str(OrgDate)),
     (PaymentMode, Str(OrgPayment)),
     (Platform, Str(OrgPlatform)),
     (Content, Str(OrgContent)),
     (Timestamp, Str(OrgTimestamp)),
     (SentimentScore, Num(0.7, "0.7")),
     (Intent, Str(OrgIntent))]
  }

  const OrgId := "ORG_US_006"
  const OrgIndustry := "Luxury Fashion and Apparel"
  const OrgRevenue := "300M-150M"
  const OrgEmployees := "100-250"
  const OrgPreferences := "Limited Edition Collections, Global Marketing"
  const OrgTransaction := "Fabric Procurement"
  const OrgCategory := "Italian Silk & Cashmere"
  const OrgDate := "2/23/2025"
  const OrgPayment := "Bank Wire"
  const OrgPlatform := "Twitter"
  const OrgContent := "The rising costs of premium fabrics is impacting price strategy"
  const OrgTimestamp := "1/8/25 8:00"
  const OrgIntent := "Travel and work Setup"

  /** What `get` returns for the keys the organization's profile sentences read. */
  predicate OrganizationProfileGets(r: Record) {
    Get(r, Age) == Null && Get(r, Gender) == Null && Get(r, Occupation) == Null
    && Get(r, IncomePerYear) == Null && Get(r, Education) == Null
    && Get(r, Industry) == Str(OrgIndustry) && Get(r, RevenueRange) == Str(OrgRevenue)
    && Get(r, EmployeeCountRange) == Str(OrgEmployees)
  }

  /** What `get` returns for the keys of the organization's preference and purchase. */
  predicate OrganizationPurchaseGets(r: Record) {
    Get(r, Interests) == Null && Get(r, Preferences) == Str(OrgPreferences)
    && Get(r, TransactionType) == Str(OrgTransaction) && Get(r, Category) == Str(OrgCategory)
    && Get(r, AmountUsd) == Int(1000000) && Get(r, PurchaseDate) == Str(OrgDate)
    && Get(r, PaymentMode) == Str(OrgPayment)
  }

  /** What `get` returns for the keys of the organization's post. */
  predicate OrganizationPostGets(r: Record) {
    Get(r, Platform) == Str(OrgPlatform) && Get(r, Content) == Str(OrgContent)
    && Get(r, Timestamp) == Str(OrgTimestamp) && Get(r, SentimentScore) == Num(0.7, "0.7")
    && Get(r, Intent) == Str(OrgIntent)
  }

  /** The organization's dict literal names no key twice. */
  lemma OrganizationKeyed()
    ensures Keyed(OrganizationRecord())
  {
    var d := OrganizationRecord();
    assert forall i :: 0 <= i < 8 ==> OrganizationPosition(d[i].0) == i;
    assert forall i :: 8 <= i < |d| ==> OrganizationPosition(d[i].0) == i;
    KeyedByPosition(d, OrganizationPosition);
  }

  /** Where each key stands in the organization's dict literal. */
  function OrganizationPosition(k: Key): int {
    if k == CustomerId then 0 else if k == Industry then 1 else if k == RevenueRange then 2
    else if k == EmployeeCountRange then 3 else if k == Preferences then 4
    else if k == TransactionType then 5 else if k == Category then 6 else if k == AmountUsd then 7
    else if k == PurchaseDate then 8 else if k == PaymentMode then 9 else if k == Platform then 10
    else if k == Content then 11 else if k == Timestamp then 12 else if k == SentimentScore then 13
    else if k == Intent then 14 else -1
  }

  /** `get` returns the value the organization's dict literal pairs with a key. */
  lemma OrganizationGet(k: Key, v: Value)
    requires (k, v) in OrganizationRecord()
    ensures Get(OrganizationRecord(), k) == v
  {
    OrganizationKeyed();
    GetMember(OrganizationRecord(), k, v);
  }

  lemma OrganizationProfileFields(r: Record)
    requires r == OrganizationRecord()
    ensures OrganizationProfileGets(r)
  {
    OrganizationNoPerson(r);
    OrganizationGet(Industry, Str(OrgIndustry));
    OrganizationGet(RevenueRange, Str(OrgRevenue));
    OrganizationGet(EmployeeCountRange, Str(OrgEmployees));
  }

  /** The organization's dict has none of the individual's keys. */
  lemma OrganizationNoPerson(r: Record)
    requires r == OrganizationRecord()
    ensures Get(r, Age) == Null && Get(r, Gender) == Null && Get(r, Occupation) == Null
    ensures Get(r, IncomePerYear) == Null && Get(r, Education) == Null
  {
    GetAbsentAll(r, {Age, Gender, Occupation, IncomePerYear, Education});
  }

  lemma OrganizationPurchaseFields(r: Record)
    requires r == OrganizationRecord()
    ensures OrganizationPurchaseGets(r)
  {
    GetAbsentAll(r, {Interests});
    OrganizationGet(Preferences, Str(OrgPreferences));
    OrganizationGet(TransactionType, Str(OrgTransaction));
    OrganizationGet(Category, Str(OrgCategory));
    OrganizationGet(AmountUsd, Int(1000000));
    OrganizationGet(PurchaseDate, Str(OrgDate));
    OrganizationGet(PaymentMode, Str(OrgPayment));
  }

  lemma OrganizationPostFields(r: Record)
    requires r == OrganizationRecord()
    ensures OrganizationPostGets(r)
  {
    OrganizationGet(Platform, Str(OrgPlatform));
    OrganizationGet(Content, Str(OrgContent));
    OrganizationGet(Timestamp, Str(OrgTimestamp));
    OrganizationGet(SentimentScore, Num(0.7, "0.7"));
    OrganizationGet(Intent, Str(OrgIntent));
  }

  /** The sentences the organization test expects (code/test/app-test.py:201-216), group by
      group, with "I’m" as the source writes it. */
  function OrganizationExpected(): seq<seq<string>> {
    [[TestOpening,
      "in the " + (OrgIndustry + " industry"),
      "with a revenue range of " + OrgRevenue,
      "and an employee count of " + OrgEmployees],
     [],
     ["and I prefer " + OrgPreferences],
     ["I recently made a " + (OrgTransaction + " transaction for " + OrgCategory),
      "costing " + ("1000000" + " USD"),
      "on " + OrgDate,
      "via " + OrgPayment],
     ["on " + OrgPlatform,
      TestContent + (OrgContent + "'"
        + (" (timestamp: " + OrgTimestamp + ")"))],
     [TestOptimistic],
     ["and my intent is " + OrgIntent]]
  }

  /** All the expected sentences of the organization test, in order. */
  function OrganizationSentences(): seq<string> {
    var e := OrganizationExpected();
    e[0] + e[1] + e[2] + e[3] + e[4] + e[5] + e[6]
  }

  /** The organization test: its query is the expected sentences joined by ". ", then the
      closing question. */
  lemma OrganizationQueryExample(r: Record)
    requires r == OrganizationRecord()
    ensures ScoreComparable(r)
    ensures SimilarityQuery(r) == Join(OrganizationSentences(), ". ") + TestClosing
  {
    OrganizationProfileFields(r);
    OrganizationPurchaseFields(r);
    OrganizationPostFields(r);
    OrganizationQuery(r);
  }

  /** The query of any record that answers the test's lookups as its dict does. */
  lemma OrganizationQuery(r: Record)
    requires OrganizationProfileGets(r) && OrganizationPurchaseGets(r) && OrganizationPostGets(r)
    ensures ScoreComparable(r)
    ensures SimilarityQuery(r) == Join(OrganizationSentences(), Separator) + Closing
  {
    var e := OrganizationExpected();
    PartsByGroup(r);
    QueryFacts.QuietIndividual(r);
    OrganizationOpeningGroup(r, e);
    OrganizationInterestGroup(r, e);
    OrganizationTransactionGroup(r, e);
    OrganizationPostGroups(r, e);
  }

  lemma OrganizationOpeningGroup(r: Record, e: seq<seq<string>>)
    requires OrganizationProfileGets(r)
    requires e == OrganizationExpected()
    ensures Fired(OrganizationClauses(r)) == e[0]
  {
    OrganizationAll(r);
  }

  lemma OrganizationInterestGroup(r: Record, e: seq<seq<string>>)
    requires OrganizationPurchaseGets(r)
    requires e == OrganizationExpected()
    ensures Fired(InterestClauses(r)) == e[2]
  {
    PreferencesOnly(r);
  }

  lemma OrganizationTransactionGroup(r: Record, e: seq<seq<string>>)
    requires OrganizationPurchaseGets(r)
    requires e == OrganizationExpected()
    ensures Fired(TransactionClauses(r)) == e[3]
  {
    RenderMillion();
    TransactionAll(r);
  }

  lemma OrganizationPostGroups(r: Record, e: seq<seq<string>>)
    requires OrganizationPostGets(r)
    requires e == OrganizationExpected()
    ensures ScoreComparable(r)
    ensures Fired(SocialClauses(r)) == e[4]
    ensures Fired(SentimentClauses(r)) == e[5]
    ensures Fired(IntentClauses(r)) == e[6]
  {
    SocialAll(r);
    OptimisticOnly(r);
    IntentOnly(r);
  }

  /** The individual of the individual test (code/test/app-test.py:141-161). */
  function IndividualRecord(): Record {
    [(CustomerId, Str(IndId)),
     (Age, Int(25)),
     (Gender, Str("F")),
     (Occupation, Str(IndOccupation)),
     (Location, Str(IndLocation)),
     (IncomePerYear, Int(180000)),
     (Education, Str(IndEducation)),
     (Interests, Str(IndInterests)),
     (Preferences, Str(IndPreferences)),
     (TransactionType, Str(IndTransaction)),
     (Category, Str(IndCategory)),
     (AmountUsd, Int(3000)),
     (PurchaseDate, Str(IndDate)),
     (PaymentMode, Str(IndPayment)),
     (Platform, Str(IndPlatform)),
     (Content, Str(IndContent)),
     (Timestamp, Str(IndTimestamp)),
     (SentimentScore, Num(0.7, "0.7")),
     (Intent, Str(IndIntent))]
  }

  const IndId := "CUST2025A"
  const IndOccupation := "Marketing Manager"
  const IndLocation := "New York"
  const IndEducation := "Master's"
  const IndInterests := "Luxury Shopping, Travel, Dining"
  const IndPreferences := "Discounts, New Arrivals"
  const IndTransaction := "Luxury Shopping"
  const IndCategory := "Gucci"
  const IndDate := "1/5/2025"
  const IndPayment := "Credit Card"
  const IndPlatform := "Instagram"
  const IndContent := "Excited to get promoted! Time to plan for wealth creation"
  const IndTimestamp := "11/20/24 19:27"
  const IndIntent := "Sales and Expansion"

  /** What `get` returns for the keys the individual's profile sentences read. */
  predicate IndividualProfileGets(r: Record) {
    Get(r, Age) == Int(25) && Get(r, Gender) == Str("F")
    && Get(r, Occupation) == Str(IndOccupation) && Get(r, Location) == Str(IndLocation)
    && Get(r, IncomePerYear) == Int(180000) && Get(r, Education) == Str(IndEducation)
  }

  /** What `get` returns for the keys of the individual's interests and purchase. */
  predicate IndividualPurchaseGets(r: Record) {
    Get(r, Interests) == Str(IndInterests) && Get(r, Preferences) == Str(IndPreferences)
    && Get(r, TransactionType) == Str(IndTransaction) && Get(r, Category) == Str(IndCategory)
    && Get(r, AmountUsd) == Int(3000) && Get(r, PurchaseDate) == Str(IndDate)
    && Get(r, PaymentMode) == Str(IndPayment)
  }

  /** What `get` returns for the keys of the individual's post. */
  predicate IndividualPostGets(r: Record) {
    Get(r, Platform) == Str(IndPlatform) && Get(r, Content) == Str(IndContent)
    && Get(r, Timestamp) == Str(IndTimestamp) && Get(r, SentimentScore) == Num(0.7, "0.7")
    && Get(r, Intent) == Str(IndIntent)
  }

  /** The individual's dict literal names no key twice. */
  lemma IndividualKeyed()
    ensures Keyed(IndividualRecord())
  {
    var d := IndividualRecord();
    assert forall i :: 0 <= i < 7 ==> IndividualPosition(d[i].0) == i;
    assert forall i :: 7 <= i < 13 ==> IndividualPosition(d[i].0) == i;
    assert forall i :: 13 <= i < |d| ==> IndividualPosition(d[i].0) == i;
    KeyedByPosition(d, IndividualPosition);
  }

  /** Where each key stands in the individual's dict literal. */
  function IndividualPosition(k: Key): int {
    if k == CustomerId then 0 else if k == Age then 1 else if k == Gender then 2
    else if k == Occupation then 3 else if k == Location then 4 else if k == IncomePerYear then 5
    else if k == Education then 6 else if k == Interests then 7 else if k == Preferences then 8
    else if k == TransactionType then 9 else if k == Category then 10 else if k == AmountUsd then 11
    else if k == PurchaseDate then 12 else if k == PaymentMode then 13 else if k == Platform then 14
    else if k == Content then 15 else if k == Timestamp then 16 else if k == SentimentScore then 17
    else if k == Intent then 18 else -1
  }

  /** `get` returns the value the individual's dict literal pairs with a key. */
  lemma IndividualGet(k: Key, v: Value)
    requires (k, v) in IndividualRecord()
    ensures Get(IndividualRecord(), k) == v
  {
    IndividualKeyed();
    GetMember(IndividualRecord(), k, v);
  }

  lemma IndividualProfileFields(r: Record)
    requires r == IndividualRecord()
    ensures IndividualProfileGets(r)
  {
    IndividualGet(Age, Int(25));
    IndividualGet(Gender, Str("F"));
    IndividualGet(Occupation, Str(IndOccupation));
    IndividualLaterProfileFields(r);
  }

  lemma IndividualLaterProfileFields(r: Record)
    requires r == IndividualRecord()
    ensures Get(r, Location) == Str(IndLocation)
    ensures Get(r, IncomePerYear) == Int(180000)
    ensures Get(r, Education) == Str(IndEducation)
  {
    IndividualGet(Location, Str(IndLocation));
    IndividualGet(IncomePerYear, Int(180000));
    IndividualGet(Education, Str(IndEducation));
  }

  lemma IndividualPurchaseFields(r: Record)
    requires r == IndividualRecord()
    ensures IndividualPurchaseGets(r)
  {
    IndividualGet(Interests, Str(IndInterests));
    IndividualGet(Preferences, Str(IndPreferences));
    IndividualGet(TransactionType, Str(IndTransaction));
    IndividualGet(Category, Str(IndCategory));
    IndividualGet(AmountUsd, Int(3000));
    IndividualGet(PurchaseDate, Str(IndDate));
    IndividualGet(PaymentMode, Str(IndPayment));
  }

  lemma IndividualPostFields(r: Record)
    requires r == IndividualRecord()
    ensures IndividualPostGets(r)
  {
    IndividualGet(Platform, Str(IndPlatform));
    IndividualGet(Content, Str(IndContent));
    IndividualGet(Timestamp, Str(IndTimestamp));
    IndividualGet(SentimentScore, Num(0.7, "0.7"));
    IndividualGet(Intent, Str(IndIntent));
  }

  /** The sentences the individual test expects (code/test/app-test.py:163-177), group by
      group, with "I’m" as the source writes it. */
  function IndividualExpected(): seq<seq<string>> {
    [[],
     [TestPerson + ("25" + "-year-old " + "F" + " " + IndOccupation + " from " + IndLocation),
      "with an income of " + ("180000" + " per year"),
      "and a " + (IndEducation + " education")],
     ["My interests are " + IndInterests,
      "and I prefer " + IndPreferences],
     ["I recently made a " + (IndTransaction + " transaction for " + IndCategory),
      "costing " + ("3000" + " USD"),
      "on " + IndDate,
      "via " + IndPayment],
     ["on " + IndPlatform,
      TestContent + (IndContent + "'"
        + (" (timestamp: " + IndTimestamp + ")"))],
     [TestOptimistic],
     ["and my intent is " + IndIntent]]
  }

  /** All the expected sentences of the individual test, in order. */
  function IndividualSentences(): seq<string> {
    var e := IndividualExpected();
    e[0] + e[1] + e[2] + e[3] + e[4] + e[5] + e[6]
  }

  /** The individual test: its query is the expected sentences joined by ". ", then the
      closing question. */
  lemma IndividualQueryExample(r: Record)
    requires r == IndividualRecord()
    ensures ScoreComparable(r)
    ensures SimilarityQuery(r) == Join(IndividualSentences(), ". ") + TestClosing
  {
    IndividualProfileFields(r);
    IndividualPurchaseFields(r);
    IndividualPostFields(r);
    IndividualQuery(r);
  }

  /** The query of any record that answers the test's lookups as its dict does. */
  lemma IndividualQuery(r: Record)
    requires IndividualProfileGets(r) && IndividualPurchaseGets(r) && IndividualPostGets(r)
    ensures ScoreComparable(r)
    ensures SimilarityQuery(r) == Join(IndividualSentences(), Separator) + Closing
  {
    var e := IndividualExpected();
    PartsByGroup(r);
    QueryFacts.ProfileBlock(r);
    IndividualOpeningGroup(r, e);
    IndividualInterestGroup(r, e);
    IndividualTransactionGroup(r, e);
    IndividualPostGroups(r, e);
  }

  lemma IndividualOpeningGroup(r: Record, e: seq<seq<string>>)
    requires IndividualProfileGets(r)
    requires e == IndividualExpected()
    ensures Fired(IndividualClauses(r)) == e[1]
  {
    RenderIndividualNumbers();
    PersonAll(r);
  }

  lemma IndividualInterestGroup(r: Record, e: seq<seq<string>>)
    requires IndividualPurchaseGets(r)
    requires e == IndividualExpected()
    ensures Fired(InterestClauses(r)) == e[2]
  {
    RenderIndividualNumbers();
    InterestsAll(r);
  }

  lemma IndividualTransactionGroup(r: Record, e: seq<seq<string>>)
    requires IndividualPurchaseGets(r)
    requires e == IndividualExpected()
    ensures Fired(TransactionClauses(r)) == e[3]
  {
    RenderIndividualNumbers();
    TransactionAll(r);
  }

  lemma IndividualPostGroups(r: Record, e: seq<seq<string>>)
    requires IndividualPostGets(r)
    requires e == IndividualExpected()
    ensures ScoreComparable(r)
    ensures Fired(SocialClauses(r)) == e[4]
    ensures Fired(SentimentClauses(r)) == e[5]
    ensures Fired(IntentClauses(r)) == e[6]
  {
    SocialAll(r);
    OptimisticOnly(r);
    IntentOnly(r);
  }

  /** `str(25)`, `str(180000)` and `str(3000)`. */
  lemma RenderIndividualNumbers()
    ensures Render(Int(25)) == "25"
    ensures Render(Int(180000)) == "180000"
    ensures Render(Int(3000)) == "3000"
  {
    assert NatToString(2) == "2";
    assert NatToString(25) == "25";
    assert NatToString(18) == "18";
    assert NatToString(180) == "180";
    assert NatToString(1800) == "1800";
    assert NatToString(18000) == "18000";
    assert NatToString(180000) == "180000";
    assert NatToString(3) == "3";
    assert NatToString(30) == "30";
    assert NatToString(300) == "300";
    assert NatToString(3000) == "3000";
  }

  /** `str(1000000)`. */
  lemma RenderMillion()
    ensures Render(Int(1000000)) == "1000000"
  {
    assert NatToString(1) == "1";
    assert NatToString(10) == "10";
    assert NatToString(100) == "100";
    assert NatToString(1000) == "1000";
    assert NatToString(10000) == "10000";
    assert NatToString(100000) == "100000";
    assert NatToString(1000000) == "1000000";
  }

  /* What each group contributes when the fields that gate it are as in the tests. */

  lemma OrganizationAll(r: Record)
    requires IsOrganization(r)
    requires On(r, Industry) && On(r, RevenueRange) && On(r, EmployeeCountRange)
    ensures Fired(OrganizationClauses(r)) ==
      [OrgOpening, "in the " + (Field(r, Industry) + " industry"),
       "with a revenue range of " + Field(r, RevenueRange),
       "and an employee count of " + Field(r, EmployeeCountRange)]
  {
    var o := OrganizationClauses(r);
    AllFire4(o[0], o[1], o[2], o[3]);
    assert o == [o[0], o[1], o[2], o[3]];
    assert Sentence(o[0]) == OrgOpening;
  }

  lemma PersonAll(r: Record)
    requires PersonKnown(r) && On(r, IncomePerYear) && On(r, Education)
    ensures Fired(IndividualClauses(r)) ==
      [PersonLead + PersonRest(r), "with an income of " + (Field(r, IncomePerYear) + " per year"),
       "and a " + (Field(r, Education) + " education")]
  {
    var i := IndividualClauses(r);
    FiredTriple(i[0], i[1], i[2]);
    assert i == [i[0], i[1], i[2]];
  }

  lemma InterestsAll(r: Record)
    requires On(r, Interests) && On(r, Preferences)
    ensures Fired(InterestClauses(r)) ==
      ["My interests are " + Field(r, Interests), "and I prefer " + Field(r, Preferences)]
  {
    var n := InterestClauses(r);
    FiredPair(n[0], n[1]);
    assert n == [n[0], n[1]];
  }

  lemma PreferencesOnly(r: Record)
    requires !On(r, Interests) && On(r, Preferences)
    ensures Fired(InterestClauses(r)) == ["and I prefer " + Field(r, Preferences)]
  {
    var n := InterestClauses(r);
    FiredPair(n[0], n[1]);
    assert n == [n[0], n[1]];
  }

  lemma TransactionAll(r: Record)
    requires TransactionKnown(r)
    requires On(r, AmountUsd) && On(r, PurchaseDate) && On(r, PaymentMode)
    ensures Fired(TransactionClauses(r)) ==
      ["I recently made a " + (Field(r, TransactionType) + " transaction for " + Field(r, Category)),
       "costing " + (Field(r, AmountUsd) + " USD"), "on " + Field(r, PurchaseDate),
       "via " + Field(r, PaymentMode)]
  {
    var t := TransactionClauses(r);
    AllFire4(t[0], t[1], t[2], t[3]);
    assert t == [t[0], t[1], t[2], t[3]];
  }

  lemma SocialAll(r: Record)
    requires On(r, Platform) && On(r, Content) && On(r, Timestamp)
    ensures Fired(SocialClauses(r)) ==
      ["on " + Field(r, Platform),
       ContentLead + (Field(r, Content) + "'" + (" (timestamp: " + Field(r, Timestamp) + ")"))]
  {
    var s := SocialClauses(r);
    FiredPair(s[0], s[1]);
    assert s == [s[0], s[1]];
  }

  lemma OptimisticOnly(r: Record)
    requires IsNumber(Get(r, SentimentScore)) && AsReal(Get(r, SentimentScore)) > 0.3
    ensures ScoreComparable(r)
    ensures Fired(SentimentClauses(r)) == [OptimisticPhrase]
  {
    var m := SentimentClauses(r);
    FiredTriple(m[0], m[1], m[2]);
    assert m == [m[0], m[1], m[2]];
  }

  lemma IntentOnly(r: Record)
    requires On(r, Intent)
    ensures Fired(IntentClauses(r)) == ["and my intent is " + Field(r, Intent)]
  {
    var e := IntentClauses(r);
    FiredSnoc([], e[0]);
    assert e == [] + [e[0]];
  }
}
