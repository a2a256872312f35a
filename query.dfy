/** `generate_similarity_query`: the text whose embedding is searched for products. Clauses
    are emitted in a fixed order, each gated on the truthiness of the fields it mentions,
    joined by ". " and followed by a fixed question. */
module Query {
  import opened Values
  import opened Records
  import opened Text

  /** One candidate clause: whether its gate holds, its fixed opening words, and the rest
      (the interpolated field values). */
  datatype Clause = Clause(fires: bool, lead: string, rest: string)

  /** The words a clause contributes when it fires. */
  function Sentence(c: Clause): string {
    c.lead + c.rest
  }

  const Separator := ". "
  const Question := "What banking products match my profile, needs, and behavior?"
  /** What follows the joined clauses, including the leading separator. */
  const Closing := Separator + Question
  const OrgOpening := "I represent an organization"
  const ContentLead := "The content related to this was '"
  const PersonLead := "I\U{2019}m a "
  const CostsLead := "I\U{2019}m feeling"
  const CostsRest := " concerned about costs and need affordable or supportive solutions"
  const CostsPhrase := CostsLead + CostsRest
  const PracticalLead := "I\U{2019}m looking"
  const PracticalRest := " for practical and straightforward options"
  const PracticalPhrase := PracticalLead + PracticalRest
  const OptimisticLead := "I\U{2019}m optimistic"
  const OptimisticRest := " and seeking premium or growth-oriented solutions"
  const OptimisticPhrase := OptimisticLead + OptimisticRest

  /** `customer_data.get(k)` is truthy. */
  predicate On(r: Record, k: Key) {
    Truthy(Get(r, k))
  }

  /** `f"{customer_data[k]}"`. */
  function Field(r: Record, k: Key): string {
    Render(Get(r, k))
  }

  /** Organizations are recognised by the absence of every individual attribute: none of
      age, gender and occupation is truthy. */
  predicate IsOrganization(r: Record) {
    !(On(r, Age) || On(r, Gender) || On(r, Occupation))
  }

  /** The score can be compared with a float: Python raises TypeError for a str. */
  predicate ScoreComparable(r: Record) {
    !Get(r, SentimentScore).Str?
  }

  /** The query's three sentiment bands. */
  datatype Band = Concerned | Practical | Optimistic

  /** Python's `score <= -0.3`, then `-0.3 < score <= 0.3`, then `score > 0.3`; for a number
      exactly one of the three holds. */
  function QueryBand(x: real): (b: Band)
    ensures b == Concerned <==> x <= -0.3
    ensures b == Practical <==> -0.3 < x <= 0.3
    ensures b == Optimistic <==> x > 0.3
  {
    if x <= -0.3 then Concerned else if -0.3 < x <= 0.3 then Practical else Optimistic
  }

  /** The opening clauses: the organization clauses, or the individual ones. */
  function ProfileClauses(r: Record): seq<Clause> {
    OrganizationClauses(r) + IndividualClauses(r)
  }

  function OrganizationClauses(r: Record): seq<Clause> {
    var org := IsOrganization(r);
    [Clause(org, OrgOpening, ""),
     Clause(org && On(r, Industry), "in the ", Field(r, Industry) + " industry"),
     Clause(org && On(r, RevenueRange), "with a revenue range of ", Field(r, RevenueRange)),
     Clause(org && On(r, EmployeeCountRange), "and an employee count of ",
       Field(r, EmployeeCountRange))]
  }

  function IndividualClauses(r: Record): seq<Clause> {
    var org := IsOrganization(r);
    [Clause(!org && PersonKnown(r), PersonLead, PersonRest(r)),
     Clause(!org && On(r, IncomePerYear), "with an income of ",
       Field(r, IncomePerYear) + " per year"),
     Clause(!org && On(r, Education), "and a ", Field(r, Education) + " education")]
  }

  /** All four fields of the individual's introduction are truthy. */
  predicate PersonKnown(r: Record) {
    On(r, Age) && On(r, Gender) && On(r, Occupation) && On(r, Location)
  }

  function PersonRest(r: Record): string {
    Field(r, Age) + "-year-old " + Field(r, Gender) + " " + Field(r, Occupation)
    + " from " + Field(r, Location)
  }

  function InterestClauses(r: Record): seq<Clause> {
    [Clause(On(r, Interests), "My interests are ", Field(r, Interests)),
     Clause(On(r, Preferences), "and I prefer ", Field(r, Preferences))]
  }

  /** A transaction is mentioned only when both its type and its category are truthy; its
      cost, date and payment mode only after it. */
  predicate TransactionKnown(r: Record) {
    On(r, TransactionType) && On(r, Category)
  }

  function TransactionClauses(r: Record): seq<Clause> {
    var made := TransactionKnown(r);
    [Clause(made, "I recently made a ",
       Field(r, TransactionType) + " transaction for " + Field(r, Category)),
     Clause(made && On(r, AmountUsd), "costing ", Field(r, AmountUsd) + " USD"),
     Clause(made && On(r, PurchaseDate), "on ", Field(r, PurchaseDate)),
     Clause(made && On(r, PaymentMode), "via ", Field(r, PaymentMode))]
  }

  function SocialClauses(r: Record): seq<Clause> {
    [Clause(On(r, Platform), "on ", Field(r, Platform)),
     Clause(On(r, Content), ContentLead, ContentRest(r))]
  }

  /** The quoted content, with the timestamp in parentheses when it is truthy. */
  function ContentRest(r: Record): string {
    Field(r, Content) + "'"
    + (if On(r, Timestamp) then " (timestamp: " + Field(r, Timestamp) + ")" else "")
  }

  /** The three sentiment phrases; none fires for a missing score (`is not None`, not
      truthiness: a score of 0 still gives a phrase). */
  function SentimentClauses(r: Record): seq<Clause>
    requires ScoreComparable(r)
  {
    var s := Get(r, SentimentScore);
    [Clause(IsNumber(s) && QueryBand(AsReal(s)) == Concerned, CostsLead, CostsRest),
     Clause(IsNumber(s) && QueryBand(AsReal(s)) == Practical, PracticalLead, PracticalRest),
     Clause(IsNumber(s) && QueryBand(AsReal(s)) == Optimistic, OptimisticLead, OptimisticRest)]
  }

  function IntentClauses(r: Record): seq<Clause> {
    [IntentClause(r)]
  }

  function IntentClause(r: Record): Clause {
    Clause(On(r, Intent), "and my intent is ", Field(r, Intent))
  }

  /** Every candidate clause, in the order the source considers them. */
  function Clauses(r: Record): seq<Clause>
    requires ScoreComparable(r)
  {
    ProfileClauses(r) + InterestClauses(r) + TransactionClauses(r) + SocialClauses(r)
    + SentimentClauses(r) + IntentClauses(r)
  }

  /** The sentences of the clauses that fire, in order. */
  function Fired(cs: seq<Clause>): seq<string> {
    if cs == [] then []
    else
      var last := cs[|cs| - 1];
      Fired(cs[..|cs| - 1]) + (if last.fires then [Sentence(last)] else [])
  }

  /** The query built from a clause list. */
  function QueryOf(cs: seq<Clause>): string {
    Join(Fired(cs), Separator) + Closing
  }

  /** The list `query_parts` the source builds for `r`. */
  function Parts(r: Record): seq<string>
    requires ScoreComparable(r)
  {
    Fired(Clauses(r))
  }

  /** The query the source returns for `r`. */
  function SimilarityQuery(r: Record): string
    requires ScoreComparable(r)
  {
    QueryOf(Clauses(r))
  }

  /** `parts.append(c)` when `c` fires. */
  function Emit(parts: seq<string>, c: Clause): seq<string> {
    if c.fires then parts + [Sentence(c)] else parts
  }

  lemma FiredSnoc(cs: seq<Clause>, c: Clause)
    ensures Fired(cs + [c]) == Emit(Fired(cs), c)
  {
    assert (cs + [c])[..|cs|] == cs;
  }

  /** The fired sentences of a concatenation are those of each part, in order. */
  lemma {:induction false} FiredConcat(a: seq<Clause>, b: seq<Clause>)
    ensures Fired(a + b) == Fired(a) + Fired(b)
    decreases |b|
  {
    if b == [] {
      assert a + b == a;
    } else {
      var b' := b[..|b| - 1];
      var c := b[|b| - 1];
      assert b == b' + [c];
      assert a + b == (a + b') + [c];
      FiredSnoc(a + b', c);
      FiredSnoc(b', c);
      FiredConcat(a, b');
    }
  }

  lemma FiredPair(c0: Clause, c1: Clause)
    ensures Fired([c0, c1]) == Emit(Emit([], c0), c1)
  {
    FiredSnoc([], c0);
    FiredSnoc([c0], c1);
    assert [c0] + [c1] == [c0, c1];
  }

  lemma FiredTriple(c0: Clause, c1: Clause, c2: Clause)
    ensures Fired([c0, c1, c2]) == Emit(Emit(Emit([], c0), c1), c2)
  {
    FiredPair(c0, c1);
    FiredSnoc([c0, c1], c2);
    assert [c0, c1] + [c2] == [c0, c1, c2];
  }

  lemma FiredQuad(c0: Clause, c1: Clause, c2: Clause, c3: Clause)
    ensures Fired([c0, c1, c2, c3]) == Emit(Emit(Emit(Emit([], c0), c1), c2), c3)
  {
    FiredTriple(c0, c1, c2);
    FiredSnoc([c0, c1, c2], c3);
    assert [c0, c1, c2] + [c3] == [c0, c1, c2, c3];
  }

  /** The opening block: the organization clauses, or the individual ones. */
  method ProfileParts(r: Record) returns (out: seq<string>)
    ensures out == Fired(ProfileClauses(r))
  {
    var isOrganization := !(On(r, Age) || On(r, Gender) || On(r, Occupation));
    if isOrganization {
      out := OrganizationParts(r);
      IndividualSilent(r);
    } else {
      out := IndividualParts(r);
      OrganizationSilent(r);
    }
    FiredConcat(OrganizationClauses(r), IndividualClauses(r));
  }

  /** An individual emits none of the organization clauses. */
  lemma OrganizationSilent(r: Record)
    requires !IsOrganization(r)
    ensures Fired(OrganizationClauses(r)) == []
  {
    var o := OrganizationClauses(r);
    FiredSilent(o);
  }

  /** An organization emits none of the individual clauses. */
  lemma IndividualSilent(r: Record)
    requires IsOrganization(r)
    ensures Fired(IndividualClauses(r)) == []
  {
    var i := IndividualClauses(r);
    FiredSilent(i);
  }

  method OrganizationParts(r: Record) returns (out: seq<string>)
    requires IsOrganization(r)
    ensures out == Fired(OrganizationClauses(r))
  {
    out := [OrgOpening];
    if On(r, Industry) {
      out := out + ["in the " + (Field(r, Industry) + " industry")];
    }
    if On(r, RevenueRange) {
      out := out + ["with a revenue range of " + Field(r, RevenueRange)];
    }
    if On(r, EmployeeCountRange) {
      out := out + ["and an employee count of " + Field(r, EmployeeCountRange)];
    }
    ghost var o := OrganizationClauses(r);
    assert OrgOpening + "" == OrgOpening;
    assert [] + [OrgOpening] == [OrgOpening];
    FiredQuad(o[0], o[1], o[2], o[3]);
  }

  method IndividualParts(r: Record) returns (out: seq<string>)
    requires !IsOrganization(r)
    ensures out == Fired(IndividualClauses(r))
  {
    out := [];
    if On(r, Age) && On(r, Gender) && On(r, Occupation) && On(r, Location) {
      out := out + [PersonLead + (Field(r, Age) + "-year-old " + Field(r, Gender) + " "
        + Field(r, Occupation) + " from " + Field(r, Location))];
    }
    if On(r, IncomePerYear) {
      out := out + ["with an income of " + (Field(r, IncomePerYear) + " per year")];
    }
    if On(r, Education) {
      out := out + ["and a " + (Field(r, Education) + " education")];
    }
    ghost var i := IndividualClauses(r);
    FiredTriple(i[0], i[1], i[2]);
  }

  /** The interests and preferences clauses. */
  method InterestsParts(r: Record) returns (out: seq<string>)
    ensures out == Fired(InterestClauses(r))
  {
    out := [];
    if On(r, Interests) {
      out := out + ["My interests are " + Field(r, Interests)];
    }
    if On(r, Preferences) {
      out := out + ["and I prefer " + Field(r, Preferences)];
    }
    FiredPair(InterestClauses(r)[0], InterestClauses(r)[1]);
  }

  /** The transaction clause and, only inside it, its cost, date and payment mode. */
  method TransactionParts(r: Record) returns (out: seq<string>)
    ensures out == Fired(TransactionClauses(r))
  {
    out := [];
    if On(r, TransactionType) && On(r, Category) {
      out := out + ["I recently made a " + (Field(r, TransactionType) + " transaction for "
        + Field(r, Category))];
      if On(r, AmountUsd) {
        out := out + ["costing " + (Field(r, AmountUsd) + " USD")];
      }
      if On(r, PurchaseDate) {
        out := out + ["on " + Field(r, PurchaseDate)];
      }
      if On(r, PaymentMode) {
        out := out + ["via " + Field(r, PaymentMode)];
      }
    }
    ghost var cs := TransactionClauses(r);
    FiredQuad(cs[0], cs[1], cs[2], cs[3]);
  }

  /** The platform clause and the quoted content, with its timestamp when truthy. */
  method SocialParts(r: Record) returns (out: seq<string>)
    ensures out == Fired(SocialClauses(r))
  {
    out := [];
    if On(r, Platform) {
      out := out + ["on " + Field(r, Platform)];
    }
    if On(r, Content) {
      var contentStr := ContentLead + (Field(r, Content) + "'"
        + (if On(r, Timestamp) then " (timestamp: " + Field(r, Timestamp) + ")" else ""));
      out := out + [contentStr];
    }
    FiredPair(SocialClauses(r)[0], SocialClauses(r)[1]);
  }

  /** The sentiment phrase, for a score that is not None. */
  method SentimentParts(r: Record) returns (out: seq<string>)
    requires ScoreComparable(r)
    ensures out == Fired(SentimentClauses(r))
  {
    out := [];
    var sentimentScore := Get(r, SentimentScore);
    if sentimentScore != Null {
      if AsReal(sentimentScore) <= -0.3 {
        out := out + [CostsPhrase];
      } else if -0.3 < AsReal(sentimentScore) <= 0.3 {
        out := out + [PracticalPhrase];
      } else if AsReal(sentimentScore) > 0.3 {
        out := out + [OptimisticPhrase];
      }
    }
    ghost var cs := SentimentClauses(r);
    FiredTriple(cs[0], cs[1], cs[2]);
  }

  /** `generate_similarity_query(customer_data)`: the blocks in source order, then the join
      and the closing question; a str score is excluded because comparing it raises
      TypeError. */
  method GenerateSimilarityQuery(r: Record) returns (q: string)
    requires ScoreComparable(r)
    ensures q == SimilarityQuery(r)
  {
    var queryParts := ProfileParts(r);
    var interestsParts := InterestsParts(r);
    queryParts := queryParts + interestsParts;
    var transactionParts := TransactionParts(r);
    queryParts := queryParts + transactionParts;
    var socialParts := SocialParts(r);
    queryParts := queryParts + socialParts;
    var sentimentParts := SentimentParts(r);
    queryParts := queryParts + sentimentParts;
    ghost var blocks := queryParts;
    if On(r, Intent) {
      queryParts := queryParts + ["and my intent is " + Field(r, Intent)];
    }
    IntentFired(r);
    assert queryParts == blocks + Fired(IntentClauses(r));
    FiredConcat(OrganizationClauses(r), IndividualClauses(r));
    PartsByGroup(r);
    q := Join(queryParts, Separator) + Closing;
  }

  /** The intent clause gives its sentence exactly when the intent is truthy. */
  lemma IntentFired(r: Record)
    ensures Fired(IntentClauses(r)) == if On(r, Intent) then ["and my intent is " + Field(r, Intent)] else []
  {
    FiredSnoc([], IntentClause(r));
  }

  /** The query's sentences, group by group. */
  lemma PartsByGroup(r: Record)
    requires ScoreComparable(r)
    ensures Parts(r) == Fired(OrganizationClauses(r)) + Fired(IndividualClauses(r))
      + Fired(InterestClauses(r)) + Fired(TransactionClauses(r)) + Fired(SocialClauses(r))
      + Fired(SentimentClauses(r)) + Fired(IntentClauses(r))
  {
    FiredSeven(OrganizationClauses(r), IndividualClauses(r), InterestClauses(r),
      TransactionClauses(r), SocialClauses(r), SentimentClauses(r), IntentClauses(r));
  }

  lemma FiredSeven(o: seq<Clause>, i: seq<Clause>, n: seq<Clause>, t: seq<Clause>,
                   s: seq<Clause>, m: seq<Clause>, e: seq<Clause>)
    ensures Fired(o + i + n + t + s + m + e)
      == Fired(o) + Fired(i) + Fired(n) + Fired(t) + Fired(s) + Fired(m) + Fired(e)
  {
    FiredConcat(o, i);
    FiredConcat(o + i, n);
    FiredConcat(o + i + n, t);
    FiredConcat(o + i + n + t, s);
    FiredConcat(o + i + n + t + s, m);
    FiredConcat(o + i + n + t + s + m, e);
  }

  /** No clause of `cs` fires. */
  predicate Silent(cs: seq<Clause>) {
    forall i :: 0 <= i < |cs| ==> !cs[i].fires
  }

  /** A quick test that two opening phrases differ, at their first, fifth, sixth or seventh
      character; it separates every pair of opening phrases that the properties below
      compare. */
  predicate Apart(s: string, p: string) {
    (0 < |s| && 0 < |p| && s[0] != p[0]) || (4 < |s| && 4 < |p| && s[4] != p[4])
    || (5 < |s| && 5 < |p| && s[5] != p[5]) || (6 < |s| && 6 < |p| && s[6] != p[6])
  }

  lemma ApartClash(s: string, p: string)
    requires Apart(s, p)
    ensures Clash(s, p)
  {
  }

  /** Every clause of `cs` that fires opens with words that are apart from `p`. */
  predicate Clashing(cs: seq<Clause>, p: string) {
    forall i :: 0 <= i < |cs| && cs[i].fires ==> Apart(cs[i].lead, p)
  }

  lemma ClashingConcat(a: seq<Clause>, b: seq<Clause>, p: string)
    requires Clashing(a, p) && Clashing(b, p)
    ensures Clashing(a + b, p)
  {
    forall i | 0 <= i < |a + b| && (a + b)[i].fires ensures Apart((a + b)[i].lead, p) {
      if i >= |a| {
        assert (a + b)[i] == b[i - |a|];
      }
    }
  }

  /** Clauses that do not fire contribute nothing. */
  lemma {:induction false} FiredSilent(cs: seq<Clause>)
    requires Silent(cs)
    ensures Fired(cs) == []
  {
    if cs != [] {
      FiredSilent(cs[..|cs| - 1]);
    }
  }

  /** When every clause that fires opens with words clashing with `p`, so does every
      emitted sentence. */
  lemma {:induction false} FiredClash(cs: seq<Clause>, p: string)
    requires Clashing(cs, p)
    ensures forall j :: 0 <= j < |Fired(cs)| ==> Clash(Fired(cs)[j], p)
  {
    if cs != [] {
      var last := cs[|cs| - 1];
      FiredClash(cs[..|cs| - 1], p);
      if last.fires {
        ApartClash(last.lead, p);
        ClashExtend(last.lead, last.rest, p);
      }
    }
  }

  /** The sentences emitted around one clause `c`. */
  lemma FiredAround(before: seq<Clause>, c: Clause, after: seq<Clause>)
    ensures Fired(before + [c] + after) ==
      Fired(before) + (if c.fires then [Sentence(c)] else []) + Fired(after)
  {
    FiredConcat(before + [c], after);
    FiredSnoc(before, c);
  }

  /** A joined list followed by the closing question is its first sentence followed by a
      tail that begins with the separator. */
  lemma QueryHead(parts: seq<string>)
    requires parts != []
    ensures Join(parts, Separator) + Closing == parts[0] + QueryTail(parts)
    ensures StartsWith(QueryTail(parts), Separator)
  {
    JoinHead(parts, Separator, Question);
  }

  /** What follows the first sentence in the query. */
  function QueryTail(parts: seq<string>): string
    requires parts != []
  {
    Separator + (if |parts| == 1 then "" else Join(parts[1..], Separator) + Separator) + Question
  }

  /** A query begins with `p` exactly when the clause `c`, whose opening words begin with `p`,
      fires, given that no clause before it fires and that every clause after it and the
      closing question clash with `p`. */
  lemma QueryStartsIff(before: seq<Clause>, c: Clause, after: seq<Clause>, p: string)
    requires StartsWith(c.lead, p)
    requires Silent(before) && Clashing(after, p) && Apart(Separator, p)
    ensures StartsWith(QueryOf(before + [c] + after), p) <==> c.fires
    ensures c.fires ==> StartsWith(QueryOf(before + [c] + after), Sentence(c) + Separator)
  {
    var cs := before + [c] + after;
    FiredAround(before, c, after);
    FiredSilent(before);
    FiredClash(after, p);
    var parts := Fired(cs);
    var q := QueryOf(cs);
    if c.fires {
      assert parts == [Sentence(c)] + Fired(after);
      QueryHead(parts);
      StartsWithAppend(Sentence(c), QueryTail(parts), Separator);
      StartsWithPrefix(q, Sentence(c), Separator);
      assert StartsWith(Sentence(c), c.lead);
      StartsWithTrans(Sentence(c), c.lead, p);
      StartsWithTrans(q, Sentence(c), p);
    } else {
      assert parts == Fired(after);
      if parts == [] {
        ApartClash(Separator, p);
        ClashExtend(Separator, Question, p);
      } else {
        QueryHead(parts);
        ClashExtend(parts[0], QueryTail(parts), p);
      }
    }
  }

  /** The sentence of clause `c` is emitted once if `c` fires and not at all otherwise, given
      that every other clause that fires opens with words clashing with those of `c`. */
  lemma CountIff(before: seq<Clause>, c: Clause, after: seq<Clause>)
    requires Clashing(before, c.lead) && Clashing(after, c.lead)
    ensures multiset(Fired(before + [c] + after))[Sentence(c)] == if c.fires then 1 else 0
  {
    FiredAround(before, c, after);
    FiredClash(before, c.lead);
    FiredClash(after, c.lead);
    NotEmitted(Fired(before), c.lead, c.rest);
    NotEmitted(Fired(after), c.lead, c.rest);
  }

  /** A sentence made of the opening words of clause `c` and some `rest` is emitted once when
      `c` fires with that rest, and not at all otherwise, given that every other clause that
      fires opens with words clashing with those of `c`. */
  lemma CountOf(before: seq<Clause>, c: Clause, after: seq<Clause>, rest: string)
    requires Clashing(before, c.lead) && Clashing(after, c.lead)
    ensures multiset(Fired(before + [c] + after))[c.lead + rest] ==
      if c.fires && c.rest == rest then 1 else 0
  {
    FiredAround(before, c, after);
    FiredClash(before, c.lead);
    FiredClash(after, c.lead);
    NotEmitted(Fired(before), c.lead, rest);
    NotEmitted(Fired(after), c.lead, rest);
    if c.lead + c.rest == c.lead + rest {
      assert (c.lead + c.rest)[|c.lead|..] == c.rest;
      assert (c.lead + rest)[|c.lead|..] == rest;
    }
  }

  /** Sentences that clash with `lead` never equal a sentence that starts with it. */
  lemma NotEmitted(parts: seq<string>, lead: string, rest: string)
    requires forall j :: 0 <= j < |parts| ==> Clash(parts[j], lead)
    ensures multiset(parts)[lead + rest] == 0
  {
    forall j | 0 <= j < |parts| ensures parts[j] != lead + rest {
      ClashSymmetric(parts[j], lead);
      ClashExtend(lead, rest, parts[j]);
    }
  }

  /** Some emitted sentence begins with `p` exactly when clause `c`, whose opening words begin
      with `p`, fires, given that every other clause that fires clashes with `p`. */
  lemma SomeStartsIff(before: seq<Clause>, c: Clause, after: seq<Clause>, p: string)
    requires StartsWith(c.lead, p) && Clashing(before, p) && Clashing(after, p)
    ensures var parts := Fired(before + [c] + after);
      (exists j :: 0 <= j < |parts| && StartsWith(parts[j], p)) <==> c.fires
  {
    FiredAround(before, c, after);
    FiredClash(before, p);
    FiredClash(after, p);
    var parts := Fired(before + [c] + after);
    var nb := |Fired(before)|;
    if c.fires {
      assert parts[nb] == Sentence(c);
      assert StartsWith(Sentence(c), c.lead);
      StartsWithTrans(Sentence(c), c.lead, p);
    } else {
      forall j | 0 <= j < |parts| ensures !StartsWith(parts[j], p) {
        if j < nb {
          ClashNotPrefix(Fired(before)[j], p);
        } else {
          ClashNotPrefix(Fired(after)[j - nb], p);
        }
      }
    }
  }
}
