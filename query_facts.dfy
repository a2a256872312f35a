/** What `generate_similarity_query` promises about the text it builds: how it opens, which
    sentences it holds for which fields, and that exactly one sentiment phrase appears for a
    numeric score. */
module QueryFacts {
  import opened Values
  import opened Records
  import opened Text
  import opened Query

  /** The clause list as its seven groups, in order. */
  lemma ClausesShape(r: Record)
    requires ScoreComparable(r)
    ensures Clauses(r) == OrganizationClauses(r) + IndividualClauses(r) + InterestClauses(r)
      + TransactionClauses(r) + SocialClauses(r) + SentimentClauses(r) + IntentClauses(r)
  {
  }

  /** Cutting a clause list around the `k`-th clause of one of its groups, when the clauses
      on either side are apart from `p`. */
  lemma Isolate(cs: seq<Clause>, pre: seq<Clause>, group: seq<Clause>, post: seq<Clause>,
                k: nat, p: string)
    requires cs == pre + group + post && k < |group|
    requires Clashing(pre, p) && Clashing(post, p)
    requires Clashing(group[..k], p) && Clashing(group[k + 1..], p)
    ensures cs == (pre + group[..k]) + [group[k]] + (group[k + 1..] + post)
    ensures Clashing(pre + group[..k], p) && Clashing(group[k + 1..] + post, p)
  {
    assert group == group[..k] + [group[k]] + group[k + 1..];
    ClashingConcat(pre, group[..k], p);
    ClashingConcat(group[k + 1..], post, p);
  }

  lemma Clashing3(a: seq<Clause>, b: seq<Clause>, c: seq<Clause>, p: string)
    requires Clashing(a, p) && Clashing(b, p) && Clashing(c, p)
    ensures Clashing(a + b + c, p)
  {
    ClashingConcat(a, b, p);
    ClashingConcat(a + b, c, p);
  }

  lemma Clashing4(a: seq<Clause>, b: seq<Clause>, c: seq<Clause>, d: seq<Clause>, p: string)
    requires Clashing(a, p) && Clashing(b, p) && Clashing(c, p) && Clashing(d, p)
    ensures Clashing(a + b + c + d, p)
  {
    Clashing3(a, b, c, p);
    ClashingConcat(a + b + c, d, p);
  }

  /** The query opens with "I represent an organization" exactly for organizations, that is
      for records where none of age, gender and occupation is truthy. */
  lemma OrganizationOpening(r: Record)
    requires ScoreComparable(r)
    ensures StartsWith(SimilarityQuery(r), OrgOpening) <==> IsOrganization(r)
  {
    var (o, i, n, t, s, m, e) := (OrganizationClauses(r), IndividualClauses(r),
      InterestClauses(r), TransactionClauses(r), SocialClauses(r), SentimentClauses(r),
      IntentClauses(r));
    OpeningApart(r);
    ClausesShape(r);
    Regroup(o, i, n, t, s, m, e);
    Isolate(Clauses(r), [], o, i + n + t + s + m + e, 0, OrgOpening);
    QueryStartsIff([] + o[..0], o[0], o[1..] + (i + n + t + s + m + e), OrgOpening);
  }

  /** Some sentence of the query begins with `p` exactly when the `k`-th clause of `group`,
      whose opening words begin with `p`, fires, when every other clause is apart from `p`. */
  lemma PartsStartIff(r: Record, pre: seq<Clause>, group: seq<Clause>, post: seq<Clause>,
                      k: nat, p: string)
    requires ScoreComparable(r)
    requires Clauses(r) == pre + group + post && k < |group|
    requires StartsWith(group[k].lead, p)
    requires Clashing(pre, p) && Clashing(post, p)
    requires Clashing(group[..k], p) && Clashing(group[k + 1..], p)
    ensures (exists j :: 0 <= j < |Parts(r)| && StartsWith(Parts(r)[j], p)) <==> group[k].fires
  {
    Isolate(Clauses(r), pre, group, post, k, p);
    SomeStartsIff(pre + group[..k], group[k], group[k + 1..] + post, p);
    assert Parts(r) == Fired(pre + group[..k] + [group[k]] + (group[k + 1..] + post));
  }

  /** The sentence of the `k`-th clause of `group` occurs once in the query's sentences when
      it fires and never otherwise, when every other clause is apart from its opening words. */
  lemma PartsCount(r: Record, pre: seq<Clause>, group: seq<Clause>, post: seq<Clause>, k: nat)
    requires ScoreComparable(r)
    requires Clauses(r) == pre + group + post && k < |group|
    requires Clashing(pre, group[k].lead) && Clashing(post, group[k].lead)
    requires Clashing(group[..k], group[k].lead) && Clashing(group[k + 1..], group[k].lead)
    ensures multiset(Parts(r))[Sentence(group[k])] == if group[k].fires then 1 else 0
  {
    Isolate(Clauses(r), pre, group, post, k, group[k].lead);
    CountIff(pre + group[..k], group[k], group[k + 1..] + post);
  }

  /** The sentence made of the opening words of the `k`-th clause of `group` and `rest`
      occurs once in the query's sentences when that clause fires with that rest, and never
      otherwise, when every other clause is apart from its opening words. */
  lemma PartsCountOf(r: Record, pre: seq<Clause>, group: seq<Clause>, post: seq<Clause>,
                     k: nat, rest: string)
    requires ScoreComparable(r)
    requires Clauses(r) == pre + group + post && k < |group|
    requires Clashing(pre, group[k].lead) && Clashing(post, group[k].lead)
    requires Clashing(group[..k], group[k].lead) && Clashing(group[k + 1..], group[k].lead)
    ensures multiset(Parts(r))[group[k].lead + rest] ==
      if group[k].fires && group[k].rest == rest then 1 else 0
  {
    Isolate(Clauses(r), pre, group, post, k, group[k].lead);
    CountOf(pre + group[..k], group[k], group[k + 1..] + post, rest);
  }

  /** The industry sentence appears exactly for an organization with a truthy industry. */
  lemma IndustrySentence(r: Record)
    requires ScoreComparable(r)
    ensures (exists j :: 0 <= j < |Parts(r)| && StartsWith(Parts(r)[j], "in the "))
      <==> IsOrganization(r) && On(r, Industry)
  {
    OrganizationSentence(r, 1, "in the ");
  }

  /** The revenue range sentence appears exactly for an organization with a truthy revenue
      range. */
  lemma RevenueSentence(r: Record)
    requires ScoreComparable(r)
    ensures (exists j :: 0 <= j < |Parts(r)| && StartsWith(Parts(r)[j], "with a revenue range of "))
      <==> IsOrganization(r) && On(r, RevenueRange)
  {
    OrganizationSentence(r, 2, "with a revenue range of ");
  }

  /** The employee count sentence appears exactly for an organization with a truthy employee
      count range. */
  lemma EmployeeSentence(r: Record)
    requires ScoreComparable(r)
    ensures (exists j :: 0 <= j < |Parts(r)| && StartsWith(Parts(r)[j], "and an employee count of "))
      <==> IsOrganization(r) && On(r, EmployeeCountRange)
  {
    OrganizationSentence(r, 3, "and an employee count of ");
  }

  /** Some sentence opens with the words `p` of the `k`-th organization clause exactly when that
      clause fires. */
  lemma OrganizationSentence(r: Record, k: nat, p: string)
    requires ScoreComparable(r)
    requires (k, p) in {(1, "in the "), (2, "with a revenue range of "),
      (3, "and an employee count of ")}
    ensures (exists j :: 0 <= j < |Parts(r)| && StartsWith(Parts(r)[j], p))
      <==> OrganizationClauses(r)[k].fires
  {
    var (o, i, n, t, s, m, e) := (OrganizationClauses(r), IndividualClauses(r),
      InterestClauses(r), TransactionClauses(r), SocialClauses(r), SentimentClauses(r),
      IntentClauses(r));
    OrganizationLeadApart(r, k, p);
    ClausesShape(r);
    Regroup(o, i, n, t, s, m, e);
    PartsStartIff(r, [], o, i + n + t + s + m + e, k, p);
  }

  /** Every clause but the `k`-th organization clause is apart from its opening words `p`. */
  lemma OrganizationLeadApart(r: Record, k: nat, p: string)
    requires ScoreComparable(r)
    requires (k, p) in {(1, "in the "), (2, "with a revenue range of "),
      (3, "and an employee count of ")}
    ensures k < |OrganizationClauses(r)| && StartsWith(OrganizationClauses(r)[k].lead, p)
    ensures var o := OrganizationClauses(r);
      Clashing([], p) && Clashing(o[..k], p) && Clashing(o[k + 1..], p)
    ensures Clashing(IndividualClauses(r) + InterestClauses(r) + TransactionClauses(r)
      + SocialClauses(r) + SentimentClauses(r) + IntentClauses(r), p)
  {
    OrganizationApart(r, p, k);
    OrganizationLeadMiddle(r, k, p);
    OrganizationLeadLate(r, k, p);
    Clashing4(IndividualClauses(r) + InterestClauses(r) + TransactionClauses(r),
      SocialClauses(r), SentimentClauses(r), IntentClauses(r), p);
  }

  lemma OrganizationLeadMiddle(r: Record, k: nat, p: string)
    requires (k, p) in {(1, "in the "), (2, "with a revenue range of "),
      (3, "and an employee count of ")}
    ensures Clashing(IndividualClauses(r) + InterestClauses(r) + TransactionClauses(r), p)
  {
    IndividualApart(r, p, -1);
    InterestApart(r, p, -1);
    TransactionApart(r, p, -1);
    Clashing3(IndividualClauses(r), InterestClauses(r), TransactionClauses(r), p);
  }

  lemma OrganizationLeadLate(r: Record, k: nat, p: string)
    requires ScoreComparable(r)
    requires (k, p) in {(1, "in the "), (2, "with a revenue range of "),
      (3, "and an employee count of ")}
    ensures Clashing(SocialClauses(r), p) && Clashing(SentimentClauses(r), p)
    ensures Clashing(IntentClauses(r), p)
  {
    SocialApart(r, p, -1);
    SentimentApart(r, p, -1);
    IntentApart(r, p, -1);
  }

  /** The income sentence appears exactly for a person with a truthy income. */
  lemma IncomeSentence(r: Record)
    requires ScoreComparable(r)
    ensures (exists j :: 0 <= j < |Parts(r)| && StartsWith(Parts(r)[j], "with an income of "))
      <==> !IsOrganization(r) && On(r, IncomePerYear)
  {
    IndividualSentence(r, 1, "with an income of ");
  }

  /** The education sentence appears exactly for a person with a truthy education; it is not
      confused with the organization's "and an employee count of ". */
  lemma EducationSentence(r: Record)
    requires ScoreComparable(r)
    ensures (exists j :: 0 <= j < |Parts(r)| && StartsWith(Parts(r)[j], "and a "))
      <==> !IsOrganization(r) && On(r, Education)
  {
    IndividualSentence(r, 2, "and a ");
  }

  /** Some sentence opens with the words `p` of the `k`-th individual clause exactly when that
      clause fires. */
  lemma IndividualSentence(r: Record, k: nat, p: string)
    requires ScoreComparable(r)
    requires (k, p) in {(1, "with an income of "), (2, "and a ")}
    ensures (exists j :: 0 <= j < |Parts(r)| && StartsWith(Parts(r)[j], p))
      <==> IndividualClauses(r)[k].fires
  {
    var (o, i, n, t, s, m, e) := (OrganizationClauses(r), IndividualClauses(r),
      InterestClauses(r), TransactionClauses(r), SocialClauses(r), SentimentClauses(r),
      IntentClauses(r));
    IndividualLeadApart(r, k, p);
    ClausesShape(r);
    Regroup(o, i, n, t, s, m, e);
    PartsStartIff(r, o, i, n + t + s + m + e, k, p);
  }

  /** Every clause but the `k`-th individual clause is apart from its opening words `p`. */
  lemma IndividualLeadApart(r: Record, k: nat, p: string)
    requires ScoreComparable(r)
    requires (k, p) in {(1, "with an income of "), (2, "and a ")}
    ensures k < |IndividualClauses(r)| && StartsWith(IndividualClauses(r)[k].lead, p)
    ensures Clashing(OrganizationClauses(r), p)
    ensures var i := IndividualClauses(r);
      Clashing(i[..k], p) && Clashing(i[k + 1..], p)
    ensures Clashing(InterestClauses(r) + TransactionClauses(r) + SocialClauses(r)
      + SentimentClauses(r) + IntentClauses(r), p)
  {
    IndividualApart(r, p, k);
    IndividualLeadMiddle(r, k, p);
    IndividualLeadLate(r, k, p);
    Clashing3(InterestClauses(r) + TransactionClauses(r) + SocialClauses(r),
      SentimentClauses(r), IntentClauses(r), p);
  }

  lemma IndividualLeadMiddle(r: Record, k: nat, p: string)
    requires (k, p) in {(1, "with an income of "), (2, "and a ")}
    ensures Clashing(InterestClauses(r) + TransactionClauses(r) + SocialClauses(r), p)
  {
    InterestApart(r, p, -1);
    TransactionApart(r, p, -1);
    SocialApart(r, p, -1);
    Clashing3(InterestClauses(r), TransactionClauses(r), SocialClauses(r), p);
  }

  lemma IndividualLeadLate(r: Record, k: nat, p: string)
    requires ScoreComparable(r)
    requires (k, p) in {(1, "with an income of "), (2, "and a ")}
    ensures Clashing(SentimentClauses(r), p) && Clashing(IntentClauses(r), p)
    ensures Clashing(OrganizationClauses(r), p)
  {
    OrganizationApart(r, p, -1);
    SentimentApart(r, p, -1);
    IntentApart(r, p, -1);
  }

  /** For a person (not an organization), the query opens with "I’m a " exactly when age,
      gender, occupation and location are all truthy, and then its first sentence is that
      introduction. */
  lemma PersonOpening(r: Record)
    requires ScoreComparable(r) && !IsOrganization(r)
    ensures StartsWith(SimilarityQuery(r), PersonLead) <==> PersonKnown(r)
    ensures PersonKnown(r) ==>
      StartsWith(SimilarityQuery(r), PersonLead + PersonRest(r) + Separator)
  {
    var (o, i, n, t, s, m, e) := (OrganizationClauses(r), IndividualClauses(r),
      InterestClauses(r), TransactionClauses(r), SocialClauses(r), SentimentClauses(r),
      IntentClauses(r));
    var rest := n + t + s + m + e;
    PersonApart(r);
    ClausesShape(r);
    Regroup(o, i, n, t, s, m, e);
    Isolate(Clauses(r), o, i, rest, 0, PersonLead);
    PersonSilentBefore(r);
    QueryStartsIff(o + i[..0], i[0], i[1..] + rest, PersonLead);
  }

  /** Some sentence introduces a person ("I’m a …") exactly when the record is not an
      organization and age, gender, occupation and location are all truthy. */
  lemma PersonSentence(r: Record)
    requires ScoreComparable(r)
    ensures (exists j :: 0 <= j < |Parts(r)| && StartsWith(Parts(r)[j], PersonLead)) <==>
      !IsOrganization(r) && PersonKnown(r)
  {
    var (o, i, n, t, s, m, e) := (OrganizationClauses(r), IndividualClauses(r),
      InterestClauses(r), TransactionClauses(r), SocialClauses(r), SentimentClauses(r),
      IntentClauses(r));
    PersonApart(r);
    ClausesShape(r);
    Regroup(o, i, n, t, s, m, e);
    PartsStartIff(r, o, i, n + t + s + m + e, 0, PersonLead);
  }

  /** A transaction sentence appears exactly when both transaction type and category are
      truthy. */
  lemma TransactionSentence(r: Record)
    requires ScoreComparable(r)
    ensures (exists j :: 0 <= j < |Parts(r)| && StartsWith(Parts(r)[j], "I recently made a "))
      <==> TransactionKnown(r)
  {
    TransactionPart(r, "I recently made a ", 0);
  }

  /** The cost sentence appears exactly when a transaction is mentioned and its amount is
      truthy. */
  lemma CostSentence(r: Record)
    requires ScoreComparable(r)
    ensures (exists j :: 0 <= j < |Parts(r)| && StartsWith(Parts(r)[j], "costing ")) <==>
      TransactionKnown(r) && On(r, AmountUsd)
  {
    TransactionPart(r, "costing ", 1);
  }

  /** The payment-mode sentence appears exactly when a transaction is mentioned and its
      payment mode is truthy. */
  lemma PaymentSentence(r: Record)
    requires ScoreComparable(r)
    ensures (exists j :: 0 <= j < |Parts(r)| && StartsWith(Parts(r)[j], "via ")) <==>
      TransactionKnown(r) && On(r, PaymentMode)
  {
    TransactionPart(r, "via ", 3);
  }

  lemma TransactionPart(r: Record, p: string, k: nat)
    requires ScoreComparable(r)
    requires (k, p) in {(0, "I recently made a "), (1, "costing "), (3, "via ")}
    ensures (exists j :: 0 <= j < |Parts(r)| && StartsWith(Parts(r)[j], p)) <==>
      TransactionClauses(r)[k].fires
  {
    var (o, i, n, t, s, m, e) := (OrganizationClauses(r), IndividualClauses(r),
      InterestClauses(r), TransactionClauses(r), SocialClauses(r), SentimentClauses(r),
      IntentClauses(r));
    TransactionLeadApart(r, p, k);
    ClausesShape(r);
    Regroup(o, i, n, t, s, m, e);
    PartsStartIff(r, o + i + n, t, s + m + e, k, p);
  }

  lemma SentimentPart(r: Record, k: nat)
    requires ScoreComparable(r) && k < 3
    ensures multiset(Parts(r))[Sentence(SentimentClauses(r)[k])] ==
      if SentimentClauses(r)[k].fires then 1 else 0
  {
    var (o, i, n, t, s, m, e) := (OrganizationClauses(r), IndividualClauses(r),
      InterestClauses(r), TransactionClauses(r), SocialClauses(r), SentimentClauses(r),
      IntentClauses(r));
    SentimentLeadApart(r, k);
    ClausesShape(r);
    PartsCount(r, o + i + n + t + s, m, e, k);
  }

  /** A numeric score adds exactly one sentiment phrase, chosen by its band: at most -0.3
      the cost-concerned phrase, above 0.3 the optimistic one, and the practical one in
      between; a missing score adds none. */
  lemma SentimentPhrases(r: Record)
    requires ScoreComparable(r)
    ensures var x := Get(r, SentimentScore);
      && multiset(Parts(r))[CostsPhrase] == (if IsNumber(x) && AsReal(x) <= -0.3 then 1 else 0)
      && multiset(Parts(r))[PracticalPhrase] ==
        (if IsNumber(x) && -0.3 < AsReal(x) <= 0.3 then 1 else 0)
      && multiset(Parts(r))[OptimisticPhrase] == (if IsNumber(x) && AsReal(x) > 0.3 then 1 else 0)
    ensures multiset(Parts(r))[CostsPhrase] + multiset(Parts(r))[PracticalPhrase]
      + multiset(Parts(r))[OptimisticPhrase] == if Get(r, SentimentScore).Null? then 0 else 1
  {
    SentimentPart(r, 0);
    SentimentPart(r, 1);
    SentimentPart(r, 2);
  }

  /** The interests sentence appears exactly when interests are truthy. */
  lemma InterestsSentence(r: Record)
    requires ScoreComparable(r)
    ensures (exists j :: 0 <= j < |Parts(r)| && StartsWith(Parts(r)[j], "My interests are "))
      <==> On(r, Interests)
  {
    var p := "My interests are ";
    var (o, i, n, t, s, m, e) := (OrganizationClauses(r), IndividualClauses(r),
      InterestClauses(r), TransactionClauses(r), SocialClauses(r), SentimentClauses(r),
      IntentClauses(r));
    OrganizationApart(r, p, -1);
    IndividualApart(r, p, -1);
    InterestApart(r, p, 0);
    TransactionApart(r, p, -1);
    SocialApart(r, p, -1);
    SentimentApart(r, p, -1);
    IntentApart(r, p, -1);
    ClashingConcat(o, i, p);
    Clashing4(t, s, m, e, p);
    ClausesShape(r);
    assert Clauses(r) == (o + i) + n + (t + s + m + e);
    PartsStartIff(r, o + i, n, t + s + m + e, 0, p);
  }

  /** The preferences sentence appears exactly when preferences are truthy, whether or not
      the interests sentence does. */
  lemma PreferencesSentence(r: Record)
    requires ScoreComparable(r)
    ensures (exists j :: 0 <= j < |Parts(r)| && StartsWith(Parts(r)[j], "and I prefer "))
      <==> On(r, Preferences)
  {
    var p := "and I prefer ";
    var (o, i, n, t, s, m, e) := (OrganizationClauses(r), IndividualClauses(r),
      InterestClauses(r), TransactionClauses(r), SocialClauses(r), SentimentClauses(r),
      IntentClauses(r));
    OrganizationApart(r, p, -1);
    IndividualApart(r, p, -1);
    InterestApart(r, p, 1);
    TransactionApart(r, p, -1);
    SocialApart(r, p, -1);
    SentimentApart(r, p, -1);
    IntentApart(r, p, -1);
    ClashingConcat(o, i, p);
    Clashing4(t, s, m, e, p);
    ClausesShape(r);
    assert Clauses(r) == (o + i) + n + (t + s + m + e);
    PartsStartIff(r, o + i, n, t + s + m + e, 1, p);
  }

  /** The quoted-content sentence appears exactly when the content is truthy. */
  lemma ContentSentence(r: Record)
    requires ScoreComparable(r)
    ensures (exists j :: 0 <= j < |Parts(r)| && StartsWith(Parts(r)[j], ContentLead))
      <==> On(r, Content)
  {
    var (o, i, n, t, s, m, e) := (OrganizationClauses(r), IndividualClauses(r),
      InterestClauses(r), TransactionClauses(r), SocialClauses(r), SentimentClauses(r),
      IntentClauses(r));
    ContentLeadApart(r);
    ClausesShape(r);
    assert Clauses(r) == (o + i + n + t) + s + (m + e);
    PartsStartIff(r, o + i + n + t, s, m + e, 1, ContentLead);
  }

  /** The quoted content carries the timestamp in parentheses exactly when the timestamp is
      truthy: the query holds the stamped sentence once when content and timestamp are both
      truthy, the unstamped one once when only the content is, and neither otherwise. */
  lemma ContentStamp(r: Record)
    requires ScoreComparable(r)
    ensures multiset(Parts(r))[ContentLead + (Field(r, Content) + "'"
      + (" (timestamp: " + Field(r, Timestamp) + ")"))] ==
      if On(r, Content) && On(r, Timestamp) then 1 else 0
    ensures multiset(Parts(r))[ContentLead + (Field(r, Content) + "'" + "")] ==
      if On(r, Content) && !On(r, Timestamp) then 1 else 0
  {
    var (o, i, n, t, s, m, e) := (OrganizationClauses(r), IndividualClauses(r),
      InterestClauses(r), TransactionClauses(r), SocialClauses(r), SentimentClauses(r),
      IntentClauses(r));
    var quoted := Field(r, Content) + "'";
    var stamp := " (timestamp: " + Field(r, Timestamp) + ")";
    ContentLeadApart(r);
    ClausesShape(r);
    assert Clauses(r) == (o + i + n + t) + s + (m + e);
    PartsCountOf(r, o + i + n + t, s, m + e, 1, quoted + stamp);
    PartsCountOf(r, o + i + n + t, s, m + e, 1, quoted + "");
    assert |quoted + stamp| > |quoted + ""|;
  }

  /** Every clause but the quoted content is apart from its opening words. */
  lemma ContentLeadApart(r: Record)
    requires ScoreComparable(r)
    ensures Clashing(OrganizationClauses(r) + IndividualClauses(r) + InterestClauses(r)
      + TransactionClauses(r), ContentLead)
    ensures var s := SocialClauses(r);
      Clashing(s[..1], ContentLead) && Clashing(s[2..], ContentLead)
    ensures Clashing(SentimentClauses(r) + IntentClauses(r), ContentLead)
  {
    var p := ContentLead;
    var (o, i, n, t, m, e) := (OrganizationClauses(r), IndividualClauses(r),
      InterestClauses(r), TransactionClauses(r), SentimentClauses(r), IntentClauses(r));
    OrganizationApart(r, p, -1);
    IndividualApart(r, p, -1);
    InterestApart(r, p, -1);
    TransactionApart(r, p, -1);
    SocialApart(r, p, 1);
    SentimentApart(r, p, -1);
    IntentApart(r, p, -1);
    Clashing4(o, i, n, t, p);
    ClashingConcat(m, e, p);
  }

  /** The intent sentence appears exactly when the intent is truthy. */
  lemma IntentSentence(r: Record)
    requires ScoreComparable(r)
    ensures (exists j :: 0 <= j < |Parts(r)| && StartsWith(Parts(r)[j], "and my intent is "))
      <==> On(r, Intent)
  {
    var p := "and my intent is ";
    var (o, i, n, t, s, m, e) := (OrganizationClauses(r), IndividualClauses(r),
      InterestClauses(r), TransactionClauses(r), SocialClauses(r), SentimentClauses(r),
      IntentClauses(r));
    OrganizationApart(r, p, -1);
    IndividualApart(r, p, -1);
    InterestApart(r, p, -1);
    TransactionApart(r, p, -1);
    SocialApart(r, p, -1);
    SentimentApart(r, p, -1);
    IntentApart(r, p, 0);
    Clashing4(o, i, n, t, p);
    Clashing3(o + i + n + t, s, m, p);
    ClausesShape(r);
    assert Clauses(r) == (o + i + n + t + s + m) + e + [];
    PartsStartIff(r, o + i + n + t + s + m, e, [], 0, p);
  }

  /** The query is the bare closing question exactly when no clause fires. */
  lemma ClosingOnly(r: Record)
    requires ScoreComparable(r)
    ensures SimilarityQuery(r) == Closing <==> Parts(r) == []
  {
    var parts := Parts(r);
    if parts != [] {
      QueryHead(parts);
      PartsNonEmpty(r);
      assert |parts[0] + QueryTail(parts)| > |Closing|;
    }
  }

  /** Every sentence of the query is non-empty: no opening phrase starts with '#'. */
  lemma PartsNonEmpty(r: Record)
    requires ScoreComparable(r)
    ensures forall j :: 0 <= j < |Parts(r)| ==> Parts(r)[j] != ""
  {
    var p := "#";
    var (o, i, n, t, s, m, e) := (OrganizationClauses(r), IndividualClauses(r),
      InterestClauses(r), TransactionClauses(r), SocialClauses(r), SentimentClauses(r),
      IntentClauses(r));
    OrganizationApart(r, p, -1);
    IndividualApart(r, p, -1);
    InterestApart(r, p, -1);
    TransactionApart(r, p, -1);
    SocialApart(r, p, -1);
    SentimentApart(r, p, -1);
    IntentApart(r, p, -1);
    Clashing4(o, i, n, t, p);
    Clashing4(o + i + n + t, s, m, e, p);
    ClausesShape(r);
    FiredClash(Clauses(r), p);
  }

  /** A one-entry record holds its value under its key and nothing else. */
  lemma GetSingle(r: Record, k: Key, v: Value)
    requires r == [(k, v)]
    ensures forall k' :: Get(r, k') == if k' == k then v else Null
  {
  }

  /* Each group is silent when the fields that gate it are falsy. */
  lemma QuietIndividual(r: Record)
    requires !On(r, IncomePerYear) && !On(r, Education)
    requires IsOrganization(r) || !PersonKnown(r)
    ensures Fired(IndividualClauses(r)) == []
  {
    FiredSilent(IndividualClauses(r));
  }

  lemma QuietActivity(r: Record)
    requires !On(r, Interests) && !On(r, Preferences) && !On(r, TransactionType)
    requires !On(r, Platform) && !On(r, Content) && !On(r, Intent)
    ensures Fired(InterestClauses(r)) == [] && Fired(TransactionClauses(r)) == []
    ensures Fired(SocialClauses(r)) == [] && Fired(IntentClauses(r)) == []
  {
    FiredSilent(InterestClauses(r));
    FiredSilent(TransactionClauses(r));
    FiredSilent(SocialClauses(r));
    FiredSilent(IntentClauses(r));
  }

  /** The organization clauses fire only for organizations, led by the opening phrase; the
      individual clauses only for people. */
  lemma ProfileBlock(r: Record)
    ensures IsOrganization(r) ==> Fired(IndividualClauses(r)) == []
    ensures IsOrganization(r) ==>
      Fired(OrganizationClauses(r)) != [] && Fired(OrganizationClauses(r))[0] == OrgOpening
    ensures !IsOrganization(r) ==> Fired(OrganizationClauses(r)) == []
  {
    var (o, i) := (OrganizationClauses(r), IndividualClauses(r));
    if IsOrganization(r) {
      FiredSilent(i);
      FiredAround([], o[0], o[1..]);
      assert [] + [o[0]] + o[1..] == o;
      assert Sentence(o[0]) == OrgOpening;
    } else {
      FiredSilent(o);
    }
  }

  /** Cost, date and payment mode are mentioned only after the transaction sentence: without
      a truthy type and category the block is empty, and otherwise it opens with that
      sentence. */
  lemma TransactionBlock(r: Record)
    ensures !TransactionKnown(r) ==> Fired(TransactionClauses(r)) == []
    ensures TransactionKnown(r) ==>
      Fired(TransactionClauses(r)) != [] &&
      StartsWith(Fired(TransactionClauses(r))[0], "I recently made a ")
  {
    var t := TransactionClauses(r);
    if TransactionKnown(r) {
      FiredAround([], t[0], t[1..]);
      assert [] + [t[0]] + t[1..] == t;
      assert StartsWith(Sentence(t[0]), t[0].lead);
    } else {
      FiredSilent(t);
    }
  }

  /** An individual known only by age fails the four-field gate of the introduction and
      mentions nothing else: the query is the bare question. */
  lemma AgeOnlyExample(r: Record)
    requires r == [(Age, Int(25))]
    ensures ScoreComparable(r) && SimilarityQuery(r) == Closing
  {
    AgeOnlyParts(r);
    ClosingOnly(r);
  }

  lemma AgeOnlyParts(r: Record)
    requires r == [(Age, Int(25))]
    ensures ScoreComparable(r) && Parts(r) == []
  {
    AgeOnlyFields(r);
    FiredSilent(OrganizationClauses(r));
    QuietIndividual(r);
    QuietActivity(r);
    FiredSilent(SentimentClauses(r));
    PartsByGroup(r);
  }

  lemma AgeOnlyFields(r: Record)
    requires r == [(Age, Int(25))]
    ensures Get(r, SentimentScore) == Null
    ensures !IsOrganization(r) && !PersonKnown(r)
    ensures !On(r, IncomePerYear) && !On(r, Education)
    ensures !On(r, Interests) && !On(r, Preferences) && !On(r, TransactionType)
    ensures !On(r, Platform) && !On(r, Content) && !On(r, Intent)
  {
    GetSingle(r, Age, Int(25));
  }

  /** A zero score is not None, so it still adds the practical phrase although it is falsy;
      a record with none of age, gender and occupation counts as an organization. */
  lemma ZeroScoreExample(r: Record)
    requires r == [(SentimentScore, Num(0.0, "0.0"))]
    ensures Parts(r) == [OrgOpening, PracticalPhrase]
  {
    GetSingle(r, SentimentScore, Num(0.0, "0.0"));
    assert IsOrganization(r);
    QuietIndividual(r);
    QuietActivity(r);
    ZeroScoreGroups(r);
    PartsByGroup(r);
  }

  lemma ZeroScoreGroups(r: Record)
    requires r == [(SentimentScore, Num(0.0, "0.0"))]
    ensures ScoreComparable(r)
    ensures Fired(OrganizationClauses(r)) == [OrgOpening]
    ensures Fired(SentimentClauses(r)) == [PracticalPhrase]
  {
    GetSingle(r, SentimentScore, Num(0.0, "0.0"));
    var o := OrganizationClauses(r);
    FiredQuad(o[0], o[1], o[2], o[3]);
    assert o == [o[0], o[1], o[2], o[3]];
    assert Sentence(o[0]) == OrgOpening;
    var m := SentimentClauses(r);
    FiredTriple(m[0], m[1], m[2]);
    assert m == [m[0], m[1], m[2]];
  }

  /** The seven groups regrouped around the one a property is about. */
  lemma Regroup(o: seq<Clause>, i: seq<Clause>, n: seq<Clause>, t: seq<Clause>, s: seq<Clause>,
                m: seq<Clause>, e: seq<Clause>)
    ensures o + i + n + t + s + m + e == [] + o + (i + n + t + s + m + e)
    ensures o + i + n + t + s + m + e == o + i + (n + t + s + m + e)
    ensures o + i + n + t + s + m + e == (o + i + n) + t + (s + m + e)
  {
  }

  /** Every clause but the organization's opening is apart from "I represent an organization". */
  lemma OpeningApart(r: Record)
    requires ScoreComparable(r)
    ensures var o := OrganizationClauses(r);
      Clashing(o[..0], OrgOpening) && Clashing(o[1..], OrgOpening)
    ensures Clashing(IndividualClauses(r) + InterestClauses(r) + TransactionClauses(r)
      + SocialClauses(r) + SentimentClauses(r) + IntentClauses(r), OrgOpening)
  {
    var p := OrgOpening;
    var (i, n, t, s, m, e) := (IndividualClauses(r), InterestClauses(r), TransactionClauses(r),
      SocialClauses(r), SentimentClauses(r), IntentClauses(r));
    OrganizationApart(r, p, 0);
    IndividualApart(r, p, -1);
    InterestApart(r, p, -1);
    TransactionApart(r, p, -1);
    SocialApart(r, p, -1);
    SentimentApart(r, p, -1);
    IntentApart(r, p, -1);
    Clashing3(i, n, t, p);
    Clashing4(i + n + t, s, m, e, p);
  }

  /** Every clause but the person's introduction is apart from "I’m a ". */
  lemma PersonApart(r: Record)
    requires ScoreComparable(r)
    ensures Clashing(OrganizationClauses(r), PersonLead)
    ensures var i := IndividualClauses(r);
      Clashing(i[..0], PersonLead) && Clashing(i[1..], PersonLead)
    ensures Clashing(InterestClauses(r) + TransactionClauses(r) + SocialClauses(r)
      + SentimentClauses(r) + IntentClauses(r), PersonLead)
  {
    var p := PersonLead;
    var (n, t, s, m, e) := (InterestClauses(r), TransactionClauses(r), SocialClauses(r),
      SentimentClauses(r), IntentClauses(r));
    OrganizationApart(r, p, -1);
    IndividualApart(r, p, 0);
    InterestApart(r, p, -1);
    TransactionApart(r, p, -1);
    SocialApart(r, p, -1);
    SentimentApart(r, p, -1);
    IntentApart(r, p, -1);
    Clashing3(n, t, s, p);
    Clashing3(n + t + s, m, e, p);
  }

  /** For a person, nothing fires before the introduction. */
  lemma PersonSilentBefore(r: Record)
    requires !IsOrganization(r)
    ensures Silent(OrganizationClauses(r) + IndividualClauses(r)[..0])
  {
    assert OrganizationClauses(r) + IndividualClauses(r)[..0] == OrganizationClauses(r);
  }

  /** Every clause but the `k`-th transaction clause is apart from its opening words `p`. */
  lemma TransactionLeadApart(r: Record, p: string, k: nat)
    requires ScoreComparable(r)
    requires (k, p) in {(0, "I recently made a "), (1, "costing "), (3, "via ")}
    ensures k < |TransactionClauses(r)| && StartsWith(TransactionClauses(r)[k].lead, p)
    ensures Clashing(OrganizationClauses(r) + IndividualClauses(r) + InterestClauses(r), p)
    ensures var t := TransactionClauses(r);
      Clashing(t[..k], p) && Clashing(t[k + 1..], p)
    ensures Clashing(SocialClauses(r) + SentimentClauses(r) + IntentClauses(r), p)
  {
    TransactionApart(r, p, k);
    TransactionLeadBefore(r, p, k);
    TransactionLeadAfter(r, p, k);
  }

  lemma TransactionLeadBefore(r: Record, p: string, k: nat)
    requires (k, p) in {(0, "I recently made a "), (1, "costing "), (3, "via ")}
    ensures Clashing(OrganizationClauses(r) + IndividualClauses(r) + InterestClauses(r), p)
  {
    OrganizationApart(r, p, -1);
    IndividualApart(r, p, -1);
    InterestApart(r, p, -1);
    Clashing3(OrganizationClauses(r), IndividualClauses(r), InterestClauses(r), p);
  }

  lemma TransactionLeadAfter(r: Record, p: string, k: nat)
    requires ScoreComparable(r)
    requires (k, p) in {(0, "I recently made a "), (1, "costing "), (3, "via ")}
    ensures Clashing(SocialClauses(r) + SentimentClauses(r) + IntentClauses(r), p)
  {
    SocialApart(r, p, -1);
    SentimentApart(r, p, -1);
    IntentApart(r, p, -1);
    Clashing3(SocialClauses(r), SentimentClauses(r), IntentClauses(r), p);
  }

  /** Every clause but the `k`-th sentiment clause is apart from its opening words. */
  lemma SentimentLeadApart(r: Record, k: nat)
    requires ScoreComparable(r) && k < 3
    ensures var (m, p) := (SentimentClauses(r), SentimentClauses(r)[k].lead);
      Clashing(OrganizationClauses(r) + IndividualClauses(r) + InterestClauses(r)
        + TransactionClauses(r) + SocialClauses(r), p) &&
      Clashing(m[..k], p) && Clashing(m[k + 1..], p) &&
      Clashing(IntentClauses(r), p)
  {
    var (o, i, n, t, s, m, e) := (OrganizationClauses(r), IndividualClauses(r),
      InterestClauses(r), TransactionClauses(r), SocialClauses(r), SentimentClauses(r),
      IntentClauses(r));
    var p := m[k].lead;
    SentimentLeadBefore(r, k);
    SentimentApart(r, p, k);
    IntentApart(r, p, -1);
  }

  lemma SentimentLeadBefore(r: Record, k: nat)
    requires ScoreComparable(r) && k < 3
    ensures Clashing(OrganizationClauses(r) + IndividualClauses(r) + InterestClauses(r)
      + TransactionClauses(r) + SocialClauses(r), SentimentClauses(r)[k].lead)
  {
    var (o, i, n, t, s) := (OrganizationClauses(r), IndividualClauses(r),
      InterestClauses(r), TransactionClauses(r), SocialClauses(r));
    var p := SentimentClauses(r)[k].lead;
    SentimentLeadEarly(r, k);
    TransactionApart(r, p, -1);
    SocialApart(r, p, -1);
    Clashing3(o + i + n, t, s, p);
  }

  lemma SentimentLeadEarly(r: Record, k: nat)
    requires ScoreComparable(r) && k < 3
    ensures Clashing(OrganizationClauses(r) + IndividualClauses(r) + InterestClauses(r),
      SentimentClauses(r)[k].lead)
  {
    var p := SentimentClauses(r)[k].lead;
    OrganizationApart(r, p, -1);
    IndividualApart(r, p, -1);
    InterestApart(r, p, -1);
    Clashing3(OrganizationClauses(r), IndividualClauses(r), InterestClauses(r), p);
  }

  /* For each group: its clauses other than the `k`-th (all of them when `k` is outside the
     group) open with words apart from `p`, given that their opening words are. */

  lemma OrganizationApart(r: Record, p: string, k: int)
    requires k != 0 ==> Apart(OrgOpening, p)
    requires k != 1 ==> Apart("in the ", p)
    requires k != 2 ==> Apart("with a revenue range of ", p)
    requires k != 3 ==> Apart("and an employee count of ", p)
    ensures 0 <= k < 4 ==> Clashing(OrganizationClauses(r)[..k], p) && Clashing(OrganizationClauses(r)[k + 1..], p)
    ensures !(0 <= k < 4) ==> Clashing(OrganizationClauses(r), p)
  {
  }

  lemma IndividualApart(r: Record, p: string, k: int)
    requires k != 0 ==> Apart(PersonLead, p)
    requires k != 1 ==> Apart("with an income of ", p)
    requires k != 2 ==> Apart("and a ", p)
    ensures 0 <= k < 3 ==> Clashing(IndividualClauses(r)[..k], p) && Clashing(IndividualClauses(r)[k + 1..], p)
    ensures !(0 <= k < 3) ==> Clashing(IndividualClauses(r), p)
  {
  }

  lemma InterestApart(r: Record, p: string, k: int)
    requires k != 0 ==> Apart("My interests are ", p)
    requires k != 1 ==> Apart("and I prefer ", p)
    ensures 0 <= k < 2 ==> Clashing(InterestClauses(r)[..k], p) && Clashing(InterestClauses(r)[k + 1..], p)
    ensures !(0 <= k < 2) ==> Clashing(InterestClauses(r), p)
  {
  }

  lemma TransactionApart(r: Record, p: string, k: int)
    requires k != 0 ==> Apart("I recently made a ", p)
    requires k != 1 ==> Apart("costing ", p)
    requires k != 2 ==> Apart("on ", p)
    requires k != 3 ==> Apart("via ", p)
    ensures 0 <= k < 4 ==> Clashing(TransactionClauses(r)[..k], p) && Clashing(TransactionClauses(r)[k + 1..], p)
    ensures !(0 <= k < 4) ==> Clashing(TransactionClauses(r), p)
  {
  }

  lemma SocialApart(r: Record, p: string, k: int)
    requires k != 0 ==> Apart("on ", p)
    requires k != 1 ==> Apart(ContentLead, p)
    ensures 0 <= k < 2 ==> Clashing(SocialClauses(r)[..k], p) && Clashing(SocialClauses(r)[k + 1..], p)
    ensures !(0 <= k < 2) ==> Clashing(SocialClauses(r), p)
  {
  }

  lemma SentimentApart(r: Record, p: string, k: int)
    requires ScoreComparable(r)
    requires k != 0 ==> Apart(CostsLead, p)
    requires k != 1 ==> Apart(PracticalLead, p)
    requires k != 2 ==> Apart(OptimisticLead, p)
    ensures 0 <= k < 3 ==> Clashing(SentimentClauses(r)[..k], p) && Clashing(SentimentClauses(r)[k + 1..], p)
    ensures !(0 <= k < 3) ==> Clashing(SentimentClauses(r), p)
  {
  }

  lemma IntentApart(r: Record, p: string, k: int)
    requires k != 0 ==> Apart("and my intent is ", p)
    ensures 0 <= k < 1 ==> Clashing(IntentClauses(r)[..k], p) && Clashing(IntentClauses(r)[k + 1..], p)
    ensures !(0 <= k < 1) ==> Clashing(IntentClauses(r), p)
  {
  }
}
