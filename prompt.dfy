/** The deterministic parts of `get_llm_recommendations`: the missing-key guard, the product
    list, the sentiment context, and the `format_customer_data` text the prompt embeds. The
    chat model itself is not part of this model: a successful call is represented by the
    three texts the prompt is filled with. */
module Prompt {
  import opened Values
  import opened Records
  import opened Text
  import opened Products
  import Query

  /** `f"{key}: {value}"` for one dict entry. */
  function Line(e: (Key, Value)): string {
    Name(e.0) + ": " + Render(e.1)
  }

  /** The lines `format_customer_data` collects: one per entry whose value is not None
      (falsy values such as 0 and "" are kept), in insertion order. */
  function EntryLines(r: Record): seq<string> {
    if r == [] then []
    else
      var last := r[|r| - 1];
      EntryLines(r[..|r| - 1]) + (if last.1.Null? then [] else [Line(last)])
  }

  /** `format_customer_data`: the collected lines joined by newlines. */
  method FormatCustomerData(r: Record) returns (s: string)
    ensures s == Join(EntryLines(r), "\n")
  {
    var lines: seq<string> := [];
    var i := 0;
    while i < |r|
      invariant 0 <= i <= |r|
      invariant lines == EntryLines(r[..i])
    {
      var (key, value) := r[i];
      if value != Null {
        lines := lines + [Name(key) + ": " + Render(value)];
      }
      i := i + 1;
      assert r[..i][..i - 1] == r[..i - 1];
    }
    assert r[..|r|] == r;
    s := Join(lines, "\n");
  }

  /** The lines of a concatenation are those of each part, in order. */
  lemma {:induction false} EntryLinesConcat(a: Record, b: Record)
    ensures EntryLines(a + b) == EntryLines(a) + EntryLines(b)
    decreases |b|
  {
    if b == [] {
      assert a + b == a;
    } else {
      var b' := b[..|b| - 1];
      assert (a + b)[..|a + b| - 1] == a + b';
      EntryLinesConcat(a, b');
    }
  }

  /** A line is written exactly for the entries whose value is not None. */
  lemma {:induction false} EntryLinesIff(r: Record, line: string)
    ensures line in EntryLines(r) <==>
      exists i :: 0 <= i < |r| && r[i].1 != Null && line == Line(r[i])
  {
    if r != [] {
      var front := r[..|r| - 1];
      EntryLinesIff(front, line);
      if line in EntryLines(front) {
        var i :| 0 <= i < |front| && front[i].1 != Null && line == Line(front[i]);
        assert r[i] == front[i];
      }
      if exists i :: 0 <= i < |r| && r[i].1 != Null && line == Line(r[i]) {
        var i :| 0 <= i < |r| && r[i].1 != Null && line == Line(r[i]);
        if i < |r| - 1 {
          assert front[i] == r[i];
        }
      }
    }
  }

  /** How many lines the entries before position `i` contribute. */
  function Rank(r: Record, i: nat): nat
    requires i <= |r|
  {
    |EntryLines(r[..i])|
  }

  /** The line of entry `i` sits at position `Rank(r, i)`, and entries keep their order: a
      later entry's line comes after an earlier one's. */
  lemma EntryLinesOrder(r: Record, i: nat, j: nat)
    requires i < j < |r| && r[i].1 != Null && r[j].1 != Null
    ensures Rank(r, i) < Rank(r, j) < |EntryLines(r)|
    ensures EntryLines(r)[Rank(r, i)] == Line(r[i]) && EntryLines(r)[Rank(r, j)] == Line(r[j])
  {
    LineAt(r, i);
    LineAt(r, j);
    RankGrows(r, i, j);
  }

  lemma RankGrows(r: Record, i: nat, j: nat)
    requires i < j <= |r| && r[i].1 != Null
    ensures Rank(r, i) < Rank(r, j)
  {
    var (a, b) := (r[..i + 1], r[i + 1..j]);
    assert r[..j] == a + b;
    EntryLinesConcat(a, b);
    assert a[..i] == r[..i];
  }

  lemma LineAt(r: Record, i: nat)
    requires i < |r| && r[i].1 != Null
    ensures Rank(r, i) < |EntryLines(r)| && EntryLines(r)[Rank(r, i)] == Line(r[i])
  {
    var (a, b) := (r[..i + 1], r[i + 1..]);
    assert a[..i] == r[..i];
    assert r == a + b;
    EntryLinesConcat(a, b);
  }

  /** A line holds a newline only if its rendered value does: no column name holds one. */
  lemma LineNoNewline(e: (Key, Value))
    requires '\n' !in Render(e.1)
    ensures '\n' !in Line(e)
  {
    NameNoNewline(e.0);
    var s := Line(e);
    var n := Name(e.0);
    forall c | 0 <= c < |s| ensures s[c] != '\n' {
      if c < |n| {
        assert s[c] == n[c];
      } else if c >= |n| + 2 {
        assert s[c] == Render(e.1)[c - |n| - 2];
      }
    }
  }

  /** Splitting the formatted text at newlines gives back the lines, when there is at least
      one and no rendered value holds a newline. */
  lemma FormatSplits(r: Record)
    requires EntryLines(r) != []
    requires forall i :: 0 <= i < |r| ==> '\n' !in Render(r[i].1)
    ensures Split(Join(EntryLines(r), "\n"), '\n') == EntryLines(r)
  {
    var lines := EntryLines(r);
    forall k | 0 <= k < |lines| ensures '\n' !in lines[k] {
      EntryLinesIff(r, lines[k]);
      var i :| 0 <= i < |r| && r[i].1 != Null && lines[k] == Line(r[i]);
      LineNoNewline(r[i]);
    }
    SplitJoin(lines, '\n');
  }

  lemma EntryLinesSingle(e: (Key, Value))
    ensures EntryLines([e]) == if e.1 == Null then [] else [Line(e)]
  {
    assert [e][..0] == [];
  }

  /** The record of the formatter's test: the None occupation is skipped, the rest keep
      their order. */
  lemma FormatExample(r: Record)
    requires r == [(CustomerId, Str("CUST2025A")), (Age, Int(25)), (Gender, Str("F")),
                   (Occupation, Null), (Location, Str("New York"))]
    ensures Join(EntryLines(r), "\n") ==
      "customer_id: CUST2025A" + "\n" + "age: 25" + "\n" + "gender: F" + "\n" + "location: New York"
  {
    ExampleLines(r);
    JoinFour("customer_id: CUST2025A", "age: 25", "gender: F", "location: New York", "\n");
  }

  /** The lines of five entries are those of each entry, in order. */
  lemma EntryLinesFive(e0: (Key, Value), e1: (Key, Value), e2: (Key, Value), e3: (Key, Value),
                       e4: (Key, Value))
    ensures EntryLines([e0, e1, e2, e3, e4]) ==
      EntryLines([e0]) + EntryLines([e1]) + EntryLines([e2]) + EntryLines([e3]) + EntryLines([e4])
  {
    assert [e0, e1, e2, e3, e4] == [e0] + [e1] + [e2] + [e3] + [e4];
    EntryLinesConcat([e0], [e1]);
    EntryLinesConcat([e0] + [e1], [e2]);
    EntryLinesConcat([e0] + [e1] + [e2], [e3]);
    EntryLinesConcat([e0] + [e1] + [e2] + [e3], [e4]);
  }

  /** The texts of the four kept entries of the formatter's test. */
  lemma ExampleLineTexts()
    ensures Line((CustomerId, Str("CUST2025A"))) == "customer_id: CUST2025A"
    ensures Line((Age, Int(25))) == "age: 25"
    ensures Line((Gender, Str("F"))) == "gender: F"
    ensures Line((Location, Str("New York"))) == "location: New York"
  {
    assert IntToString(25) == "25" by {
      assert NatToString(2) == "2";
    }
  }

  lemma ExampleLines(r: Record)
    requires r == [(CustomerId, Str("CUST2025A")), (Age, Int(25)), (Gender, Str("F")),
                   (Occupation, Null), (Location, Str("New York"))]
    ensures EntryLines(r) == ["customer_id: CUST2025A", "age: 25", "gender: F", "location: New York"]
  {
    EntryLinesFive(r[0], r[1], r[2], r[3], r[4]);
    EntryLinesSingle(r[0]);
    EntryLinesSingle(r[1]);
    EntryLinesSingle(r[2]);
    EntryLinesSingle(r[3]);
    EntryLinesSingle(r[4]);
    ExampleLineTexts();
  }

  const NoKeyMessage := "OpenAI " + "API key not found" + " in environment variables."

  /** The score used when the record has no `sentiment_score` key: 0.0. */
  const DefaultScore := Num(0.0, "0.0")

  /** The three sentiment contexts of the prompt. */
  datatype Mood = Negative | Positive | Neutral

  /** `score <= -0.3` is negative, otherwise `score >= 0.3` is positive, otherwise neutral;
      unlike the query's bands, 0.3 itself is positive here. */
  function ContextMood(x: real): (m: Mood)
    ensures m == Negative <==> x <= -0.3
    ensures m == Positive <==> x >= 0.3
    ensures m == Neutral <==> -0.3 < x < 0.3
  {
    if x <= -0.3 then Negative else if x >= 0.3 then Positive else Neutral
  }

  const ContextLead := "The customer has a "
  const NegativeWords := "negative sentiment (score: "
  const NegativeTail := "), indicating potential dissatisfaction or concerns."
  const PositiveWords := "positive sentiment (score: "
  const PositiveTail := "), indicating satisfaction or optimism."
  const NeutralWords := "neutral sentiment (score: "
  const NeutralTail := ")."

  /** The sentence describing the customer's sentiment, with the score as Python prints it. */
  function SentimentContext(m: Mood, score: string): string {
    match m
    case Negative => ContextLead + NegativeWords + score + NegativeTail
    case Positive => ContextLead + PositiveWords + score + PositiveTail
    case Neutral => ContextLead + NeutralWords + score + NeutralTail
  }

  /** `"\n".join(f"- {p['name']}: {p['description']}" for p in products)`. */
  function ProductLines(ps: seq<Product>): (lines: seq<string>)
    ensures |lines| == |ps|
    ensures forall j :: 0 <= j < |ps| ==> lines[j] == "- " + ps[j].name + ": " + ps[j].description
    ensures forall j :: 0 <= j < |ps| ==> StartsWith(lines[j], "- " + ps[j].name + ": ")
  {
    if ps == [] then []
    else
      var line := "- " + ps[0].name + ": " + ps[0].description;
      assert line[..|"- " + ps[0].name + ": "|] == "- " + ps[0].name + ": ";
      [line] + ProductLines(ps[1..])
  }

  function ProductList(ps: seq<Product>): string {
    Join(ProductLines(ps), "\n")
  }

  /** What a call of `get_llm_recommendations` comes to: the fixed message when the API key
      is empty; a TypeError when the stored score cannot be compared with a float (None or a
      str under the key); otherwise the chat model is asked with the formatted record, the
      product list and the sentiment context. */
  datatype Reply =
    | MissingKey(message: string)
    | ScoreTypeError
    | Ask(customer: string, products: string, context: string)

  function Recommend(apiKey: string, r: Record, ps: seq<Product>): (reply: Reply)
    ensures reply == MissingKey(NoKeyMessage) <==> apiKey == ""
    ensures reply.ScoreTypeError? <==>
      apiKey != "" && !IsNumber(GetOr(r, SentimentScore, DefaultScore))
    ensures var s := GetOr(r, SentimentScore, DefaultScore);
      reply.Ask? <==> apiKey != "" && IsNumber(s)
    ensures var s := GetOr(r, SentimentScore, DefaultScore);
      apiKey != "" && IsNumber(s) ==>
        reply == Ask(Join(EntryLines(r), "\n"), ProductList(ps),
          SentimentContext(ContextMood(AsReal(s)), Render(s)))
  {
    if apiKey == "" then MissingKey(NoKeyMessage)
    else
      var score := GetOr(r, SentimentScore, DefaultScore);
      if !IsNumber(score) then ScoreTypeError
      else Ask(Join(EntryLines(r), "\n"), ProductList(ps),
        SentimentContext(ContextMood(AsReal(score)), Render(score)))
  }

  /** A record without a score is described as neutral, with score 0.0. */
  lemma AbsentScoreNeutral(apiKey: string, r: Record, ps: seq<Product>)
    requires apiKey != "" && !HasKey(r, SentimentScore)
    ensures Recommend(apiKey, r, ps).Ask?
    ensures Recommend(apiKey, r, ps).context == SentimentContext(Neutral, "0.0")
  {
  }

  /** The prompt's context and the query's phrase agree on negative scores; they disagree
      only at exactly 0.3, which the prompt calls positive and the query practical. */
  lemma MoodVersusBand(x: real)
    ensures ContextMood(x) == Negative <==> Query.QueryBand(x) == Query.Concerned
    ensures ContextMood(x) == Neutral ==> Query.QueryBand(x) == Query.Practical
    ensures Query.QueryBand(x) == Query.Optimistic ==> ContextMood(x) == Positive
    ensures ContextMood(x) == Positive && Query.QueryBand(x) == Query.Practical <==> x == 0.3
  {
  }

  /** A text made of a lead, a word, the score and a tail opens with the lead, contains the
      score, and shows the word's third character right after the lead's length plus two. */
  lemma Framed(lead: string, word: string, score: string, tail: string)
    requires |word| > 2
    ensures StartsWith(lead + word + score + tail, lead)
    ensures Contains(lead + word + score + tail, score)
    ensures (lead + word + score + tail)[|lead| + 2] == word[2]
  {
    var c := lead + word + score + tail;
    assert c == (lead + word) + (score + tail);
    assert c[..|lead|] == lead;
    assert c[|lead + word|..|lead + word| + |score|] == score;
    assert OccursAt(c, score, |lead + word|);
  }

  /** Every context opens with the same words and mentions the score. */
  lemma ContextShowsScore(m: Mood, score: string)
    ensures StartsWith(SentimentContext(m, score), ContextLead)
    ensures Contains(SentimentContext(m, score), score)
  {
    match m
    case Negative =>
      Framed(ContextLead, NegativeWords, score, NegativeTail);
    case Positive =>
      Framed(ContextLead, PositiveWords, score, PositiveTail);
    case Neutral =>
      Framed(ContextLead, NeutralWords, score, NeutralTail);
  }

  /** The same score in two different moods gives two different contexts: the texts differ
      right after the shared lead and the two first letters of the mood word. */
  lemma ContextsDiffer(m1: Mood, m2: Mood, score: string)
    ensures m1 != m2 ==> SentimentContext(m1, score) != SentimentContext(m2, score)
  {
    Framed(ContextLead, NegativeWords, score, NegativeTail);
    Framed(ContextLead, PositiveWords, score, PositiveTail);
    Framed(ContextLead, NeutralWords, score, NeutralTail);
  }
}
