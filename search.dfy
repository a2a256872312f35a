/** The result mapping of `vector_search`, and the product filter of the page that shows the
    recommendations. The embedding of the query and the nearest-neighbour search are not part
    of this model: the positions the index returns are a parameter. */
module Search {
  import opened Values
  import opened Records
  import opened Text
  import opened Options
  import opened Products
  import Query
  import Prompt

  /** What a call of `vector_search` comes to. */
  datatype Outcome =
    | NoData(message: string)
    | QueryTypeError
    | IndexError
    | Found(products: seq<Product>)

  const NoDataMessage := "Customer data is required for vector search."

  /** `PRODUCTS[i]` with Python's indexing: a negative position counts from the end, and a
      position outside the list raises IndexError. */
  function At(catalog: seq<Product>, i: int): (r: Option<Product>)
    ensures r.Some? <==> -|catalog| <= i < |catalog|
    ensures 0 <= i < |catalog| ==> r == Some(catalog[i])
    ensures -|catalog| <= i < 0 ==> r == Some(catalog[|catalog| + i])
  {
    if 0 <= i < |catalog| then Some(catalog[i])
    else if -|catalog| <= i < 0 then Some(catalog[|catalog| + i])
    else None
  }

  /** A position `PRODUCTS[i]` accepts. */
  predicate InRange(catalog: seq<Product>, i: int) {
    -|catalog| <= i < |catalog|
  }

  /** `[PRODUCTS[i] for i in positions]`, or None when some position is out of range. */
  function Pick(catalog: seq<Product>, positions: seq<int>): (r: Option<seq<Product>>)
    ensures r.Some? <==> forall j :: 0 <= j < |positions| ==> InRange(catalog, positions[j])
    ensures r.Some? ==> |r.value| == |positions|
    ensures r.Some? ==>
      forall j :: 0 <= j < |positions| ==> Some(r.value[j]) == At(catalog, positions[j])
  {
    if positions == [] then Some([])
    else
      var head := At(catalog, positions[0]);
      var rest := Pick(catalog, positions[1..]);
      assert forall j :: 1 <= j < |positions| ==> positions[j] == positions[1..][j - 1];
      if head.Some? && rest.Some? then Some([head.value] + rest.value) else None
  }

  /** `vector_search`: an empty record is refused with a message; a score stored as a str
      makes the query raise TypeError; otherwise the products at the positions the index
      returns, in that order. */
  function VectorSearch(data: Record, catalog: seq<Product>, positions: seq<int>): (r: Outcome)
    ensures r == NoData(NoDataMessage) <==> data == []
    ensures r.QueryTypeError? <==> data != [] && !Query.ScoreComparable(data)
    ensures r.IndexError? <==>
      (data != [] && Query.ScoreComparable(data) &&
       exists j :: 0 <= j < |positions| && !InRange(catalog, positions[j]))
    ensures r.Found? ==> |r.products| == |positions|
    ensures r.Found? ==> forall j :: 0 <= j < |positions| ==>
      Some(r.products[j]) == At(catalog, positions[j])
  {
    if data == [] then NoData(NoDataMessage)
    else if !Query.ScoreComparable(data) then QueryTypeError
    else
      match Pick(catalog, positions)
      case Some(ps) => Found(ps)
      case None => IndexError
  }

  /** With the catalogue numbered from 1, the ids of the products found, less one, are the
      positions the index returned. */
  lemma IdsRecoverPositions(data: Record, catalog: seq<Product>, positions: seq<int>)
    requires Numbered(catalog) && data != [] && Query.ScoreComparable(data)
    requires forall j :: 0 <= j < |positions| ==> 0 <= positions[j] < |catalog|
    ensures VectorSearch(data, catalog, positions).Found?
    ensures var ps := VectorSearch(data, catalog, positions).products;
      |ps| == |positions| && forall j :: 0 <= j < |ps| ==> ps[j].id - 1 == positions[j]
  {
  }

  /** The products the page shows: those whose name occurs in the model's answer, in the
      order they were found. */
  function Shown(found: seq<Product>, answer: string): (r: seq<Product>)
    ensures forall p :: p in r <==> p in found && Contains(answer, p.name)
    ensures |r| <= |found|
  {
    if found == [] then []
    else (if Contains(answer, found[0].name) then [found[0]] else []) + Shown(found[1..], answer)
  }

  /** Filtering a list found in two pieces filters each piece: the order is kept and a
      product found twice is shown twice. */
  lemma {:induction false} ShownConcat(a: seq<Product>, b: seq<Product>, answer: string)
    ensures Shown(a + b, answer) == Shown(a, answer) + Shown(b, answer)
  {
    if a == [] {
      assert a + b == b;
    } else {
      assert (a + b)[1..] == a[1..] + b;
      ShownConcat(a[1..], b, answer);
    }
  }

  /** A single product is shown exactly when the answer mentions its name. */
  lemma ShownSingle(p: Product, answer: string)
    ensures Shown([p], answer) == if Contains(answer, p.name) then [p] else []
  {
  }

  /** The page reports an error instead of recommendations when the answer mentions a missing
      API key, which the missing-key message does. */
  predicate ReportsKeyError(answer: string) {
    Contains(answer, "API key not found")
  }

  lemma MissingKeyReported()
    ensures ReportsKeyError(Prompt.NoKeyMessage)
  {
    ContainsMiddle("OpenAI ", "API key not found", " in environment variables.");
  }
}
