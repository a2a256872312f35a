# Banking product recommender: the deterministic core

This project models the logic inside `code/src/app.py` of a demo recommender of banking products. The rest of that file is glue around an embedding index, a chat model and a web UI. The modelled parts are:

- **`generate_similarity_query`**: turns a loosely typed customer record (a Python dict) into the text that is embedded and searched. It classifies the customer as an organization or an individual. It emits clauses in a fixed order, each gated on the Python truthiness of its fields. It maps the sentiment score to one of three phrases. It joins the clauses with `". "` and appends a fixed question.
- **`format_customer_data`**: writes one `key: value` line for each entry whose value is not None, in insertion order.
- **`get_llm_recommendations`**: the deterministic parts of this function:
  - the missing-API-key guard;
  - the product list;
  - the three-way sentiment context, whose boundary at +0.3 differs from the query's;
  - the formatted record it puts in the prompt.
- **`get_customer_details`**: works over the four tables as in-memory sequences of rows.
  - The individual table is searched first.
  - For an organization, the two range columns are renamed with `pop` and item assignment.
  - At most one social-media row and one transaction row are merged in with `update`.
- **`get_all_customer_ids`**: returns the sorted individual and organization ids.
- **Seeding**: `init_db`'s `INSERT OR REPLACE` seeding is modelled as primary-key upsert.
- **`vector_search`**: its result mapping from index positions to products.
- **The results page**: its product filter and its missing-key check.

How each part is represented:

- **Values and truthiness** (`Values`): a field value is `Null | Int | Num | Str`. `Num` carries an exact real together with the text Python prints for it. `Truthy` is Python truthiness.
- **Records** (`Records`): a record is a sequence of `(Key, Value)` pairs in dict insertion order. `Key` numbers the fixed column names the application reads and writes, and `Name` gives each one's text. `Get`, `Set`, `Pop` and `Update` are the dict operations.
- **Imperative operations**: operations that build a list step by step are methods with loops or successive appends:
  - `Query.GenerateSimilarityQuery` and its block methods;
  - `Prompt.FormatCustomerData`;
  - `Details.GetCustomerDetails`.

  Each is proved equal to a specification function (`Query.SimilarityQuery`, `Prompt.EntryLines`, `Details.CustomerDetails`). The properties of those functions are proved as lemmas.

## Model

| member | source | states |
|---|---|---|
| Query.GenerateSimilarityQuery | code/src/app.py:400-446 | Building `query_parts` block by block and joining them gives exactly `SimilarityQuery(r)`: the fired clauses in source order, joined by ". ", then ". " and the fixed question. It requires a score that is not a str, because comparing a str raises TypeError. |
| Query.ProfileParts | code/src/app.py:402-417 | The opening block is the fired organization clauses or the fired individual clauses, chosen by the absence of age, gender and occupation. |
| Query.OrganizationParts | code/src/app.py:403-410 | For an organization, the block is the opening phrase, then each of the industry, revenue-range and employee-count clauses whose field is truthy, in that order. |
| Query.IndividualParts | code/src/app.py:411-417 | For an individual, the block is the introduction when all four fields are truthy, then the income and education clauses, each gated on its own field. |
| Query.InterestsParts | code/src/app.py:418-421 | The interests and preferences clauses, each present when its field is truthy. |
| Query.TransactionParts | code/src/app.py:422-429 | The transaction clause, then cost, date and payment mode, all inside the type-and-category gate. |
| Query.SocialParts | code/src/app.py:430-434 | The platform clause and the quoted content, with the timestamp suffix only when the timestamp is truthy. |
| Query.SentimentParts | code/src/app.py:435-442 | At most one sentiment phrase, chosen by the score's band, and none for a None score. |
| Query.QueryBand | code/src/app.py:437-442 | For every real, exactly one of the three bands holds: at most -0.3, between -0.3 and 0.3 (0.3 included), or above 0.3. |
| Query.OrganizationSilent | code/src/app.py:402-403 | An individual emits none of the organization clauses. |
| Query.IndividualSilent | code/src/app.py:402-411 | An organization emits none of the individual clauses. |
| Query.IntentFired | code/src/app.py:443-444 | The intent sentence is emitted exactly when the intent is truthy, and it is "and my intent is " followed by the intent. |
| Query.PartsByGroup | code/src/app.py:401-444 | The query's sentences are the fired sentences of the seven groups, concatenated in source order. |
| Query.QueryHead | code/src/app.py:445 | The query is its first sentence followed by a tail that starts with the separator. |
| QueryFacts.ClosingOnly | code/src/app.py:445 | The query is exactly ". " plus the question if and only if no clause fires. |
| QueryFacts.PartsNonEmpty | code/src/app.py:401-444 | Every emitted sentence is non-empty. |
| QueryFacts.OrganizationOpening | code/src/app.py:402-404 | The query starts with "I represent an organization" if and only if none of age, gender and occupation is truthy. |
| QueryFacts.ProfileBlock | code/src/app.py:402-417 | For an organization, the opening block is led by the opening phrase and has no individual clause. For an individual, the block has no organization clause. |
| QueryFacts.PersonOpening | code/src/app.py:412-413 | For an individual, the query starts with "I’m a " if and only if age, gender, occupation and location are all truthy. In that case its first sentence is that introduction. |
| QueryFacts.PersonSentence | code/src/app.py:402-413 | Some sentence introduces a person if and only if the record is not an organization and all four fields are truthy. |
| QueryFacts.IndustrySentence | code/src/app.py:402-406 | The industry sentence appears if and only if the record is an organization with a truthy industry. |
| QueryFacts.RevenueSentence | code/src/app.py:402-408 | The revenue-range sentence appears if and only if the record is an organization with a truthy revenue range. |
| QueryFacts.EmployeeSentence | code/src/app.py:402-410 | The employee-count sentence appears if and only if the record is an organization with a truthy employee count range. |
| QueryFacts.IncomeSentence | code/src/app.py:402-415 | The income sentence appears if and only if the record is a person with a truthy income. |
| QueryFacts.EducationSentence | code/src/app.py:402-417 | The education sentence appears if and only if the record is a person with a truthy education. |
| QueryFacts.InterestsSentence | code/src/app.py:418-419 | The interests sentence appears if and only if the interests are truthy. |
| QueryFacts.PreferencesSentence | code/src/app.py:420-421 | The preferences sentence appears if and only if the preferences are truthy, whatever the interests are. |
| QueryFacts.TransactionSentence | code/src/app.py:422-423 | The transaction sentence appears if and only if both type and category are truthy. |
| QueryFacts.CostSentence | code/src/app.py:424-425 | The cost sentence appears if and only if a transaction is mentioned and its amount is truthy. |
| QueryFacts.PaymentSentence | code/src/app.py:428-429 | The payment-mode sentence appears if and only if a transaction is mentioned and its payment mode is truthy. |
| QueryFacts.TransactionBlock | code/src/app.py:422-429 | Without a truthy type and category, the transaction block is empty. Otherwise it opens with the transaction sentence, so cost, date and payment come only after it. |
| QueryFacts.ContentSentence | code/src/app.py:432-434 | The quoted-content sentence appears if and only if the content is truthy. |
| QueryFacts.ContentStamp | code/src/app.py:432-434 | The quoted content with the timestamp in parentheses occurs once when content and timestamp are both truthy, and not at all otherwise. The quoted content without it occurs once when only the content is truthy, and not at all otherwise. |
| QueryFacts.SentimentPhrases | code/src/app.py:435-442 | Each of the three phrases occurs once exactly when the score is a number in its band, and never otherwise. A numeric score adds exactly one phrase; a None score adds none. |
| QueryFacts.SentimentPart | code/src/app.py:436-442 | A sentiment phrase occurs once in the sentences when its clause fires, and not at all otherwise. |
| QueryFacts.IntentSentence | code/src/app.py:443-444 | The intent sentence appears if and only if the intent is truthy. |
| QueryFacts.AgeOnlyExample | code/src/app.py:402-445 | A record holding only an age fails the introduction's four-field gate, and its query is the bare closing question. |
| QueryFacts.ZeroScoreExample | code/src/app.py:435-440 | A score of 0.0 is falsy but not None, so it still adds the practical phrase. A record without age, gender or occupation counts as an organization. |
| QueryTests.IndividualQueryExample | code/test/app-test.py:139-179 | The individual test record gives exactly the expected query string, with the apostrophe as U+2019. |
| QueryTests.IndividualQuery | code/test/app-test.py:162-179 | Any record that answers the test's lookups as that dict does gives the expected query. |
| QueryTests.OrganizationQueryExample | code/test/app-test.py:181-217 | The organization test record gives exactly the expected query string. |
| QueryTests.OrganizationQuery | code/test/app-test.py:200-217 | Any record that answers the test's lookups as that dict does gives the expected query. |
| Prompt.FormatCustomerData | code/src/app.py:459-464 | The loop's result is the lines of the entries whose value is not None, joined by "\n". |
| Prompt.EntryLinesIff | code/src/app.py:461-463 | A line is written if and only if some entry's value is not None and the line is that entry's `key: value`. Falsy values such as 0 and "" are kept. |
| Prompt.EntryLinesOrder | code/src/app.py:461-463 | Entries keep their order: a later entry's line comes after an earlier one's. |
| Prompt.EntryLinesConcat | code/src/app.py:461-463 | The lines of a concatenation are the lines of each part, in order. |
| Prompt.FormatSplits | code/src/app.py:464 | Splitting the formatted text at newlines gives back the lines, so no newline is added before or after. This holds when no rendered value holds a newline; `Records.NameNoNewline` shows that no column name does. |
| Prompt.FormatExample | code/test/app-test.py:296-312 | The test's record, with its None occupation, formats to the four expected lines joined by newlines. |
| Prompt.Recommend | code/src/app.py:467-479 | An empty API key gives exactly the fixed message, and only an empty key does. A score that cannot be compared with a float raises TypeError, and only such a score does. Otherwise the model is asked, and only then, with the formatted record, the product list and the context for the score's mood and printed score. A missing score counts as 0.0. |
| Prompt.ContextMood | code/src/app.py:473-478 | The context is negative if and only if the score is at most -0.3, positive if and only if it is at least 0.3, and neutral otherwise. |
| Prompt.AbsentScoreNeutral | code/src/app.py:472 | A record without a score is described as neutral with score 0.0. |
| Prompt.MoodVersusBand | code/src/app.py:437-478 | The prompt's context and the query's phrase agree on negative scores and differ only at exactly 0.3, which the prompt calls positive and the query practical. |
| Prompt.ContextShowsScore | code/src/app.py:473-478 | Every context opens with "The customer has a " and contains the printed score. |
| Prompt.ContextsDiffer | code/src/app.py:473-478 | The same score in two different moods gives two different contexts. |
| Prompt.ProductLines | code/src/app.py:471 | There is one line per product, in order. Line j is "- ", product j's name, ": " and its description. |
| Search.At | code/src/app.py:456 | `PRODUCTS[i]` succeeds exactly for -n <= i < n, with negative positions counting from the end. |
| Search.Pick | code/src/app.py:456 | The comprehension succeeds exactly when every position is in range. Its result has one product per position, in order, each the product at that position. |
| Search.VectorSearch | code/src/app.py:449-456 | An empty record is refused with the fixed message, and only an empty one is. A str score raises TypeError, and only such a score does. Otherwise an IndexError is raised exactly when some position is outside the catalogue. When products are found, they are the products at the index's positions, in order. |
| Search.IdsRecoverPositions | code/test/app-test.py:219-236 | With the catalogue numbered from 1, the ids of the found products, less one, are the positions the index returned. |
| Search.Shown | code/src/app.py:577-578 | The page shows exactly the found products whose name occurs in the answer, and no more products than were found. |
| Search.ShownConcat | code/src/app.py:577-578 | Filtering two lists found one after the other filters each list, so the order of the found products is kept and a product found twice is shown twice. |
| Search.ShownSingle | code/src/app.py:578 | One product is shown exactly when the answer mentions its name. |
| Search.MissingKeyReported | code/src/app.py:570 | The missing-key message is reported as an error on the page. |
| Details.GetCustomerDetails | code/src/app.py:329-397 | The step-by-step lookup gives exactly `CustomerDetails`, a keyed dict: the individual row's columns or the renamed organization view, then the merged activity. An id in neither table gives None. |
| Details.First | code/src/app.py:336 | `fetchone` gives None exactly when no row matches, and otherwise a matching row. |
| Details.DetailsNoneIff | code/src/app.py:396-397 | The lookup gives None if and only if neither profile table holds the id. |
| Details.IndividualFirst | code/src/app.py:335-338 | An id found in the individual table is never looked up as an organization: replacing the organization table changes nothing. All nine individual columns are present with the row's values, and none of the six organization keys (`industry`, `financial_needs`, `revenue_in_dollars`, `no_of_employees`, `revenue_range`, `employee_count_range`) is. |
| Details.OrganizationRenamed | code/src/app.py:365-370 | An organization's record holds the revenue and employee values under `revenue_range` and `employee_count_range`, and never under the original column names. |
| Details.RenameRangeColumns | code/src/app.py:368-370 | Popping the two range columns and assigning them under new names yields the organization view, with both renamed columns moved to the end. |
| Details.SentimentMerged | code/src/app.py:340-349 | Each of the five social-media fields (platform, content, timestamp, score, intent) appears if and only if a matching social-media row exists. It then holds that row's value for that field. |
| Details.TransactionMerged | code/src/app.py:351-360 | Each of the five transaction fields (type, category, `amount_usd`, date, payment mode) appears if and only if a matching transaction row exists. It then holds that row's value for that field, the amount under `amount_usd` and never under `amount_in_dollars`. |
| Details.UpdateDisjoint | code/src/app.py:343 | `update` with keys the dict does not hold yet appends them in order. |
| Details.IndividualExample | code/test/app-test.py:96-109 | `CUST2025A` gives age 25, gender F, location New York, interests "Luxury Shopping, Travel, Dining", score 0.7, a Luxury Shopping transaction and amount 3000. |
| Details.OrganizationExample | code/test/app-test.py:111-123 | `ORG_US_004` gives industry "Fashion and Clothing", the renamed ranges "150M-20M" and "800-150", its first transaction, and no score. |
| Details.UnknownExample | code/test/app-test.py:125-129 | An unknown id gives None. |
| Store.Upsert | code/src/app.py:214 | `INSERT OR REPLACE` of one row keeps every other row in its order, removes the row holding the same primary key, and appends the new row. The keys become the old keys plus the new key, and the primary-key constraint is kept. |
| Store.WithoutMembers | code/src/app.py:214 | The rows that survive the delete are rows of the table, and every row whose key is not deleted survives. |
| Store.UpsertAllIdempotent | code/src/app.py:234 | Seeding a table twice with the same rows gives the same table as seeding it once. |
| Store.UpsertAllUnique | code/src/app.py:265 | Seeding keeps every primary key unique. |
| Store.UpsertAllFresh | code/src/app.py:304 | Seeding an empty table with rows whose keys are distinct stores exactly those rows, in order. |
| Store.SeedIdempotent | code/src/app.py:142-305 | Running `init_db` on a seeded database changes nothing, and it keeps every table's primary key unique. |
| Store.AllCustomerIds | code/src/app.py:313-326 | The id list is sorted, is a permutation of the individual ids followed by the organization ids, and its length is the sum of the two table sizes. |
| Store.AllCustomerIdsMembers | code/src/app.py:318-326 | An id is listed if and only if one of the two profile tables holds it. |
| Store.AllCustomerIdsUnique | code/src/app.py:326 | Any sorted list holding the same ids is the listing. |
| Store.AllCustomerIdsDistinct | code/test/app-test.py:131-137 | With primary keys respected and no id in both tables, no id is listed twice. |
| Ordering.SortStrings | code/src/app.py:326 | `sorted` on strings returns a sorted permutation of its input. |
| Ordering.SortedUnique | code/src/app.py:326 | Two sorted permutations of the same strings are equal. |
| Ordering.StrLeTotal | code/src/app.py:326 | Python's string order is total. |
| Ordering.StrLeTransitive | code/src/app.py:326 | Python's string order is transitive. |
| Ordering.StrLeAntisymmetric | code/src/app.py:326 | Python's string order is antisymmetric. |
| Values.IntToStringRoundTrip | code/src/app.py:415 | Rendering an int as `str` does and reading it back gives the same int. |
| Records.Set | code/src/app.py:369 | Item assignment stores the value under the key and leaves every other key as it was. An existing key keeps its position; a new key goes at the end. |
| Records.Pop | code/src/app.py:369-370 | `pop` returns the value the key held and removes the key's entry. Every other key keeps its presence and its value. |
| Records.Update | code/src/app.py:343-349 | After `update`, the keys are those of the dict plus those of the pairs, and the dict stays keyed. A key of the pairs holds the pairs' value, and any other key keeps the dict's value. |
| Records.GetConcat | code/src/app.py:343 | A lookup in a concatenation finds the key in the first part when it is there, and otherwise in the second. |
| Records.NameNoNewline | code/src/app.py:464 | No column name written before `: ` in a formatted line holds a newline. |
| Text.SplitJoin | code/src/app.py:464 | Splitting a newline-joined list of lines that hold no newline gives back the lines. |

## Left out

- Embeddings and the vector index are not modelled: building the product embeddings, embedding the query and the FAISS search. They are foreign calls on float vectors. `Search.VectorSearch` takes the positions the index returns as a parameter.
- The chat model is not modelled: the ChatOpenAI call, the prompt template and the parsing of its answer. The model's free text is a parameter (`Search.Shown`). `Prompt.Recommend` stops at the three texts the prompt is filled with.
- SQLite plumbing is replaced by in-memory tables: connecting, executing, committing and `row_factory`. `fetchone` after a `WHERE` query is modelled as the first matching row in table order. SQLite promises no particular row when several match.
- The Streamlit page is not modelled, apart from two checks on the answer: the missing-key check and the product-name filter.
- The literal catalogue `PRODUCTS` and the seed rows are not included. Only the sample rows the lookups examples need are modelled (`Details.SampleDb`). The count of 25 ids in the seed data is therefore not proved; the length property holds for any tables.
- Floats are exact reals. A `Num` value carries the text Python prints for it, so `repr` formatting is not modelled. NaN, which would fire no sentiment branch, is not modelled.
- Record keys are limited to the application's own column names (`Records.Key`). A dict with any other key cannot be expressed.
- Query.GenerateSimilarityQuery: requires a score that is not a str. Python raises TypeError on the comparison, and the model does not produce a result for that case. `Search.VectorSearch` and `Prompt.Recommend` do model the error as an outcome.
- The test file's expected strings show the apostrophe mis-decoded (`I‚Äôm`), and the test imports a sibling module. The model follows `app.py` and uses U+2019.
- The date clause "on …" and the platform clause "on …" open with the same words. The model therefore states no "appears if and only if" property for either one; both are covered by the exact-output examples.
- Prompt.FormatSplits: requires that no rendered value holds a newline. A value with one (a free-text column such as the social-media content) would be split into several lines.
