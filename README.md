# ShopSphere chat agent — a verified Dafny model

This project models the back end of the ShopSphere fashion-store chat bot.
A customer's query is handled by `callAgent`, in one of two ways:

- A query that mentions one of four keywords gets a canned reply.
- Any other query is appended to the customer's conversation thread and run
  through a LangGraph agent/tool graph. The graph alternates calls to the
  language model with runs of the `item_lookup` tool. The tool does a vector
  search over the product catalog, with a case-insensitive keyword search as
  fall-back. The graph's message list is checkpointed per thread.

The final message is formatted into customer-facing text. Errors are mapped
to two fixed messages for 429 and 401, and otherwise to "Agent failed: "
followed by the original message. Every language-model call goes through
`retryWithBackoff`, which retries on HTTP 429 with exponential back-off. The
model also covers two parts of the seeding script: the item schema that
every generated product must satisfy, and `createItemSummary`, which builds
the text each product's embedding is computed from.

The modules follow the source:

- `Errors`: options, thrown errors with their status, outcomes.
- `Text`: lower-casing, substring search, `join`, number rendering.
- `Retry`: `retryWithBackoff`.
- `QuickReplies`: the keyword pre-filter.
- `Catalog`: items and the item schema.
- `Summary`: `createItemSummary`.
- `ItemLookup`: the tool body.
- `Messages`: conversation messages.
- `Graph`: the state graph and its step budget.
- `Formatter`: the response formatter.
- `ChatAgent`: `callAgent` and its checkpoint store.

The retry loop, the graph run and the formatter's `text +=` blocks are
imperative methods. Each is proved equal to a functional specification, and
the properties are proved about that specification. The checkpoint store is
a class whose map field the methods update.

## Model

| member | source | states |
|---|---|---|
| Retry.Delay | backendServer/agent.js:24 | the pause after a failed attempt is between 1000 ms and the 30000 ms cap |
| Retry.RetryWithBackoff | backendServer/agent.js:19-33 | at most `maxRetries` calls; every call but the last was a 429; it stops early only at a non-429 outcome; it returns or rethrows the last outcome unchanged; the pause after attempt k is `Delay(k)`; with `maxRetries < 1` it makes no call and throws "Max retries exceeded" |
| Retry.RetryRunResult | backendServer/agent.js:19-33 | every run of the loop ends with the outcome of the recursive reference definition `RetryResult` |
| Retry.RetryFromReaches | backendServer/agent.js:20-28 | skipping 429s, the recursive definition lands on the first outcome the loop would not retry |
| Retry.RetryRunUnique | backendServer/agent.js:19-33 | a run is determined by the call outcomes and the limit |
| Retry.FirstNonRateLimitWins | backendServer/agent.js:21-29 | the first success or non-429 error ends the run and is returned or rethrown as it is, with no later call |
| Retry.LastRateLimitRethrown | backendServer/agent.js:23-29 | a 429 on the last allowed attempt is rethrown unchanged, never turned into "Max retries exceeded" |
| Retry.MaxRetriesExceededOnlyWithoutAttempts | backendServer/agent.js:20-32 | no call is made exactly when `maxRetries < 1`; otherwise the result is the last call's outcome |
| Retry.Pow2Monotone | backendServer/agent.js:24 | powers of two grow with the exponent |
| Retry.DelayMonotone | backendServer/agent.js:24 | later retries never wait less |
| Retry.DelayDoublesUntilCap | backendServer/agent.js:24 | each pause doubles the previous one until it reaches 30000 ms |
| Retry.RunDelaysNonDecreasing | backendServer/agent.js:20-27 | the pauses of any run never decrease and never exceed 30000 ms |
| Retry.DefaultThreeRateLimits | backendServer/agent.js:19-29 | with the default 3 and three 429s, three calls are made, the pauses are 2000 then 4000 ms, and the third 429 is rethrown |
| Retry.DefaultTwoRateLimitsThenSuccess | backendServer/agent.js:19-29 | with the default 3, two 429s and then a success return that success after pauses of 2000 and 4000 ms |
| QuickReplies.QuickReply | backendServer/agent.js:39-43 | each canned reply is chosen exactly when its keyword occurs in the lower-cased query and no keyword before it in the order discount, delivery, return, contact does; with none of them there is no reply |
| QuickReplies.QuickReplyIgnoresCase | backendServer/agent.js:39 | the reply depends on the query only up to letter case |
| QuickReplies.DiscountMentionWins | backendServer/agent.js:40 | "discount" in any letter case anywhere in the query wins over every other keyword |
| QuickReplies.ToLowerAppend | backendServer/agent.js:39 | lower-casing distributes over concatenation |
| Text.ToLower | backendServer/agent.js:39 | `toLowerCase` keeps the length and maps each character on its own |
| Text.ToLowerIdempotent | backendServer/agent.js:39 | lower-casing twice is lower-casing once |
| Text.Contains | backendServer/agent.js:40-43 | `includes` is true exactly when the substring occurs at some position |
| Text.Join | backendServer/agent.js:132 | `join` of no strings is empty, and of one string is that string |
| Text.JoinSnoc | backendServer/seedDatabase.js:114-116 | joining keeps input order: one more element adds the separator and the element at the end |
| Text.IntToString | backendServer/agent.js:146 | `String(n)` of a whole number is a non-empty string without whitespace, starting with "-" exactly for a negative number |
| Text.NatToStringRoundTrip | backendServer/agent.js:146 | the decimal rendering is injective: its digits read back as the number, so distinct ratings and prices never print alike (the program itself never parses them back) |
| Catalog.ParseAudience | backendServer/seedDatabase.js:35 | `target_audience` is accepted exactly when it is one of Men, Women, Boys, Girls, and the parsed value spells it back |
| Catalog.ParseReviews | backendServer/seedDatabase.js:36-42 | the reviews are accepted exactly when every rating is in [0, 5], and are then kept as they were |
| Catalog.ParseReviewsRoundTrip | backendServer/seedDatabase.js:36-42 | validated reviews pass validation again, unchanged |
| Catalog.ParseItem | backendServer/seedDatabase.js:21-44 | a record passes the schema exactly when both price fields are present, the audience is in the enum and every rating is in [0, 5]; a valid record keeps every field |
| Catalog.ParseItemRoundTrip | backendServer/seedDatabase.js:21-44 | every valid item passes the schema again, unchanged |
| Summary.ItemSummary | backendServer/seedDatabase.js:104-125 | the summary has no whitespace but single spaces, never two in a row; its non-whitespace characters are those of the template in order; it starts with one space followed by a non-space and ends with ". " |
| Summary.Collapse | backendServer/seedDatabase.js:121 | `replace(/\s+/g, " ")` as a definition: a leading whitespace character and the rest of its run become one space, and every other character is copied; its properties are the lemmas below |
| Summary.CollapseNormalizes | backendServer/seedDatabase.js:121 | `replace(/\s+/g, " ")` leaves only single spaces, never two whitespace characters in a row |
| Summary.CollapseKeepsNonWhitespace | backendServer/seedDatabase.js:121 | the replacement alters only whitespace: the other characters stay, in order |
| Summary.CollapseFixesNormalized | backendServer/seedDatabase.js:121 | a string with only single spaces is left as it is |
| Summary.CollapseIdempotent | backendServer/seedDatabase.js:121 | replacing twice is replacing once |
| Summary.CollapseAppend | backendServer/seedDatabase.js:110-121 | two strings whose junction is not inside a whitespace run are collapsed independently |
| Summary.CollapseRun | backendServer/seedDatabase.js:121 | a whole whitespace run becomes one space |
| Summary.CollapseClosing | backendServer/seedDatabase.js:120-121 | the template's closing ".", line break and indentation become ". " |
| Summary.SkipWhitespaceSplits | backendServer/seedDatabase.js:121 | the leading run that a whitespace match consumes is all whitespace, and what follows is the rest of the string |
| Summary.SkipWhitespaceAppend | backendServer/seedDatabase.js:121 | a leading whitespace run crosses into the second string only when the first is all whitespace |
| Summary.NormalizedCons | backendServer/seedDatabase.js:121 | adding a non-space, or a single space before a non-space, keeps whitespace single |
| Summary.NonWhitespaceSkip | backendServer/seedDatabase.js:121 | dropping leading whitespace drops no other character |
| Summary.ReviewsInOrder | backendServer/seedDatabase.js:106-108 | reviews are rendered in input order as "Rated r/5 on date: comment", separated by one space |
| Summary.SeedDoc | backendServer/seedDatabase.js:143-147 | the stored document keeps the item and carries exactly `ItemSummary(item)` as embedding text, which is therefore normalised |
| ItemLookup.ItemLookup | backendServer/agent.js:53-80 | empty catalog exactly when the result is `{"error":"No items found","count":0}`, with only the count query issued; otherwise the count and the similarity search with `n` (10 by default) come first; the result echoes the query and `count` is the number of results; vector results are returned as given, with nothing else issued; text results come only when the similarity search found nothing, and are the matching documents in storage order, limited by `n` |
| ItemLookup.MatchesQuery | backendServer/agent.js:68-74 | the `$or` filter as a definition: the query occurs, ignoring case, in the title, the description, the brand, one of the categories or the embedding text |
| ItemLookup.Matching | backendServer/agent.js:67-74 | the documents the filter keeps, in storage order, never more than the catalog holds |
| ItemLookup.MatchingSound | backendServer/agent.js:67-74 | every kept document is in the catalog and matches the `$or` filter |
| ItemLookup.MatchingAppend | backendServer/agent.js:67-74 | the filter keeps storage order |
| ItemLookup.MatchingComplete | backendServer/agent.js:67-74 | no matching document is left out |
| ItemLookup.ApplyLimit | backendServer/agent.js:75 | the cursor limit keeps a prefix of the matches; 0 keeps all; any other `n` keeps `min(count, abs(n))` |
| ItemLookup.LookupAtMostLimit | backendServer/agent.js:53-80 | with a positive limit and a similarity search that honours it, no result has more than `n` items |
| ItemLookup.FallbackOnlyWhenNoVectorHits | backendServer/agent.js:66-78 | the keyword search runs exactly when the catalog is non-empty and the similarity search returned nothing |
| ItemLookup.TextResultsAreFirstMatches | backendServer/agent.js:67-77 | keyword results all match, are a prefix of all matches in storage order, and when fewer than `n` are returned every match is among them |
| Graph.Route | backendServer/agent.js:115 | the conditional edge leads to `tools` exactly when the last message has at least one tool call, and to `__end__` otherwise |
| Graph.Next | backendServer/agent.js:114-116 | `__start__` and `tools` lead to `agent`; `agent` leads where the route says |
| Graph.RunToolCall | backendServer/agent.js:113 | each tool call gets a tool message with its id; it carries the item lookup's result for `item_lookup` and a not-found error for any other name |
| Graph.ToolStep | backendServer/agent.js:113 | the tools node answers every pending tool call, one message each, in call order |
| Graph.AgentStep | backendServer/agent.js:98-107 | the agent node adds exactly one AI message, the retried model call's reply with its content and tool calls unchanged; it throws exactly when the retried call throws, and then with that call's error unchanged |
| Graph.Continue | backendServer/agent.js:110-123 | the rest of a run as a definition: `__end__` stops, an exhausted budget gives the recursion-limit error, a node that throws ends the run with its error, and otherwise its output is concatenated and the run goes on from the next node |
| Graph.RunGraph | backendServer/agent.js:123 | `app.invoke` only appends to its input and runs at most `budget` nodes; a run without error ended after a model step, and its last message is the model's reply with no tool call |
| Graph.ContinueExtends | backendServer/agent.js:49 | a run only appends: the conversation after it extends the one before, and at most the remaining budget of nodes runs |
| Graph.ContinueAlternates | backendServer/agent.js:114-123 | the executed nodes alternate agent, tools, agent, … and stay within the step budget |
| Graph.ContinueSucceedsAtEnd | backendServer/agent.js:115 | a run that ends without error ended after an agent step, and its last message is an AI message with an empty tool-call list |
| Graph.RunGraphShape | backendServer/agent.js:111-123 | a whole run appends to its input, follows Agent → (Tools → Agent)* within the budget, and on success ends with an agent step and no pending tool call |
| Graph.AgentCalls | backendServer/agent.js:114-116 | the count of model calls never exceeds the number of steps |
| Graph.AlternatingAgentCalls | backendServer/agent.js:114-116 | an alternating run of k steps calls the model (k + 1) / 2 times |
| Graph.ModelCallsWithinLimit | backendServer/agent.js:123 | with the budget of 15 the model is called at most 8 times and the tools run at most 7 times |
| Graph.EndlessToolCallsHitLimit | backendServer/agent.js:115-123 | a model that always asks for a tool makes the run end with the recursion-limit error |
| Formatter.FirstTwo | backendServer/agent.js:145 | `slice(0, 2)` is the prefix of exactly `min(2, count)` reviews |
| Formatter.AppendReviewLines | backendServer/agent.js:145-147 | the `forEach` appends the review lines in order |
| Formatter.AppendReviews | backendServer/agent.js:143-148 | the reviews section (heading and the first two review lines) is appended only when there are reviews |
| Formatter.FormatItem | backendServer/agent.js:136-151 | the `text +=` sequence builds exactly the item's block |
| Formatter.ReviewLinesSnoc | backendServer/agent.js:145-147 | one more review appends one more line |
| Formatter.ItemBlockShape | backendServer/agent.js:137-149 | each block starts with "⭐ **title** by brand" and ends with an empty line |
| Formatter.ItemBlockShowsFirstTwoReviews | backendServer/agent.js:145 | reviews after the first two never change the block |
| Formatter.ReviewLineEndsWithNewline | backendServer/agent.js:146 | each review line ends with a line break |
| Formatter.ReviewSectionEndsWithNewline | backendServer/agent.js:144-147 | a non-empty reviews section ends with a line break |
| Formatter.HeaderAndReviewsEndWithNewline | backendServer/agent.js:137-148 | the block before its final `\n` ends with a line break |
| Formatter.EndsWithNewlineAppend | backendServer/agent.js:137-149 | appending a line that ends with a line break gives text that does too |
| Formatter.PrefixAppend | backendServer/agent.js:137-149 | appending keeps a prefix |
| Formatter.ItemBlocks | backendServer/agent.js:136-151 | one block per result item, in result order |
| Formatter.FormatItems | backendServer/agent.js:136-151 | the `map` over the results builds exactly the blocks of the items in order |
| Formatter.ResponseText | backendServer/agent.js:131-157 | the response for the content's shape: it throws, with the destructuring error, exactly for `null`, and an object with results gives the newline-joined item blocks |
| Formatter.FormatResponse | backendServer/agent.js:126-157 | the response text follows the content's shape: array, object with results, other object, or any other value; it throws exactly for `null` |
| ChatAgent.MapError | backendServer/agent.js:162-166 | a 429 becomes the rate-limit message and a 401 the authentication message; anything else becomes "Agent failed: " followed by the original message; no status survives |
| ChatAgent.Input | backendServer/agent.js:123 | the run starts from the thread's saved conversation, unchanged, followed by the query as a human message |
| ChatAgent.Answer | backendServer/agent.js:126-166 | an error the run threw is reported mapped; for a run without error the answer is the response text of its last message, succeeding exactly when the formatting does, with a formatting error mapped; every thrown error is the mapping of some error and keeps no status |
| ChatAgent.CallAgentResult | backendServer/agent.js:36-167 | a quick reply is returned as it is; every error leaving `callAgent` is the mapping of some error, carries no status and comes from a query without a quick reply |
| ChatAgent.CallModel | backendServer/agent.js:98-107 | the imperative `callModel`, calling the model through the retry loop, gives exactly the agent node's step |
| ChatAgent.RunNode | backendServer/agent.js:111-113 | executing a node gives exactly that node's step: the model for `agent`, the tool calls for `tools` |
| ChatAgent.PersistentRateLimitReported | backendServer/agent.js:162-164 | a 429 that outlasts the retries of the first model call is reported as the rate-limit message, and the thread keeps the query |
| ChatAgent.Agent.Run | backendServer/agent.js:111-123 | the imperative run, with the model called through the retry loop, gives exactly the graph's run; the thread holds the run's conversation, and no other thread changes |
| ChatAgent.Agent.CallAgent | backendServer/agent.js:36-167 | the answer is `CallAgentResult`; a quick reply leaves every thread untouched; otherwise the queried thread is saved as the run's conversation and every other thread's conversation stays as it was |
| ChatAgent.Agent.constructor | backendServer/agent.js:119 | the checkpoint store starts empty |
| ChatAgent.ThreadOnlyGrows | backendServer/agent.js:123 | after a query, the thread's conversation starts with the old conversation followed by the query |

## Left out

- HTTP routing, the Express server, the use of `Date.now()` as thread id, and the React front end are not part of this model.
- Language model, embeddings and MongoDB are parameters (`Graph.Services`). These include `model.invoke` with its prompt and `new Date().toISOString()`, `countDocuments` (the catalog's length), `similaritySearchWithScore`, and `find`. The database calls never fail in the model. Creating indexes, `deleteMany`, `fromDocuments` and the synthetic-data generation are left out.
- Sleeping: `setTimeout` is not modelled; each pause is recorded as a number of milliseconds. Logging is left out.
- `JSON.stringify` is uninterpreted: a part's, an object's and a tool output's rendering are parameters.
- LangGraph internals are library code: the recursion limit is modelled as a budget of node executions (the start edge is not a step). The library's off-by-one conventions for `recursionLimit`, and the exact wording of its error, are not modelled.
- MongoDBSaver is modelled as a map from thread id to conversation. It is saved after the input is merged and after every completed step. Atomicity and concurrent runs on one thread are not modelled.
- Regular expressions: the query is used as a regex with the `i` option. The model treats it as a literal substring, so queries with regex metacharacters are not modelled.
- Case folding is ASCII only, in both `toLowerCase` and the `i` option; non-ASCII letters are left as they are.
- Numbers: prices and ratings are integers. The schema also accepts fractional numbers, and `String` of a fractional or negative-zero number is not modelled.
- Vector results are (document, score) pairs in the source, while the formatter reads fields from them directly. The model formats items and leaves the mismatch and the scores out.
- `Formatter.AudienceEmoji`: the `|| ""` fall-back for an audience outside the table cannot happen for validated items, so it is not modelled.
- Field types checked by the schema beyond price presence, audience and ratings are carried by the Dafny types instead of being validated.
- Content of a message that is neither string, array, object nor `null`: numbers and booleans are folded into `Scalar` with their `String` rendering.
- The tool's argument schema (`z.number().optional().default(10)`) and any argument validation error are not modelled; `n` is any integer or absent.

Behaviour of the code worth noting:

- A 429 on the last allowed attempt is rethrown as it is; "Max retries exceeded" is reached only when `maxRetries < 1` (agent.js:23-32).
- `n` has no lower bound: a limit of 0 returns every keyword match, and a negative limit acts as its absolute value, as the MongoDB driver's `limit` does (agent.js:75).
- The quick-reply pre-filter runs inside `callAgent`, before the store is touched (agent.js:36-43).
