# Banking tool set — a Dafny model

This project models the tool service of a conversational banking agent
(`parlant-tutorial/tool-service/parlant_tool_service_starter/service.py`). The
service offers five tools to its host agent framework:

- `get_products_by_type` — the catalog products of one type (Student, HNI or Mass), in catalog order;
- `inquire_eligibility` — the catalog products whose minimum account balance is at least a given figure, in catalog order;
- `lock_card` and `unlock_card` — canned card-status answers that ignore the card id;
- `report_incident` — routes an incident description to a named human handler.

The product catalog is read once when the process starts and is never changed
afterwards. In the model it is a value (`Service.Catalog`, a sequence of
`Service.Product`) passed to every tool that reads it. Every tool is a Dafny
function of its arguments. So the catalog cannot change, and repeated
identical calls give identical answers, by construction.

Modules:

- `Wrappers` — the `Option` datatype.
- `Sequences` — `Filter`, the order-preserving selection that a Python list
  comprehension `[item for item in s if cond]` performs, with lemmas about
  membership, multiplicities, order, emptiness, concatenation, re-filtering and
  three-way partition.
- `Service` — the product-type enum with its catalog spellings, products, tool
  results and the five tools, with the properties that relate their answers.

A tool result is a mapping with one key. It is modelled as
`ToolResult(key, data)`, where `data` is either a list of products or a status string.

`inquire_eligibility` is kept exactly as written: it returns the products
whose *minimum* balance is at least the caller's figure (comparison `>=`). It
does not return the products whose minimum the caller's balance meets.
`report_incident` is kept exactly as written. Its third test repeats the first
test, so the "Sam" answer can never be produced. An incident type in neither
list gets no answer (`None`), because the Python function ends without a
return. Some descriptions of the service call for an explicit error or a default
route in that case. The model follows the code and adds neither.

## Model

| member | source | states |
|---|---|---|
| Service.ParseProductType | parlant-tutorial/tool-service/parlant_tool_service_starter/service.py:15-18 | Looking up an enum member by value yields a member spelt exactly that way, and yields nothing only when no member has that spelling |
| Service.ValueRoundTrip | parlant-tutorial/tool-service/parlant_tool_service_starter/service.py:15-18 | Looking up a member's own spelling gives that member back, and no two members share a spelling |
| Service.ProductsOfType | parlant-tutorial/tool-service/parlant_tool_service_starter/service.py:26 | A product is selected iff it is in the catalog and its type field equals the enum value's spelling; the result is a subsequence of the catalog; it is empty iff no entry matches |
| Service.GetProductsByType | parlant-tutorial/tool-service/parlant_tool_service_starter/service.py:26-27 | The answer carries the type selection under the key `available_products` |
| Service.EligibleProducts | parlant-tutorial/tool-service/parlant_tool_service_starter/service.py:35 | A product is selected iff it is in the catalog and its minimum balance is >= the figure (not the reverse); the result is a subsequence of the catalog; it is empty iff every minimum lies below the figure |
| Service.TypeQueryCounts | parlant-tutorial/tool-service/parlant_tool_service_starter/service.py:26 | Each entry of the matching type appears in the answer exactly as often as in the catalog; every other entry appears zero times |
| Service.EligibilityCounts | parlant-tutorial/tool-service/parlant_tool_service_starter/service.py:35 | Each entry whose minimum is >= the figure appears in the answer exactly as often as in the catalog; every other entry appears zero times |
| Service.InquireEligibility | parlant-tutorial/tool-service/parlant_tool_service_starter/service.py:35-36 | The answer carries the balance selection under the key `eligible_for` |
| Service.LockCard | parlant-tutorial/tool-service/parlant_tool_service_starter/service.py:44 | For every card id the answer is `card_status` = "locked" |
| Service.UnlockCard | parlant-tutorial/tool-service/parlant_tool_service_starter/service.py:52 | For every card id the answer is `card_status` = "unlocked" |
| Service.CardToolsIgnoreId | parlant-tutorial/tool-service/parlant_tool_service_starter/service.py:38-52 | Lock and unlock answers do not depend on the card id, and the two tools never give the same answer |
| Service.ReportIncident | parlant-tutorial/tool-service/parlant_tool_service_starter/service.py:60-65 | Diverts to "Fred" iff the input is "fraud", "scam" or "duped"; to "Mitchell" iff it is "misplaced", "lost" or "can't find"; gives no answer iff it is in neither list; never diverts to "Sam" |
| Service.TypeQueriesDisjoint | parlant-tutorial/tool-service/parlant_tool_service_starter/service.py:15-18 | The answers for two different product types share no product |
| Service.TypeQueriesPartition | parlant-tutorial/tool-service/parlant_tool_service_starter/service.py:26 | When every catalog entry has one of the three type spellings, the three type answers together hold every entry exactly as often as the catalog does, and their lengths sum to the catalog length |
| Service.EligibilityAntitone | parlant-tutorial/tool-service/parlant_tool_service_starter/service.py:35 | For a higher threshold the answer is the lower threshold's answer filtered again, so it is a subsequence of that answer and never longer |
| Service.SelectionsFollowCatalogOrder | parlant-tutorial/tool-service/parlant_tool_service_starter/service.py:26-35 | Splitting the catalog in two splits both answers in the same place, so the entries appear in catalog order |
| Sequences.FilterMembers | parlant-tutorial/tool-service/parlant_tool_service_starter/service.py:26 | The comprehension keeps an element iff it occurs in the input and passes the condition |
| Sequences.FilterCount | parlant-tutorial/tool-service/parlant_tool_service_starter/service.py:26 | The comprehension keeps each passing element as often as it occurs and drops every other element |
| Sequences.FilterIsSubsequence | parlant-tutorial/tool-service/parlant_tool_service_starter/service.py:26 | The comprehension's result is a subsequence of its input |
| Sequences.FilterEmpty | parlant-tutorial/tool-service/parlant_tool_service_starter/service.py:26 | The comprehension's result is empty iff no input element passes |
| Sequences.FilterAppend | parlant-tutorial/tool-service/parlant_tool_service_starter/service.py:35 | The comprehension over a concatenation is the concatenation of the comprehensions |
| Sequences.FilterOfFilter | parlant-tutorial/tool-service/parlant_tool_service_starter/service.py:35 | Filtering again by a stronger condition equals filtering the input by the stronger condition once |
| Sequences.FilterPartition3 | parlant-tutorial/tool-service/parlant_tool_service_starter/service.py:26 | When each element passes exactly one of three conditions, the three results together hold exactly the input's elements |

## Left out

- Loading the catalog from `products.json` (lines 12-13) is file I/O and JSON parsing. The catalog is a parameter instead.
- The `@tool` decorator, `ToolContext` (the context argument, which no tool reads), `asyncio`, the `TOOLS` list and `PluginServer`/`main` (lines 1-10, 67-80) belong to the host framework, its transport and its network binding. They are not part of this model.
- `minimum_account_balance` is modelled as a `real`. The tools only compare it with `>=`, so IEEE rounding and NaN are not modelled.
- Python runtime errors for entries without a `type` or `minimum_account_balance` field, or with a field of the wrong kind, are not modelled. Every `Product` has both fields. The host validates tool arguments, including the enum value.
- Idempotence and the fact that the catalog is never changed have no separate lemma. Both hold by construction, because the catalog is an immutable value and every tool is a deterministic function.
- The extra fields of a catalog record are modelled as a string-to-string map. The tools only pass them through.
