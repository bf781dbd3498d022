# Sentos → Shopify sync engine, modelled in Dafny

This project models the core of a sync engine. The engine reads products, stock, prices and
images from the Sentos ERP API, writes them to a Shopify store through the Admin GraphQL API,
copies orders between two Shopify stores, exports a stock table, and keeps a short run history.
Each Python source file of the core becomes one Dafny module:

- `utils.dfy` (`Utils`, from `utils.py`): the apparel size sort key, and reading a variant's size and colour.
- `shopify_api.dfy` (`ShopifyApi`, from `connectors/shopify_api.py`). The class `ShopifyConnector` covers:
  - URL normalisation;
  - the token-bucket rate limiter;
  - the `execute_graphql` retry loop, which retries THROTTLED errors (its guard for HTTP 429 never holds; see Findings);
  - cursor pagination;
  - chunked SKU lookups;
  - the `sku:`/`title:` product cache;
  - the memoised location id;
  - the guards in media deletion and reordering.
- `sync_runner.dfy` (`SyncRunner`, from `sync_runner.py`):
  - product matching by SKU, then by title;
  - mode dispatch;
  - the product-creation input;
  - the per-product create/update/skip/fail accounting in the `SyncStats` class;
  - list filtering and progress.
- `stock_sync.dfy` (`StockSync`, from `operations/stock_sync.py`):
  - the new-variant diff;
  - inventory adjustments;
  - batches of at most 50 for stock updates, variant creation and activation.
- `price_sync.dfy` (`PriceSync`, from `operations/price_sync.py`):
  - the adaptive rate limiter (`SmartRateLimiter`, a class);
  - the price-update retry loop;
  - the per-product variant filter.
- `sentos_api.dfy` (`SentosApi`, from `connectors/sentos_api.py`):
  - URL trimming and joining, and authentication;
  - retries on HTTP 500/429 with exponential backoff;
  - page-by-page product fetching;
  - image-URL extraction;
  - lookup by SKU.
- `order_builder.dfy` (`OrderBuilder`, from `operations/shopify_order_builder.py`): the whitelisting builders for addresses, transactions, line items and whole order inputs.
- `order_transfer.dfy` (`OrderTransfer`, from `operations/shopify_to_shopify.py`):
  - finding or creating the customer;
  - mapping line items by SKU;
  - choosing the order total;
  - the transfer with its log and failure handling.
- `export.dfy` (`Export`, from `pages/5_export.py`):
  - base-model-code extraction;
  - colour grouping, size tables and stock totals;
  - the Sentos merge;
  - the sorted size header and the final rows.
- `log_manager.dfy` (`LogManager`, from `log_manager.py`): the run history file, newest first and capped at fifty.
- Shared helpers, each with its own module:
  - `wrappers.dfy`: Option and Result;
  - `strs.dfy`: whitespace trimming as `str.strip()` does it, prefixes and digits;
  - `json.dfy`: JSON values with Python truthiness, plus `int()` and `float()` reading;
  - `dicts.dfy`: last-write-wins dict building;
  - `batching.dfy`: fixed-size chunks.

Remote calls are not made. Each one becomes an input: a reply, or a sequence of replies (one per
attempt or page) for every request the code would send. Clocks are `now` parameters. The
sleeps that back off or pace requests become wait durations that the operations return: the
retry backoffs of `execute_graphql` and of the Sentos request loop, the token-bucket wait of
`_rate_limit_wait`, and every sleep of the price update (the limiter's and the retry pauses).
The fixed pauses between pages and batches are listed under "Left out". Methods model code that changes state step by
step: the connector's token bucket, caches and memoised location, the run counters, the rate
limiter and the history file. Every such method is proved against a specification function, and
the properties the code promises are proved about those functions as lemmas.

A product whose creation reports errors is counted as created, not failed: `_create_product`
(sync_runner.py:156-192) returns an error line instead of raising, so `_process_single_product`
records the product as created. The model does the same.

## Model

| member | source | states |
|---|---|---|
| Batching.FlattenAppend | operations/stock_sync.py:114-116 | concatenating the batches of two lists is concatenating their contents |
| Batching.ChunksFlatten | operations/stock_sync.py:114-116 | the batches `xs[i:i + n]` for `i in range(0, len(xs), n)` put back together are the list: nothing lost, duplicated or reordered |
| Batching.ChunksSizes | operations/stock_sync.py:114-116 | every batch is non-empty and at most `n` long; all but the last hold exactly `n` |
| Batching.ChunksSnoc | operations/stock_sync.py:155-158 | a list whose first part fills whole batches is batched as that part's batches plus one more |
| Batching.ChunksCount | operations/stock_sync.py:155-158 | two lists of the same length go out in the same number of batches |
| Batching.FlattenSnoc | operations/stock_sync.py:114-116 | one more batch at the end adds its items at the end |
| Batching.MapEach | operations/stock_sync.py:160-195 | one result per item, the i-th the function applied to item i |
| Batching.MapEachAppend | operations/stock_sync.py:160-195 | mapping two lists joined maps each, one after the other |
| Batching.BatchesOf137 | operations/stock_sync.py:114-116 | 137 adjustments go out in batches of 50, 50 and 37 |
| Dicts.AssignAllAppend | operations/stock_sync.py:70-74 | building a dict from two lists of pairs is building it from the first and then the second |
| Dicts.AssignAllKeys | operations/stock_sync.py:70-74 | a key is in the dict built from pairs exactly when it was there before or some pair names it |
| Dicts.AssignAllLastWins | operations/stock_sync.py:70-74 | with repeated keys the last assignment wins |
| Dicts.AssignAllUntouched | operations/stock_sync.py:70-74 | keys no pair names keep their earlier value |
| Dicts.AssignEach | operations/stock_sync.py:70-74 | the assignment loop builds exactly the dict `AssignAll` describes |
| Json.ParseInt | operations/shopify_order_builder.py:89 | `int(text)` accepts only text holding a digit |
| Json.ParseIntRejectsLetters | operations/shopify_order_builder.py:89-90 | text holding a letter is refused by `int()`, so the item is dropped |
| Json.ParseIntValue | operations/shopify_order_builder.py:89 | `int(text)` succeeds exactly on stripped text that is digits, or a `-`/`+` followed by digits, and its value is the digits' value, negated after a `-` |
| Json.ParseIntRoundTrip | operations/shopify_order_builder.py:89 | `int(str(n)) == n` for every integer, negative ones included |
| Json.ParseDecimalOfIntText | operations/shopify_order_builder.py:99 | every text `int()` accepts, `float()` accepts too, with the same value |
| Json.ParseDecimalOfInt | operations/shopify_order_builder.py:99 | `float(str(n)) == n` for every integer |
| Json.UnsignedDigits | operations/shopify_order_builder.py:99 | an unsigned run of digits is read as the number it spells |
| Json.ParseDecimalUnsigned | operations/shopify_order_builder.py:99 | text with no surrounding whitespace and no sign is read as its unsigned number |
| Json.SplitExponent | operations/shopify_order_builder.py:99 | the mantissa holds no exponent mark; when there is an exponent, the text is mantissa, the first `e`/`E` and the exponent |
| Json.SplitExponentAt | operations/shopify_order_builder.py:99 | the exponent is split off at the first `e` or `E`, and text without one is all mantissa |
| Json.MantissaWithPoint | operations/shopify_order_builder.py:99 | digits around a decimal point spell all their digits, scaled down by the number of digits after the point |
| Json.UnsignedWithExponent | operations/shopify_order_builder.py:99 | a mantissa followed by `e`/`E` and an exponent is the mantissa times ten to that exponent |
| Json.Scale | operations/shopify_order_builder.py:99 | `m * 10 ** e` is never negative, and positive for a positive `m` |
| Json.ParseDecimalPositiveExponent | operations/shopify_order_builder.py:99 | `float("1e3") == 1000.0`: a positive exponent multiplies |
| Json.ParseDecimalNegativeExponent | operations/shopify_order_builder.py:99 | `float("2.5E-1") == 0.25`: an upper-case mark and a negative exponent |
| Json.ParseDecimalBareExponent | operations/shopify_order_builder.py:99 | `float("e3")` and `float("1e")` raise ValueError |
| Json.TruncateReal | operations/shopify_order_builder.py:89 | `int()` of a float truncates toward zero: the result lies within one of the value on the side of zero |
| Utils.ApparelSortKey | utils.py:5-13 | the key keeps the original value; its tier is 1, 2 or 3; tier 3 carries rank 9999; only strings reach tiers 1 and 2 |
| Utils.FirstDigitRun | utils.py:11 | a run found is non-empty, lies inside the string and is made of digits |
| Utils.FirstDigitRunNone | utils.py:11-13 | `re.findall(r'\d+', s)` is empty exactly when the string holds no digit |
| Utils.FirstDigitRunFound | utils.py:11-12 | the run taken is the first maximal run of digits: no digit before or after it |
| Utils.DigitPrefix | utils.py:11 | the longest prefix made of digits |
| Utils.StrLessIrreflexive | utils.py:5-13 | Python string `<` is irreflexive (third element of the key) |
| Utils.StrLessTransitive | utils.py:5-13 | Python string `<` is transitive |
| Utils.StrLessTotal | utils.py:5-13 | two different strings are ordered one way or the other |
| Utils.SizeBeforeStrictTotal | utils.py:5-13 | sorting by the key is a strict total order on size strings, so `sorted` has one answer |
| Utils.TableSizesFirst | utils.py:9-12 | every size in the fixed table sorts before every size outside it |
| Utils.NumberedSizesNext | utils.py:11-13 | an unlisted size holding a number sorts by that number and before one with no number |
| Utils.SharedRanks | utils.py:9 | XXL and 2XL share rank 6; TEK EBAT and STANDART share rank 100 |
| Utils.VariantSize | utils.py:15-17 | no `model` entry gives None |
| Utils.VariantSizeSpec | utils.py:15-17 | the size is the trimmed dict 'value' or `str(model)`, None exactly when that is blank; a null model reads "None" |
| Utils.VariantColor | utils.py:19-20 | a missing colour gives None |
| Utils.VariantColorSpec | utils.py:19-20 | the colour is the trimmed text, None exactly when missing, null or blank |
| Utils.TrimmedOrNoneSpec | utils.py:17 | `s.strip() or None` is the stripped text, None exactly when it is empty |
| StockSync.SourceVariants | operations/stock_sync.py:15 | the product's variants, or the product itself when it has none: never empty |
| StockSync.ExistingSkus | operations/stock_sync.py:14 | a SKU is existing exactly when some destination variant has it, non-empty, after trimming |
| StockSync.NewVariantsMembers | operations/stock_sync.py:17 | a variant is new exactly when it is a source variant whose trimmed SKU is not an existing one |
| StockSync.NewVariantsSnoc | operations/stock_sync.py:17 | the filter keeps source order, one variant at a time |
| StockSync.NewVariantsAppend | operations/stock_sync.py:17 | filtering two lists is filtering each and concatenating |
| StockSync.SkuMapEntries | operations/stock_sync.py:70-74 | one entry at most per destination variant, only for truthy SKUs |
| StockSync.StockSumIgnoresEmptyRows | operations/stock_sync.py:81 | rows that are not dicts or whose stock is missing, null or 0 do not change the sum |
| StockSync.AdjustmentFor | operations/stock_sync.py:77-86 | a variant gets an adjustment exactly when its trimmed SKU is non-empty, maps to a truthy inventory item id and its stock sum is not negative; the adjustment carries that id and the sum rounded toward zero by `int(qty)` |
| StockSync.StockSumPair | operations/stock_sync.py:81 | two rows with stock add up to the sum of their stocks |
| StockSync.FractionalStocks | operations/stock_sync.py:81-86 | float stocks are summed before `int(qty)`: 0.5 and 0.7 give 1, 0.3 and -0.2 give 0, and -0.5 and 0.2 give no adjustment |
| StockSync.AdjustmentsSound | operations/stock_sync.py:76-87 | every adjustment comes from some source variant |
| StockSync.AdjustmentsAppend | operations/stock_sync.py:76-87 | adjustments of two lists are those of each, in order |
| StockSync.AdjustmentsPrefix | operations/stock_sync.py:77-86 | one more variant adds its own adjustment, if any, at the end |
| StockSync.AdjustmentsComplete | operations/stock_sync.py:79-86 | a variant meeting all conditions yields exactly its adjustment |
| StockSync.SkuMapLaterWins | operations/stock_sync.py:70-74 | of two variants with the same SKU, the later one's inventory item id is kept |
| StockSync.PrepareInventoryAdjustments | operations/stock_sync.py:68-87 | the loop returns exactly the adjustments of the source variants against the SKU map, in source order |
| StockSync.SetQuantities | operations/stock_sync.py:118-124 | one entry per adjustment, carrying its item id, the location and its quantity |
| StockSync.FirstRaisedIs | operations/stock_sync.py:131-147 | the index of the first batch whose mutation raised is the one before which none raised and at which one did |
| StockSync.AdjustInventoryBulk | operations/stock_sync.py:89-147 | nothing is sent for no adjustments or a failed location lookup; otherwise the batches of 50 are sent in order, all of them when no mutation raises, or up to and including the first that raised; userErrors do not stop it |
| StockSync.StockBatchesCover | operations/stock_sync.py:113-116 | the batches cover the adjustments exactly, in order, none above 50 |
| StockSync.VariantOptionTexts | operations/stock_sync.py:174-178 | at most two option texts: colour then size |
| StockSync.PairOptions | operations/stock_sync.py:185-190 | option i pairs with the product's option i, as many pairs as the shorter list |
| StockSync.NewVariantInput | operations/stock_sync.py:162-168 | price "0.00", tracked inventory, the variant's SKU |
| StockSync.NewVariantInputShape | operations/stock_sync.py:170-193 | a barcode exactly when the variant has a truthy one; option values exactly when some option text pairs with a product option, at most two |
| StockSync.NoOptionsNoQuery | operations/stock_sync.py:174-181 | a variant with neither colour nor size gets no option values, whatever an option query would have answered, as the source makes none for it |
| StockSync.WithAnswers | operations/stock_sync.py:159-182 | each new variant is paired with the answer of its own `_get_product_options` query, in order |
| StockSync.NewVariantInputs | operations/stock_sync.py:160-195 | one input per variant of the batch, the i-th built from variant i with its own option answer |
| StockSync.NewVariantInputsAppend | operations/stock_sync.py:160-195 | building the inputs of two runs of variants joined builds each, one after the other |
| StockSync.BatchInputsFlatten | operations/stock_sync.py:157-195 | the inputs of the batches, read in order, are the inputs of their variants in order |
| StockSync.VariantBatchesPerVariant | operations/stock_sync.py:157-195 | across all create calls there is exactly one input per new variant, the k-th built from the k-th new variant with the answer of its own option query |
| StockSync.ActivationIdsSpec | operations/stock_sync.py:259-261 | only truthy inventory item ids are activated; none exactly when no created variant has one |
| StockSync.BatchInputsAt | operations/stock_sync.py:157-195 | the inputs of batch i are built from batch i |
| StockSync.SendVariantBatch | operations/stock_sync.py:160-232 | a batch sends its inputs and activates the created variants' items only when the mutation answered |
| StockSync.AddVariantsBulk | operations/stock_sync.py:149-239 | every batch of 50 new variants is sent, in order, also after a failed one, each variant's input built with its own option query's answer; activations follow each answered batch |
| StockSync.SendBatchAt | operations/stock_sync.py:216-239 | one round of the batch loop sends batch i and adds its activation call only when it has items to activate |
| StockSync.ActivationCalls | operations/stock_sync.py:231-232 | at most one activation call per batch |
| StockSync.FailedBatchActivatesNothing | operations/stock_sync.py:238-239 | a batch whose mutation raised activates nothing |
| StockSync.ChangeTextInjective | operations/stock_sync.py:19-32 | different change reports have different texts |
| StockSync.ChangeTextEnding | operations/stock_sync.py:19-32 | the three report texts end as the source's messages do |
| StockSync.ChangeReport | operations/stock_sync.py:18-32 | one or two reports |
| StockSync.ChangeReportMeaning | operations/stock_sync.py:18-32 | new variants are reported exactly when there are some, stock updates exactly when there are some, and "no change" exactly when there are neither, then alone |
| StockSync.SyncStockAndVariants | operations/stock_sync.py:8-35 | new variants are those whose SKU was absent before; stock is set for adjustments against the variants read afterwards; the reports, the variant batches and exactly the stock batches `_adjust_inventory_bulk` sends (all, up to the first raise, or none) |
| SyncRunner.FindProduct | sync_runner.py:28-40 | a product found is one of the cache's products |
| SyncRunner.FindProductSpec | sync_runner.py:28-40 | the `sku:` entry wins when the trimmed SKU is non-empty and cached; otherwise the `title:` entry for a non-empty trimmed name; None exactly when neither applies |
| SyncRunner.FoundByTitleAfterLoad | sync_runner.py:36-38 | a product without a SKU whose trimmed name equals a loaded product's trimmed title is found as that product |
| SyncRunner.UpdateSteps | sync_runner.py:52-61 | at most four sub-syncs |
| SyncRunner.UpdateStepsByMode | sync_runner.py:52-61 | details and product type run in the full and description modes, stock and variants in the full and stock modes, media in the full and image modes, with alt text in the full and SEO modes |
| SyncRunner.ColorValuesSpec | sync_runner.py:79-84 | a colour is collected exactly when some variant has it |
| SyncRunner.OptionValuesSpec | sync_runner.py:79-86 | the set built by adding each present colour or size holds exactly the values some variant has |
| SyncRunner.SizeValuesSpec | sync_runner.py:79-86 | a size is collected exactly when some variant has it |
| SyncRunner.ProductOptions | sync_runner.py:89-99 | at most two product options |
| SyncRunner.ProductOptionsSpec | sync_runner.py:89-99 | "Renk" is offered exactly when some colour was found and "Beden" exactly when some size was, colour first, each with its non-empty value set |
| SyncRunner.ColorValuesNonEmpty | sync_runner.py:82-90 | the colour option is present exactly when some variant has a colour |
| SyncRunner.SizeValuesNonEmpty | sync_runner.py:82-95 | the size option is present exactly when some variant has a size |
| SyncRunner.PriceText | sync_runner.py:104 | the price text holds no comma |
| SyncRunner.OptionValuesFor | sync_runner.py:121-125 | at most two option values |
| SyncRunner.SetVariants | sync_runner.py:102-130 | one input per variant |
| SyncRunner.SetVariantsAt | sync_runner.py:103-130 | input i is built from variant i |
| SyncRunner.SetVariantShape | sync_runner.py:104-128 | tracked, SHOPIFY-managed, DENY policy, the variant's SKU, a comma-free price, a barcode exactly when truthy, option values exactly when the variant has a colour or size |
| SyncRunner.VariantValuesOffered | sync_runner.py:79-125 | every option value a variant uses is one of the values its option offers |
| SyncRunner.ColorOffered | sync_runner.py:79-125 | a variant's colour, when it has one, is among the colour values the product offers |
| SyncRunner.SizeOffered | sync_runner.py:79-125 | a variant's size, when it has one, is among the size values the product offers |
| SyncRunner.CollectOptionValues | sync_runner.py:82-86 | one loop step adds the variant's colour and size to the collected sets |
| SyncRunner.AppendSetVariant | sync_runner.py:103-130 | one loop step appends that variant's input |
| SyncRunner.CreateProductInput | sync_runner.py:76-154 | the two loops build exactly the productSet input the functions describe |
| SyncRunner.CreateProductChanges | sync_runner.py:156-192 | never an empty change list |
| SyncRunner.CreateProductChangesSpec | sync_runner.py:161-192 | a creation fails exactly when the call raised, reported userErrors or gave no id, and then the list is the single "❌" line; otherwise it starts with the "✅" line and ends with the tracking line |
| SyncRunner.ProductStatusSpec | sync_runner.py:373-396 | updated or failed exactly when named, found and not missing-only; created exactly when named, not found and the mode is full or missing-only; a missing-only run only skips or creates |
| SyncRunner.DetailFor | sync_runner.py:371-416 | at most one details entry per product |
| SyncRunner.Tally | sync_runner.py:375-418 | `processed` always grows by one and exactly the counter of the status by one |
| SyncRunner.SyncStats.constructor | sync_runner.py:422-423 | all counters zero and no details |
| SyncRunner.SyncStats.ProcessSingleProduct | sync_runner.py:367-418 | records the product's status in the counters and appends its details entry; the counters stay consistent |
| SyncRunner.SyncStats.Record | sync_runner.py:375-418 | the counter update and the details append, nothing else |
| SyncRunner.DecideProduct | sync_runner.py:369-416 | the status and the details entry are those the functions describe |
| SyncRunner.MissingSpec | sync_runner.py:437 | a product is missing exactly when it is listed and not found |
| SyncRunner.ProductsToProcess | sync_runner.py:432-437 | test mode keeps at most 20; without missing-only the list is kept as it is |
| SyncRunner.ProductsToProcessSpec | sync_runner.py:432-437 | in missing-only runs a product is processed exactly when it is kept and not found |
| SyncRunner.MissingOnlyRunCreates | sync_runner.py:390-393 | a product processed in a missing-only run is not found and is created, or skipped for a blank name |
| SyncRunner.FloorDivMonotone | sync_runner.py:456 | `int()` of a non-negative quotient grows with the numerator |
| SyncRunner.FloorDivMultiple | sync_runner.py:456 | `int(k * d / d) == k` |
| SyncRunner.FloorDivBelow | sync_runner.py:456 | a numerator under `k * d` gives less than `k` |
| SyncRunner.ProgressSpec | sync_runner.py:455-456 | the reported progress lies between 55 and 100, never goes down, and is 100 exactly when all are processed |
| SyncRunner.RunCoreSync | sync_runner.py:420-474 | `total` is the number of products to process, all are processed, and the progress reported after each is the formula's; the final counters are the products' statuses counted in turn (`TallyAll` of their statuses in order), and `details` is every product's details entry in processing order |
| SyncRunner.RunStatuses | sync_runner.py:420-474 | entry i is the status the run gives the i-th product to process |
| SyncRunner.TallyAllCounts | sync_runner.py:375-418 | counting a run's statuses leaves in each of created, updated, failed and skipped the number of products with that status, and in processed the number of products |
| SyncRunner.DetailsAll | sync_runner.py:375-418 | the details of n products hold at most n entries, one per product at most |
| SyncRunner.ProcessAll | sync_runner.py:443-470 | every product to process is processed in turn: counters are the statuses counted in order, details are the entries in order, progress is reported after each |
| SyncRunner.ProcessAt | sync_runner.py:445-470 | one product more is processed, counted under its status, its details appended and progress reported |
| SyncRunner.TallyAllNext | sync_runner.py:375-418 | counting one more status counts it on top of the earlier ones |
| SyncRunner.ProgressReports | sync_runner.py:450-470 | one report per processed product |
| SyncRunner.ProgressReportsSpec | sync_runner.py:450-470 | the reports lie between 55 and 100, never go down, and the last of a full run is 100 |
| SyncRunner.ProgressReportsAt | sync_runner.py:455-456 | report i is the formula applied to i + 1 processed |
| ShopifyApi.NormalizeStoreUrl | connectors/shopify_api.py:15 | the store URL starts with "http": kept as given when it does, otherwise "https://" and the trimmed text |
| ShopifyApi.NormalizeStoreUrlIdempotent | connectors/shopify_api.py:15 | normalising twice is normalising once |
| ShopifyApi.Configure | connectors/shopify_api.py:11-18 | an empty URL or token is refused, the URL first; otherwise the store URL, version and GraphQL URL are derived from them |
| ShopifyApi.RequestUrl | connectors/shopify_api.py:62-66 | an absolute endpoint is used as is; a REST path goes under `/admin/api/<version>/`; GraphQL uses the GraphQL URL |
| ShopifyApi.RequestUrlAbsolute | connectors/shopify_api.py:62-66 | every request of a configured connector goes to an absolute "http" URL |
| ShopifyApi.RateLimitStep | connectors/shopify_api.py:37-55 | tokens stay between 0 and 9 after a request; no wait exactly when the refill gives a whole token, which is then spent; otherwise it waits until one token has refilled, at most 1.5 s, and empties the bucket |
| ShopifyApi.IdleBucketDoesNotWait | connectors/shopify_api.py:42-49 | after 1.5 idle seconds a request never waits |
| ShopifyApi.ErrorTexts | connectors/shopify_api.py:106 | one text per GraphQL error |
| ShopifyApi.AsWrittenNeverRetriesHttp429 | connectors/shopify_api.py:112-117 | with the guard as written an HTTP 429 is never retried, while the intended guard retries it before the last attempt |
| ShopifyApi.AsWrittenStepSpec | connectors/shopify_api.py:96-117 | as written, a step retries exactly on a THROTTLED error before the last attempt, and every HTTP error raises with its status |
| ShopifyApi.AttemptStep | connectors/shopify_api.py:90-120 | under either guard, a retry happens only before the last attempt and waits `2 * 2 ** attempt` seconds |
| ShopifyApi.AsWrittenRunRaises429 | connectors/shopify_api.py:112-120 | the loop as written raises an HTTP 429 on the first attempt without sleeping; the intended loop sleeps 2 seconds and tries again |
| ShopifyApi.AsWrittenDiffersOnlyOn429 | connectors/shopify_api.py:112-120 | the written and the intended loop step differ only on an HTTP 429 before the last attempt |
| ShopifyApi.GraphqlStep | connectors/shopify_api.py:90-123 | the intended step, with the 429 guard corrected: a retry happens only before the last attempt and waits `2 * 2 ** attempt` seconds |
| ShopifyApi.GraphqlStepSpec | connectors/shopify_api.py:90-123 | the intended step, with the 429 guard corrected, retries exactly on a THROTTLED error or an HTTP 429 before the last attempt; it delivers exactly an error-free body (its data or `{}`); other GraphQL errors raise their joined messages; connection errors raise unchanged |
| ShopifyApi.GraphqlRun | connectors/shopify_api.py:90-125 | the run under either guard (as written, or corrected) stops within the eight attempts |
| ShopifyApi.GraphqlRunSpec | connectors/shopify_api.py:90-125 | under either guard, the waits are the backoffs in order, every waited attempt was a retry, and the result is that of the first attempt that did not retry |
| ShopifyApi.GraphqlRunWaits | connectors/shopify_api.py:100-104 | the i-th wait is the backoff of attempt i |
| ShopifyApi.GraphqlRunRetry | connectors/shopify_api.py:100-104 | the run sleeps first exactly when the first attempt retries, and then sleeps that attempt's backoff before the rest of the run |
| ShopifyApi.GraphqlRunUnfold | connectors/shopify_api.py:96-120 | a retrying attempt leaves the result to the later attempts with one more sleep; any other attempt ends the run with its own result |
| ShopifyApi.GraphqlRunRetries | connectors/shopify_api.py:100-117 | every attempt before the last one made was a retry |
| ShopifyApi.GraphqlRunStops | connectors/shopify_api.py:106-123 | the last attempt made did not retry and gives the result |
| ShopifyApi.GraphqlRunFromPrefix | connectors/shopify_api.py:90-123 | a run that retried up to an attempt that does not retry ends there, with the waits so far |
| ShopifyApi.GraphqlFirstReplyClean | connectors/shopify_api.py:92-110 | a clean first reply is delivered without waiting |
| ShopifyApi.GraphqlAlwaysThrottled | connectors/shopify_api.py:90-108 | eight throttled replies end in the GraphQL error after seven waits |
| ShopifyApi.PagesAnnouncedSpec | connectors/shopify_api.py:262-272 | the pages before n were all read and all announced a next page |
| ShopifyApi.CursorChainSpec | connectors/shopify_api.py:260-272 | the first request has a null cursor and each later one the end cursor of the page before, which announced a next page |
| ShopifyApi.CursorChainNext | connectors/shopify_api.py:260-272 | a request with the previous page's end cursor, after a page that announced a next one, extends the chain |
| ShopifyApi.Paginate | connectors/shopify_api.py:260-274 | the loop requests the cursor chain and returns all nodes of the pages read, up to the first page with no next page or without the connection key; an exception, or a connection that is null so that `.get` is called on None, ends it with that exception |
| ShopifyApi.SanitizeSkus | connectors/shopify_api.py:281 | never more SKUs than given |
| ShopifyApi.SanitizeSkusSpec | connectors/shopify_api.py:280-282 | nothing is left exactly when every SKU is empty; the kept SKUs are stripped and every non-empty one is kept |
| ShopifyApi.SanitizeSkusKeeps | connectors/shopify_api.py:280-282 | every non-empty SKU is kept, stripped |
| ShopifyApi.SanitizeSkusTrimmed | connectors/shopify_api.py:280-282 | every kept SKU is already stripped |
| ShopifyApi.JsonQuote | connectors/shopify_api.py:291 | `json.dumps` of a string is its escaped body enclosed in double quotes |
| ShopifyApi.JsonEscapeRoundTrip | connectors/shopify_api.py:291 | reading back, as `json.loads` reads a string body, what `json.dumps` wrote gives the SKU it was given, for every string |
| ShopifyApi.JsonEscapeAscii | connectors/shopify_api.py:291 | with `ensure_ascii`, the written body holds printable ASCII only |
| ShopifyApi.ReadEscape | connectors/shopify_api.py:291 | each character's escape (short escape, itself, `\uXXXX` or a surrogate pair) reads back as that character and is consumed whole |
| ShopifyApi.ReadBmpEscape | connectors/shopify_api.py:291 | a character below U+10000 outside printable ASCII and the short escapes is written as its `\uXXXX` code and reads back from it |
| ShopifyApi.ReadPairEscape | connectors/shopify_api.py:291 | a character above U+FFFF is written as a 12-character surrogate pair and reads back from it |
| ShopifyApi.Hex4RoundTrip | connectors/shopify_api.py:291 | the four lower-case hexadecimal digits of a code unit read back as it |
| ShopifyApi.EscapeNonAscii | connectors/shopify_api.py:291 | a non-ASCII SKU letter is written as its `\uXXXX` code: "KÇ" gives `K\u00c7` |
| ShopifyApi.EscapeNewline | connectors/shopify_api.py:291 | a newline is written as backslash and `n` |
| ShopifyApi.SkuTerms | connectors/shopify_api.py:292 | one `sku:` term per SKU of the chunk |
| ShopifyApi.VariantEntries | connectors/shopify_api.py:322-328 | at most one entry per variant |
| ShopifyApi.VariantEntriesSpec | connectors/shopify_api.py:322-328 | an entry exists exactly for each variant with a truthy SKU and id, mapping the SKU to its variant and product ids |
| ShopifyApi.HitEntriesSpec | connectors/shopify_api.py:317-328 | every entry comes from a product with an id, and every variant of such a product with a SKU and id is entered |
| ShopifyApi.VariantIdsBySkus | connectors/shopify_api.py:276-342 | nothing is queried and `{}` returned when no SKU is left; otherwise chunks of two are queried in order, a map is returned only when every chunk was answered and holds every reply's entries with the later winning, and the lookup raises exactly when some chunk's query raised, ending at that chunk |
| ShopifyApi.LookupChunks | connectors/shopify_api.py:290-339 | the chunk loop meets that outcome: every chunk answered for a map, some chunk raised exactly when the lookup raises |
| ShopifyApi.AnsweredChunks | connectors/shopify_api.py:289-339 | the chunks are read in order up to the first that raised; all before it were answered, and the entries are those of the answered chunks |
| ShopifyApi.FailedLastBatchRaises | connectors/shopify_api.py:335-339 | a lookup whose only chunk raised does not meet the outcome of a returned map: the exception is re-raised |
| ShopifyApi.FetchedOutcome | connectors/shopify_api.py:289-342 | when every chunk was answered, the lookup returns the map of all entries, which is the promised outcome |
| ShopifyApi.RaisedOutcome | connectors/shopify_api.py:335-339 | when chunk i raised after the earlier ones were answered, re-raising it after i + 1 queries is the promised outcome |
| ShopifyApi.WriteEntries | connectors/shopify_api.py:325-328 | the writes in order build the last-wins map |
| ShopifyApi.SkuQueries | connectors/shopify_api.py:290-292 | one query per chunk |
| ShopifyApi.SkuQueriesSpec | connectors/shopify_api.py:290-292 | query i asks for chunk i |
| ShopifyApi.SkuChunksCoverInput | connectors/shopify_api.py:288-291 | the chunks cover the cleaned SKUs exactly, in order, two at most each |
| ShopifyApi.DeleteMediaRequest | connectors/shopify_api.py:401-417 | a deletion is sent exactly when there are ids, with those ids |
| ShopifyApi.ReorderMoves | connectors/shopify_api.py:429-435 | nothing for fewer than two ids; otherwise one move per id, moving id i to the position whose decimal text reads i |
| ShopifyApi.ReorderPositionsDistinct | connectors/shopify_api.py:435 | no two moves target the same position |
| ShopifyApi.SkuCacheEntriesShape | connectors/shopify_api.py:388-389 | every SKU write stores the product under a `sku:` key, and each truthy SKU is written under its trimmed text |
| ShopifyApi.ProductCacheEntriesShape | connectors/shopify_api.py:386-389 | a product's writes all store its id and gid under `title:` or `sku:` keys; the title key comes first when the title is truthy |
| ShopifyApi.PagesContinuedSpec | connectors/shopify_api.py:378-393 | the pages before n were read and each named a next page |
| ShopifyApi.ShopifyConnector.constructor | connectors/shopify_api.py:11-35 | an empty cache, no location, a full bucket of 10 tokens |
| ShopifyApi.ShopifyConnector.RateLimitWait | connectors/shopify_api.py:37-55 | the bucket fields move as the token-bucket step says and the wait is its wait |
| ShopifyApi.ShopifyConnector.ExecuteGraphql | connectors/shopify_api.py:81-125 | the loop gives the result and waits of the run with the 429 guard as written, and the bucket has taken one step per attempt |
| ShopifyApi.ShopifyConnector.GetDefaultLocationId | connectors/shopify_api.py:364-372 | a stored id is returned without a query; otherwise the first active location is stored and returned, and none raises without storing |
| ShopifyApi.ShopifyConnector.CachePage | connectors/shopify_api.py:385-391 | one page's writes are applied in order and its products counted |
| ShopifyApi.ShopifyConnector.LoadAllProductsForCache | connectors/shopify_api.py:374-399 | every page read until one names no next page is written into the cache in order, later writes winning, and its products counted; an HTTP error leaves the earlier pages' writes in place |
| PriceSync.Pow15Monotone | operations/price_sync.py:53 | `1.5 ** k` grows with k |
| PriceSync.ThrottleBackoffSpec | operations/price_sync.py:53 | the throttle backoff lies between 5 and 30 seconds, grows with the throttle count, and is the full 30 seconds exactly from the fifth throttle on |
| PriceSync.WaitFor | operations/price_sync.py:22-45 | `wait` changes only the tokens and the refill time |
| PriceSync.WaitSpec | operations/price_sync.py:22-45 | with a clock that does not run backwards the tokens stay within [0, burst]; one token is taken exactly when the refill gives one, otherwise it sleeps 1/max_rate; a pending backoff is slept out before refilling |
| PriceSync.ThrottleStep | operations/price_sync.py:47-57 | the rate never drops below 0.8 |
| PriceSync.SuccessStep | operations/price_sync.py:61-66 | a positive rate stays positive |
| PriceSync.ThrottleStepSpec | operations/price_sync.py:47-57 | a throttle counts one more, backs off 5 to 30 seconds from now, lowers the rate by 15% down to 0.8, and touches nothing else |
| PriceSync.SuccessStepSpec | operations/price_sync.py:61-66 | nothing changes at count 0; otherwise the count drops by one, and the rate rises by 5% up to 2.5 only when the count reaches 0 |
| PriceSync.RateStaysInBand | operations/price_sync.py:47-66 | throttles, successes and waits keep the rate within [0.8, 2.5] |
| PriceSync.SmartRateLimiter.constructor | operations/price_sync.py:13-20 | a full bucket, no backoff, no throttles, the given rate |
| PriceSync.SmartRateLimiter.Wait | operations/price_sync.py:22-45 | the fields move as `WaitFor` says and the sleeps are its sleeps |
| PriceSync.SmartRateLimiter.HandleThrottleError | operations/price_sync.py:47-59 | the fields move as the throttle step says |
| PriceSync.SmartRateLimiter.HandleSuccess | operations/price_sync.py:61-66 | the fields move as the success step says |
| PriceSync.PriceAttempt | operations/price_sync.py:105-141 | only an attempt before the last one can loop on |
| PriceSync.PriceAttemptSpec | operations/price_sync.py:114-141 | a throttled retry happens exactly on THROTTLED userErrors or an exception naming THROTTLED or 429 before the last attempt; success exactly on an error-free reply; at most the first three errors are reported; the last attempt always returns |
| PriceSync.PriceRunDecides | operations/price_sync.py:104-143 | the loop always returns some attempt's decision: the final "All retries failed" is never reached |
| PriceSync.ThrottleThenSuccess | operations/price_sync.py:117-131 | a throttled reply followed by a clean one succeeds, and the success takes back the throttle's count |
| PriceSync.RetryPause | operations/price_sync.py:120-137 | the fixed part of a throttled retry's pause, `1.5 ** attempt` after userErrors and `2 ** attempt` after an exception, is at least one second |
| PriceSync.PriceRunSleepsSpec | operations/price_sync.py:104-137 | every sleep the retry loop takes is a positive duration, and each attempt sleeps at most three times (backoff, token wait, retry pause) |
| PriceSync.ThrottledFirstAttemptPause | operations/price_sync.py:105-124 | with a token to spend and no backoff pending, a throttled first attempt sleeps exactly its one-second pause before the second; the pauses of attempt 1 are 1.5 s after userErrors and 2 s after an exception |
| PriceSync.PriceRunStep | operations/price_sync.py:105-131 | one attempt: a throttled retry throttles the limiter and adds the attempt's waits and pause before the later attempts; a plain retry adds the waits; a return ends the run with the attempt's decision |
| PriceSync.UpdatePricesForSingleProduct | operations/price_sync.py:68-143 | no payloads: skipped, no sleep and the limiter untouched; otherwise the loop gives the limiter, status and sleeps of the retry run |
| PriceSync.PriceRowFor | operations/price_sync.py:152-157 | the row found has the model code and is in the table; none exactly when no row has it |
| PriceSync.PriceUpdatesSpec | operations/price_sync.py:190-203 | the loop raises exactly when a variant has a null SKU; otherwise every payload belongs to a variant whose SKU starts with the base SKU and carries the row's prices, and every such variant has one |
| PriceSync.CollectPriceUpdates | operations/price_sync.py:191-203 | the loop builds exactly those payloads, or stops at a null SKU |
| PriceSync.NullSkuStops | operations/price_sync.py:194-196 | after a null SKU the later variants change nothing |
| PriceSync.NoPriceRowSkips | operations/price_sync.py:152-154 | the product is skipped for a missing price exactly when no row has its model code, before any call |
| PriceSync.ProcessOneSuccess | operations/price_sync.py:209-214 | a success comes from the retry loop on the first product found and passes `handle_success` once more |
| PriceSync.SuccessCountsTwice | operations/price_sync.py:211-212 | the two `handle_success` calls of a success take two off the throttle count, down to 0 |
| PriceSync.ProcessOneSleepsSpec | operations/price_sync.py:152-206 | a product without a price row sleeps not at all; every sleep is positive; the lookup `wait` and the retry loop sleep at most seventeen times in all |
| PriceSync.ProcessOneProductForPriceSync | operations/price_sync.py:145-218 | the limiter, status and sleeps are those the functions of the inputs give: skipped without a price row or matching variant, failed when the query raises, finds nothing or meets a null SKU, and otherwise the retry loop's result and sleeps after the lookup's `wait` |
| SentosApi.ApiUrlSpec | connectors/sentos_api.py:14 | the stored API URL is the trimmed input with only its trailing slashes removed, and it never ends in '/' |
| SentosApi.StripRightSlashes | connectors/sentos_api.py:14 | `rstrip('/')` removes only slashes |
| SentosApi.SchemeEnd | connectors/sentos_api.py:24-25 | a found scheme end is the position of a "://" in the URL |
| SentosApi.HostPart | connectors/sentos_api.py:24-25 | the network location is a prefix of what follows the scheme and holds no '/', '?' or '#' |
| SentosApi.RequestUrlSpec | connectors/sentos_api.py:23-28 | internal calls go to the scheme and host of the API URL and end with the endpoint; other calls are the API URL, one '/', and the endpoint without its leading slashes |
| SentosApi.InternalUrl | connectors/sentos_api.py:23-25 | an internal URL starts with the API URL's scheme and "://" and ends with the endpoint |
| SentosApi.ExternalUrl | connectors/sentos_api.py:26-28 | an external URL is the API URL, one '/', and the endpoint without its leading slashes |
| SentosApi.AuthForSpec | connectors/sentos_api.py:30-39 | cookie auth without a cookie raises the ValueError; cookie auth sends the cookie with the form content type and no basic auth; otherwise basic auth with JSON headers |
| SentosApi.RequestStep | connectors/sentos_api.py:41-60 | an attempt is retried only on HTTP 500 or 429 before the last attempt, after waiting 15·2^attempt seconds |
| SentosApi.RequestRun | connectors/sentos_api.py:41-60 | the retry loop sleeps fewer times than there are attempts |
| SentosApi.RequestRunSpec | connectors/sentos_api.py:41-60 | the waits are 15·2^i in order, each retried attempt got a 500 or a 429, and the call ends with what the first attempt that is not retried decides |
| SentosApi.ConnectionFailureRaises | connectors/sentos_api.py:57-60 | a connection failure raises the connection error at once, with no wait |
| SentosApi.ServerErrorsExhaustRetries | connectors/sentos_api.py:19-20 | five HTTP 500 replies give waits of 15, 30, 60 and 120 seconds and then the raised API error |
| SentosApi.RequestRunRetry | connectors/sentos_api.py:48-52 | a retried attempt is never the last, and its wait comes before the rest of the run |
| SentosApi.RequestRunStop | connectors/sentos_api.py:40-60 | an attempt that does not retry ends the run with what it returns or raises, without a wait |
| SentosApi.RetryLoop | connectors/sentos_api.py:41-60 | the loop returns or raises exactly what the retry run specifies, with the same waits |
| SentosApi.MakeRequest | connectors/sentos_api.py:22-60 | a failed auth check raises before any request; otherwise the result is the retry run on the request URL |
| SentosApi.PagesContinueSpec | connectors/sentos_api.py:73-86 | when the loop went on past n pages, it went on after every one of them |
| SentosApi.Reports | connectors/sentos_api.py:79-83 | one progress report per page read |
| SentosApi.CollectedGrows | connectors/sentos_api.py:74 | products are only appended: fewer pages collect a prefix of the products of more pages |
| SentosApi.EmptyFirstPage | connectors/sentos_api.py:73-85 | an empty first page is not skipped by the empty-page test but ends the loop as a short page, with no products |
| SentosApi.GetAllProducts | connectors/sentos_api.py:62-94 | the result holds the products of the pages read in order, dropping a final empty page after the first, with the progress reports; a failed page raises the wrapped error |
| SentosApi.QuoteFrom | connectors/sentos_api.py:123 | `[^"]+` stops at the first quote or the end of the cell |
| SentosApi.MatchAtSpec | connectors/sentos_api.py:123 | a match is an http(s) URL holding "/o_" and no quote, standing in the cell as `href="<url>"` |
| SentosApi.MatchHasMarker | connectors/sentos_api.py:123 | the matched group holds "/o_" |
| SentosApi.MatchHasNoQuote | connectors/sentos_api.py:123 | the matched group holds no quote |
| SentosApi.ContainsAt | connectors/sentos_api.py:123 | a substring found at an index is contained in the string |
| SentosApi.FirstImageUrlSpec | connectors/sentos_api.py:123 | `re.search` finds the leftmost match, and none exactly when no index matches |
| SentosApi.FirstImageUrlStep | connectors/sentos_api.py:123 | the search answers with the match at the current index, or else goes on from the next index |
| SentosApi.NoMatchFrom | connectors/sentos_api.py:123-124 | no URL is found exactly when no position of the cell starts a match |
| SentosApi.LeftmostMatch | connectors/sentos_api.py:123-125 | the URL found is the match at some position before which nothing matches |
| SentosApi.ImageUrls | connectors/sentos_api.py:118-125 | at most one URL per row |
| SentosApi.ImageUrlsStep | connectors/sentos_api.py:119-125 | a row with at most two cells or no match adds nothing; a row with a match appends exactly its URL |
| SentosApi.CollectImageUrls | connectors/sentos_api.py:118-125 | the loop gives the first match of cell 2 of each row, in row order |
| SentosApi.GetOrderedImageUrls | connectors/sentos_api.py:96-135 | None without a cookie or for a body that is not JSON, the empty list for a failed request, otherwise the row URLs |
| SentosApi.GetProductBySku | connectors/sentos_api.py:137-153 | an empty SKU raises the ValueError; otherwise the first product found for the trimmed SKU, None when none is found, or the request's error |
| OrderBuilder.NamePartsSpec | operations/shopify_order_builder.py:24-26 | `strip().split(' ', 1)`: the first part has no space; a name without a space is all first name, otherwise the trimmed name is first part, one space, and the rest |
| OrderBuilder.NoNameKey | operations/shopify_order_builder.py:29-47 | the address never carries a 'name' or 'countryCodeV2' key |
| OrderBuilder.AddressFromSpec | operations/shopify_order_builder.py:29-47 | each copied key is present exactly when its input value is truthy, and then equals it; first and last name likewise; nothing falsy is kept |
| OrderBuilder.AddressKeySpec | operations/shopify_order_builder.py:29-47 | one key of the address holds the input's value, or the name picked, exactly when that value is truthy |
| OrderBuilder.MailingAddressSpec | operations/shopify_order_builder.py:13-49 | falsy input gives None; truthy input gives None exactly when no name part and no copied key is truthy; otherwise some key is present |
| OrderBuilder.NameSplitSpec | operations/shopify_order_builder.py:18-26 | a truthy 'name' without a firstName is split at its first space, and the split decides lastName whatever lastName was given |
| OrderBuilder.TransactionSpec | operations/shopify_order_builder.py:51-74 | falsy input gives None; otherwise gateway, kind and status default to manual, SALE and SUCCESS, and amountSet is there exactly when the amount is absent or truthy, in the given currency (default TRY) |
| OrderBuilder.AmountIsText | operations/shopify_order_builder.py:69 | a numeric amount is sent as its text, a string amount as it is |
| OrderBuilder.LineItemSpec | operations/shopify_order_builder.py:76-111 | an unreadable truthy quantity drops the item; a quantity only when positive; priceSet only for a positive readable price, in the item's currency (default TRY); variantId only when truthy; an empty item is None |
| OrderBuilder.InvalidQuantityDropsItem | operations/shopify_order_builder.py:87-94 | a quantity text holding a letter drops the whole line item |
| OrderBuilder.SomesSpec | operations/shopify_order_builder.py:124-128 | every value kept is some entry's value, the result is empty exactly when all entries are None, and when none is None all are kept in order |
| OrderBuilder.SomesAppend | operations/shopify_order_builder.py:124-128 | keeping the values of two lists joined is keeping those of the first, then those of the second, so entry order is kept |
| OrderBuilder.SomesSingle | operations/shopify_order_builder.py:126-128 | a None entry keeps nothing, a Some entry keeps exactly its value |
| OrderBuilder.SomesFrom | operations/shopify_order_builder.py:124-128 | every kept item was built from some input item |
| OrderBuilder.SomesEmpty | operations/shopify_order_builder.py:124-129 | nothing is kept exactly when no input item builds |
| OrderBuilder.SomesAll | operations/shopify_order_builder.py:124-128 | when every input item builds, all of them are kept in order |
| OrderBuilder.SomesStep | operations/shopify_order_builder.py:125-128 | one more input item appends its built value, if any |
| OrderBuilder.LineItemResults | operations/shopify_order_builder.py:125-126 | each input line item is built on its own |
| OrderBuilder.TransactionResults | operations/shopify_order_builder.py:150-151 | each input transaction is built on its own |
| OrderBuilder.BuiltLineItemsSpec | operations/shopify_order_builder.py:122-130 | every built line item is some input item's, the list is empty exactly when none builds, and when all build they are all there in input order |
| OrderBuilder.BuiltListsAppend | operations/shopify_order_builder.py:122-155 | building two runs of entries joined gives the first run's built line items (and transactions) followed by the second's, so input order is kept and only entries that build to None are dropped |
| OrderBuilder.BuiltTransactionsSpec | operations/shopify_order_builder.py:147-155 | every built transaction is some input entry's, the list is empty exactly when no entry is truthy, and when all are truthy all are there in input order |
| OrderBuilder.OrderInputSpec | operations/shopify_order_builder.py:113-162 | customerId, note and email are there exactly when truthy, with the given value; each address is what `build_mailing_address` makes of the given one; lineItems and transactions are there exactly when at least one builds, and then hold exactly the built entries of the order's list, non-empty |
| OrderBuilder.NoTransactionsKey | operations/shopify_order_builder.py:146-156 | order data without transactions builds an order without them, leaving the total to Shopify |
| OrderBuilder.CollectLineItems | operations/shopify_order_builder.py:121-130 | the loop builds the lineItems key as specified |
| OrderBuilder.CollectTransactions | operations/shopify_order_builder.py:146-155 | the loop builds the transactions key as specified |
| OrderBuilder.BuildOrderInput | operations/shopify_order_builder.py:113-162 | the method builds the order input as specified |
| OrderTransfer.FindOrCreateCustomerSpec | operations/shopify_to_shopify.py:6-20 | a missing customer or e-mail raises exactly the no-e-mail error; a customer found by e-mail is used and none is created; otherwise a new one is created and its id used |
| OrderTransfer.FinalPriceSpec | operations/shopify_to_shopify.py:41 | the discounted price wins when positive, otherwise the original; the final price is positive exactly when one of them is |
| OrderTransfer.MapItemSpec | operations/shopify_to_shopify.py:27-58 | an item gives a line exactly when it is matched; no SKU logs a warning; an unknown SKU logs an error; a match carries the found variant, the item's quantity, and a price and currency only when the final price is positive |
| OrderTransfer.GatherSpec | operations/shopify_to_shopify.py:24-60 | without a raise, one log per item in item order, every gathered line is some item's line, and none exactly when no item gave a line; a raise is that of an item all of whose predecessors mapped |
| OrderTransfer.GatherConcat | operations/shopify_to_shopify.py:24-60 | gathering two runs of results joined: a failure of the first run is the whole's; otherwise the whole is the second run's outcome with the first run's lines and logs in front, so order is kept |
| OrderTransfer.GatherSingle | operations/shopify_to_shopify.py:27-58 | a single result gives its failure, or its line if any and its one log |
| OrderTransfer.GatherLogs | operations/shopify_to_shopify.py:24-60 | without a raise there is one log per item, the log of that item, in item order |
| OrderTransfer.GatherKept | operations/shopify_to_shopify.py:24-60 | every gathered line is some item's line, and there are none exactly when no item gave one |
| OrderTransfer.GatherFailure | operations/shopify_to_shopify.py:24-60 | a raise is the raise of some item, every item before it having been mapped |
| OrderTransfer.GatherStep | operations/shopify_to_shopify.py:27-58 | one more item appends its line and its log, or stops at its raise |
| OrderTransfer.GatherAppend | operations/shopify_to_shopify.py:27-58 | an item that maps after items that all mapped adds its line, if any, and its log at the end |
| OrderTransfer.GatherFailsStays | operations/shopify_to_shopify.py:33 | once an item raised, later items change nothing |
| OrderTransfer.MapResults | operations/shopify_to_shopify.py:27 | each item is mapped on its own |
| OrderTransfer.MappedItemsSpec | operations/shopify_to_shopify.py:22-60 | `map_line_items` logs once per item in item order, every line comes from a matched item, and no line is given exactly when no item matched |
| OrderTransfer.MappedItemsConcat | operations/shopify_to_shopify.py:22-60 | mapping two runs of items joined gives the first run's lines and logs followed by the second's, or the first raise, so matched lines keep item order |
| OrderTransfer.MapLineItems | operations/shopify_to_shopify.py:22-60 | the loop gives exactly the mapped lines and logs, or the first raise |
| OrderTransfer.ChooseTotalSpec | operations/shopify_to_shopify.py:90-113 | the current total when positive, else the calculated total (subtotal - discounts + shipping + tax) when positive, else the original total; the first two are positive |
| OrderTransfer.Wrap | operations/shopify_to_shopify.py:75 | the mapping logs are added in order |
| OrderTransfer.Submit | operations/shopify_to_shopify.py:133-144 | the creation succeeds exactly when the order is created, keeping the earlier logs and ending with the new order's name or the critical error |
| OrderTransfer.AfterMapping | operations/shopify_to_shopify.py:77-144 | with no line to create it fails with the nothing-matched error; the earlier logs are kept and the result is concluded |
| OrderTransfer.LineNodes | operations/shopify_to_shopify.py:74 | the nodes are iterable exactly when `lineItems` is a dict and its nodes are a list, an empty string or an empty dict; a list gives its items and the empty ones give none |
| OrderTransfer.FalsyNodesNothingMatched | operations/shopify_to_shopify.py:74-78 | nodes that are an empty string or dict are iterated as no items, and the transfer fails with the nothing-matched error |
| OrderTransfer.WithCustomer | operations/shopify_to_shopify.py:71-78 | the log starts with the chosen customer, and a transfer where no item matched fails with the nothing-matched error |
| OrderTransfer.Transfer | operations/shopify_to_shopify.py:62-144 | a success starts with the customer found or created; a missing e-mail fails with that error as its only log entry; every result is concluded |
| OrderTransfer.CreationHasNoTransactions | operations/shopify_to_shopify.py:124-134 | the order sent for creation carries no transactions |
| OrderTransfer.MappedPriceReachesOrder | operations/shopify_to_shopify.py:43-53 | a mapped line with a positive price becomes a line item priced at that price in its currency, with its variant |
| OrderTransfer.FinishTransfer | operations/shopify_to_shopify.py:77-139 | the method ends the transfer as specified |
| OrderTransfer.SubmitOrder | operations/shopify_to_shopify.py:133-139 | the method creates the order as specified |
| OrderTransfer.TransferLines | operations/shopify_to_shopify.py:73-139 | the method maps the lines and ends the transfer as specified |
| OrderTransfer.TransferOrder | operations/shopify_to_shopify.py:62-144 | the method transfers the order as specified |
| Export.StringSkus | pages/5_export.py:93 | only non-empty strings are kept as SKUs |
| Export.StringSkusSpec | pages/5_export.py:93 | a text is a kept SKU exactly when it is non-empty and among the given SKUs |
| Export.Lcp | pages/5_export.py:99 | the common prefix of two texts is a prefix of both and cannot be extended |
| Export.CommonPrefixSpec | pages/5_export.py:99 | `os.path.commonprefix` is a prefix of every SKU, and is either one of them or is followed by two different characters in two of them |
| Export.BaseCodeOfNothing | pages/5_export.py:93-94 | with no non-empty string SKU the base code is empty |
| Export.CodeOfOne | pages/5_export.py:95-98 | a single SKU is cut before its last hyphen when that hyphen is not the first character, and is kept whole otherwise |
| Export.CodeStartsPrefix | pages/5_export.py:99-103 | for several SKUs whose common prefix does not start with '-', the base code is a prefix of that common prefix |
| Export.CodeIsSharedPrefix | pages/5_export.py:99-103 | when some SKU does not start with '-', the base code is a prefix of every SKU |
| Export.CodeExample | pages/5_export.py:99-103 | the SKUs A-1-S and A-1-M give the model code A-1 |
| Export.FirstNamed | pages/5_export.py:144-165 | `next(...)` finds the first option with the name, compared in lower case, or none |
| Export.HasColorOptionSpec | pages/5_export.py:138 | a product has a colour option when some variant before any null node has an option named 'renk'; it has none when all nodes are there and none does; a null node reached first fails |
| Export.VariantSkus | pages/5_export.py:131 | at most one SKU per variant |
| Export.AddVariant | pages/5_export.py:146-147 | adding a variant keeps the group keys in first-seen order |
| Export.GroupedBy | pages/5_export.py:137-147 | the groups stay well-formed |
| Export.GroupedBySpec | pages/5_export.py:137-147 | each group holds exactly the kept variants with its key, in order, and is never empty; a key with no variant has no group |
| Export.KeptInGroup | pages/5_export.py:141-147 | every kept variant lands in the group of its key |
| Export.GroupEntries | pages/5_export.py:139-145 | a variant with a node and options is kept under its colour (or N/A), others are skipped |
| Export.Grouped | pages/5_export.py:137-147 | the grouping of a product's variants is well-formed |
| Export.GroupVariants | pages/5_export.py:137-147 | the loop groups the variants as specified |
| Export.SizeEntries | pages/5_export.py:164-166 | each variant gives its size (N/A if none) and its stock (0 if none) |
| Export.TableOfSpec | pages/5_export.py:167 | the size table has a key for each size seen, holding the stock of the last variant with that size |
| Export.TableOfKeys | pages/5_export.py:167 | the size table's keys are exactly the sizes of the variants stored |
| Export.TableOfLastEntry | pages/5_export.py:167 | a size's stock is that of the last variant stored with that size; no later variant has it |
| Export.SumOfAppend | pages/5_export.py:168 | the total stock of a concatenation is the sum of the totals |
| Export.SameSizeKeptOnceCountedTwice | pages/5_export.py:167-168 | two variants with one size keep the second stock in the size column but count both in the total |
| Export.FillSizes | pages/5_export.py:163-171 | the loop gives the size table, the total stock, and adds the sizes to the set of all sizes |
| Export.PutRow | pages/5_export.py:172 | storing a row sets that key, keeps the table well-formed and only adds sizes |
| Export.AddGroups | pages/5_export.py:153-172 | adding a product's groups keeps the table well-formed, only adds sizes and keeps the base codes |
| Export.ProductStep | pages/5_export.py:127-172 | processing a product keeps the table well-formed and only adds sizes and base codes |
| Export.Processed | pages/5_export.py:127-172 | processing the products gives a well-formed table, or the failure |
| Export.ProcessedFailsStays | pages/5_export.py:127-172 | once a product fails, the whole processing fails |
| Export.ProcessProduct | pages/5_export.py:127-172 | the loop body processes one product as specified |
| Export.AddGroupRows | pages/5_export.py:153-172 | the loop adds one row per group as specified |
| Export.AddGroupRowAt | pages/5_export.py:153-172 | one round of the group loop builds the row of group i and stores it, giving the table of the first i + 1 groups |
| Export.BuildRow | pages/5_export.py:154-171 | the row is built as specified, and its sizes are added to the seen sizes |
| Export.StoreRow | pages/5_export.py:172 | the row is stored as specified |
| Export.ProcessProducts | pages/5_export.py:127-172 | the product loop gives the specified table or the failure |
| Export.UpdatedAll | pages/5_export.py:182-187 | every row is updated and no key is added or removed |
| Export.UpdatedAt | pages/5_export.py:182-187 | updating the listed rows adds and removes no key |
| Export.UpdatedAtSpec | pages/5_export.py:182-187 | updating listed distinct keys changes exactly those rows |
| Export.UpdatedAtAll | pages/5_export.py:182-187 | updating every key in turn equals updating all rows |
| Export.MergedRows | pages/5_export.py:180-187 | each row is merged with the Sentos data of its model code, and no row is added or removed |
| Export.Merged | pages/5_export.py:180-187 | merging keeps the rows, the sizes and the stock figures |
| Export.MergeRows | pages/5_export.py:182-187 | the loop merges every row as specified |
| Export.UncodedRowUnmerged | pages/5_export.py:57-58 | the answers never hold the empty base code, which the lookup skips, so a row without a model code keeps its price and code |
| Export.MergeSentos | pages/5_export.py:180-187 | the merge step gives the specified table |
| Export.SizeOrderIsStrictTotal | pages/5_export.py:32-39 | the apparel sort key orders sizes strictly and totally |
| Export.InsertBySpec | pages/5_export.py:190 | inserting a new size keeps the list sorted and adds exactly that size |
| Export.InsertByMembers | pages/5_export.py:190 | inserting adds exactly the new size and nothing else |
| Export.InsertBySorted | pages/5_export.py:190 | inserting a new size into a sorted list keeps it sorted |
| Export.SortSizes | pages/5_export.py:190 | the header is sorted by the apparel sort key and holds exactly the sizes seen |
| Export.SortedUnique | pages/5_export.py:190 | two lists sorted by a strict total order with the same members are equal |
| Export.SortedSizesUnique | pages/5_export.py:190 | the sorted size header is determined by the set of sizes |
| Export.SizeColumnsOf | pages/5_export.py:197 | one column per header size, 0 when the row lacks that size |
| Export.FinalRowKeepsStock | pages/5_export.py:192-200 | the final row keeps the total stock, shows each size's stock in its column, and 0 in the others |
| Export.SizeColumns | pages/5_export.py:197 | the loop fills the size columns as specified |
| Export.BuildFinalRows | pages/5_export.py:191-200 | one final row per stored row, in insertion order |
| Export.ProcessData | pages/5_export.py:127-204 | a failed product fails the export; no rows gives None; otherwise the header is the sorted set of all sizes and each row is its merged row laid out under it |
| LogManager.LoadLogs | log_manager.py:7-18 | the parsed file, or the empty list for a missing, unreadable or corrupt file |
| LogManager.NewEntry | log_manager.py:26-30 | an entry has exactly the timestamp, the run's stats (default empty) and its details (default empty) |
| LogManager.Saved | log_manager.py:33-37 | the new entry comes first, then the earlier entries in order, at most fifty in all |
| LogManager.SavedAllSpec | log_manager.py:33-37 | after several saves the history is the newest runs first followed by the earlier history, cut at fifty |
| LogManager.HistoryFile.constructor | log_manager.py:7-18 | the history file starts with the given contents |
| LogManager.HistoryFile.Load | log_manager.py:7-18 | loading gives the stored list, or the empty list when there is no readable file |
| LogManager.HistoryFile.SaveLog | log_manager.py:20-43 | a stored value that is not a list raises and changes nothing; otherwise the file holds the new history unless the write fails, in which case it is unchanged |

## Left out

- HTTP, JSON (de)serialisation and the Sentos/Shopify servers are not modelled. Their answers are inputs: one reply per attempt, page or batch.
- Time, sleeping and randomness are not modelled:
  - clocks are parameters;
  - backoff and pacing sleeps are returned as wait durations, as the introduction lists them;
  - the fixed pauses are not returned: 0.5 s between pages (connectors/sentos_api.py:87, connectors/shopify_api.py:176 and 547) and between batches (operations/stock_sync.py:144 and 236), 3 s and 5 s in the SKU lookup (connectors/shopify_api.py:333 and 338), and 1 s at connectors/shopify_api.py:396 and operations/stock_sync.py:22;
  - ShopifyApi.ShopifyConnector.ExecuteGraphql returns the retry backoffs but not the token-bucket wait of each attempt; `RateLimitWait` returns that wait on its own;
  - the `random.uniform` jitter of the price sync is left out; only the fixed part of those pauses (`1.5 ** attempt`, `2 ** attempt`) is returned.
- Concurrency is not modelled: `ThreadPoolExecutor`, the shared lock, the stop event, and the lock held inside the rate limiter's `wait`. Tasks are processed one after another.
- Floating-point formatting (`str(float)`, `:.2f`) is an abstract function, and IEEE rounding is not reproduced. Float infinities and NaN are not parsed.
- Log and progress message texts are kept only where a result depends on them. Structured log entries stand for the formatted strings.
- The six amount lines of `transfer_order` are one log entry.
- `urljoin` and `urlparse` are modelled only for the shapes the connectors build. `urlparse` is approximated as scheme, "://", and the host up to '/', '?' or '#'.
- Link-header parsing (`parse_header_links`) is not modelled. The next-page URL is an input.
- Regular expressions are explicit string predicates over ASCII. Upper-casing is ASCII-only, so Unicode case mapping is not modelled.
- The `repr` of Shopify userErrors is an abstract text.
- `media_sync`, `config_manager`, `data_manager`, `operations/core_sync.py` and `_fix_inventory_tracking` are not part of this model: they are remote mutation sequences or code outside this model.
- `SentosAPI.get_warehouses` is not part of this model: the except branch always answers it with [].
- The Streamlit pages and app shell are not part of this model. This includes the page code of `pages/5_export.py`, `upload_to_gsheets`, and the collection fetching and filtering of `process_data` (lines 113-121).
- The endpoint text `/products?page=N&size=S` of `get_all_products` is not modelled. Page N is the (N-1)-th entry of the pages given to `SentosApi.GetAllProducts`.
- `get_sentos_data_by_base_code` is not modelled. Its answer, a map from model code to Sentos data, is an input of the export.
- Export.SortSizes: `sorted()` is modelled as an insertion sort by the same key. Its result is the same because a sorted list of distinct sizes is unique (`Export.SortedSizesUnique`).
- Export.FillSizes: in the source, a size named like a fixed column ("TÜR", "RENK", …) would overwrite that column in the final row dict. The model keeps size columns separate from the fixed columns.
- Export.HasColorOption: a variant node that is present but empty counts as present here. In Python an empty dict node is falsy and would be skipped.
- OrderTransfer.Transfer: exceptions raised by the customer search, the customer creation and the variant searches are not modelled. Those answers are inputs, and only `create_order` may fail.
- PriceSync.SmartRateLimiter.constructor requires a positive `max_requests_per_second`. `wait` divides by the rate (`1.0 / max_rate`), and the limiter never takes it below 0.8 afterwards.
- StockSync.StockSum: stocks are summed as exact reals, so IEEE rounding of the float sum is not reproduced. A truthy 'stock' that is a string (a `TypeError` in the source's `sum`) is not modelled; stocks are numbers or bools.
- Json.ParseInt: `int()` also accepts underscores between digits ("1_000") and non-ASCII decimal digits (Arabic-Indic, full-width and the like). Here such text is refused, so an item whose quantity is written that way is dropped where the source keeps it.
- Json.ParseDecimal: `float()` also accepts "inf", "infinity" and "nan" in any case, underscores between digits and non-ASCII digits. Here those texts are a ValueError (None). The value is the exact decimal, not the nearest IEEE double.
- ShopifyApi.SanitizeSkus: SKUs are strings here. The source's `str(sku)` also turns a truthy non-string SKU, such as an integer, into its text and keeps it; that case is not modelled.
- Utils.VariantSize: a `model` dict whose 'value' is null or not a string makes the source's `.strip()` raise AttributeError. `Utils.ModelField` has no such case: a dict's 'value' is absent or a string.
- SentosApi.FetchProgress: the percentage is the exact integer quotient `fetched * 100 / total`. The source computes the float `int(fetched / total * 100)`, which can land one lower: 29 of 100 gives 28 there, because of IEEE rounding.
- SyncRunner.Progress: the same exact-quotient simplification of the float `55 + int((processed / total) * 45)`. Its lemmas hold for the exact quotient; a float result one lower is not reproduced.
- SyncRunner.DetailFor: a source product without an 'sku' key is logged with "" here, because the model reads a missing SKU as "". The source logs the default 'SKU Yok'.
- Export.ProcessData and Export.MergeSentos require that the answer map has no empty key. `get_sentos_data_by_base_code` skips the empty code, so its answer never has one.
- LogManager.HistoryFile.SaveLog: a failed write leaves the file as it was. Partial writes and the JSON indentation of the file are not modelled.

## Findings

| source | as written | input that shows it | evidently intended | confidence | as-written member | corrected member |
|---|---|---|---|---|---|---|
| connectors/shopify_api.py:112-117 | the 429 retry is guarded by `e.response and e.response.status_code == 429`; a `requests` response is falsy for any status of 400 or more, so the guard is never true for the HTTPError that `raise_for_status` raises | an HTTP 429 reply on the first of eight attempts: it is raised at once instead of being retried after 2 seconds | retry HTTP 429 with the same exponential backoff as THROTTLED, except on the last attempt | high, not executed | ShopifyApi.AsWrittenRunRaises429 | ShopifyApi.GraphqlStepSpec |
