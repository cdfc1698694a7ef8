# Invoice guard — a verified model of its risk scoring

Invoice guard screens supplier invoices for fraud and double payment. It has
two halves that each score an invoice on their own:

- an Express server (`riskEngine.js`, `db.js`, `routes/invoices.js`,
  `routes/payments.js`) keeps an in-memory ledger of submitted invoices and
  payments, scores each new invoice with a rule engine (hard and soft
  duplicates, unknown bank account, amount out of the vendor's range) and
  refuses to pay an invoice twice;
- a Python pipeline (`invoice_guard/`) reads OCR text, extracts the vendor,
  invoice number, date, total and currency, scores the invoice against the
  stored history (exact and near duplicates, amount outliers against the
  vendor's median), ranks nearest neighbours by embedding similarity, maps
  the top similarity to a duplicate probability, scores the amount against the
  vendor's running statistics, and picks a product description from the
  line items.

The model has one module per source file:

| module | file |
|---|---|
| `RiskEngine` | `riskEngine.js` |
| `Db` | `db.js` |
| `PaymentsRoute` | `routes/payments.js` |
| `InvoicesRoute` | `routes/invoices.js` |
| `PyRisk` | `invoice_guard/risk.py` |
| `ExtractFields` | `invoice_guard/extract_fields.py` |
| `ProductExtraction` | `invoice_guard/product_extraction.py` |
| `Anomaly` | `invoice_guard/ml/anomaly.py` |
| `GuardMain` | `invoice_guard/main.py` (with the parts of `invoice_guard/store.py` it calls) |

The modules `Wrappers`, `Text`, `Seqs` and `Records` hold what they share:
`Option`, ASCII trimming and case mapping, first-match search, filtering and
sorting, and the ledger's record types.

Where the code does something its surroundings do not expect, the model does
what the code does:

- `scoreInvoice` returns `score`, but the submit handler reads `rule_score`.
  The stored rule score is therefore undefined and the final score is `NaN`
  (`InvoicesRoute.SubmittedRecordFields`).
- The engine reads `bank_account`, but the submit handler builds an invoice
  with `iban`. The bank-account check therefore never fires from the route
  (`InvoicesRoute.RouteNeverFlagsUnusualBankAccount`).
- The `payments` argument of `scoreInvoice` is never read, so the model does
  not take it.
- `routes/payments.js` imports `getOrCreateVendor` and
  `updateVendorBaselineFromPaidInvoice` from `db.js`, which exports only `db`
  and `findVendorByName`. The module therefore fails to load, and `server.js`
  does not mount it. No payments handler runs as written. The `PaymentsRoute`
  module describes the handler bodies as they would behave if the module
  loaded.
- Even then, `db.js` declares no `payments` array. In `Db.Store` it is
  `None`, and `PaymentsRoute.MarkPaid` then answers 500 wherever a ledger
  lookup would follow.
- The fingerprint joins its four fields with `|`, and a vendor name may
  contain `|`. Then two invoices with different amounts can share a
  fingerprint and be taken for hard duplicates
  (`RiskEngine.FingerprintBarCollision`). Without `|` in the vendor keys,
  equal fingerprints mean equal keys, amounts and dates
  (`RiskEngine.FingerprintDeterminesFields`).
- `db.js` defines neither `getOrCreateVendor` nor
  `updateVendorBaselineFromPaidInvoice`. Each call to them is logged in
  `Db.Store.vendorCalls` with its arguments, and nothing more is assumed.

## Model

| member | source | states |
|---|---|---|
| `RiskEngine.NormalizeVendorName` | riskEngine.js:3-5 | The vendor key has no upper-case letter and no whitespace at either end. |
| `RiskEngine.NormalizeVendorNameIdempotent` | riskEngine.js:3-5 | Normalizing a vendor key again leaves it unchanged. |
| `RiskEngine.NormalizeVendorNameIgnoresCaseAndPadding` | riskEngine.js:3-5 | Names that differ only in letter case and surrounding whitespace get the same key. |
| `RiskEngine.NormalizeInvoiceNumber` | riskEngine.js:7-9 | Every character of the invoice-number key is a lower-case ASCII letter or a digit. |
| `RiskEngine.FilterLowerStripStart` | riskEngine.js:8 | Whitespace that trimming removes from the start never survives the `[a-z0-9]` filter anyway. |
| `RiskEngine.FilterLowerStripEnd` | riskEngine.js:8 | The same holds for whitespace at the end. |
| `RiskEngine.NormalizeInvoiceNumberIsFilter` | riskEngine.js:7-9 | The invoice-number key is exactly the lower-cased text with every character outside `[a-z0-9]` removed. |
| `RiskEngine.NormalizeInvoiceNumberIdempotent` | riskEngine.js:7-9 | Normalizing an invoice-number key again leaves it unchanged. |
| `RiskEngine.NormalizeInvoiceNumberIgnoresCaseAndPadding` | riskEngine.js:7-9 | Invoice numbers that differ only in case and surrounding whitespace get the same key. |
| `RiskEngine.NormalizeDate` | riskEngine.js:11-16 | An empty date gives "". An unparseable date gives its first min(10, length) characters. A parseable date gives the first min(10, length) characters of its ISO text. The result never exceeds 10 characters. |
| `RiskEngine.NormalizeDateSameKey` | riskEngine.js:11-16 | Two non-empty dates share a key when both parse to the same instant, or when neither parses and their first ten characters agree. |
| `RiskEngine.DaysBetween` | riskEngine.js:18-24 | Infinity exactly when either date fails to parse. Otherwise the whole number of days d satisfies d days ≤ \|a − b\| < d + 1 days. |
| `RiskEngine.Min3` | riskEngine.js:40-44 | The result is one of the three values and is no larger than any of them. |
| `RiskEngine.FillRow` | riskEngine.js:37-46 | Filling row i keeps every filled row equal to the recursive edit distance of the matching prefixes. |
| `RiskEngine.EditDistance` | riskEngine.js:26-48 | The table's last cell is the Levenshtein distance `Distance(a, b)`. |
| `RiskEngine.DistSelf` | riskEngine.js:26-48 | Any prefix is at distance 0 from itself. |
| `RiskEngine.DistAtMostSwapped` | riskEngine.js:26-48 | The distance of (s, t) is at most that of (t, s). |
| `RiskEngine.DistSymmetric` | riskEngine.js:26-48 | The distance is symmetric. |
| `RiskEngine.DistUpper` | riskEngine.js:26-48 | The distance is at most the longer length. |
| `RiskEngine.DistLower` | riskEngine.js:26-48 | The distance is at least the difference of the lengths. |
| `RiskEngine.DistZeroOnEqual` | riskEngine.js:26-48 | Equal prefixes are at distance 0. |
| `RiskEngine.DistZeroOnlyEqual` | riskEngine.js:26-48 | Distance 0 implies equal prefixes. |
| `RiskEngine.DistZero` | riskEngine.js:26-48 | Distance 0 exactly when the prefixes are equal. |
| `RiskEngine.DistanceProperties` | riskEngine.js:26-48 | Symmetric; between the length difference and the longer length; 0 iff the strings are equal; \|t\| when s is empty and \|s\| when t is empty. |
| `RiskEngine.Similarity` | riskEngine.js:50-56 | The ratio lies in [0, 1] and is 1 exactly when the strings are equal, including two empty strings. |
| `RiskEngine.Fraction` | riskEngine.js:55 | A distance divided by the longer length lies in [0, 1] and is 0 only for distance 0. |
| `RiskEngine.SimilaritySymmetric` | riskEngine.js:50-56 | Similarity does not depend on argument order. |
| `RiskEngine.ComputeSimilarity` | riskEngine.js:50-56 | Computing similarity through the table-filling edit distance gives `Similarity`. |
| `RiskEngine.ToFixed2` | riskEngine.js:62 | The amount text ends with a point and two digits, starts with `-` exactly for a negative amount, and contains no `\|`. |
| `RiskEngine.ToFixed2RoundTrip` | riskEngine.js:62 | Reading the amount text back (sign, whole part, two decimals) gives the cents it was made from. |
| `RiskEngine.ToFixed2Injective` | riskEngine.js:62 | Two amounts have the same amount text exactly when they are equal. |
| `RiskEngine.Fingerprint` | riskEngine.js:58-65 | The vendor key, invoice-number key, `toFixed(2)` amount and date key joined by `\|`. The fingerprint opens with the vendor key and a `\|`, and closes with a `\|` and the date key. Its partners are `FingerprintDeterminesFields` (what equal fingerprints imply), `FingerprintIgnoresCaseAndPadding` and `FingerprintBarCollision`. |
| `RiskEngine.FingerprintDeterminesFields` | riskEngine.js:58-65 | When neither vendor key contains `\|`, two fingerprints are equal exactly when the vendor keys, invoice-number keys, amounts (NaN counted as 0) and date keys are all equal. |
| `RiskEngine.FingerprintBarCollision` | riskEngine.js:58-65 | A vendor name containing `\|` lets an invoice of 1.00 and one of 5.00 share a fingerprint. |
| `RiskEngine.FingerprintIgnoresCaseAndPadding` | riskEngine.js:58-65 | Case and surrounding whitespace of the vendor name and invoice number do not change the fingerprint. |
| `RiskEngine.FindHardDuplicate` | riskEngine.js:84 | The loop returns the id of the first existing invoice with the same fingerprint, or none. |
| `RiskEngine.SoftDuplicateTest` | riskEngine.js:96-102 | The soft-duplicate test: vendor similarity > 0.85, invoice-number similarity > 0.8, amounts less than 5 apart (500 cents, NaN never close), and dates at most 3 days apart. |
| `RiskEngine.FindSoftDuplicates` | riskEngine.js:96-102 | The loop keeps exactly the existing invoices that pass the soft test, in ledger order. |
| `RiskEngine.CheckDuplicates` | riskEngine.js:76-112 | Adds 70 and a HIGH hard flag iff there is a hard match, then 35 and a MEDIUM soft flag iff there is a soft match; each flag carries its first match. |
| `RiskEngine.CheckVendorProfile` | riskEngine.js:115-144 | With a profile, adds 25 and a MEDIUM bank flag iff the account is unknown, then 15 and a LOW range flag iff the amount is out of range. Without a profile, adds nothing. |
| `RiskEngine.ScoreInvoice` | riskEngine.js:67-156 | The step-by-step scoring equals `ScoreSpec`: the four checks' flags in order, or `NO_FLAGS` alone, plus the fingerprint. |
| `RiskEngine.SumWeightsAppend` | riskEngine.js:68-155 | The weight of concatenated flag lists is the sum of their weights. |
| `RiskEngine.FiredFlagsPieces` | riskEngine.js:84-144 | The fired flags are the hard, soft, bank and range flags, each present iff its check fired. |
| `RiskEngine.FiredKinds` | riskEngine.js:84-144 | No fired flag is `NO_FLAGS`, and each fired flag's check did fire. |
| `RiskEngine.ScoreIsSumOfFlagWeights` | riskEngine.js:68-155 | The score equals the sum of the weights of the returned flags and lies in 0..145; it is never clamped. |
| `RiskEngine.NoFlagsExactlyWhenZero` | riskEngine.js:146-153 | The flag list is never empty. `NO_FLAGS` appears iff the score is 0, and then it is the only flag. |
| `RiskEngine.FlagsInCheckOrder` | riskEngine.js:84-153 | Flags appear in the order hard, soft, bank, range, with no kind twice. |
| `RiskEngine.DuplicateFlagsMatchChecks` | riskEngine.js:84-112 | A hard flag iff a hard match, and then it comes first. A soft flag iff a soft match; each carries its matched id. |
| `RiskEngine.VendorFlagsMatchChecks` | riskEngine.js:115-144 | A bank flag iff the bank check fired; a range flag iff the range check fired. |
| `RiskEngine.HardDuplicateIff` | riskEngine.js:77-93 | A hard duplicate is found iff some existing invoice has the new fingerprint, and the evidence is the first such invoice's id. |
| `RiskEngine.SoftDuplicateIff` | riskEngine.js:96-112 | A soft duplicate is found iff some existing invoice passes the soft test on the normalized fields, and the evidence is the first such invoice's id. |
| `RiskEngine.VendorChecks` | riskEngine.js:115-144 | No profile: no vendor flags. An empty known-account list flags any non-empty account. An empty account or missing list never flags. The range flag needs both bounds truthy. |
| `Records.OrZero` | riskEngine.js:99 | `x \|\| 0` is always a number and leaves a non-NaN number unchanged. |
| `Records.ToNumber` | routes/invoices.js:246 | `Number(x \|\| 0)`: undefined and "" give 0, a number stays itself, and NaN arises exactly from a non-empty string that does not parse. |
| `Db.Store.constructor` | db.js:4-7 | The store starts with no vendors, no invoices, no recorded vendor calls and no `payments` property. |
| `Db.VendorKey` | db.js:10 | The lookup key has no upper-case letter and no whitespace at either end. |
| `Db.FindVendorByName` | db.js:9-12 | Undefined iff no vendor's key equals the query's key. Otherwise the result is the first vendor whose key matches. |
| `Db.FindVendorByOwnName` | db.js:9-12 | Looking up a stored vendor's own name always finds a vendor with that key. |
| `Db.FindVendorIgnoresCaseAndPadding` | db.js:10 | Queries equal after trimming and lower-casing find the same vendor. |
| `Db.FindVendorFirstWins` | db.js:11 | When the first vendor matches, it is the one returned. |
| `Db.FindInvoice` | routes/payments.js:12 | None iff no invoice has the id. Otherwise the first invoice with that id. |
| `PaymentsRoute.MarkPaidSpec` | routes/payments.js:8-39 | 400 iff the id is empty. 404 iff no invoice has it. 500 iff the ledger is undefined. 409 iff the invoice already has a payment. 201 carries a payment built from the found invoice. |
| `PaymentsRoute.MarkPaid` | routes/payments.js:8-39 | The handler answers `MarkPaidSpec`. It appends the payment only on 201, and only then logs find-or-create then baseline learning for the invoice's vendor. Invoices and vendors are unchanged. |
| `PaymentsRoute.MarkPaidKeepsPaymentsUnique` | routes/payments.js:15-32 | If the module loaded and a payments ledger existed, every call would keep "at most one payment per invoice". Neither holds as written: the module does not load and `db.js` never creates the ledger. |
| `PaymentsRoute.MarkPaidKeepsReferences` | routes/payments.js:12-32 | If the module loaded and a payments ledger existed, every call would keep every payment pointing at an existing invoice. Neither holds as written. |
| `PaymentsRoute.MarkPaidTwiceConflicts` | routes/payments.js:16-17 | If the module loaded and a payments ledger existed, a second mark-paid of the same invoice would answer 409 and leave the ledger as it was. Neither holds as written. |
| `PaymentsRoute.CreatedPaymentSnapshotsInvoice` | routes/payments.js:19-30 | A new payment gets a `pay_` id and copies the invoice's id, normalized vendor and number, amount, tax id and IBAN. Its paid date is the supplied one, else now. |
| `PaymentsRoute.ListPayments` | routes/payments.js:41-43 | The listing is the ledger reversed, newest first. It fails iff the ledger is undefined. |
| `PaymentsRoute.ListAfterCreateStartsWithNewPayment` | routes/payments.js:32-43 | Right after a 201 the new payment heads the listing. |
| `InvoicesRoute.Norm` | routes/invoices.js:22-24 | No upper-case letters, no whitespace at either end. |
| `InvoicesRoute.NormInvNum` | routes/invoices.js:25-27 | Only `[a-z0-9]` characters. |
| `InvoicesRoute.NormDate` | routes/invoices.js:28-33 | "" for an empty date. The first min(10, length) characters of an unparseable date, or of the ISO text of a parseable one. Never longer than 10. |
| `InvoicesRoute.RouteNormalizersMatchEngine` | routes/invoices.js:22-33 | The route's three normalizers coincide with the engine's. |
| `InvoicesRoute.RouteNormalizersIdempotent` | routes/invoices.js:22-27 | `norm` and `normInvNum` are idempotent. |
| `InvoicesRoute.Round` | routes/invoices.js:236 | `Math.round` gives the integer within half a unit, halves rounding up. |
| `InvoicesRoute.Blend` | routes/invoices.js:234-237 | The final score is NaN iff the rule score is undefined; otherwise it lies in [0, 100]. |
| `InvoicesRoute.BlendOfPercentages` | routes/invoices.js:234-237 | For scores already in [0, 100] the clamp is inactive: the result is round(0.7·rule + 0.3·ml). |
| `InvoicesRoute.BlendMonotone` | routes/invoices.js:234-237 | Raising either score never lowers the final score. |
| `InvoicesRoute.TagRule` | routes/invoices.js:252 | Each rule flag is tagged RULE, in order, and none is lost. |
| `InvoicesRoute.TagMl` | routes/invoices.js:253 | Each ML flag is tagged ML, in order, and none is lost. |
| `InvoicesRoute.SubmitSpec` | routes/invoices.js:195-267 | 400 iff vendor name, invoice number or date is empty. Otherwise a record with id `inv_`+nonce created now. |
| `InvoicesRoute.SubmitInvoice` | routes/invoices.js:195-267 | The handler answers `SubmitSpec`. On success it appends exactly that record and logs one find-or-create call. On 400 nothing changes; vendors and payments never change. |
| `InvoicesRoute.SubmittedRecordFields` | routes/invoices.js:239-255 | The record keeps the raw fields and their normalized forms, and stores the amount as `Number(x \|\| 0)` with the engine's fingerprint. Its rule score is undefined and its final score NaN. |
| `InvoicesRoute.RecordFlagsAre` | routes/invoices.js:214-254 | The stored flags are the engine's flags for the matched vendor profile tagged RULE, followed by the ML flags tagged ML. |
| `InvoicesRoute.TaggedInOrder` | routes/invoices.js:251-254 | The tagged list is the rule flags in order, then the ML flags in order. |
| `InvoicesRoute.StoredFlagsRuleThenMl` | routes/invoices.js:251-254 | A stored record's flags are its rule flags, then its ML flags, each in original order. |
| `InvoicesRoute.MlFailureDefaults` | routes/invoices.js:223-232 | A failed ML call leaves the ML score 0 and only rule flags, of which there is at least one. |
| `InvoicesRoute.EngineViewNeverFlagsBankAccount` | routes/invoices.js:197-206 | The invoice the route passes to the engine never earns an unusual-bank-account flag, whatever the profile. |
| `InvoicesRoute.TaggedKeepsAbsence` | routes/invoices.js:252 | Tagging adds no rule flag of a kind the engine did not emit. |
| `InvoicesRoute.RouteNeverFlagsUnusualBankAccount` | routes/invoices.js:197-254 | No stored record carries a RULE flag for an unusual bank account. |
| `InvoicesRoute.SubmitKeepsPaymentReferences` | routes/invoices.js:257 | Appending an invoice keeps every existing payment's invoice findable. |
| `InvoicesRoute.ListInvoices` | routes/invoices.js:138-140 | The listing is the ledger reversed, newest first. |
| `InvoicesRoute.GetInvoice` | routes/invoices.js:143-147 | 404 iff no record has the id. Otherwise a stored record with that id. |
| `InvoicesRoute.SubmittedRecordIsListedAndFound` | routes/invoices.js:138-147 | After a successful submit the new record heads the listing and is found by its id. |
| `PyRisk.SafeFloat` | invoice_guard/risk.py:5-9 | Total: None gives None, a number gives itself, and text gives whatever `float()` parses (None when it raises). |
| `PyRisk.VendorAmounts` | invoice_guard/risk.py:64-71 | At most one amount is collected per history record. |
| `PyRisk.VendorAmountsMembers` | invoice_guard/risk.py:64-71 | An amount is collected iff some record of the same vendor has that amount. |
| `PyRisk.AnyContributesSnoc` | invoice_guard/risk.py:65-71 | A record appended to the history contributes its amount on its own terms. |
| `PyRisk.Median` | invoice_guard/risk.py:74-75 | The median is one of the amounts, and it sits at position n // 2 of an ascending rearrangement of them. |
| `PyRisk.BandOfIff` | invoice_guard/risk.py:73-83 | Anomaly iff ≥ 5 amounts, a positive median and ratio ≥ 5. Elevated iff the same with 2 ≤ ratio < 5. The band records that ratio. |
| `PyRisk.BandShape` | invoice_guard/risk.py:77-83 | Anomaly weighs 25, elevated 10, none 0. Each outlier band gives exactly one reason, so the two are exclusive. |
| `PyRisk.ExactDuplicateCheck` | invoice_guard/risk.py:30-37 | The loop adds 60, one reason and one match for the first record (by `FirstIndex`) with the same non-empty vendor and invoice keys. Without such a record it adds nothing. |
| `PyRisk.NearDuplicateCheck` | invoice_guard/risk.py:40-60 | The loop adds 45, one reason and the match measured against the first near-duplicate record (by `FirstIndex`). Without such a record it adds nothing. |
| `PyRisk.ExactScanIsFirst` | invoice_guard/risk.py:30-37 | A scan that stops at an exact match with none before it, or finds none, agrees with `FirstIndex`. |
| `PyRisk.NearScanIsFirst` | invoice_guard/risk.py:41-60 | A scan that stops at a near match with none before it, or finds none, agrees with `FirstIndex`. |
| `PyRisk.CollectVendorAmounts` | invoice_guard/risk.py:64-71 | The collecting loop gives `VendorAmounts`. |
| `PyRisk.AmountOutlierCheck` | invoice_guard/risk.py:63-83 | Adds the band's weight and reason for the vendor's collected amounts. |
| `PyRisk.DuplicatesOnExact` | invoice_guard/risk.py:30-37 | With an exact duplicate the two checks give 60, the exact reason and that record's match, and no near result. |
| `PyRisk.DuplicatesOnNear` | invoice_guard/risk.py:40-60 | Without an exact duplicate the two checks give exactly what the near check gives. |
| `PyRisk.DuplicateChecks` | invoice_guard/risk.py:29-60 | The exact check, then the near check only when the score is still below 60. |
| `PyRisk.ScoreInvoice` | invoice_guard/risk.py:11-101 | The mutating scorer equals `PyRiskSpec`: capped score, level, at most 5 reasons and 3 matches. |
| `PyRisk.PyScoreNeverCapped` | invoice_guard/risk.py:86 | Exact and near never both fire, so the raw score is at most 85 and the cap at 100 never applies. |
| `PyRisk.PyLevelLowIffNoDuplicate` | invoice_guard/risk.py:89-94 | The level is LOW iff neither duplicate check fired. |
| `PyRisk.PyLevelHighIff` | invoice_guard/risk.py:89-94 | HIGH iff an exact duplicate with any outlier band, or a near duplicate with the anomaly band. |
| `PyRisk.DuplicateListsShort` | invoice_guard/risk.py:30-60 | The duplicate checks add at most one reason and one match, and the reason is a duplicate reason. |
| `PyRisk.PyListsNeverTruncated` | invoice_guard/risk.py:96-101 | The returned reasons are the duplicate reason then the outlier reason (at most 2), and the matches are at most 1, so `[:5]` and `[:3]` cut nothing. Exact and near never appear together. |
| `PyRisk.ExactReasonIff` | invoice_guard/risk.py:30-37 | The exact reason is added iff some record matches both keys exactly. |
| `PyRisk.NearReasonIff` | invoice_guard/risk.py:40-60 | The near reason is added iff no record matches exactly and some record is a near match. |
| `PyRisk.DuplicateReasonKept` | invoice_guard/risk.py:96-100 | A duplicate reason is in the result iff the duplicate checks added it. |
| `PyRisk.PyExactDuplicateIff` | invoice_guard/risk.py:30-37 | The result carries the exact reason iff an exact match exists, and then its only match is the first exact record. |
| `PyRisk.PyNearDuplicateIff` | invoice_guard/risk.py:40-60 | The result carries the near reason iff there is no exact match and some near match. |
| `PyRisk.AmountReasonIffOutlier` | invoice_guard/risk.py:78-83 | An amount reason follows the duplicate reasons iff the band is an outlier. |
| `PyRisk.OutlierOfIff` | invoice_guard/risk.py:63-83 | The band is an outlier iff the vendor key is non-empty, the amount parses and is an outlier against the collected amounts. |
| `PyRisk.PyOutlierIff` | invoice_guard/risk.py:63-83 | The result carries an amount reason iff that outlier condition holds. |
| `PyRisk.PyMedianIsPastAmount` | invoice_guard/risk.py:73-75 | The median is an amount of some past invoice of the same vendor. |
| `PyRisk.PyEmptyHistoryIsLow` | invoice_guard/risk.py:11-101 | Against an empty history the result is score 0, LOW, no reasons, no matches. |
| `Anomaly.Abs` | invoice_guard/ml/anomaly.py:19 | `abs` is non-negative and equals x or −x. |
| `Anomaly.AmountAnomalyScore` | invoice_guard/ml/anomaly.py:4-35 | A missing amount or statistics, or fewer than 2 amounts or zero deviation, gives 0.0 and UNKNOWN (and only those do). The score always lies in [0, 1]. |
| `Anomaly.ZScoreIsScaledDistance` | invoice_guard/ml/anomaly.py:19 | The z-score times the deviation's size is the distance from the mean. |
| `Anomaly.ZScoreIsQuotient` | invoice_guard/ml/anomaly.py:19 | The z-score is the distance from the mean over the deviation's size. |
| `Anomaly.DivMonotone` | invoice_guard/ml/anomaly.py:19 | Dividing by the deviation keeps the order of distances. |
| `Anomaly.DivAtLeast` | invoice_guard/ml/anomaly.py:24-29 | A threshold on z is a threshold on distance times deviation. |
| `Anomaly.AnomalyLevelIff` | invoice_guard/ml/anomaly.py:19-29 | HIGH iff the distance is ≥ 4 deviations, MEDIUM iff in [2.5, 4), LOW below 2.5. The score is 1 iff the distance is ≥ 6 deviations. |
| `Anomaly.AnomalySymmetric` | invoice_guard/ml/anomaly.py:19-29 | Amounts equally far above and below the mean get the same verdict. |
| `Anomaly.AnomalyMonotone` | invoice_guard/ml/anomaly.py:19-29 | Further from the mean never gives a lower score or a lower level. |
| `ExtractFields.LooksLikeMetadata` | invoice_guard/extract_fields.py:33-42 | Any text with an `@` is metadata, and so is any text with more digits than max(3, len // 3). |
| `ExtractFields.LooksLikeMetadataIff` | invoice_guard/extract_fields.py:33-42 | Metadata exactly when the lower-cased text holds a bad token, the text holds an `@`, the lower-cased text holds `www.`, or the digits number more than 3 and more than len // 3. `AttemptSound`, `PassOneSound`, `PassTwoSound`, `PassThreeSound` and `VendorGuessSound` rest on it through `GoodGuess`. |
| `ExtractFields.GoodGuessIsNoAddress` | invoice_guard/extract_fields.py:60-93 | A vendor guess that passes the metadata test holds no `@`, no `www.` in any case, and at most max(3, len // 3) digits. |
| `ExtractFields.Candidate` | invoice_guard/extract_fields.py:57 | Stripping `" -—–\t"` leaves no such character at either end and never lengthens the text. |
| `ExtractFields.TryGroup` | invoice_guard/extract_fields.py:56-61 | One inline or labelled match is skipped, accepted or rejected as `AttemptOn` says. |
| `ExtractFields.PassOne` | invoice_guard/extract_fields.py:48-71 | The keyword pass over the first 30 lines returns what `PassOneFrom` defines. |
| `ExtractFields.FollowLabel` | invoice_guard/extract_fields.py:78-83 | The scan after a bare label returns what `FollowFrom` defines. |
| `ExtractFields.FollowStep` | invoice_guard/extract_fields.py:79-83 | Each line after the label either yields its candidate or passes the scan on. |
| `ExtractFields.PassTwo` | invoice_guard/extract_fields.py:74-83 | The bare-label pass returns what `PassTwoFrom` defines. |
| `ExtractFields.PassTwoLine` | invoice_guard/extract_fields.py:75-83 | One line of the bare-label pass either decides the pass or passes it on. |
| `ExtractFields.PassThree` | invoice_guard/extract_fields.py:87-99 | The fallback pass returns what `PassThreeFrom` defines. |
| `ExtractFields.CleanVendorGuess` | invoice_guard/extract_fields.py:27-101 | The three passes in order, the first answer winning, else None, equal `VendorGuess`. |
| `ExtractFields.AcceptedIsGood` | invoice_guard/extract_fields.py:80-83 | An accepted label-follow candidate is a good guess, and `[:80]` leaves it unchanged. |
| `ExtractFields.AttemptSound` | invoice_guard/extract_fields.py:57-61 | An accepted match is a good guess: not metadata, not a generic label, 3 to 60 characters. |
| `ExtractFields.PassOneSound` | invoice_guard/extract_fields.py:48-71 | Anything pass 1 returns is a good guess. |
| `ExtractFields.FollowSound` | invoice_guard/extract_fields.py:78-83 | Anything the label scan returns is a good guess and is a candidate of a line in its window of 5. |
| `ExtractFields.PassTwoFromLabel` | invoice_guard/extract_fields.py:74-83 | Anything pass 2 returns follows a bare label. |
| `ExtractFields.PassTwoSound` | invoice_guard/extract_fields.py:74-83 | Anything pass 2 returns is a good guess taken from the window after a bare label within the first 30 lines. |
| `ExtractFields.PassThreeSound` | invoice_guard/extract_fields.py:87-99 | Anything pass 3 returns is a good guess of 4 to 40 characters, the candidate of one of the first 30 lines. |
| `ExtractFields.VendorGuessSound` | invoice_guard/extract_fields.py:27-101 | Any vendor guess is not metadata, not a generic label and 3 to 60 characters long, so `[:80]` never cuts it. |
| `ExtractFields.FallbackGuessLength` | invoice_guard/extract_fields.py:86-99 | When passes 1 and 2 find nothing, any guess has 4 to 40 characters. |
| `ExtractFields.PassOneLocal` | invoice_guard/extract_fields.py:49 | Pass 1 reads only the first lines: the first 35 lines give the same answer. |
| `ExtractFields.FollowLocal` | invoice_guard/extract_fields.py:78 | The label scan from one of the first 30 lines reads no line past the 35th. |
| `ExtractFields.PassTwoLocal` | invoice_guard/extract_fields.py:74-78 | Pass 2 gives the same answer on the first 35 lines. |
| `ExtractFields.PassThreeLocal` | invoice_guard/extract_fields.py:87 | Pass 3 gives the same answer on the first 35 lines. |
| `ExtractFields.VendorGuessReadsFirstLines` | invoice_guard/extract_fields.py:49-99 | The vendor guess depends on the first 35 lines only. |
| `ExtractFields.CleanLines` | invoice_guard/extract_fields.py:115-116 | Every kept line is non-empty with no whitespace at either end. |
| `ExtractFields.CleanLinesMembers` | invoice_guard/extract_fields.py:115-116 | A line is kept iff it is the non-empty trimmed form of some input line. |
| `ExtractFields.InvoiceNumberOf` | invoice_guard/extract_fields.py:120-123 | None iff the pattern does not match. Otherwise the trimmed group, upper-cased: no lower-case letters and equal to the group ignoring case. |
| `ExtractFields.DateFallbackFirst` | invoice_guard/extract_fields.py:132-138 | The fallback gives the parse of the first candidate that parses. If none does, it gives the last candidate's (failed) parse, or the earlier value when there are no candidates. |
| `ExtractFields.InvoiceDateSource` | invoice_guard/extract_fields.py:125-138 | A parseable date hint wins. Otherwise any date is the parse of one of the first 5 date candidates. |
| `ExtractFields.FallbackDate` | invoice_guard/extract_fields.py:132-138 | The loop with its early `break` gives `DateFallback`. |
| `ExtractFields.RemoveCommas` | invoice_guard/extract_fields.py:157 | No comma is left and the text is no longer than before. |
| `ExtractFields.ParsedAmounts` | invoice_guard/extract_fields.py:154-159 | At most one value per matched amount. |
| `ExtractFields.ParsedAmountsFrom` | invoice_guard/extract_fields.py:154-159 | Every value is the parse of some matched amount without its commas. |
| `ExtractFields.MaxOf` | invoice_guard/extract_fields.py:160 | The maximum is one of the values and no value exceeds it. |
| `ExtractFields.AmountNear` | invoice_guard/extract_fields.py:145-160 | None iff nothing parses in the window, and always None when the keyword is absent. Otherwise the largest parsed amount in the window around the first occurrence. |
| `ExtractFields.FindAmountNear` | invoice_guard/extract_fields.py:145-160 | The loop appending parsed amounts gives `AmountNear`. |
| `ExtractFields.TotalAmountChoice` | invoice_guard/extract_fields.py:162-164 | Any total is the largest amount near one of the three keywords. A truthy "amount due" wins; a zero "amount due" yields to a truthy "total"; a zero total can only come from "balance due". |
| `ExtractFields.CurrencyOf` | invoice_guard/extract_fields.py:166-167 | The only currency ever reported is "USD". |
| `ExtractFields.DollarUnderCase` | invoice_guard/extract_fields.py:166 | Case mapping neither adds nor removes a `$`. |
| `ExtractFields.CurrencyIgnoresCase` | invoice_guard/extract_fields.py:166-167 | Upper- or lower-casing the text does not change the currency. |
| `ExtractFields.CurrencyIff` | invoice_guard/extract_fields.py:166-167 | "USD" iff the text contains "usd" in any case or a `$`. Otherwise None. |
| `ExtractFields.Extract` | invoice_guard/extract_fields.py:114-176 | The extraction equals `ExtractSpec`. |
| `ExtractFields.ExtractedRecordSound` | invoice_guard/extract_fields.py:114-176 | The extracted vendor is a good guess, the invoice number has no lower-case letters, the currency is "USD" or None, and the raw text is kept. |
| `ProductExtraction.DropRun` | invoice_guard/product_extraction.py:24-25 | Dropping a leading run leaves a suffix that starts outside the run's class. |
| `ProductExtraction.CollapseRuns` | invoice_guard/product_extraction.py:24-25 | Replacing runs by one space gives the empty text only for empty input, and keeps a first character outside the class. |
| `ProductExtraction.CollapseStep` | invoice_guard/product_extraction.py:24-25 | A run at the front becomes one space; any other character is kept. |
| `ProductExtraction.SpaceOrOutsideCons` | invoice_guard/product_extraction.py:24-25 | Prefixing a space or an outside character keeps "every character is a space or outside the class". |
| `ProductExtraction.NoAdjacentCons` | invoice_guard/product_extraction.py:24-25 | Prefixing a class character before a non-class one keeps "no two class characters in a row". |
| `ProductExtraction.CollapseClass` | invoice_guard/product_extraction.py:24-25 | After the substitution every character is a space or outside the class. |
| `ProductExtraction.CollapseNoAdjacent` | invoice_guard/product_extraction.py:24-25 | After the substitution no two class characters are adjacent. |
| `ProductExtraction.CollapseFromSource` | invoice_guard/product_extraction.py:24-25 | Every character of the result is a space or comes from the input. |
| `ProductExtraction.CollapseNonPrintable` | invoice_guard/product_extraction.py:24 | The first substitution leaves only printable ASCII. |
| `ProductExtraction.CollapseKeepsPrintable` | invoice_guard/product_extraction.py:25 | The second substitution keeps the text printable. |
| `ProductExtraction.CollapseSpaces` | invoice_guard/product_extraction.py:25 | After the second substitution whitespace occurs only as single spaces. |
| `ProductExtraction.SliceKeepsClean` | invoice_guard/product_extraction.py:25 | Stripping keeps printable, single-spaced text so. |
| `ProductExtraction.CleanLine` | invoice_guard/product_extraction.py:23-26 | `_clean_line` gives clean text: printable ASCII, no two whitespace characters in a row, no whitespace at either end. `CleanLineIdempotent` shows that cleaning again changes nothing. |
| `ProductExtraction.CleaningStepsGiveClean` | invoice_guard/product_extraction.py:24-25 | The two substitutions followed by `strip()` leave printable, single-spaced, unpadded text. |
| `ProductExtraction.CollapseNothing` | invoice_guard/product_extraction.py:24-25 | Text with no class character is left unchanged. |
| `ProductExtraction.CollapseSingles` | invoice_guard/product_extraction.py:24-25 | Text whose class characters are isolated single spaces is left unchanged. |
| `ProductExtraction.CleanIsFixed` | invoice_guard/product_extraction.py:23-26 | Cleaning an already clean line changes nothing. |
| `ProductExtraction.CleanLineIdempotent` | invoice_guard/product_extraction.py:23-26 | Cleaning twice is cleaning once. |
| `ProductExtraction.Classify` | invoice_guard/product_extraction.py:37-63 | A classified line has ≥ 10 characters, is not all upper-case and is not a header. A line is unclassified iff it is skipped or fits none of the three priorities. |
| `ProductExtraction.ItemCandidates` | invoice_guard/product_extraction.py:35-63 | Every candidate is an input line with the priority `Classify` gives it. |
| `ProductExtraction.CollectCandidates` | invoice_guard/product_extraction.py:35-63 | The appending loop gives `ItemCandidates`. |
| `ProductExtraction.ByRankSorted` | invoice_guard/product_extraction.py:66 | After the sort the priorities never decrease. |
| `ProductExtraction.ByRankSnoc` | invoice_guard/product_extraction.py:66 | Appending a candidate adds it to the end of its own class. |
| `ProductExtraction.ByRankPermutation` | invoice_guard/product_extraction.py:66 | The sort is a permutation of the candidates. |
| `ProductExtraction.FilterTwice` | invoice_guard/product_extraction.py:66 | Selecting one class twice is selecting it once. |
| `ProductExtraction.FilterByRank` | invoice_guard/product_extraction.py:66 | Selecting from the sorted list selects from each class block in turn. |
| `ProductExtraction.HighStable` | invoice_guard/product_extraction.py:66 | The high lines keep their original order. |
| `ProductExtraction.MediumStable` | invoice_guard/product_extraction.py:66 | The medium lines keep their original order. |
| `ProductExtraction.LowStable` | invoice_guard/product_extraction.py:66 | The low lines keep their original order. |
| `ProductExtraction.ByRankStable` | invoice_guard/product_extraction.py:66 | The sort is stable: within each class the original order holds. |
| `ProductExtraction.ByRankMembers` | invoice_guard/product_extraction.py:66 | The sort neither adds nor loses a candidate. |
| `ProductExtraction.RunBelow` | invoice_guard/product_extraction.py:66 | The length of the leading run below a rank. |
| `ProductExtraction.FilterBlocks` | invoice_guard/product_extraction.py:66 | Selection distributes over three blocks. |
| `ProductExtraction.FilterBlock` | invoice_guard/product_extraction.py:66 | A block of one class selects all or nothing. |
| `ProductExtraction.ClassBlocksRanked` | invoice_guard/product_extraction.py:66 | A high, medium, low block sequence is already sorted. |
| `ProductExtraction.SortedBlocks` | invoice_guard/product_extraction.py:66 | A sorted list splits into high, medium and low blocks. |
| `ProductExtraction.SortedIsClasses` | invoice_guard/product_extraction.py:66 | Sorting a sorted list changes nothing. |
| `ProductExtraction.StableSortUnique` | invoice_guard/product_extraction.py:66 | Any sorted list with the same classes in the same order is the stable sort: the key sort is determined. |
| `ProductExtraction.Lines` | invoice_guard/product_extraction.py:71 | The lines of the candidates, in order. |
| `ProductExtraction.HasKeyAppend` | invoice_guard/product_extraction.py:72-75 | Adding a line adds exactly its lower-cased key to the seen set. |
| `ProductExtraction.DedupLines` | invoice_guard/product_extraction.py:69-76 | De-duplication never lengthens the list. |
| `ProductExtraction.DedupDistinct` | invoice_guard/product_extraction.py:69-76 | No two kept lines are equal ignoring case, each comes from the input, and every input key is covered. |
| `ProductExtraction.DedupKeepsFirst` | invoice_guard/product_extraction.py:69-76 | Each kept line is the first occurrence of its key. |
| `ProductExtraction.DedupPrefix` | invoice_guard/product_extraction.py:77-78 | De-duplicating a prefix gives a prefix, so stopping early is taking the first ones. |
| `ProductExtraction.DedupKeepsOrder` | invoice_guard/product_extraction.py:69-76 | De-duplication keeps any order the input had. |
| `ProductExtraction.FirstDistinct` | invoice_guard/product_extraction.py:69-78 | The loop with its `seen` set and early stop gives the first five de-duplicated lines. |
| `ProductExtraction.FirstFiveDistinct` | invoice_guard/product_extraction.py:69-78 | At most 5 lines, distinct ignoring case, each the first occurrence of its key. |
| `ProductExtraction.FirstFiveOrdered` | invoice_guard/product_extraction.py:66-78 | The five keep the input's order. |
| `ProductExtraction.CleanedLines` | invoice_guard/product_extraction.py:30 | One cleaned line per split line. |
| `ProductExtraction.RankedLinesClassified` | invoice_guard/product_extraction.py:54-66 | Every ranked line is classified, and ranks never decrease along the list. |
| `ProductExtraction.ExtractItemLines` | invoice_guard/product_extraction.py:28-80 | The whole extraction equals `ItemLines`. |
| `ProductExtraction.ItemLinesSound` | invoice_guard/product_extraction.py:28-80 | At most 5 lines, distinct ignoring case, each ≥ 10 characters, not all upper-case and not a header; high before medium before low. |
| `ProductExtraction.ItemLinesFirstOccurrence` | invoice_guard/product_extraction.py:69-76 | Each returned line is the first occurrence of its key in the ranked list. |
| `ProductExtraction.FirstDescLine` | invoice_guard/product_extraction.py:89-92 | The first cleaned line longer than 15 characters that is neither header nor address. None iff there is none. |
| `ProductExtraction.PickProductDesc` | invoice_guard/product_extraction.py:82-95 | The choice equals `PickSpec`. |
| `ProductExtraction.PickProductDescCases` | invoice_guard/product_extraction.py:82-95 | One item gives that item. Two items give the first, " \| ", then the second. Three or more give the first three in order, separated by " \| ". No items gives the first description-like line, and "UNKNOWN" iff there is none. |
| `GuardMain.DupProb` | invoice_guard/main.py:54-60 | The probability is one of 0.0, 0.80, 0.98. |
| `GuardMain.DupProbBands` | invoice_guard/main.py:54-60 | 0.98 iff top ≥ 0.97. 0.80 iff 0.92 ≤ top < 0.97. 0.0 iff top < 0.92. |
| `GuardMain.DupProbMonotone` | invoice_guard/main.py:54-60 | A higher top similarity never gives a lower probability. |
| `GuardMain.InvoiceById` | invoice_guard/main.py:90-92 | None iff no stored invoice has the id. Otherwise a stored invoice with that id. |
| `GuardMain.History` | invoice_guard/main.py:78-79 | The history is one record per stored invoice, in id order. |
| `GuardMain.Collected` | invoice_guard/main.py:88-102 | At most one neighbour per embedding row, and only for rows whose invoice exists. |
| `GuardMain.SortedDescCons` | invoice_guard/main.py:104 | A head no smaller than the sorted tail keeps the list sorted. |
| `GuardMain.InsertDesc` | invoice_guard/main.py:104 | Insertion keeps the list sorted by similarity, descending, and adds exactly one element. |
| `GuardMain.SortDesc` | invoice_guard/main.py:104 | A descending permutation of the neighbours. |
| `GuardMain.TopSimIsMax` | invoice_guard/main.py:104-106 | The top similarity is the maximum over all neighbours, taken before truncation, and 0.0 when there are none. |
| `GuardMain.RankNeighbors` | invoice_guard/main.py:104-107 | At most 3 neighbours, sorted descending, each one of those collected, with the top similarity of the whole list. |
| `GuardMain.GuardStore.CollectNeighbors` | invoice_guard/main.py:85-102 | The loop over embedding rows gives `Collected`. |
| `GuardMain.GuardStore.Insert` | invoice_guard/main.py:118 | Appends one invoice with the next id; embeddings and statistics are unchanged. |
| `GuardMain.GuardStore.AddEmbedding` | invoice_guard/main.py:121 | Appends one embedding row for an existing id; nothing else changes. |
| `GuardMain.GuardStore.RecordAmount` | invoice_guard/main.py:122-123 | Replaces only that vendor's statistics with the updated ones. |
| `GuardMain.GuardStore.Assess` | invoice_guard/main.py:69-115 | Extraction, risk against the history, the top 3 neighbours, the duplicate probability and the amount anomaly, all before anything is stored. |
| `GuardMain.GuardStore.Run` | invoice_guard/main.py:63-141 | The scores are computed against the state before the insert. Then exactly one invoice and one embedding are added, and the statistics are updated only for a truthy vendor with an amount. The currency defaults to "USD". |
| `GuardMain.NeverScoredAgainstItself` | invoice_guard/main.py:77-79 | Neither the risk history nor the reported neighbours contain the invoice being inserted. |

## Left out

- Floating point: Python floats are Dafny `real`, so rounding error is not modelled. JavaScript amounts are integer cents with an explicit NaN. `toFixed(2)` is exact on cents.
- `Math.round(x)` on the blend works on reals, halves rounding up.
- Text is ASCII: trimming, `strip()`, `lower()`, `upper()` and `isupper()` treat only ASCII letters and ASCII whitespace specially. Unicode case mapping and Unicode spaces are not modelled. Three consequences: Python's `strip()` and `isspace()` also treat `\x1c`-`\x1f` (and `\x85`, `\xa0`) as whitespace, while the model's `Trim` keeps them. Python's `isdigit()` also accepts non-ASCII digits, while `DigitCount` counts `0`-`9` only. JavaScript's `.length` and indexing in `editDistance` and `similarity` count UTF-16 code units, while the model counts characters, so the two differ for characters outside the Basic Multilingual Plane.
- Library calls are parameters of the model, with no properties assumed beyond their types:
  - the JavaScript `Date` parse and ISO formatting, and `Number(s)` on strings;
  - `float()`, `dateutil`'s fuzzy parse, `splitlines`, `rapidfuzz` ratios and every regular expression;
  - the sentence embedding, cosine similarity and `round(sim, 4)`.
- `nanoid(10)` and the current time are parameters (`nonce`, `now`).
- The ML service reply of the submit handler is a parameter (`MlReply`): a success with score and flags, or a failure. `fetchMLScore` itself is not part of this model.
- `getOrCreateVendor` and `updateVendorBaselineFromPaidInvoice` are logged as calls with their arguments. They are not defined in `db.js`, and importing them stops both route modules from loading, so what they would do is not modelled.
- `InvoicesRoute.SubmitInvoice`: the handler is modelled as one atomic step. In the source it scores against `db.invoices`, then awaits the ML call, then pushes the record. Other submissions can run during the await. Two identical invoices posted at once can both be scored against a ledger holding neither, so neither is flagged as a hard duplicate and both are stored. `RiskEngine.HardDuplicateIff` describes submissions one after another only.
- `InvoicesRoute.SubmitInvoice`: `routes/invoices.js` imports `fetchMLScore` from `riskEngine.js`, which exports only `scoreInvoice`. It also imports `getOrCreateVendor` from `db.js`, which does not export it. An ES module with a missing named import fails to load. The model assumes the handler runs, with the ML reply as a parameter.
- `PaymentsRoute.MarkPaid`: `routes/payments.js` imports two names `db.js` does not export, so the module does not load and the handler never runs. The model describes the handler body as if the module loaded.
- `PaymentsRoute.MarkPaid`: a handler that throws (undefined ledger) is modelled as a 500 answer. The Express error handler and the response bodies are not modelled.
- `GuardMain.GuardStore.RecordAmount`: the Welford mean/variance update of `invoice_guard/store.py` is a parameter (`updateStats`), and the square root in the statistics read is not modelled.
- `GuardMain.GuardStore.AddEmbedding`: the upsert is an append. `run` only writes the embedding of a freshly inserted id, so no row is ever replaced.
- SQLite persistence is not modelled: row order of `fetch_embeddings`, BLOB encoding, commits and connections. Stored invoices, embeddings and statistics are fields of `GuardStore`.
- `GuardMain.SortDesc`: the order of neighbours with equal similarity is not pinned down. Python's stable sort keeps them in row order; the model proves only a descending permutation.
- `PyRisk.NearDuplicateCheck`: the match's `score` field is the raw invoice-number similarity, not rounded to 3 decimals, and the `why` text is not modelled.
- The wording of reasons, explanations and error messages, and the JSON shape of responses, are not modelled. Each is a datatype constructor.
- The `price_check` branch of `run` (`invoice_guard/llm_price_check.py`, network calls) and the OCR of `invoice_guard/ocr.py` are not part of this model. The raw OCR text is an input of `Run`.
- `invoice_guard/api.py`, `routes/auth.js`, `routes/vendors.js`, `server.js`, the upload and analyze routes of `routes/invoices.js`, and the frontend are not part of this model.
