# Split402 evidence pipeline, verified

A model in Dafny of the code that collects launch evidence for Split402, prints it to text, hashes it, reads it back
and decides whether a proof holds, with proofs of what the pieces promise each other.  `dafny verify dfyconfig.toml`
checks the whole project.

## What is modelled

- **Gateway proof** (`JsonRead`, `GatewayMessages`, `GatewayCollector`, `GatewayChecker`, `GatewayTranscript`,
  `GatewayLog`, `GatewayAgreement`, `GatewayProof`, `GatewayConverse`, `GatewayUnreadable`, `GatewayWitness`).  The collector drives initialize, tools/list, search, quote, execute
  and getReceipt, records the JSON-RPC messages and judges them; the status checker judges the same log later with other
  code.  Each is shown to report no blocker exactly under a declarative predicate (`Ready`, `Accepted`), and the two
  predicates are related for every sequence of answers, through the printed text.  Runs built for every provider show
  that the predicates can be met, and that they differ.
- **JSON in noisy logs** (`Json`, `JsonRoundTrip`, `JsonPrefix`, `JsonScan`, `JsonSearch`, `JsonLines`, `JsonReformat`).
  An unbounded JSON value with the grammar of RFC 8259, numbers that overflow a double (ECMA-262 section 6.1.6.1), the
  printer of `JSON.stringify`, the brace scanner that the repository has in four copies, and the three searches built on it.  The scanner is related to the grammar, so the
  theorems hold for every text that parses; printed values are a corollary of the round trip.
- **Line formats** (`Lines`, `Records`, `RefreshPlan`, `EnvApply`, `Transcript`, `Recorder`, `RecorderEvidence`).  The
  `key: value` record, the env file and the command transcript, each with printer, reader and in-place rewriter, and the
  plans and recordings made of them.
- **Manifest** (`Manifest`).  Generator and verifier over a map from path to bytes, with an abstract hash.
- **Read artifacts and custody records** (`ReadArtifacts`, `ReadMeaning`, `CustodyRecords`).  The six artifacts fetched from the control
  plane, accepted by one side and judged by the other; the two review records assembled into the custody bundle.
- **Arithmetic and settlement** (`Price`, `Calendar`, `Bundle`, `Settlement`).

A loop over a mutable list in the source is a `method` with its loop here, proved against a predicate or function; the
settlement store, the middleware, the handlers behind it and the file system are classes.  Absent JSON properties are `None`; blockers are
structured values, not sentences.

What a decision means is also stated a second time, without the predicates that the code is proved against: on the
fields of the input (`GatewayConverse.AcceptedMeans`, `ReadMeaning`, `Bundle.BuiltIff`, `Manifest.JudgedIff`), or on the
lines and values of the result (`RequestsFollow`, `Follows`, `PlanFollows`, `RecordingFollows`, `BlocksFollow`).

## Where the code does less, or more, than one might expect

- A quote whose ranked entries are all malformed is unreadable to the collector, which reports nothing about it
  (`GatewayCollector.AddQuoteSummaryBlockers`); such a run can be ready (`GatewayWitness.UnreadableRankedRun`).
- With two capabilities of one provider id the collector takes the first and the checker the last, so that a ready proof
  can be rejected (`GatewayWitness.TwoCapabilitiesRun`).
- Any accepted log is also accepted with a payment that cannot be read as an amount, if its receipt requires the same text
  (`GatewayUnreadable.UnreadablePaymentIsAccepted`); an accepted payment is the provider's amount exactly when it can be
  read (`GatewayProof.AcceptedIsExact`).
- A number beyond the double range is read as Infinity and written as null (`JsonReformat.ReformatKeepsValueIff`), so that
  a collected artifact can be accepted with a `summary` that was refused as fetched (`ReadArtifacts.CollectedIsChecked`).
- The summary search is misled by any object printed between the summary's brace and the marker
  (`JsonSearch.SummaryStartIff`, `JsonSearch.NestedObjectIsFound`).
- Rewriting a record is not idempotent on `\r\r\n` (`Records.DoubleCrBreaksRewriting`), applying seed values is not
  idempotent on a value with U+2028 or U+2029 (`EnvApply.SeparatorBreaksApplyingTwice`); the exact conditions are
  `Records.IdempotentIff` and `EnvApply.ApplyTwiceIff`.
- Of the two date tests, only `isIsoDate` accepts the years 0 to 99 (`Calendar.IsoDateIff`, `Calendar.IsoCalendarDateIff`).
- A `summary` that is a plain value is passed over by the read collector and refused by the checker
  (`ReadArtifacts.AcceptedOnBothSides`).
- A token program list of commas passes the signer-policy creator and fails the custody review
  (`CustodyRecords.PipelineIssues`, `CustodyRecords.CommaIsATokenProgram`).

## Model

| member | source | states |
|---|---|---|
| GatewayProof.CollectAndCheck | src/phase7McpGatewayEvidence.ts:104-593 | end to end: the checker reports nothing exactly when the very text the collector wrote is accepted, which is when its transcript is; on a ready run that is if and only if `Residual` holds and discovery knows the route of the executed provider, and on answers as the gateway promises them if and only if the latter does |
| GatewayAgreement.AcceptedIff | src/phase7StagingStatus.ts:2134-3102 | for every ready, conforming run, the checker accepts the transcript if and only if the four tools are offered, the last capability of the executed provider agrees, the receipt carries the id it was asked by, and the quote passes: with a summary, the first entry ranked 1 must be the quoted provider; without one, the checker's own tests of it decide |
| GatewayConverse.ReadyIff | src/phase7McpGatewayEvidence.ts:290-483 | the converse: for every live run whose answers, where they come, echo the ids, and whose transcript the checker accepts, the proof is ready if and only if the payment reads as an amount, the first capability of the executed provider agrees with it, and no ranked entry can be read or the provider's first one is ranked 1 at the quoted amount; everything else the collector tests follows from what the checker tested |
| GatewayConverse.SidesAgree | src/phase7StagingStatus.ts:2134-3102 | for live runs on answers as the gateway promises them, with distinct provider ids, well-formed distinct ranks and readable amounts, a proof is ready if and only if its transcript is accepted |
| GatewayConverse.AcceptedMeans | src/phase7StagingStatus.ts:2426-2594 | every accepted log holds an execute request and, under its id, an answer without error in live mode, with a verified receipt that the buyer created or found recorded, and a positive credit, key by key |
| GatewayConverse.ReadyMeans | src/phase7McpGatewayEvidence.ts:308-350 | every ready proof has such an execute answer too |
| GatewayConverse.ErrorIsNeverAccepted | src/phase7StagingStatus.ts:2138-2143 | a run in which any step was answered by an error is not accepted, and with an error to quote, execute or getReceipt not ready |
| GatewayAgreement.DiscoveryIff | src/phase7StagingStatus.ts:1970-2061 | for every ready run, the continuity test, which takes the first capability of the executed provider where the other tests take the last, passes exactly when the first route that the discovery artifact names by the executed provider's route id has its campaign, referrer wallet and payout wallet |
| GatewayProof.PromisedIsResidual | src/phase7McpGatewayEvidence.ts:290-483 | distinct provider ids, well-formed distinct ranks, the four tools and an echoed receipt id are enough for all that only the checker reads |
| GatewayProof.FirstIsLast | src/phase7StagingStatus.ts:2197-2213 | with distinct provider ids, the first capability of a provider (collector) is the last one (checker's Map) |
| GatewayProof.RankedAgrees | src/phase7StagingStatus.ts:2388-2416 | with well-formed entries of distinct ranks, the collector's first entry of the provider, ranked 1, is the checker's first entry ranked 1 |
| GatewayCollector.Collect | src/phase7McpGatewayEvidence.ts:104-593 | the transcript is the exchanges in order, the text is that transcript printed, summaries and counts are those of the answers, proofReady holds exactly when `Ready` does, and the requests of the transcript follow from the environment alone: each search, quote and execute asks for the trimmed SPLIT402_MCP_CAPABILITY and budget or their defaults, execute carries the trimmed wallet or its default, and there is a quote and an execute exactly when the flag is 1, true or yes in any case, or blank in demo mode |
| GatewayCollector.TranscriptFollows | src/phase7McpGatewayEvidence.ts:108-275 | for every environment and all answers, the requests of a run, their arguments and their order are those the environment asks for, and the receipt is asked for by the id of the execute answer |
| GatewayCollector.Capture | src/phase7McpGatewayEvidence.ts:171-275 | the transcript up to the receipt, flags and summaries of the answers, and no blocker exactly when no answer is disputed |
| GatewayAgreement.ReadyEconomics | src/phase7McpGatewayEvidence.ts:294-483 | a ready proof has exact floors: commission of the payment, fee of the commission, credit the positive rest; the payment equals the required, executed and (if readable) quoted amount and keeps to the budget |
| GatewayAgreement.UnrefutedIsExact | src/phase7McpGatewayEvidence.ts:1104-1157 | a receipt that the guarded economics checks do not refute is exact once its required amount is readable and its credit positive |
| GatewayCollector.AddQuoteSummaryBlockers | src/phase7McpGatewayEvidence.ts:722-759 | an unreadable quote goes unreported exactly when only its ranked entries are unreadable, all of them |
| GatewayCollector.AddExecutionSummaryBlockers | src/phase7McpGatewayEvidence.ts:807-866 | an unreadable execute answer is always reported |
| GatewayCollector.CompareProviders | src/phase7McpGatewayEvidence.ts:1049-1076 | no blocker exactly when the two summaries are equal |
| GatewayCollector.CompareReceipt | src/phase7McpGatewayEvidence.ts:1078-1102 | no blocker exactly when receipt and provider agree on every compared field |
| GatewayCollector.VerifyReceiptEconomics | src/phase7McpGatewayEvidence.ts:1104-1157 | no blocker exactly when the economics are not refuted |
| GatewayCollector.JudgeQuoteAnswer | src/phase7McpGatewayEvidence.ts:189-200 | capture flag and summary of the quote answer; no blocker exactly when there is no answer, or it succeeded and has a summary or unreadable ranked entries only |
| GatewayCollector.JudgeExecuteAnswer | src/phase7McpGatewayEvidence.ts:220-235 | capture flag and summary of the execute answer; no blocker exactly when there is no answer, or it succeeded and has a summary |
| GatewayCollector.JudgeReceiptAnswer | src/phase7McpGatewayEvidence.ts:252-268 | capture flag and summary of the receipt answer; no blocker exactly when there is no answer, or it succeeded and has a summary |
| GatewayCollector.JudgeExecution | src/phase7McpGatewayEvidence.ts:308-350 | no blocker exactly when the execution was verified, in live mode recorded by the buyer, consistent with its provider and within the budget |
| GatewayCollector.JudgeProviders | src/phase7McpGatewayEvidence.ts:351-421 | no blocker exactly when the searched provider is the executed one and the receipt agrees with it |
| GatewayCollector.JudgeQuote | src/phase7McpGatewayEvidence.ts:422-471 | no blocker exactly when the quote agrees with the execution and its own provider, which is ranked first at the quoted amount |
| GatewayCollector.JudgeSummaries | src/phase7McpGatewayEvidence.ts:290-483 | no blocker exactly when the execution agrees with the settings and the searched provider, and receipt and quote, if they can be read, agree with the execution |
| GatewayCollector.Ask | src/phase7McpGatewayEvidence.ts:157-170 | one request is recorded, then its answer if there is one |
| GatewayCollector.Open | src/phase7McpGatewayEvidence.ts:125-170 | the three opening exchanges, and the search answer |
| GatewayCollector.ReadSettings | src/phase7McpGatewayEvidence.ts:108-117 | the collector throws exactly when a maximum amount is given that is no atomic amount; otherwise the settings have a capability and a maximum amount |
| GatewayChecker.CheckText | src/phase7StagingStatus.ts:1946-1968 | no blocker exactly when the text has rows, each row is a transcript line, the lines are accepted, and their provider continues what discovery found |
| GatewayChecker.CheckDiscovery | src/phase7StagingStatus.ts:1970-2061 | no blocker exactly when the first capability of the executed provider names no route, or discovery is not attached, has no routes, or lists the route with the same campaign and wallets |
| GatewayChecker.CheckTranscript | src/phase7StagingStatus.ts:2134-3102 | no blocker exactly when the lines are `Accepted`, for all transcripts |
| GatewayChecker.ParseTranscript | src/phase7StagingStatus.ts:2104-2132 | the lines are those of the readable rows in order; no blocker exactly when there are rows and all are readable |
| GatewayChecker.AgreementIsEquality | src/phase7StagingStatus.ts:2682-2783 | between readable records at positive amounts, the checker's guarded comparisons (amounts as numbers) are equality of the summaries, texts included |
| GatewayChecker.ProvidersById | src/phase7StagingStatus.ts:2197-2213 | the Map holds for each id the last capability with it, and is empty exactly when no capability has an id |
| GatewayChecker.CheckInitialize | src/phase7StagingStatus.ts:2138-2143 | no blocker exactly when the initialize request has a reply without error |
| GatewayChecker.CheckTools | src/phase7StagingStatus.ts:2145-2173 | no blocker exactly when the tools/list reply offers the four tools |
| GatewayChecker.CheckSearch | src/phase7StagingStatus.ts:2175-2223 | no blocker exactly when the search names capability and budget and some capability has a provider id |
| GatewayChecker.CheckTerms | src/phase7StagingStatus.ts:2247-2274 | no blocker exactly when the request has a capability and a budget, and those of the search where the search has them |
| GatewayChecker.CheckProvider | src/phase7StagingStatus.ts:2320-2377 | no blocker exactly when every field can be read and the amount is positive |
| GatewayChecker.CompareRecords | src/phase7StagingStatus.ts:2682-2715 | no blocker exactly when the records agree wherever both can be read |
| GatewayChecker.CheckRanked | src/phase7StagingStatus.ts:2388-2420 | no blocker exactly when some entry is ranked 1 and the first such one contradicts neither provider nor amount of the quote |
| GatewayChecker.CheckQuote | src/phase7StagingStatus.ts:2225-2424 | no blocker exactly when request and content of the quote are accepted |
| GatewayChecker.CheckExecuteContent | src/phase7StagingStatus.ts:2463-2594 | no blocker exactly when the execute content is verified, recorded and names a usable provider |
| GatewayChecker.CheckProviders | src/phase7StagingStatus.ts:2595-2783 | no blocker exactly when a selected capability is found if there is any, is usable, and the three provider records agree wherever they can be read |
| GatewayChecker.ProvidersPassIff | src/phase7StagingStatus.ts:2595-2783 | after accepted search, quote and execute contents, these guarded tests are equality of the three summaries |
| GatewayChecker.CheckPayment | src/phase7StagingStatus.ts:2784-2814 | no blocker exactly when a readable payment fits a readable budget and a readable quote, and quote and execution do not name different providers |
| GatewayChecker.CheckExecute | src/phase7StagingStatus.ts:2426-2814 | no blocker exactly when request, content, providers and payment of the execution pass, whatever was found before |
| GatewayChecker.ExecutePassIff | src/phase7StagingStatus.ts:2426-2814 | after an accepted search and quote, that is the accepted execution, with equal summaries |
| GatewayChecker.CheckReceiptTerms | src/phase7StagingStatus.ts:2863-3029 | no blocker exactly when the nine texts of the receipt contradict neither provider record and the three read texts are there |
| GatewayChecker.TermsPassIff | src/phase7StagingStatus.ts:2863-3029 | with equal provider summaries, that is agreement on all nine texts |
| GatewayChecker.CheckReceiptEconomics | src/phase7StagingStatus.ts:3030-3101 | no blocker exactly when commission, fee and credit fit the rates wherever the required amount and the credit can be read |
| GatewayChecker.CheckReceipt | src/phase7StagingStatus.ts:2815-3102 | no blocker exactly when the receipt passes, whatever was found before; without a receipt id there is nothing to pass |
| GatewayChecker.ReceiptPassIff | src/phase7StagingStatus.ts:2815-3102 | after an accepted execution, that is the accepted receipt |
| GatewayTranscript.FindsStep | src/phase7StagingStatus.ts:3625-3657 | in the transcript of a run, each query finds its own request and, by the echoed id, its own answer if that is no error |
| GatewayTranscript.InExchanges | src/phase7StagingStatus.ts:3625-3646 | the searches over the exchanges of any list of steps |
| GatewayLog.TranscriptReadsBack | src/phase7StagingStatus.ts:2104-2132 | printing a transcript as JSON lines and splitting, trimming, parsing and filtering it gives the same lines, and no row is reported |
| GatewayProof.AcceptedProvidersAgree | src/phase7StagingStatus.ts:2595-2783 | in an accepted log the quoted, executed and selected provider have one summary, at one positive amount |
| GatewayProof.AcceptedIsExact | src/phase7StagingStatus.ts:2784-2796 | in an accepted log the payment is the provider's amount if and only if it can be read as an amount; then the receipt economics are exact |
| GatewayUnreadable.UnreadablePaymentIsAccepted | src/phase7StagingStatus.ts:2784-2817 | whatever log is accepted stays accepted when the payment, and the required amount of the receipt with it, is replaced by any non-empty text that is no amount |
| GatewayWitness.UnreadablePaymentExists | src/phase7StagingStatus.ts:2784-2817 | there is an accepted log whose payment is no amount |
| GatewayWitness.PromisedRun | src/phase7McpGatewayEvidence.ts:104-593 | for every listed provider that the settings can pay there is a ready run as promised, and the checker accepts it |
| GatewayWitness.UnreadableRankedRun | src/phase7McpGatewayEvidence.ts:722-759 | for each of them there is a ready run whose quote has unreadable ranked entries only, and the checker rejects it |
| GatewayWitness.TwoCapabilitiesRun | src/phase7StagingStatus.ts:2197-2213 | for each of them and any other listed provider of the same id there is a ready run with both capabilities that the checker rejects for this alone |
| JsonRead.PositiveReadersAgree | src/phase7McpGatewayEvidence.ts:1218-1220 | the collector's pattern for positive amounts and the checker's "atomic and above zero" read the same amounts |
| JsonRead.BasisPoints | src/phase7McpGatewayEvidence.ts:1191-1198 | exactly the integers from 0 to 10000 are read, as themselves |
| GatewayMessages.ReadProvider | src/phase7McpGatewayEvidence.ts:1002-1047 | a summary exists exactly when all twelve fields can be read, and holds exactly what they read |
| GatewayMessages.ProviderIff | src/phase7McpGatewayEvidence.ts:1002-1047 | a record is a provider summary exactly when eleven keys hold texts and its source is one of three, and the summary holds these texts |
| JsonRoundTrip.ParsePrinted | src/phase7SeedEnvApply.ts:122-129 | parsing the compact or indented text of any JSON value gives that value |
| JsonReformat.ParsedIsValid | src/phase7StagingReadCollector.ts:179-185 | every value the parser makes, with null for numbers beyond the double range, can be printed and parsed back |
| JsonReformat.ReformatNulls | src/phase7StagingReadCollector.ts:179-185 | reformatting a JSON text gives its value with null for every number beyond the double range |
| JsonReformat.ReformatKeepsValueIff | src/phase7StagingReadCollector.ts:179-185 | reformatting keeps the value if and only if no number in it is beyond the double range |
| JsonReformat.HugeNumber | src/phase7StagingReadCollector.ts:179-185 | `1e320` is read as Infinity and written as null |
| JsonScan.FindJsonObjectEnd | src/phase7StagingStatus.ts:3485-3517 | the scan loop returns the first position where depth comes back to 0, or none |
| JsonScan.ReadJsonObjectCandidate | src/phase6SignerPolicyEnvTemplate.ts:308-339 | the candidate is the text up to the scanner's end |
| JsonScan.ScanValue | src/phase7StagingStatus.ts:3485-3517 | inside braces, any text that parses as a value leaves depth and string state as they were |
| JsonScan.ScanObject | src/phase7StagingStatus.ts:3485-3517 | started on any object of the grammar, the scanner stops on its closing brace |
| JsonSearch.ScannerStopsAtPrintedEnd | src/phase7ReceiptVerificationEvidence.ts:167-199 | for any object value and any text around it, the scanner started at its brace stops exactly at its closing brace |
| JsonSearch.ScannerPassesPrintedValue | src/phase7ReceiptVerificationEvidence.ts:167-199 | scanning any printed value from depth d >= 1 comes back to depth d outside a string without returning |
| JsonSearch.CandidateIsObject | src/phase6SignerPolicyEnvTemplate.ts:308-339 | the scanner's candidate parses exactly when an object of the grammar starts there, and is its text |
| JsonSearch.PrintedObjectAt | src/phase6SignerPolicyEnvTemplate.ts:272-294 | a printed object is found at its own brace, with its own value, whatever surrounds it |
| JsonSearch.ParseFirstJsonObject | src/phase6SignerPolicyEnvTemplate.ts:272-294 | the result is the first object of the grammar anywhere in the text |
| JsonSearch.ParseJsonObject | src/phase6SignerPolicyEnvTemplate.ts:296-306 | the whole text if it is JSON, otherwise its first object |
| JsonSearch.FirstObjectAfterNoise | src/phase6SignerPolicyEnvTemplate.ts:272-306 | after noise without a brace, the printed object is found |
| JsonSearch.ExtractJsonObjectAroundProofEnv | src/phase7SeedEnvApply.ts:131-161 | the first object that starts before the first marker and holds a proofEnv object |
| JsonSearch.SeedObjectAfterNoise | src/phase7SeedEnvApply.ts:131-202 | after noise with neither brace nor marker, the printed seed object is found |
| JsonSearch.HasProofEnvIff | src/phase7SeedEnvApply.ts:150-152 | a value counts as the seed output exactly when it is an object whose last `proofEnv` member is an object |
| JsonSearch.ReadSummaryAround | src/phase7ReceiptVerificationEvidence.ts:83-101 | the object at the last brace before the last marker |
| JsonSearch.SummaryStartIff | src/phase7ReceiptVerificationEvidence.ts:83-101 | the search starts at the object's own brace exactly when no other brace stands between it and the marker |
| JsonSearch.SummaryAtLastMarker | src/phase7ReceiptVerificationEvidence.ts:83-101 | with the last marker inside a printed object and no brace between, the search finds the object, with its value |
| JsonSearch.SummaryIsRecovered | src/phase7ReceiptVerificationEvidence.ts:83-101 | a summary whose marker is a top-level key, whose earlier members print without a brace and whose marker does not occur again is recovered from any text around it |
| JsonSearch.NestedObjectIsFound | src/phase7ReceiptVerificationEvidence.ts:83-101 | an empty object printed right before the last marker is found instead of the summary around it |
| JsonSearch.NestedObjectHidesSummary | src/phase7ReceiptVerificationEvidence.ts:83-101 | a concrete summary that is hidden so |
| Lines.SplitJoinIff | src/productEvidenceInitPlan.ts:301-316 | joining and splitting on `\r?\n` gives the lines back exactly when no line but the last ends with a carriage return |
| Records.ParseProofRecord | src/phase7StagingProof.ts:207-220 | the fields are those that lines give, each with the trimmed text behind the colon of the last line that gives it |
| Records.EntryOfIff | src/phase7StagingProof.ts:207-220 | a line is read as an entry exactly when it is a name, a colon and a text of one line, and the entry holds that text trimmed |
| Records.ReplaceRecordField | src/productEvidenceInitPlan.ts:301-316 | line by line, every line that gives the field becomes `field: value`, every other line is kept, and exactly if no line gives it one is appended |
| Records.ReparseIff | src/productEvidenceInitPlan.ts:301-316 | reparsing the rewritten text gives the entries with the field updated exactly when no line kept ahead of another holds an entry only without its final carriage return, read off the lines of the original text |
| Records.IdempotentIff | src/productEvidenceInitPlan.ts:301-316 | rewriting twice is rewriting once exactly when no line of the original text that does not name the field and is kept ahead of another ends with a carriage return |
| Records.WithoutStrayCr | src/productEvidenceInitPlan.ts:301-352 | both conditions hold of every text whose carriage returns belong to single CRLFs |
| Records.DoubleCrBreaksRewriting | src/productEvidenceInitPlan.ts:301-352 | both conditions fail on `\r\r\n` |
| Records.ReadersAgree | src/productEvidenceInitPlan.ts:338-340 | after an update, first-wins and last-wins readers agree on the new value |
| RefreshPlan.AddMissingRecordFields | src/productEvidenceInitPlan.ts:318-336 | missing fields are appended, present ones kept |
| RefreshPlan.CreateSourceRefreshPlan | src/productEvidenceInitPlan.ts:175-263 | there is no plan exactly when some file that may be refreshed has a generated text without a source commit; otherwise a candidate is written, as its file with the new commit and the missing fields appended, exactly when its file exists and every entry is empty, of an allowed field or a placeholder, and skipped with exactly the other entries' fields, all in order |
| RefreshPlan.WrittenIff | src/productEvidenceInitPlan.ts:175-263 | in a plan over distinct paths, a candidate is written if and only if its file exists and holds nothing but empty values, allowed fields and placeholders |
| RefreshPlan.PlanIsDecisions | src/productEvidenceInitPlan.ts:175-263 | each write and each skip is the decision on a candidate, and each decision is there |
| RefreshPlan.ExactlyOne | src/productEvidenceInitPlan.ts:175-263 | every candidate is written or skipped, and not both |
| RefreshPlan.OnlyScaffoldsAreWritten | src/productEvidenceInitPlan.ts:286-299 | no file with a non-refreshable field is written |
| RefreshPlan.RefreshChangesOnlySourceCommit | src/productEvidenceInitPlan.ts:274-336 | a write changes only source_commit and appends the missing review fields |
| RefreshPlan.RefreshTwice | src/productEvidenceInitPlan.ts:274-336 | refreshing refreshed contents changes nothing |
| RefreshPlan.PlanIsFixpoint | src/productEvidenceInitPlan.ts:175-263 | planning again after the writes gives the same plan |
| RefreshPlan.WorkspacePlanIsFixpoint | src/productEvidenceInitPlan.ts:175-263 | the same for the three scaffolds of a workspace |
| EnvApply.ApplySeedProofEnv | src/phase7SeedEnvApply.ts:204-265 | line by line, a line that assigns a copied key, commented out or not, becomes its assignment and every other line is kept; the copied keys that no line assigns follow as one block under its comment, in the allowed order, ahead of a final empty line; values are written as they are if plain, otherwise as a JSON string that reads back; updated and skipped keys are reported in order |
| EnvApply.KeyOfIff | src/phase7SeedEnvApply.ts:227-232 | the regular expression finds a key in a line exactly if the line is white space, at most one number sign, the key, an equals sign and a text of one line |
| EnvApply.OtherLinesKept | src/phase7SeedEnvApply.ts:204-265 | lines that name no pending key keep content and order |
| EnvApply.AppliedAreSettled | src/phase7SeedEnvApply.ts:204-265 | every line naming a pending key, commented or not, becomes its assignment |
| EnvApply.PendingIsAssigned | src/phase7SeedEnvApply.ts:204-265 | every pending key is assigned at least once |
| EnvApply.ApplyTwiceIff | src/phase7SeedEnvApply.ts:204-304 | applying twice is applying once exactly when no line of the original text that names no pending key and is kept ahead of another ends with a carriage return, and no written value has a raw line separator |
| EnvApply.SeparatorBreaksApplyingTwice | src/phase7SeedEnvApply.ts:295-304 | a value with U+2028 is written raw and added again the second time |
| EnvApply.KeysArePartitioned | src/phase7SeedEnvApply.ts:204-273 | updated and skipped keys partition the allowed keys; none is reported twice |
| Transcript.ExtractBlocks | src/phase7CommandEvidence.ts:300-316 | one block for each line that shows a command, in order, with exactly the lines up to the next one that are not all white space |
| Transcript.TranscriptRoundTrip | src/phase7CommandEvidence.ts:300-316 | cutting a recording into blocks gives the recorded commands, normalised and in order, each with its non-blank output lines |
| Recorder.RunCommandWithRetry | src/phase7CommandRecorder.ts:190-206 | the result is that of the first attempt that succeeds, or of the last one, and no further attempt is made |
| Recorder.RecordCommand | src/phase7CommandRecorder.ts:130-175 | one turn of the recording loop: the saved output, the block and the failure of a command |
| Recorder.RecordCommandEvidence | src/phase7CommandRecorder.ts:113-188 | nothing changes if the output exists and force is off; otherwise every command's result is its first success or its last attempt, the report is ok exactly when each exited with 0 or has all its excusing markers in its output, the failed commands are listed in order, the text is the banner and one block a command, and every other path holds what the last successful command saved there or what it held |
| Recorder.RecordCommands | src/phase7CommandRecorder.ts:130-177 | the recording of a list of commands |
| RecorderEvidence.RecordingRoundTrip | src/phase7CommandRecorder.ts:130-226 | what the recorder wrote is read back as exactly the commands it ran, when no output line looks like a command |
| RecorderEvidence.HostedRecordingIsComplete | src/phase7CommandRecorder.ts:241-408 | a hosted recording shows every required command, whatever is printed and whatever single-line paths are used |
| RecorderEvidence.MissingRequired | src/phase7CommandEvidence.ts:95-99 | the missing commands are, in order, exactly the required ones whose words, or whose alternative's, no command line has |
| RecorderEvidence.CommandOfIff | src/phase7CommandEvidence.ts:340-362 | a line shows a command exactly if what is behind its `$` or PowerShell prompt, its words joined by single blanks, starts like one |
| RecorderEvidence.NormalizeIff | src/phase7CommandEvidence.ts:360-362 | normalising gives the words of any text, joined by single blanks |
| RecorderEvidence.PromptedCommand | src/phase7CommandEvidence.ts:340-346 | what is read from a recorded command line |
| RecorderEvidence.CoveredIsPresent | src/phase7CommandEvidence.ts:318-331 | a transcript shows every required command that its recorded commands cover |
| Manifest.CreateManifestStatus | src/phase7StagingStatus.ts:587-702 | each status under its exact condition: `valid` exactly when the attached manifest is `Judged`, `not_checked` without proof or files, `not_applicable` without an attachment, `invalid` exactly with a blocker; and for a reference to a URL, to nothing, or to a file that is missing or does not parse, the status it must be |
| Manifest.JudgedIff | src/phase7StagingStatus.ts:587-702 | a manifest with any schema and any entries is judged valid if and only if its schema is the generator's, it does not list itself, and every one of the twelve names the proof refers to has a last entry with that reference, marked remote for a URL, and for an attachment marked local with the size and hash of the file |
| Manifest.GeneratesIff | src/phase7StagingArtifactManifest.ts:49-101 | the generator succeeds if and only if every reference under the twelve names attaches a file, and its text reads as schema, the given texts, and one local entry a name, in order, with path, size and hash |
| Manifest.CheckManifest | src/phase7StagingStatus.ts:634-697 | no blocker exactly when schema, artifacts and every listed field are in order |
| Manifest.CheckField | src/phase7StagingStatus.ts:652-696 | no blocker exactly when the field's last entry has its reference, kind, hash and size |
| Manifest.IndexEntries | src/phase7StagingStatus.ts:642-647 | the Map holds the last well-formed entry of each field |
| Manifest.GeneratedEntry | src/phase7StagingArtifactManifest.ts:49-101 | the last generated entry of a field is the entry of that field |
| Manifest.GeneratedIsJudged | src/phase7StagingStatus.ts:587-702 | a manifest generated by one side is judged valid by the other, with its own path resolver, against any later store if and only if every artifact the generator found keeps size and hash where the verdict looks for it |
| Manifest.FreshIsJudged | src/phase7StagingArtifactManifest.ts:49-101 | written to a path that holds no artifact, a fresh manifest is judged valid |
| Manifest.ChangeIsJudged | src/phase7StagingStatus.ts:684-696 | any referenced artifact that is lost or changes size or hash makes the verdict invalid |
| Calendar.ReadsBackIff | src/mainnetCanaryEvidence.ts:375-389 | normalising through day numbers and reading back gives the same parts exactly for real proleptic Gregorian dates, for all integers |
| Calendar.PartsAreReal | src/mainnetCanaryEvidence.ts:375-389 | the parts of every day number form a real date |
| Calendar.IsoDateIff | src/phase7StagingProof.ts:240-252 | `isIsoDate` accepts exactly the real dates |
| Calendar.IsoCalendarDateIff | src/mainnetCanaryEvidence.ts:375-389 | `isIsoCalendarDate` accepts exactly the real dates from year 100 on |
| Price.AtomicUnitsAreFloor | src/payments/routes.ts:87-92 | for a price of any length, the canonical numeral of floor(price * 10^6) |
| Price.AtomicUnitsAreMonotone | src/payments/routes.ts:87-92 | the conversion is monotone |
| Price.AmountsEqualIff | src/payments/mockPaymentMiddleware.ts:113-123 | comparing canonical amounts as strings is comparing numbers |
| Settlement.SettlementStore.constructor | src/store/settlementStore.ts:23-25 | an empty log |
| Settlement.SettlementStore.Append | src/store/settlementStore.ts:27-30 | one record more, the file its text, and the append the next event |
| Settlement.SettlementStore.List | src/store/settlementStore.ts:32-46 | exactly the appended records |
| Settlement.SettlementStore.FindByPaymentId | src/store/settlementStore.ts:48-51 | the first record of the payment id |
| Settlement.LogDecodes | src/store/settlementStore.ts:27-46 | the file text decodes to exactly the appended records in order |
| Settlement.FindIsStable | src/store/settlementStore.ts:48-51 | once found, a payment id is found with the same record whatever is appended |
| Settlement.MockPaymentMiddleware.Handle | src/payments/mockPaymentMiddleware.ts:20-90 | the events of one request in order and the records they append; for every well-formed price, the record is appended, the header set and the handler run exactly when a request to the paid route has a payload with a usable identifier that offers scheme exact, the configured network, asset and payTo, and floor(price * 10^6) as a number, and record and response say so key by key; every other request is refused for its reason or passed on |
| Settlement.StepsFollow | src/payments/mockPaymentMiddleware.ts:20-123 | for every price and request, the steps are those that follow from the configuration and the payload field by field |
| Settlement.OffersIff | src/payments/mockPaymentMiddleware.ts:113-123 | a payload is accepted exactly when its five requirements are the configured ones, the amount as a number |
| Settlement.MockPaymentMiddleware.Settle | src/payments/mockPaymentMiddleware.ts:54-90 | the record is appended, the response header is set, and the handler is run, in this order |
| Settlement.Application.Next | src/payments/mockPaymentMiddleware.ts:88-90 | `next()` may run the paid handler only when the payment id is found in the store, and is itself an event |
| Settlement.PaidIff | src/payments/mockPaymentMiddleware.ts:20-123 | a request runs the paid handler, and appends a record, and is neither refused nor passed on, exactly when route, payload, identifier and the five requirements fit |
| Settlement.RunDecodes | src/payments/mockPaymentMiddleware.ts:20-90 | over every sequence of requests the file decodes to exactly the appended records in order, each of the configured payment |
| Settlement.PaidIsRecorded | src/payments/mockPaymentMiddleware.ts:62-90 | in every run the paid handler runs for an id only after a record of the id was appended and the header set; the id is found in the store as it then is, and with the same record ever after |
| Settlement.AmountMatchIsNumeric | src/payments/mockPaymentMiddleware.ts:113-123 | a canonical amount is accepted exactly when it is floor(price * 10^6) |
| Bundle.ValidateBundle | src/phase7StagingStatus.ts:1751-1915 | no blocker exactly when header and tool are complete and the five amounts are the split of the price at the tool's rates |
| Bundle.BuiltIff | src/phase7StagingStatus.ts:1751-1915 | a bundle with any values under its keys and any tools is accepted if and only if schema version and project are the demo's, the first tool of the paid name sells by POST under scheme exact for a positive amount at rates in range, and the expected economics are the floors and rests of that amount at those rates |
| Bundle.CheckAmounts | src/phase7StagingStatus.ts:1890-1914 | the comparisons by division accept exactly the split given by its bounds |
| Bundle.SplitIsUnique | src/phase7StagingStatus.ts:1890-1914 | for a payment and rates in range there is exactly one split |
| Bundle.BundleConserves | src/phase7StagingStatus.ts:1823-1914 | an accepted bundle conserves money, its commission is a floor, and no other split is accepted |
| ReadArtifacts.Validate | src/phase7StagingReadCollector.ts:208-237 | no blocker exactly when the artifact is in order for that side |
| ReadMeaning.AcceptedShows | src/phase7StagingStatus.ts:1343-1694 | on either side, any accepted artifact shows an active route, a positive total earned, positive campaign and route totals, a delivered event, an outstanding or accrued amount, or funds covered exactly where there is no deficit |
| ReadMeaning.DiscoveryIff | src/phase7StagingStatus.ts:1343-1382 | an artifact of routes with any values is accepted if and only if each route has one of its ids, its campaign and wallets, and one is active |
| ReadMeaning.BalanceIff | src/phase7StagingStatus.ts:1384-1437 | a balance with any values is accepted if and only if referrer and assets are named, all six amounts of each are canonical, and some total earned is positive |
| ReadMeaning.DashboardIff | src/phase7StagingStatus.ts:1439-1480 | a dashboard with any values is accepted if and only if the schema is its own, the merchant is a record, both totals are positive integers and both lists of active ids have an element |
| ReadMeaning.DeliveryIff | src/phase7StagingStatus.ts:1482-1516 | an artifact of events with any values is accepted if and only if each has type and status and one was delivered |
| ReadMeaning.PayoutIff | src/phase7StagingStatus.ts:1518-1570 | an obligation summary with any values, alone or nested, is accepted if and only if the schema is its own, all seven amounts of each asset are canonical, and something is outstanding or was accrued |
| ReadMeaning.FundingArtifactIff | src/phase7StagingStatus.ts:1618-1694 | an obligation summary with any values is accepted as funding if and only if the schema is its own, there is an asset, and each has an amount and is covered with deficit 0 or in deficit with a positive one |
| ReadArtifacts.ValidateDiscovery | src/phase7StagingStatus.ts:1343-1382 | no blocker exactly when every route is complete and one is active |
| ReadArtifacts.ValidateBalance | src/phase7StagingStatus.ts:1384-1437 | no blocker exactly when every asset is complete and one has positive earnings |
| ReadArtifacts.ValidateDashboard | src/phase7StagingStatus.ts:1439-1480 | no blocker exactly when the dashboard summary is complete |
| ReadArtifacts.ValidateDelivery | src/phase7StagingStatus.ts:1482-1516 | no blocker exactly when every event is complete and one is delivered |
| ReadArtifacts.ValidatePayout | src/phase7StagingStatus.ts:1518-1570 | no blocker exactly when every asset is complete and one shows an obligation |
| ReadArtifacts.ValidateFunding | src/phase7StagingStatus.ts:1618-1694 | no blocker exactly when there are assets and each is covered without a deficit or has one |
| ReadArtifacts.AcceptedOnBothSides | src/phase7StagingStatus.ts:3712-3724 | what the collector accepts the checker accepts, if and only if an obligation artifact's `summary` is absent, null or an object |
| ReadArtifacts.PlainSummaryDivides | src/phase7StagingReadCollector.ts:553-559 | a `summary` that is a plain value is accepted by the collector only |
| ReadArtifacts.CollectReads | src/phase7StagingReadCollector.ts:63-112 | a run writes all six artifacts or none |
| ReadArtifacts.InputIff | src/phase7StagingReadCollector.ts:63-112 | a run starts exactly when the base URL is one, merchant and referrer are given, and a given webhook status is a known one |
| ReadArtifacts.FormatNulls | src/phase7StagingReadCollector.ts:179-185 | an artifact is written with null for numbers beyond the double range, and keeps its value exactly when there are none |
| ReadArtifacts.CollectedIsChecked | src/phase7StagingReadCollector.ts:63-112 | every artifact on file has the fetched value, with null for numbers beyond the double range, and the checker accepts it exactly when its obligation summary is absent, null, an object or such a number |
| ReadArtifacts.CollectorIgnoresNulls | src/phase7StagingReadCollector.ts:208-237 | what the collector thinks of an artifact does not depend on numbers beyond the double range |
| CustodyRecords.RecordReadsBack | src/phase6EvidenceAssembly.ts:49-62 | a written record gives each of its keys its value, trimmed, and no other key a value |
| CustodyRecords.ReviewBundle | src/phase6CustodyReview.ts:99-188 | exactly the issues whose field is wrong: a commit that is no short or full lower-case hash, a policy network outside Solana, a network or wallet unlike the policy's, a token list of commas and white space, a maximum that is no positive numeral, a digest that is no `sha256:` and 64 hexadecimal digits |
| CustodyRecords.BundleReads | src/phase6EvidenceAssembly.ts:30-117 | a bundle key filled from a record reads back as the text given to the creator |
| CustodyRecords.PipelineCarries | src/phase6EvidenceAssembly.ts:30-117 | from single-line inputs the creators accept, every key of the assembled bundle reads as the input that belongs there, through two records and their parsing; other keys as their attachment, and the decision as no-go without one |
| CustodyRecords.PipelineIssues | src/phase6CustodyReview.ts:99-188 | from single-line inputs the creators accept, no issue but a missing token program, and that if and only if no item has more than commas and white space |
| CustodyRecords.CommaIsATokenProgram | src/phase6SignerPolicyReview.ts:80-86 | a complete image record and policy, accepted by both creators, whose only token program is a comma, and whose bundle the review finds without a token program |

## Left out

- Characters are Unicode scalar values: a lone surrogate has no character of its own, and its escape reads as U+FFFD.
- Rounding: a JSON number within the double range keeps its exact value instead of the nearest IEEE double, and two
  spellings of the same non-integer number are different values; overflow is modelled, underflow is not.
- Wording: blockers, banners, next actions and errors are structured values or parameters; the default command texts of
  the image-provenance record are inputs.
- Processes, fetch, environment and file system are given answers or maps; sleeping between retries is not modelled.
- URL parsing, path resolution, `TextDecoder`, SHA-256, x402 payload decoding and payment-identifier extraction are
  function parameters, so the theorems hold for all of them.
- The redaction of recorded output is an arbitrary function on texts.
- `GatewayCollector.Collect`: the gateway context is given as its execution mode; the report holds the summaries as
  records and not field by field.
- `GatewayChecker.CheckText`: how the proof record attaches the transcript and the discovery artifact is not modelled; the
  text and the attachment are parameters.
- `CustodyRecords.ReviewBundle`: missing and placeholder fields, attachment paths, the review date and the approval
  decision are not modelled; field names are a parameter, any spelling by distinct names of the record grammar.
- `ReadArtifacts.Validate`: the continuity tests between the artifacts are not modelled; the source has the validators in
  two copies, which are one method here with the two differing readers as a parameter, so that agreement of the shared
  tests is not a theorem.
- `Settlement.MockPaymentMiddleware.Handle`: logging, the encoding of the headers and the body of a refusal are not
  modelled.
- `RecorderEvidence.MissingRequired`: the tests on the output of the commands (git status, docker, health) are not
  modelled.
- `EnvApply.ApplySeedProofEnv`: the constant list of allowed keys is a parameter; argument parsing is not modelled.
- Public-surface, settings, checklist, readiness and canary-plan reports, templates, README generators, docker helpers:
  plain conjunctions of substring tests or texts.
- Ledger, payout engine, finality and router packages are not part of this model.
