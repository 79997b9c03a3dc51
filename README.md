# wb-parser reply pipeline, modelled in Dafny

This project models the core of a bot that answers customer reviews on the
Wildberries marketplace. The core covers five parts:

- **Reviews.** Raw feedback records become `WBReview` values: the client keeps only the records with enough text, and each review exposes `has_text`, `review_text` and `product_name` (`Models`, `WbClient`).
- **Admission and processing.** The processor asks the generator for a reply to each admitted review and records the result. A successful reply marks the review's id as processed, so a review is answered successfully at most once; a review whose reply comes back empty is recorded as a failure and is admitted again later (`Processor`).
- **Template replies.** A template is chosen by rating, and the `[имя]` placeholder is filled with the customer's name (`Templates`).
- **The Russian provider chain.** Yandex GPT and GigaChat are probed in priority order. The generator fails over to later providers, and finally to the templates (`RussianGenerator`).
- **Backend choice.** The facade picks a backend from the test mode and the settings, and forwards every call to it (`Generator`).

`Text` holds the string operations the Python code relies on. They are
`str.strip`, `str.replace`, `"\n".join`, `str(int)` and ASCII `isdigit`.
`Sequences` holds the order-preserving subsequence relation that states
how filtered and processed lists keep their input order.

The network is modelled as a script of outcomes that the coming remote
requests will get. `None` stands for an exception, a non-2xx status or a
missing token. The Russian generator logs every request it sends.

The review processor is a class with the mutable `processedIds` set. It is
proved against `Run`, a pure function over the reviews, and the lemmas about
`Run` state what processing promises. `Run` takes the text checks of
`should_process` as a parameter, so its lemmas hold for any such filter; the
processor passes `Processor.Eligible`.

The Russian generator is a class too. Its methods are proved against pure
functions: `FirstPassing` for the probing loops and `Generate` for one call of
`generate_reply`. `Generate` takes the built prompt as a parameter. The loop
of `_try_next_provider` is its own method, `ProbeInOrder`.

Some behaviour of the code is easy to misread:

- **Noise filter.** The digit rule rejects only a stripped text *shorter* than 5 characters that contains a digit. `"5 5 5"` has stripped length 5, so it is admitted (`Processor.FiveFiveFiveNotNoise`).
- **Empty replies.** `generate_reply` returns `""` when a remote answer is just `[имя]` and the customer has no name (`RussianGenerator.PlaceholderOnlyAnswerGivesEmptyReply`). The processor then records `success = false` and leaves the id unprocessed.
- **Rating.** The rating is not checked to lie in 1..5. It defaults to 5 only when the key is missing.
- **Sections of `review_text`.** A field becomes a section when it is non-empty *and* not blank after stripping. The labels are `Отзыв: `, `Преимущества: ` and `Недостатки: `.
- **No-content answer.** On HTTP 204 `_make_request` returns a null `data`, and `get_unanswered_reviews` then raises `AttributeError` instead of returning a list (`WbClient.GetUnansweredReviews`).

## Model

| member | source | states |
|---|---|---|
| Text.TrimLeftShape | src/api/models.py:27-29 | `strip`'s left trim drops exactly a whitespace prefix, and what remains does not start with whitespace |
| Text.TrimRightShape | src/api/models.py:27-29 | the right trim drops exactly a whitespace suffix, and what remains does not end with whitespace |
| Text.BlankIffAllSpace | src/api/models.py:38 | a string strips to empty iff every character is whitespace |
| Text.StripIsCore | src/ai/templates.py:19 | the stripped string is a contiguous slice of the original |
| Text.StripPadded | src/ai/templates.py:18-19 | whitespace padding on either side does not change the stripped result |
| Text.TrimLeftPadded | src/ai/templates.py:19 | leading whitespace does not change the left trim |
| Text.TrimRightPadded | src/ai/templates.py:19 | trailing whitespace does not change the right trim |
| Text.TrimLeftAllSpace | src/ai/templates.py:18 | an all-whitespace string trims to empty |
| Text.TrimLeftKeepsTail | src/ai/templates.py:19 | once a non-space character is reached, appended text is kept verbatim |
| Text.StripIdempotent | src/ai/templates.py:19 | stripping twice equals stripping once |
| Text.StripUnpadded | src/api/models.py:27 | a string without whitespace at either end strips to itself |
| Text.ReplaceSkipsPrefix | src/ai/templates.py:20 | `replace` leaves untouched a prefix that contains no occurrence of the pattern |
| Text.ReplaceNoMatch | src/ai/templates.py:21 | a text without the pattern is unchanged by `replace` |
| Text.ReplaceFirstMatch | src/ai/templates.py:20 | the first occurrence is replaced and the scan resumes after it |
| Text.ReplaceLength | src/ai/templates.py:20-21 | result length = original length + count × (replacement length − pattern length) |
| Text.ReplaceBySelf | src/ai/templates.py:20 | replacing a pattern by itself is the identity |
| Text.JoinStartsWithFirst | src/api/models.py:47 | a newline join starts with its first part |
| Text.JoinThree | src/api/models.py:47 | joining three parts interleaves the separator exactly twice |
| Text.DigitChar | src/ai/russian_generator.py:241 | each decimal digit is rendered as an ASCII digit character |
| Text.NatToString | src/ai/russian_generator.py:241 | `str(n)` is a non-empty string of digits |
| Text.NatToStringRoundTrip | src/ai/russian_generator.py:241 | parsing the digits of `str(n)` gives back `n` |
| Templates.SentimentFor | src/ai/templates.py:7-12 | rating ≥ 4 gives positive, ≤ 2 negative and exactly 3 neutral, each as an iff |
| Templates.GetFallbackResponse | src/ai/templates.py:5-14 | the reply is the bucket's template with the name placeholder filled |
| Templates.PlaceholderGetsStrippedName | src/ai/templates.py:16-21 | every `[имя]` becomes the stripped name (the empty string for a blank name) |
| Templates.BlankNameDeletesPlaceholder | src/ai/templates.py:21 | with a blank name each placeholder disappears, shortening the text by 5 per occurrence |
| Templates.NoPlaceholderUnchanged | src/ai/templates.py:16-21 | a template without `[имя]` comes back unchanged for every name |
| Templates.PaddedNamesAgree | src/ai/templates.py:18-19 | names differing only by surrounding whitespace give the same text |
| Templates.FirstPlaceholderGetsName | src/ai/templates.py:18-20 | the first placeholder is replaced by the stripped name, with the text before it untouched |
| Templates.FallbackDeterministic | src/ai/templates.py:5-14 | the template reply depends only on the rating's bucket and the stripped name |
| Models.WBReview.ProductName | src/api/models.py:18-21 | the product name is `productDetails.productName`, or `""` when absent |
| Models.FromRaw | src/api/models.py:6-16 | each of the ten fields is copied from the record when present, or takes its default when the key is missing (rating 5, flags false, strings empty, no product name) |
| Models.HasTextIffLongField | src/api/models.py:23-31 | `has_text` iff text, pros or cons has stripped length above 3 |
| Models.EmptyFieldsHaveNoText | src/api/models.py:23-31 | a review with empty text, pros and cons has no text |
| Models.SectionsCount | src/api/models.py:36-45 | one section per non-blank field |
| Models.SectionsLabelled | src/api/models.py:36-47 | every section is one of the three labels followed by its field, so it starts with a label; the first section never starts with the sentinel's first character |
| Models.ReviewTextSentinelIff | src/api/models.py:33-47 | `review_text` is non-empty, and it is the sentinel iff all three fields are blank |
| Models.HasTextNotSentinel | src/api/models.py:23-47 | a review with text never gets the sentinel |
| Models.ReviewTextOpensWithText | src/api/models.py:38-39 | a non-blank text field opens `review_text` as `Отзыв: <text>` |
| Models.SectionsAllPresent | src/api/models.py:36-45 | with all three fields present the sections are text, pros and cons in that order |
| Models.ReviewTextAllFields | src/api/models.py:33-47 | with all three fields present, `review_text` is the three labelled lines joined by newlines |
| Processor.Admits | src/core/processor.py:12-23 | an already processed id, a review without text, or a short text with a digit is rejected; anything else is admitted |
| Processor.Run | src/core/processor.py:25-77 | processing only adds ids and emits at most one result per review |
| Processor.RunResultsFaithful | src/core/processor.py:47-75 | each result is for a review that passes the text checks: success with its reply when the reply is non-empty, else failure with an empty reply |
| Processor.RunSkipsProcessed | src/core/processor.py:14-15 | no result is for an id that was already processed when the batch started |
| Processor.RunProcessedIds | src/core/processor.py:61-67 | the processed set grows by exactly the ids of successful results |
| Processor.SuccessIdsCons | src/core/processor.py:61-67 | the successful ids of a result list are those of its head plus those of its tail |
| Processor.SuccessIsFinalCons | src/core/processor.py:61-67 | a result may go in front of a list without repeats after successes when, if successful, its id is one the list never mentions |
| Processor.RunSuccessIsFinal | src/core/processor.py:14-15 | after a successful result, no later result has the same id |
| Processor.RunKeepsOrder | src/core/processor.py:33 | the reviews of the results form a subsequence of the input, in input order |
| Sequences.SubsequenceSkip | src/core/processor.py:47-49 | a skipped review does not break the subsequence relation |
| Sequences.SubsequenceDrop | src/core/processor.py:33 | dropping the first result keeps the subsequence relation |
| Processor.RunConcat | src/core/processor.py:33-77 | processing two batches in a row equals processing their concatenation |
| Processor.RunAnswersEveryFreshReview | src/core/processor.py:12-23 | fresh, admissible reviews with distinct ids each get exactly one result |
| Processor.RunAnswersAdmissible | src/core/processor.py:25-77 | for a batch of fresh reviews with distinct ids, the reviews of the results are exactly the admissible reviews of the batch, in batch order, whatever the generator answers |
| Processor.ReviewProcessor.constructor | src/core/processor.py:8-10 | a new processor keeps the given generator and starts with no processed ids |
| Processor.RunDuplicateAnsweredOnce | src/core/processor.py:14-15 | a review answered successfully and then repeated is answered only once |
| Processor.LongTextNotNoise | src/core/processor.py:20 | a text of stripped length 5 or more is never rejected as noise |
| Processor.FiveFiveFiveNotNoise | src/core/processor.py:20 | `"5 5 5"` strips to itself and is not rejected as noise |
| Processor.ContinuesStep | src/core/processor.py:47-75 | each iteration (skip, record a success and add the id, or record a failure) keeps "results so far, then the rest's results, make up the whole run" |
| Processor.ReviewProcessor.ProcessReviews | src/core/processor.py:25-77 | the results and the new processed set are exactly those of `Run` from the old set |
| RussianGenerator.Request | src/ai/russian_generator.py:73-87 | Yandex GPT and GigaChat send one logged request and take the next outcome; any other provider gets `None` without a request |
| RussianGenerator.WellFormedTableShape | src/ai/russian_generator.py:24-48 | a built table lists remote providers without repeats and ends with FALLBACK |
| RussianGenerator.IndexOf | src/ai/russian_generator.py:209 | the index found holds the provider, and no earlier position does |
| RussianGenerator.IndexOfPosition | src/ai/russian_generator.py:209 | in a built table a provider's index is its unique position |
| RussianGenerator.SelectionWalksRemotes | src/ai/russian_generator.py:53-54 | the selection loop visits exactly the table's remote providers, in table order |
| RussianGenerator.ConfiguredSelection | src/ai/russian_generator.py:53-54 | the selection order yields Yandex GPT, then GigaChat, each only when it is in the table |
| RussianGenerator.SelectionStaysInTable | src/ai/russian_generator.py:50-62 | initial selection always settles on a provider of the table |
| RussianGenerator.FirstPassing | src/ai/russian_generator.py:207-220 | probing ends on FALLBACK or on a remote candidate, with at most one probe per candidate |
| RussianGenerator.ProbesOfWiden | src/ai/russian_generator.py:212-213 | probes of the later candidates are probes of the whole candidate list |
| RussianGenerator.ProbesOfConcat | src/ai/russian_generator.py:212-213 | two probe logs over the same candidates concatenate to one |
| RussianGenerator.ProbesAreTests | src/ai/russian_generator.py:64-71 | probing sends only the test prompt, and only to remote candidates |
| RussianGenerator.OutcomeAtAdvance | src/ai/russian_generator.py:73-87 | after one answered request, the script's outcomes shift by one |
| RussianGenerator.FirstPassingPicksFirst | src/ai/russian_generator.py:50-58 | the first remote candidate whose probe passes is chosen, after probing each earlier one once |
| RussianGenerator.FirstPassingNonePass | src/ai/russian_generator.py:60-61 | when no probe passes, every candidate is probed once, in order, with the test prompt, and FALLBACK is chosen |
| RussianGenerator.FirstPassingIgnoresFallback | src/ai/russian_generator.py:212-213 | a FALLBACK at the end of the candidates changes neither the choice, the probes nor the script left |
| RussianGenerator.LaterPicksFirst | src/ai/russian_generator.py:209-216 | probing the entries after position `i` probes them in table order and stops at the first remote provider that passes |
| RussianGenerator.LaterNonePass | src/ai/russian_generator.py:209-219 | when no later remote provider passes, each is probed once in table order and FALLBACK is chosen |
| RussianGenerator.FailoverOutcome | src/ai/russian_generator.py:194-205 | after a failed call the reply is the template, the new provider is what probing the later entries chooses, and the log is the failed request then those probes |
| RussianGenerator.FailoverPicksFirstLater | src/ai/russian_generator.py:192-220 | after a failed call, the first later provider whose probe passes becomes current, after probing each later one before it in order |
| RussianGenerator.FailoverFallsBackWhenNoneAnswer | src/ai/russian_generator.py:192-220 | after a failed call with no later provider answering, every later provider is probed once in order and FALLBACK becomes current |
| RussianGenerator.InitialSelectionPicksFirstHealthy | src/ai/russian_generator.py:50-58 | initial selection makes the first configured provider that answers current |
| RussianGenerator.InitialSelectionFallsBack | src/ai/russian_generator.py:60-62 | when no configured provider answers, FALLBACK becomes current |
| RussianGenerator.BuildPromptFrame | src/ai/russian_generator.py:238-253 | the prompt quotes the review text after its opening line and ends with the instructions |
| RussianGenerator.ReviewContextPlaceholderIff | src/ai/russian_generator.py:226-234 | "Дополнительная информация не указана" appears iff product, pros and cons are all empty |
| RussianGenerator.ReviewContextOpensWithProduct | src/ai/russian_generator.py:227-228 | a product name, when given, opens the context block |
| RussianGenerator.ReviewInfoLines | src/ai/russian_generator.py:226-232 | the block has one line per non-empty field among product, pros and cons, and each field's line is present iff that field is non-empty |
| RussianGenerator.NameContextPlaceholderIff | src/ai/russian_generator.py:236 | "Имя покупателя не указано" appears iff the name is empty |
| RussianGenerator.FallbackIsAbsorbing | src/ai/russian_generator.py:192-205 | on FALLBACK no request is sent and the template reply is returned |
| RussianGenerator.RemoteAnswerKeepsProvider | src/ai/russian_generator.py:192-199 | a non-empty answer is returned with the name filled in, one request is logged, and the provider stays |
| RussianGenerator.FailedCallFallsBack | src/ai/russian_generator.py:200-220 | after a failed call the template reply is returned and the new provider is a later one or FALLBACK |
| RussianGenerator.FailedCallProbesOnlyLater | src/ai/russian_generator.py:194-213 | after a failed call, that request is logged first and only providers after the current one are probed |
| RussianGenerator.RemoteBeforeFallback | src/ai/russian_generator.py:24-48 | a table entry other than FALLBACK is remote and comes before FALLBACK |
| RussianGenerator.ProbesHaveLaterIndex | src/ai/russian_generator.py:209-213 | probes of the providers after position `i` all go to providers indexed above `i` |
| RussianGenerator.LaterIndex | src/ai/russian_generator.py:209-210 | a provider after position `i` has an index above `i` |
| RussianGenerator.GenerateIsMonotone | src/ai/russian_generator.py:183-220 | the current provider stays in the table, its index never decreases, and FALLBACK is final |
| RussianGenerator.PlaceholderOnlyAnswerGivesEmptyReply | src/ai/russian_generator.py:196-199 | a remote answer of just `[имя]` for a nameless customer yields the empty reply |
| RussianGenerator.ResumesPassing | src/ai/russian_generator.py:55-58 | a passing probe ends the walk on that provider, with its one probe as the last logged request |
| RussianGenerator.ResumesFailing | src/ai/russian_generator.py:212-213 | a failing probe is logged and the walk resumes on the later candidates |
| RussianGenerator.ResumesSkipping | src/ai/russian_generator.py:213 | FALLBACK is skipped without a request |
| RussianGenerator.LaterAreProbeable | src/ai/russian_generator.py:209-213 | every provider after the current one is FALLBACK or a remote provider of the table |
| RussianGenerator.RussianAIGenerator.constructor | src/ai/russian_generator.py:16-22 | the table has Yandex GPT and GigaChat iff their keys are set, and the current provider is the first one to pass its probe |
| RussianGenerator.RussianAIGenerator.InitializeProviders | src/ai/russian_generator.py:24-48 | the table is well formed, has each remote provider iff its key is set, and never Kandinsky |
| RussianGenerator.RussianAIGenerator.SelectProvider | src/ai/russian_generator.py:50-62 | the new provider, the script and the log are exactly those of probing the configured providers |
| RussianGenerator.RussianAIGenerator.TestProvider | src/ai/russian_generator.py:64-71 | a provider outside the table fails with nothing sent; otherwise one probe decides |
| RussianGenerator.RussianAIGenerator.MakeRequest | src/ai/russian_generator.py:73-87 | the response, script and log follow `Request` |
| RussianGenerator.RussianAIGenerator.GenerateReply | src/ai/russian_generator.py:183-205 | the reply, the new provider, the script and the log are those of `Generate` |
| RussianGenerator.RussianAIGenerator.TryNextProvider | src/ai/russian_generator.py:207-220 | the new provider is the first later one to pass its probe, or FALLBACK, and the table invariant holds |
| RussianGenerator.RussianAIGenerator.ProbeInOrder | src/ai/russian_generator.py:212-220 | the new provider, the script and the log are exactly those of probing the candidates in order |
| Generator.SelectBackend | src/ai/generator.py:13-28 | templates in test mode; otherwise Russian iff `AI_PROVIDER` is "russian" and a key is set, free iff it is "free", else templates |
| Generator.RussianWithoutKeysUsesTemplates | src/ai/generator.py:20-28 | asking for the Russian providers without keys falls back to templates |
| Generator.AIGenerator.constructor | src/ai/generator.py:13-28 | only the selected backend is built, so only it probes the network |
| Generator.AIGenerator.GenerateReply | src/ai/generator.py:30-32 | the selected backend answers with the six arguments passed through unchanged |
| WbClient.KeepRecordIffHasText | src/api/wb_client.py:122-125 | the client's record filter is exactly `has_text` of the review built from the record |
| WbClient.BuildAll | src/api/wb_client.py:122 | one review per record, built from that record, in record order |
| WbClient.FilterFeedbacks | src/api/wb_client.py:121-128 | every kept review has text, every record with text is kept, and the result is an in-order subsequence of the reviews built from the records |
| WbClient.FilterConcat | src/api/wb_client.py:122-125 | filtering a concatenation filters each part |
| WbClient.FilterKeepsAll | src/api/wb_client.py:122-125 | when every record has text, all are kept, in order |
| WbClient.FilterDropsAll | src/api/wb_client.py:122-125 | when no record has text, nothing is returned |
| WbClient.TestReviews | src/api/wb_client.py:196-224 | test mode yields the two fixtures `test_review_1` and `test_review_2` |
| WbClient.TestReviewsHaveText | src/api/wb_client.py:196-224 | both fixtures have text |
| WbClient.GetUnansweredReviews | src/api/wb_client.py:74-128 | test mode returns the fixtures; an error response returns no reviews; a null `data` raises `AttributeError`, and only then; otherwise the result is exactly the in-order filter of the records, and every review returned has text |
| WbClient.TruncateReply | src/api/wb_client.py:142 | the posted text is a prefix of the reply, at most 5000 characters, and the whole reply when it fits |
| WbClient.TruncateIdempotent | src/api/wb_client.py:142 | truncating twice equals truncating once |
| WbClient.PostReplyToReview | src/api/wb_client.py:130-152 | test mode sends nothing and succeeds; otherwise the id and the truncated reply are sent, and the post succeeds iff the response has no error |
| Text.Strip | src/api/models.py:27-29 | definition of `str.strip()`: the left trim, then the right trim, over Python's whitespace set; its promises are in `TrimLeftShape`, `TrimRightShape`, `StripIsCore` and `StripIdempotent` |
| Text.ReplaceAll | src/ai/templates.py:18-21 | definition of `str.replace`: a left-to-right scan that replaces non-overlapping occurrences; its promises are in `ReplaceSkipsPrefix`, `ReplaceFirstMatch`, `ReplaceNoMatch` and `ReplaceLength` |
| Text.Join | src/api/models.py:47 | definition of `sep.join(parts)`; its promises are in `JoinStartsWithFirst` and `JoinThree` |
| Text.IntToString | src/ai/russian_generator.py:241 | definition of `str(n)` for an `int`: a minus sign for negatives, then `NatToString`'s digits, which `NatToStringRoundTrip` reads back |
| Templates.TemplateFor | src/ai/templates.py:7-12 | definition of the template choice by bucket; `SentimentFor` states the buckets and `GetFallbackResponse` the template each rating gets |
| Templates.ReplaceNamePlaceholder | src/ai/templates.py:16-21 | definition of `replace_name_placeholder`; its promises are in `PlaceholderGetsStrippedName`, `BlankNameDeletesPlaceholder`, `NoPlaceholderUnchanged`, `PaddedNamesAgree` and `FirstPlaceholderGetsName` |
| Models.WBReview.HasText | src/api/models.py:23-31 | definition of `has_text`; `HasTextIffLongField` and `WbClient.KeepRecordIffHasText` state what it means |
| Models.WBReview.Sections | src/api/models.py:36-45 | definition of the labelled sections; `SectionsCount`, `SectionsLabelled` and `SectionsAllPresent` state their number, labels and order |
| Models.WBReview.ReviewText | src/api/models.py:33-47 | definition of `review_text`; `ReviewTextSentinelIff`, `ReviewTextOpensWithText` and `ReviewTextAllFields` state its promises |
| Processor.DigitNoise | src/core/processor.py:20-21 | definition of the noise rule; `LongTextNotNoise` and `FiveFiveFiveNotNoise` state where it stops |
| Processor.Eligible | src/core/processor.py:17-21 | definition of the text checks of `should_process`; `Admits` states each rejection |
| Processor.Admissible | src/core/processor.py:33-49 | definition of the reviews of a batch that pass the text checks, in batch order; `RunAnswersAdmissible` states that they are the reviews answered |
| Processor.RequestFor | src/core/processor.py:52-59 | definition of the arguments handed to the generator: the combined review text, product name, rating, name, pros and cons |
| Settings.HasRussianAi | src/config/settings.py:29-32 | definition of `has_russian_ai`: a Yandex or a GigaChat key is set; `Generator.SelectBackend` states how it picks the backend |
| Processor.ReviewProcessor.ShouldProcess | src/core/processor.py:12-23 | a review is processed iff its id is not yet processed, it has text, and it is not a short text with a digit |
| RussianGenerator.Passes | src/ai/russian_generator.py:69 | definition of the probe verdict and of the test in `generate_reply`: a present, non-empty response |
| RussianGenerator.Generate | src/ai/russian_generator.py:183-220 | definition of one `generate_reply` call; `FallbackIsAbsorbing`, `RemoteAnswerKeepsProvider`, `FailoverPicksFirstLater`, `FailoverFallsBackWhenNoneAnswer` and `GenerateIsMonotone` state its promises |
| RussianGenerator.BuildPrompt | src/ai/russian_generator.py:222-253 | definition of `_build_prompt`; `BuildPromptFrame` states its frame |
| RussianGenerator.ReviewInfo | src/ai/russian_generator.py:226-232 | definition of the `info_parts` list; `ReviewInfoLines` states which lines it holds |
| RussianGenerator.ReviewContext | src/ai/russian_generator.py:226-234 | definition of the product, pros and cons block; `ReviewInfoLines`, `ReviewContextPlaceholderIff` and `ReviewContextOpensWithProduct` state its promises |
| RussianGenerator.Configured | src/ai/russian_generator.py:53-54 | definition of the providers `_select_provider` may probe; `ConfiguredSelection` states them |
| RussianGenerator.NameContext | src/ai/russian_generator.py:236 | definition of the name line; `NameContextPlaceholderIff` states its promise |
| WbClient.KeepRecord | src/api/wb_client.py:122-125 | definition of the comprehension's condition; `KeepRecordIffHasText` states that it is `has_text` |

## Left out

- HTTP, authentication, the rate limiter, the scheduler and manager loops, Telegram notifications, logging and every `print` are left out. The network appears only as the script of outcomes and as the decoded API responses.
- The Yandex GPT and GigaChat request bodies, the GigaChat token exchange and response parsing are left out. Each call's result is the next scripted outcome.
- `PROVIDER_CONFIGS`, timeouts, temperatures and the other float settings are left out; no decision in the core depends on them.
- `DEFAULT_RESPONSES` (src/config/constants.py) is not part of this model. The templates are a `DefaultResponses` parameter.
- `FreeAIGenerator` and `FallbackAIGenerator` (free_generator.py, fallback_generator.py) are not part of this model. They are function parameters of `Generator.AIGenerator`.
- The processor's `ai_generator` is a function parameter. Its state changes, such as a provider switch inside a Russian generator, are not threaded through `ProcessReviews`.
- JSON `null` values and values of the wrong type inside raw records are left out. A record field is either present with the expected type or missing.
- `Text.IsDigit` covers ASCII digits only. Python's `str.isdigit` also accepts other Unicode digits, such as superscripts.
- `Text.IsSpace` is Python's fixed set of whitespace code points. No Unicode normalisation or case folding is modelled.
- The query parameters of the feedback fetch (`take`, `skip`, `order`) and the `has_unseen_feedbacks` and `get_unanswered_count` calls are left out. They only shape the HTTP request or report statistics.
- The Kandinsky provider is never added to a table. `_make_request` would raise `KeyError` for it at `self.providers[provider]`, outside its `try`, and only `_test_provider`'s bare `except` would turn that into `False`. No modelled path reaches that lookup, so the model keeps Kandinsky in the enumeration only.
- RussianGenerator.RussianAIGenerator.constructor: the Python starts `current_provider` at `None` before selection; the model starts at FALLBACK, which the selection always overwrites.
