# AbituriyentTelegramBot: a Dafny model of the recommendation engine and the conversation

A Telegram bot for university applicants (`main_bot.py`). It offers a fixed list
of entrance-exam subject pairs. The applicant picks one, then types a score.
The bot checks the payment settings, loads the university catalog
(`universities.json`) and compares the score with the lowest contract floor
of the programs that ask for that pair. The code evidently means the bot to
compute the five best programs, store them and ask for a payment, and to show
the stored programs once the payment gateway reports status 1: the
recommendation function takes the user data as its one parameter
(main_bot.py:234), and `handle_payment_check` and `show_final_results`
(main_bot.py:201-232) display the stored recommendations. As written, the call at
main_bot.py:182 passes the wrong number of arguments, so that step always
raises and the applicant gets the technical-error reply (see Findings). The
model has both: `Conversation.GetBallAsWritten` for the code as written, and
`Conversation.GetBallStep`, which `Session` follows, for the intended call.

The modules follow the parts of `main_bot.py`:

- `Py`: the Python values the bot touches. JSON values, truthiness, `dict.get`,
  `len`, iteration and `==` on numbers. A Python exception is the `Raised` case
  of `Result`.
- `Text`: the `str` operations used: `lower`, `strip`, `in`, `replace`,
  `split`, `capitalize`, `str(int)`, and string order as `max` uses it.
- `Normalizer`: `normalize_string`. The model has it as written and as
  intended (see Findings).
- `Catalog`: the walk over institutions and their programs, and the
  two-subject test shared by both scans.
- `Eligibility`: `get_minimum_passing_score`. It is a function of the
  pair and the catalog, plus an imperative method with the source's nested
  loops, proved equal to that function.
- `Ranking`: `find_recommendations`. It covers the grant and contract series,
  grant-first status resolution, rounding, the skip-on-error `try`, and the
  stable descending sort cut to five. It is a function of the pair, the ball
  and the catalog, plus an imperative method with the loops, proved equal to
  that function.
- `Pairs`: the list of pair buttons, and how `select_pair` splits a button's
  callback data back into two subjects.
- `Transaction`: the `"abt-<chat id>-<unix time>"` transaction id, and reading
  it back.
- `Conversation`: the `ConversationHandler` state machine.
  - Its states are `SELECT_PAIR`, `GET_BALL`, `AWAITING_PAYMENT_CHECK` and `END`.
  - Each handler is a step function over the user data. The class `Session`
    holds the state, the user data and the messages sent; its methods change
    these fields in place.
  - The environment, the loaded catalog, the chat id, the clock and the
    gateway's answer are inputs (`World`, `gateway`).

Where the code behaves in a way a reader of the bot's messages might not
expect, the model follows the code:

- A score that is not a number ends the conversation with the technical-error
  reply. `float(text)` raises inside `get_ball`'s `try`. It does not re-prompt.
- Programs are ranked by the rounded `passing_score`, the value the records
  carry.
- `normalize_string` is not idempotent. `Normalizer.NotIdempotent` exhibits
  `"oo''"`.
- A malformed program makes `get_minimum_passing_score` raise, which ends the
  conversation. Only `find_recommendations` skips such a program. An
  institution that cannot be walked makes both raise.
- The payment settings are read from environment variables literally named
  `"79052"`, `"43826"`, `"1hXIYh3WSJlV"` and `"AbituriyentINFO_bot"`
  (main_bot.py:25-28). `Conversation.Configured` tests exactly those names.
- A `/start` does not clear the stored user data.

## Model

| member | source | states |
|---|---|---|
| Normalizer.NormalizeWith | main_bot.py:100-104 | non-strings give `""`; a text holding either exam marker gives the one creative-exam label; any other result is lower-case with no outer whitespace |
| Normalizer.CreativeExamIsFixed | main_bot.py:102-103 | the creative-exam label normalizes to itself |
| Normalizer.NotIdempotent | main_bot.py:104 | `"oo''"` normalizes to `"oo'"`, which normalizes to `"oo"`: a second pass can change the result |
| Normalizer.SecondPassStable | main_bot.py:100-104 | a second pass changes nothing once no marker and no apostrophe variant is left in the result |
| Normalizer.MisencodedVariantNeverOccurs | main_bot.py:104 | the first pattern as written holds a capital, so it never occurs in lowered text and its `replace` never changes anything |
| Normalizer.AsWrittenFoldsOnlyStraight | main_bot.py:100-104 | as written, only the straight `o'` is folded |
| Normalizer.AsWrittenSplitsSpellings | main_bot.py:104 | as written, `O‘zbek` and `O'zbek` normalize to different keys |
| Normalizer.IntendedJoinsSpellings | main_bot.py:104 | with the intended pattern, both spellings normalize to `ozbek` |
| Normalizer.CurlyFoldedLikeStraight | main_bot.py:104 | with the intended pattern, writing U+2018 where `'` was written changes only the quotes the folds leave in place |
| Normalizer.FoldStraightUzbek | main_bot.py:104 | the straight fold turns `o'zbek` into `ozbek` |
| Normalizer.FoldCurlyUzbek | main_bot.py:104 | the intended curly fold turns `o‘zbek` into `ozbek` |
| Text.StripRemovesOnlySpace | main_bot.py:104 | `strip` removes whitespace from both ends and nothing else |
| Text.SplitJoin | main_bot.py:156 | joining the pieces of `split(sep)` with `sep` gives the text back |
| Text.NatRoundTrip | main_bot.py:185 | the decimal text of a natural number reads back as that number |
| Text.IntRoundTrip | main_bot.py:185 | the decimal text of an integer, negative ones included, reads back as that integer |
| Text.MaxIndexIsMaximal | main_bot.py:117 | no key is greater than the one `max(keys)` picks |
| Pairs.PairOfLabel | main_bot.py:156 | a button label `"A - B"` of two subjects with no `-` and no outer space splits back into `A`, `B` |
| Pairs.PairOfWithoutSeparator | main_bot.py:156 | callback data with no `-` gives its stripped text as both subjects |
| Pairs.ButtonsSplitIntoTheirPair | main_bot.py:145-159 | every button `start` builds from the 32 active pairs of lines 34-90 splits back into that pair |
| Catalog.EntriesOf | main_bot.py:109-110 | the walk succeeds exactly when every institution's program list can be walked; every visited program's institution is a dict in the list |
| Catalog.SubjectsMatchMeansPair | main_bot.py:111-114 | the subject test accepts a program exactly when its `fanlar` holds two dicts tagged 1 and 2 whose normalized names are the user's pair, in that order |
| Eligibility.LatestYear | main_bot.py:117 | the latest year is the key `max` returns: no key is greater |
| Eligibility.FloorsMinRaisedPrefix | main_bot.py:109-119 | once a program of the walk raises, the whole scan raises |
| Eligibility.FloorsMinOk | main_bot.py:109-119 | a scan that does not raise visited no program that raises |
| Eligibility.FloorsMinNone | main_bot.py:108-120 | no minimum exactly when no visited program contributes a score |
| Eligibility.FloorsMinSome | main_bot.py:116-120 | a minimum is at most every contributed score, and is one of them |
| Eligibility.ContributesMeansFloor | main_bot.py:111-118 | a program contributes `x` exactly when it asks for the pair, its `o'tish_ballari` is a dict, its contract series is a non-empty dict, and the latest year's value is the number `x` |
| Eligibility.NoFloorMeansNoContract | main_bot.py:111-116 | a program that does not raise contributes nothing exactly when it does not ask for the pair or its contract series is falsy |
| Eligibility.MinPassingSpec | main_bot.py:106-120 | on the catalog's programs: `None` exactly when none asks for the pair with a truthy contract series; otherwise a latest-year contract score of a program that asks for the pair, and no such program has a lower one |
| Eligibility.ContributorAsksForPair | main_bot.py:112-114 | a program that contributes asks for the user's pair, in order |
| Eligibility.ContributionIsLatestContract | main_bot.py:115-118 | a contributed score is the latest-year value of the program's non-empty contract series |
| Eligibility.MinimumPassingScore | main_bot.py:106-120 | the nested loops compute exactly the minimum function, raising where it raises |
| Eligibility.ScanPrograms | main_bot.py:110-119 | the inner loop extends the running minimum over one institution's programs, and raises exactly when the scan does |
| Ranking.SumValues | main_bot.py:249-252 | `sum(values)` succeeds exactly when every value is a number |
| Ranking.SumValuesIsSum | main_bot.py:249 | on numbers, `sum(values)` is the sum of the values in order |
| Ranking.SeriesMean | main_bot.py:248-253 | two or more years give the sum of the values divided by their count, which lies between the least and the greatest value, labelled `"<n> yillik o'rtacha"` |
| Ranking.SeriesMeanTwoYears | main_bot.py:248-253 | `{"2022": 140, "2023": 160}` compares with 150.0, labelled `"2 yillik o'rtacha"` |
| Ranking.SeriesSingleYear | main_bot.py:248-253 | one year gives that year's value, labelled `"<year>-yil"` |
| Ranking.SeriesEmpty | main_bot.py:248-251 | an empty series gives no comparison score |
| Ranking.RoundTenth | main_bot.py:258 | `round(x, 1)` is within 1/20 of `x` |
| Ranking.QualifyingScore | main_bot.py:255-256 | a series qualifies with `x` exactly when its score is truthy, is the number `x` and the ball reaches it; the comparison raises exactly when a truthy score is not a number; a qualifying score is non-zero |
| Ranking.StatusResolution | main_bot.py:254-256 | a qualifying grant gives `Grant` with the grant's score and descriptor; `Kontrakt` only when the grant does not qualify and the contract does, with the contract's score and descriptor; nothing exactly when neither qualifies |
| Ranking.EmittedQualifies | main_bot.py:243-258 | an emitted record's program asks for the pair, its series resolve to a verdict, and the record carries that verdict's status, rounded score and descriptor; the ball reaches the unrounded score; the name is the capitalized `otm_nomi`, and region, program name, education form, language and fee are the `otm_hududi`, `ta'lim_yo'nalishi_nomi`, `education_form`, `language` (each defaulting to `"N/A"`) and `kontrakt_miqdori` (default 0) fields |
| Ranking.QualifyingRecommended | main_bot.py:243-258 | conversely, a program that asks for the pair and whose series resolve to a verdict, at an institution with a textual name, yields a record with the capitalized name, the institution's `otm_hududi`, the program's `ta'lim_yo'nalishi_nomi`, `education_form` and `language` (each defaulting to `"N/A"`), the verdict's status, rounded score and descriptor, and the program's `kontrakt_miqdori` (default 0) |
| Ranking.RoundTenthExact | main_bot.py:258 | a score already in tenths is not changed by the rounding |
| Ranking.ContractOnlyVerdict | main_bot.py:246-256 | the series `{"kontrakt": {"2023": 150}}` at ball 180 resolve to `Kontrakt` on 150 described as `"2023-yil"` |
| Ranking.SuitableSingle | main_bot.py:239-260 | the scan of a single program keeps exactly the record it emits |
| Ranking.ContractOnlyExample | main_bot.py:239-260 | a program for the pair with only that contract series, at ball 180, gives exactly one record: `Kontrakt`, 150.0, `"2023-yil"` |
| Ranking.RaisingProgramSkipped | main_bot.py:241-260 | a program whose processing raises is skipped and the scan goes on |
| Ranking.SuitableConcat | main_bot.py:239-260 | scanning two runs of programs keeps the records of the first, then those of the second |
| Ranking.SuitableRecords | main_bot.py:239-260 | every suitable record was emitted by one of the scanned programs |
| Ranking.SuitableIncludes | main_bot.py:239-260 | conversely, every record a scanned program emits is among the suitable ones |
| Ranking.NoMatchNothingSuitable | main_bot.py:243-245 | when no program asks for the pair, nothing is suitable |
| Ranking.SortDescSorts | main_bot.py:261 | the sort puts higher scores first and is a permutation |
| Ranking.SortDescStable | main_bot.py:261 | records with equal scores keep their scan order |
| Ranking.TopFive | main_bot.py:261 | `[:5]` is a prefix of at most five, and exactly five when there are that many |
| Ranking.RankedTopFive | main_bot.py:261 | the output is at most five records, sorted in descending order, a prefix of the stable sort, no record left out scores higher, and every record is a suitable one |
| Ranking.RecommendShape | main_bot.py:234-261 | on the catalog: at most five, descending, taken from the stable sort of the suitable records, and none scoring above the ball by more than the rounding |
| Ranking.NoMatchNoRecommendation | main_bot.py:234-261 | a catalog with no program for the pair gives no recommendations |
| Ranking.RecommendAfterPreCheck | main_bot.py:178-182 | when the minimum scan does not raise, the recommendation scan does not raise either |
| Ranking.FindRecommendations | main_bot.py:234-261 | the nested loops compute exactly the recommendation function |
| Ranking.CollectSuitable | main_bot.py:240-260 | the inner loop appends exactly what one institution's programs yield |
| Transaction.MerchantTransId | main_bot.py:185 | the id starts with `abt-` |
| Transaction.MerchantTransIdRoundTrip | main_bot.py:185 | the chat id and the time read back from the id |
| Transaction.MerchantTransIdInjective | main_bot.py:185 | different chats or times give different ids |
| Conversation.SelectPairStep | main_bot.py:152-161 | `select_pair` stores the split subjects and moves to `GET_BALL` |
| Conversation.PreCheck | main_bot.py:165-180 | every stopping test ends the conversation; passing stores the ball and sends only the progress notice |
| Conversation.GetBallStep | main_bot.py:163-199 | `get_ball` either ends the conversation or awaits the payment check |
| Conversation.PaymentCheckStep | main_bot.py:201-216 | `handle_payment_check` never changes the stored user data |
| Conversation.UnhandledEventsIgnored | main_bot.py:274-282 | an update no handler listens for in the current state (`/start` mid-conversation, `/cancel` outside one, other commands, a button press in `GET_BALL` or outside a conversation, text outside `GET_BALL`) changes nothing and sends nothing |
| Conversation.DispatchPreservesConsistency | main_bot.py:274-282 | every update keeps the session consistent and follows the handler's transitions; payment is awaited only with both subjects, the ball, at most five recommendations and a readable transaction id stored |
| Conversation.GetBallReachesPayment | main_bot.py:163-196 | `get_ball` awaits payment exactly when settings are present, the text is a number, the catalog loaded, both subjects are stored, the minimum scan succeeds and the ball is not below the minimum |
| Conversation.GetBallAwaitsPayment | main_bot.py:171-196 | awaiting payment, the ball, the recommendations and the transaction id are stored, and the replies are the notice and the payment prompt for 37000 |
| Conversation.PassedPreCheck | main_bot.py:182-196 | once the pre-check passes, the intended call computes at most five recommendations without raising, the transaction id reads back, and `get_ball` awaits payment with both stored and the payment prompt sent |
| Conversation.UnconfiguredEnds | main_bot.py:165-168 | missing payment settings end the conversation with only that reply |
| Conversation.NonNumericEnds | main_bot.py:170-199 | a text that is not a number ends it with the technical-error reply |
| Conversation.NoCatalogEnds | main_bot.py:174-176 | a catalog that did not load ends it after the notice |
| Conversation.BelowMinimumEnds | main_bot.py:178-180 | a ball below the minimum ends it with that minimum in the reply |
| Conversation.AsWrittenNeverAwaitsPayment | main_bot.py:182-199 | as written, `get_ball` never reaches the payment check |
| Conversation.ArityMismatchExample | main_bot.py:182 | on a catalog with no institutions, as written the bot replies with the technical error, while the intended call awaits payment |
| Conversation.PaymentCheckOutcome | main_bot.py:204-216 | no id ends with that reply; status 1 with showable results ends with them; any other status keeps awaiting with the gateway's note or `Noma`lum` |
| Conversation.CancelEnds | main_bot.py:263-264 | `/cancel` in any active state ends the conversation with one reply |
| Conversation.PaidResultsAreTheRecommendations | main_bot.py:209-232 | after payment, the results shown are the ball and the recommendations `get_ball` computed and stored at lines 182-183 |
| Conversation.Session.Start | main_bot.py:145-150 | `start` offers the pairs and moves to `SELECT_PAIR`, keeping the user data and the session consistent |
| Conversation.Session.SelectPair | main_bot.py:152-161 | the session takes the `select_pair` step and stays consistent |
| Conversation.Session.CheckBall | main_bot.py:165-180 | the imperative checks compute exactly the pre-check |
| Conversation.Session.GetBall | main_bot.py:163-199 | the session takes the intended `get_ball` step, with the scans done by the imperative methods, and stays consistent |
| Conversation.Session.HandlePaymentCheck | main_bot.py:201-232 | the session takes the `handle_payment_check` step and a consistent session stays consistent; the fee loop of `show_final_results` decides whether the results can be shown |
| Conversation.Session.Cancel | main_bot.py:263-264 | the session ends with the cancel reply and stays consistent |
| Conversation.Session.Dispatch | main_bot.py:274-282 | each update goes to the handler its state and kind select, and the session stays consistent |

## Left out

- Telegram I/O is not modelled: messages, inline keyboards, `query.answer` pop-ups and Markdown rendering. A reply is a `Reply` value; the keyboard `start` sends is not carried in `ChoosePair`.
- The payment gateway calls are not modelled: `check_payment_status`'s HTTP request, its SHA-256 token and its fallback answer. The gateway's decoded answer is an input.
- `generate_click_link` URL building is left out. The prompt carries the transaction id and the amount.
- Environment variables, `time.time()`, the chat id and `float(text)` are inputs. `float` is `Option<real>`: `None` where Python raises. `inf` and `NaN` are not modelled.
- `load_data` reads a file, so the loaded catalog is an input. The second load inside `find_recommendations` is assumed to return the same catalog as the first.
- Numbers are exact reals, so float rounding in `sum`/`len` and in `round(x, 1)` is abstracted. `Ranking.RoundTenth` rounds the exact value to the nearest tenth, with ties to the even tenth. Python rounds the binary value it holds.
- `lower()` maps ASCII and Latin-1 capitals only. `capitalize()` uses the same tables. Other Unicode case mappings are left out.
- JSON objects are field lists with distinct keys, as `json.load` produces.
- The `except` in `select_pair` is never reached: `split` always yields a first piece. The model has no such path.
- `/start@bot` forms and command filtering are abstracted into the `Event` kinds.
- Concurrency between updates is left out. Handlers run one after another on one session.
- Catalog.SubjectsMatch, Eligibility.MinPassing and Ranking.Recommend use the corrected `Normalizer.Normalize`, which folds U+2018. As written, a catalog subject spelled with `o‘` does not match a button spelled with `o'`; the model matches them. `Normalizer.NormalizeAsWritten` and `Normalizer.AsWrittenSplitsSpellings` state the as-written behaviour.
- Server-side payment-gateway callbacks (prepare/complete notifications, signature checks, payment records) do not appear in `main_bot.py`, which only polls the gateway for a status. They are not part of this model.

## Findings

| source | as written | input that shows it | evidently intended | confidence | as-written member | corrected member |
|---|---|---|---|---|---|---|
| main_bot.py:104 | the first `replace` pattern is `o` followed by U+201A U+00C4 U+00F2, the UTF-8 bytes of `o‘` read as Mac Roman; it holds the capital U+00C4, which `lower()` has already removed, so it never matches | `"O‘zbek"` normalizes to `"o‘zbek"` but `"O'zbek"` to `"ozbek"`, so the two spellings never match | fold `o‘` (U+2018) to `o` | not executed | Normalizer.AsWrittenSplitsSpellings, on Normalizer.NormalizeAsWritten | Normalizer.IntendedJoinsSpellings, on Normalizer.Normalize |
| main_bot.py:182 | `get_ball` calls the one-parameter `find_recommendations` with two arguments; the `TypeError` is caught at 197 and the applicant gets the technical-error reply | any configured session with both subjects stored, a numeric ball not below the minimum, and a loaded catalog (e.g. one with no institutions) | recommendations computed for the stored pair, ball and catalog, then the payment prompt | not executed | Conversation.ArityMismatchExample, on Conversation.GetBallAsWritten | Conversation.GetBallReachesPayment, on Conversation.GetBallStep |
