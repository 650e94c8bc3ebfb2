# anki-year-delay, modelled in Dafny

`anki-year-delay` reschedules Anki notes that carry a tag (default
`anki:year-delay`) to about a year in the future. It works entirely through
AnkiConnect. It syncs, then searches for the tagged cards of the "Pocket
Article" note type in the "Articles" deck. It resets ("forgets") a sample
card and answers it "good" until it graduates, which gives the probe count.
The graduated sample's `due` minus the deck's graduating interval gives
today's day index. Then, for every batch of 50 found cards, it forgets the
batch and answers it "good" once per probe round. It reads the batch back
and sends one `multi` request that, for each card, sets `due` to its delay
day index and then removes the tag from the card's note. It ends with a sync.

This project models that run as a function from the server's answers to the
ordered list of requests the script sends:

- `wrappers.dfy`: `Option` and `Result`.
- `batching.dfy` (`Batching`): `batched(iterable, n)`. It has a reference
  definition `Chunks`, the `Result`-returning `Batched`, which fails for
  `n < 1`, and the `islice` loop `BatchedLoop`. Its lemmas cover the round
  trip, the batch shape, uniqueness of the batching, the batch count, and
  two worked examples.
- `query.dfy` (`Query`): the `findCards` query string, including Python's
  `str` of the `--edited` integer and a parser that reads it back.
- `schedule.dfy` (`Schedule`): the day arithmetic. This covers today's day
  index, whole days since a card's creation (its id in milliseconds, rounded
  down like `timedelta.days`), and the delay day index.
- `anki_connect.dfy` (`AnkiConnect`): the requests, `multi` actions, answers
  and card records.
- `rescheduler.dfy` (`Rescheduler`): the probe loop (`Probe`), the action
  loop (`BuildActions`), the setup (`Setup`), the batch loops (`RunBatches`)
  and `_main` itself (`Run`). Each method is proved equal to a specification function
  (`ReviewCount`, `BatchActions`, `BatchesRequests`, `RunRequests`).
- `run_properties.dfy` (`RunProperties`): counts and order over the request
  trace. These cover how many answers are sent, one `multi` per batch, and
  every tag removal directly after its card's due update.

Modelling notes:

- The server's answers are the input record `Rescheduler.Responses`:
  - the `findCards` result, where `None` is JSON null;
  - the graduating interval;
  - the card type each probe sees;
  - the sample's `due` after the probe;
  - the clock in whole seconds;
  - the `cardsInfo` records of each batch;
  - the random delay drawn for each record.
- `.days` of the difference between now and a card's creation second is the
  floor of the difference in seconds divided by 86400. Flooring the clock to
  whole seconds first gives the same number. Dafny's `/` equals Python's `//`
  for the positive divisors used here.
- `--edited` is used with Python truthiness: an absent flag and `--edited 0`
  both leave the ` edited:` clause out (`Query.EditedGiven`).
- The per-batch actions follow the order of the `cardsInfo` records the
  server returns, not the order of the batch's ids. The `multi` payload
  holds two actions per returned record. That makes "2 × batch size" actions
  only when the server returns one record per requested id.
- When the probe never sees a graduated card, `review_count` is 10 and the
  run goes on without an error. This matches the code, where the error
  branch is commented out.

## Model

| member | source | states |
|---|---|---|
| Batching.Batched | anki_year_delay/__init__.py:50-57 | fails exactly when `n < 1`; otherwise the batches laid end to end give back the input, and each batch is non-empty, at most `n` long, and exactly `n` long unless it is the last |
| Batching.BatchedLoop | anki_year_delay/__init__.py:53-57 | the `islice` loop, which stops at the first empty slice, returns exactly what `Batched` specifies, including the error for `n < 1` |
| Batching.FlattenChunks | anki_year_delay/__init__.py:50-57 | concatenating the batches yields the input in order, with nothing added or dropped |
| Batching.ChunksShape | anki_year_delay/__init__.py:51-57 | every batch is non-empty and at most `n` long; all but the last are exactly `n` long |
| Batching.ChunksUnique | anki_year_delay/__init__.py:50-57 | any batches that give back the input and have that shape are exactly the ones `batched` produces |
| Batching.ChunksCount | anki_year_delay/__init__.py:55-57 | the number of batches is the input length divided by `n`, rounded up |
| Batching.BatchedExample | anki_year_delay/__init__.py:51-52 | 'ABCDEFG' in threes gives ABC, DEF, G |
| Batching.OneHundredTwentyInFifties | anki_year_delay/__init__.py:70 | 120 ids in batches of `BATCH_SIZE` 50 give batches of 50, 50 and 20 ids, in order |
| Batching.BatchedEmpty | anki_year_delay/__init__.py:56 | an empty input gives no batches |
| Query.FindCardsQuery | anki_year_delay/__init__.py:116-125 | the query starts with the note-type, deck and tag filters; it is longer than that exactly when `--edited` is truthy, and then continues with ` edited:` and a numeral that reads back as the flag's value |
| Query.QueryCarriesTag | anki_year_delay/__init__.py:124 | the tag appears verbatim right after the fixed `"note:Pocket Article" "deck:Articles" "tag:` prefix, followed by a closing quote |
| Query.IntStringRoundTrip | anki_year_delay/__init__.py:125 | the decimal text written for an integer, negative ones included, parses back to that integer |
| Schedule.TodayUndoesGraduation | anki_year_delay/__init__.py:213 | subtracting the graduating interval from the due day of a card that graduated today gives today's day index |
| Schedule.DaysSinceCreation | anki_year_delay/__init__.py:215-217 | the whole days since creation are the elapsed seconds, counted from the card id's millisecond timestamp floored to seconds, divided by 86400 and rounded down |
| Schedule.OlderCardMoreDays | anki_year_delay/__init__.py:259-260 | a card with a smaller id has been around at least as many whole days |
| Schedule.OlderCardDueNoLater | anki_year_delay/__init__.py:259-262 | with equal delay draws, an older card gets a due day no later than a newer one |
| Schedule.CardDueByAge | anki_year_delay/__init__.py:259-262 | a card whose creation second lies `d` whole days (and less than `d + 1`) before now gets the due day `today - d + delay`: its delay counts from the day index on which it was created |
| Rescheduler.ReviewCount | anki_year_delay/__init__.py:173-199 | `review_count` is at most 10; every probe before it saw a non-graduated card; when it is below 10, the probe at that index saw type 2 |
| Rescheduler.Probe | anki_year_delay/__init__.py:173-199 | the probe loop ends with `review_count` equal to `ReviewCount` of the observed types, and sends one look-and-answer round per answer plus the look that stops it early |
| Rescheduler.Setup | anki_year_delay/__init__.py:136-211 | after the search the run sends, in order, cardsInfo, getDeckConfig and forgetCards on the sample, the probe rounds, then one more cardsInfo on it; the `review_count` it leaves is `ReviewCount` of the observed types |
| Rescheduler.GoodAnswers | anki_year_delay/__init__.py:236-243 | one answer per card of the batch, in batch order, each with ease 3 |
| Rescheduler.BatchActionsLayout | anki_year_delay/__init__.py:256-281 | a batch's payload holds exactly 2k actions for k records; action 2i sets card i's `due` (keys `["due"]`) to its delay day index, and action 2i+1 removes the tag from card i's note |
| Rescheduler.BuildActions | anki_year_delay/__init__.py:256-281 | the append loop builds exactly the payload `BatchActions` specifies |
| Rescheduler.RunBatches | anki_year_delay/__init__.py:221-289 | the nested batch and review loops send, per batch and in batch order: forget, `review_count` answer rounds, cardsInfo, then the batch's `multi` |
| Rescheduler.RescheduleCards | anki_year_delay/__init__.py:221 | splitting the found ids with `batched(card_ids, BATCH_SIZE)` and running the batch loop sends exactly the requests of the batches `Chunks` gives |
| Rescheduler.RunFound | anki_year_delay/__init__.py:136-290 | once the search has found cards, the rest of the run sends exactly what `RunRequests` lists after the search |
| Rescheduler.Run | anki_year_delay/__init__.py:112-291 | the run sends exactly `RunRequests`; with an empty or null search result it returns 0 after only the sync and the search; otherwise it returns no code and its last request is the final sync |
| RunProperties.ReviewRoundsShape | anki_year_delay/__init__.py:231-245 | a batch gets exactly `review_count` answer requests, each answering every card of the batch with ease 3, and no `multi` |
| RunProperties.ProbeCounts | anki_year_delay/__init__.py:173-199 | the probe sends exactly `review_count` answer requests and no `multi` |
| RunProperties.ProbeGraduatesAfterTwo | anki_year_delay/__init__.py:173-199 | a sample seen as new, learning, then graduated is answered twice and looked at three times; there is no third answer |
| RunProperties.SetupCounts | anki_year_delay/__init__.py:112-213 | before the first batch the run sends exactly the probe's answers and no `multi` |
| RunProperties.BatchCounts | anki_year_delay/__init__.py:221-289 | one batch sends `review_count` answer requests and exactly one `multi`, which carries that batch's actions |
| RunProperties.BatchesCounts | anki_year_delay/__init__.py:221-289 | the first k batches send `k * review_count` answer requests and one `multi` each, in batch order |
| RunProperties.RunCounts | anki_year_delay/__init__.py:204-290 | the answer requests of a run are the probe's plus the batches'; the `multi` payloads of a run are the batches' |
| RunProperties.RunAnswerCount | anki_year_delay/__init__.py:173-245 | a run that finds cards sends `review_count * (batches + 1)` answer requests, and `review_count` is at most 10 |
| RunProperties.RunMultiPayloads | anki_year_delay/__init__.py:221-289 | a run sends one `multi` per batch; the b-th holds 2k actions for the batch's k records, the due update of card i at 2i and the tag removal from its note at 2i+1 |
| RunProperties.TagRemovalFollowsDueUpdate | anki_year_delay/__init__.py:256-281 | every tag removal in a batch payload sits at an odd position, right after the due update of the same record's card |

## Left out

- `ankiconnect_request` (anki_year_delay/__init__.py:60-67) is not modelled. This covers the HTTP POST, JSON decoding, the `version: 6` field and the logging of response errors. Each request is a trace entry, and each answer is a field of `Responses`.
- A response error is logged and ignored in the source; the model has no error field.
- Null or malformed answers other than the `findCards` result are not modelled. For example, a `cardsInfo` with no record makes the source raise.
- Rescheduler.Run: requires `Answered`, meaning the server has an answer for every request the run makes. That is a card type for each of up to 10 probes, plus, for each batch, a record list and one delay draw per record.
- Logger setup, environment variables, `main`'s post-mortem debugger and argparse (anki_year_delay/__init__.py:18-47, 73-110) are left out. The `--tag` and `--edited` values are parameters.
- The clock is left out. `time.time()` is the integer input `nowSeconds`.
- `random.uniform(0.9, 1.1) * 365.0` with `round` is left out. Each card's delay draw is an integer input. No bound on it is assumed.
- The sample card's own delay draw and `delay_day_index` (anki_year_delay/__init__.py:215-219) are not modelled, because they have no effect. The first `cardsInfo` on the sample card is in the trace, but its answer is unused (anki_year_delay/__init__.py:137-144).
- `batched` is modelled on sequences rather than arbitrary iterables. The source is a generator, so its `ValueError` surfaces at the first iteration; the model returns it at the call.
- setup.py is not part of this model: it is packaging metadata.
