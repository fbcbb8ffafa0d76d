# BraingrowAI backend core in Dafny

This project models the recommendation and profile core of the BraingrowAI
Flask backend. It covers:

- **The personalised feed** (`/api/recommendations`, `get_recommendations`).
  - The user's watch history gives a set of watched ids and a top topic.
  - The stored tendency string is re-tokenised into keywords.
  - Candidates come from the top-topic query and one query per keyword, and
    are scored with integers and ranked by a stable descending sort.
  - `limit` is split into personalised and random slots. Keyword coverage
    comes first, then the best-ranked fill, then the random picks and two
    backfill stages.
- **The tendency normaliser** (`update_tendency`). It accepts a free-text
  string, a list of tags or a structured `{board: [topics]}` selection,
  interpreted through the board → topic → keywords catalog of `tags.py`.
  The result is stored as distinct, stripped, lower-cased tokens joined by
  commas.
- **The per-user ranking** `getRecommendedVideosForUser`.
  - Real-valued scores blend the keyword match, the board and topic
    preferences drawn from the watch history (scaled by the focus level),
    and a novelty bonus.
  - The result is the first `limit` videos of the stable descending sort.
- **The `users` table operations** of `models.py`:
  - registration with a unique, length-limited username;
  - profile, tendency and focus-level updates;
  - watch-history rows with clamped values;
  - the video search.
- **The bulk import of `create_user.py`**, and the capped per-video Q&A
  history of `ask_video_question`.

Modules follow the program: `Feed`, `FeedHistory`, `FeedCandidates` and
`FeedSelect` for `get_recommendations`; `Tendency` and `Tags` for
`update_tendency` and its catalog; `Users`, `UserStore`, `UserImport` and
`UserPrefs` for `models.py` and `create_user.py`; `Conversation` for the
session history. `Text`, `Dicts`, `Sorting`, `Videos` and `Wrappers` model
the Python built-ins and the database query shapes they rely on.

Database queries are functions over the table as a sequence of rows. A
`limit(n)` is a prefix, and a negative `n` means no limit. Python dicts are
association lists that keep insertion order. `sorted(..., reverse=True)` is a
stable insertion sort. Random draws (`ORDER BY random()`) are parameters
giving the order the database returned.

## Model

| member | source | states |
|---|---|---|
| Feed.Recommend | braingrow-ai-backend/main.py:186-356 | The feed as the endpoint computes it, before the shuffle: equal to `FeedSpec`. A signed-in user gets the personalised pipeline; anyone else gets the first `limit` videos of the random draw. |
| Feed.FeedSafe | braingrow-ai-backend/main.py:201-355 | With draws that have distinct ids: the feed never repeats a video and never exceeds a non-negative `limit`. A signed-in user never sees a watched video, the personalised list leads the feed, and for `limit >= 5` the personalised list leaves at least one slot for a random video. |
| Feed.FeedKeywords | braingrow-ai-backend/main.py:219-226 | The tendency string is lower-cased and split on commas and whitespace. Every keyword is non-empty and holds no comma or space. A missing or empty tendency gives no keywords. |
| Feed.KeywordVideosUnwatched | braingrow-ai-backend/main.py:247-262 | No keyword query held in `kw_to_vids` contains a watched video. |
| Feed.RankedUnwatched | braingrow-ai-backend/main.py:264-280 | The ranked candidates have pairwise distinct ids, and none of them is watched. |
| FeedHistory.SummariseHistory | braingrow-ai-backend/main.py:204-214 | The history loop computes the watched ids and `topic_time` of the specification functions. |
| FeedHistory.WatchedExactly | braingrow-ai-backend/main.py:207-211 | An id is watched exactly when some history entry names it and a video with that id exists. |
| FeedHistory.TopicTimeSums | braingrow-ai-backend/main.py:212-214 | `topic_time` has an entry exactly for each non-empty topic of a resolved video. The entry is that topic's summed progress, with a NULL progress counted as 0. |
| FeedHistory.TopTopicIsMax | braingrow-ai-backend/main.py:216 | The top topic is None exactly when no resolved video has a topic. Otherwise it is a seen topic with maximal summed progress, and every topic entered before it sums strictly less (the first maximum wins). |
| FeedCandidates.TopicQuery | braingrow-ai-backend/main.py:239-244 | The top-topic query returns only catalog videos of that topic with unwatched ids. |
| FeedCandidates.KeywordQuery | braingrow-ai-backend/main.py:249-260 | A keyword query returns at most 10 catalog videos, each matching the keyword and unwatched. |
| FeedCandidates.AddCandidates | braingrow-ai-backend/main.py:231-236 | The loop of `add_candidates` equals `AddAll` on the ordered candidate dict. |
| FeedCandidates.AddAllGet | braingrow-ai-backend/main.py:231-236 | After `add_candidates`, an id is a candidate exactly when it already was one or is an unwatched id of the batch. Its base score becomes the larger of the old and new scores, and other ids are untouched. |
| FeedCandidates.CollectCandidates | braingrow-ai-backend/main.py:229-262 | Both passes together compute `AllCandidates` and `KwToVids`. |
| FeedCandidates.KeywordCandidates | braingrow-ai-backend/main.py:247-262 | The keyword loop equals `KeywordPass` and `KwToVids`. |
| FeedCandidates.CandidateBase | braingrow-ai-backend/main.py:229-262 | An id is a candidate exactly when it is unwatched and returned by the topic query or by some keyword query. Its base score is 5 when the topic query returned it and 3 otherwise. |
| FeedCandidates.KwToVidsGet | braingrow-ai-backend/main.py:262 | `kw_to_vids[kw]` is that keyword's query result for every keyword of the tendency, and absent for any other. |
| FeedCandidates.Score | braingrow-ai-backend/main.py:266-276 | A candidate's score lies between its base and base + 5. Without keywords it is the base or the base + 2 (the top-topic bonus). |
| FeedCandidates.ScoreCandidates | braingrow-ai-backend/main.py:265-276 | The scoring loop yields one pair per candidate, in dict order. |
| FeedCandidates.RankedPairs | braingrow-ai-backend/main.py:278-279 | The ranked list is sorted by descending score and holds exactly one pair per candidate, with distinct ids. Each pair carries that candidate's video and its score. |
| FeedCandidates.ScoreOfPair | braingrow-ai-backend/main.py:280 | With distinct ids, `score_map` gives every ranked video its own score. |
| FeedSelect.SplitBounds | braingrow-ai-backend/main.py:289-296 | For `limit >= 5`: 1 <= random_target <= limit - 1 and base_target = limit - random_target >= 1. For 0 <= limit < 5 the two targets add up to `limit`. A negative limit gives base_target 0. |
| FeedSelect.SelectCoverage | braingrow-ai-backend/main.py:298-315 | The coverage loop equals `Coverage`, and `selected_ids` is the set of its ids. |
| FeedSelect.CoverPick | braingrow-ai-backend/main.py:302-315 | A keyword adds nothing once `base_target` is reached or all its videos are selected. Otherwise it adds exactly one unselected video of its own query, the first one with the highest score. |
| FeedSelect.CoverageSaturated | braingrow-ai-backend/main.py:303-304 | Once `base_target` videos are covered, the remaining keywords change nothing (the `break`). |
| FeedSelect.CoverageShape | braingrow-ai-backend/main.py:298-315 | Coverage holds at most one video per keyword and at most `base_target` videos. Their ids are distinct, and each comes from some keyword's query. |
| FeedSelect.FillPersonal | braingrow-ai-backend/main.py:317-327 | The fill loop appends to the coverage the greedy pass over the ranked videos, skipping selected ids up to `base_target`. |
| FeedSelect.GreedyShape | braingrow-ai-backend/main.py:320-342 | A greedy pass takes at most `need` videos from the pool, with distinct ids and none excluded. When it falls short, every pool video was excluded or taken. |
| FeedSelect.GreedySaturated | braingrow-ai-backend/main.py:322-323 | A full greedy pass ignores the rest of the pool (the `break`). |
| FeedSelect.PersonalShape | braingrow-ai-backend/main.py:298-327 | The personalised list starts with the coverage and holds at most `base_target` videos with distinct ids. Each comes from a keyword query or the ranking. |
| FeedSelect.PickRandom | braingrow-ai-backend/main.py:329-342 | The random loop keeps draws whose id is neither selected nor watched, up to `random_needed`, from a pool of `3 * random_needed` draws. |
| FeedSelect.Slice | braingrow-ai-backend/main.py:349 | Python's `s[a:b]` is clipped to the list: exactly min(b, len(s)) - a elements when a < len(s), none otherwise, each `s[a + i]`. |
| FeedSelect.BackfillVideos | braingrow-ai-backend/main.py:346-353 | The two backfill stages equal `Backfill`. |
| FeedSelect.BackfillSafe | braingrow-ai-backend/main.py:346-353 | The backfill keeps the given list as a prefix and adds only new, unwatched ids. It never goes past `limit`. |
| FeedSelect.PersonalAndRandom | braingrow-ai-backend/main.py:317-344 | The personalised list plus the random picks: distinct ids, no watched id, at most `max(limit, 0)` videos. The personalised list leaves a slot free once `limit >= 5`. |
| FeedSelect.SelectFeed | braingrow-ai-backend/main.py:283-353 | Steps from the split to the backfill compute `Selection`. |
| FeedSelect.SelectionSafe | braingrow-ai-backend/main.py:283-353 | The selection has distinct ids, no watched id, at most `max(limit, 0)` videos, and starts with the personalised list. |
| Tendency.NormalizeTokens | braingrow-ai-backend/main.py:744-755 | The loop of `normalize_tokens` equals `Normalized`. |
| Tendency.NormalizedTokens | braingrow-ai-backend/main.py:744-755 | The result has distinct canonical tokens: non-empty, stripped and lower-case. Those are exactly the non-empty keys of the input. |
| Tendency.DedupContents | braingrow-ai-backend/main.py:747-754 | De-duplication keeps exactly the non-empty keys, once each. |
| Tendency.DedupOrder | braingrow-ai-backend/main.py:747-754 | Kept keys appear in the order of their first occurrence. |
| Tendency.NormalizedIdempotent | braingrow-ai-backend/main.py:744-755 | Normalising distinct canonical tokens changes nothing, so normalising twice is normalising once. |
| Tendency.KeyCanonical | braingrow-ai-backend/main.py:750 | `strip().lower()` of a token is empty or canonical, and a canonical token is its own key. |
| Tendency.ChosenTopics | braingrow-ai-backend/main.py:776 | The stripped non-empty topic names, never more than given. |
| Tendency.SelectionTokens | braingrow-ai-backend/main.py:762-789 | The loop over the selection equals `SelectionSpec`, the concatenation of each board's tokens in the order given. |
| Tendency.AppendBoardTokens | braingrow-ai-backend/main.py:764-789 | One board entry appends `BoardTokens` to the tokens so far. An empty board name appends nothing. |
| Tendency.AppendTopicTokens | braingrow-ai-backend/main.py:781-789 | The inner loop appends each chosen topic followed by its catalog keywords. |
| Tendency.BoardTokenIff | braingrow-ai-backend/main.py:766-780 | The board name is emitted exactly when its lower-cased name is a catalog board and every topic of that board is among the lower-cased chosen topics. |
| Tendency.CoversIff | braingrow-ai-backend/main.py:777 | For lower-case catalog topics, the superset test holds exactly when the board has topics and all are chosen. |
| Tendency.TopicTokensContents | braingrow-ai-backend/main.py:782-789 | Every chosen topic is emitted along with every catalog keyword of a known topic. A board outside the catalog emits only the chosen topics. |
| Tendency.TopicTokensSources | braingrow-ai-backend/main.py:782-789 | Every emitted token other than a topic name is a catalog keyword of a chosen topic. |
| Tendency.NormalizeBody | braingrow-ai-backend/main.py:732-794 | The handler fails exactly when `TendencyKeywords` does, with the same error. Otherwise it returns the stored keywords and their comma-joined serialisation. |
| Tendency.RejectsUnrecognised | braingrow-ai-backend/main.py:757-791 | A body with no blank-free string, no list of tags and no selection object gets the 400 error. |
| Tendency.KeywordsCanonical | braingrow-ai-backend/main.py:793-794 | Whatever the shape, the stored keywords are distinct canonical tokens. |
| Tendency.FreeTextRoundTrip | braingrow-ai-backend/main.py:758-759 | Free-text keywords hold no comma or space. The feed's re-parse of the stored string gives back exactly those keywords. |
| Tendency.SingleTopicTokens | braingrow-ai-backend/main.py:776-789 | Choosing one topic of a board that has others emits that topic and its keywords, and not the board name. |
| Tendency.JoinIsLower | braingrow-ai-backend/main.py:794 | The serialisation of lower-case tokens is lower-case, so the feed's `lower()` leaves it unchanged. |
| Tags.CatalogWellFormed | braingrow-ai-backend/tags.py:17-158 | Every board name of the catalog is lower-case. Every board has topics, every topic name is lower-case, and every topic carries keywords. |
| Tags.KeywordsOverlap | braingrow-ai-backend/tags.py:23-42 | Keywords are shared between topics ("triangles", "highlights"), so selection output needs de-duplication. |
| Tags.SomeKeywordsHaveSpaces | braingrow-ai-backend/tags.py:19-39 | Some topic names and keywords ("number theory", "systems of equations") contain a space. |
| Users.Find | braingrow-ai-backend/models.py:297-299 | `User.query.get` finds the position of the row with that id, or reports that no row has it. |
| Users.BaseName | braingrow-ai-backend/models.py:249-251 | The base username is the stripped username. Failing that it is the e-mail's local part: a prefix of the e-mail without '@' that ends where the first '@' is. Failing both it is "user". |
| Users.LocalPart | braingrow-ai-backend/models.py:251 | `email.split('@')[0]` is the prefix of the e-mail before its first '@', or the whole e-mail when it has none. |
| Users.CandidateInjective | braingrow-ai-backend/models.py:258-260 | Different suffix numbers give different candidate names. |
| Users.UniqueUsername | braingrow-ai-backend/models.py:252-263 | The suffix loop returns `ChosenName`. |
| Users.ChosenNameFacts | braingrow-ai-backend/models.py:252-263 | The chosen name is free. It is the truncated base when that is free, otherwise the candidate with the smallest free suffix, and it fits the 80-character column. |
| Users.RegisterFacts | braingrow-ai-backend/models.py:246-285 | Registration fails exactly for an already registered e-mail. Otherwise the new row has the next id, the given e-mail and a fresh username, and the table stays valid. |
| Users.UpdateProfileFacts | braingrow-ai-backend/models.py:308-327 | An unknown user or a taken username is refused, with its message and the table unchanged. Otherwise only that user's username and photo change, each only when given, and the table stays valid. |
| Users.UpdateTendencyFacts | braingrow-ai-backend/models.py:295-306 | The update succeeds exactly for an existing user. Only that user's tendency changes, and the table stays valid. |
| Users.UpdateFocusFacts | braingrow-ai-backend/models.py:329-341 | The update succeeds exactly for an existing user. Only that user's focus level changes, to the value clamped into [0, 1]. |
| Users.Clamp01 | braingrow-ai-backend/models.py:335 | The result lies in [0, 1]: a value inside is kept, a value below becomes 0 and a value above becomes 1. |
| Users.WatchRow | braingrow-ai-backend/models.py:343-354 | The row keeps the user and video. Progress and focus are NULL exactly when not given, and otherwise the given value clamped into [0, 1]. |
| Users.SearchVideos | braingrow-ai-backend/models.py:77-83 | The search returns at most `maxVideo` rows (unless negative), each matching the query in title or tags. |
| Users.SearchComplete | braingrow-ai-backend/models.py:77-83 | When the limit does not cut the matches, every matching video is returned. |
| UserStore.Store.Register | braingrow-ai-backend/models.py:246-285 | Registration on the stored table: it follows `RegisterResult`, appends the row and advances the id on success, and keeps the table valid. |
| UserStore.Store.UpdateProfile | braingrow-ai-backend/models.py:308-327 | The stored table follows `UpdateProfileResult` and stays valid. |
| UserStore.Store.UpdateTendency | braingrow-ai-backend/models.py:295-306 | The stored table follows `UpdateTendencyResult` and stays valid. |
| UserStore.Store.UpdateFocusLevel | braingrow-ai-backend/models.py:329-341 | The stored table follows `UpdateFocusResult` and stays valid. |
| UserStore.Store.RecordWatchHistory | braingrow-ai-backend/models.py:343-354 | Exactly the clamped row is appended to the history, and the users are untouched. |
| UserImport.CreateFacts | braingrow-ai-backend/create_user.py:4-28 | A taken username is refused first, then a registered e-mail, each with its message and the table unchanged. Otherwise exactly one row is added with the next id, and the table stays valid. |
| UserImport.CreateUserFromData | braingrow-ai-backend/create_user.py:4-28 | The stored table and the `(success, message)` pair follow `CreateResult`. |
| UserImport.ParseLine | braingrow-ai-backend/create_user.py:37-55 | A parsed line yields three non-empty fields. |
| UserImport.ParseFormat | braingrow-ai-backend/create_user.py:37-55 | A line written as `username,email,password` from stripped, comma-free, non-empty fields parses back to those fields. |
| UserImport.ImportUsers | braingrow-ai-backend/create_user.py:30-66 | The import loop equals `Import` over the numbered lines and keeps the table valid. |
| UserImport.ImportCounts | braingrow-ai-backend/create_user.py:30-66 | Over a table that may already hold users, the counters grow by the lines not skipped, each a success or an error. There is one message per error, one new row per success, and the next id advances by the successes. |
| UserImport.ImportFromTable | braingrow-ai-backend/create_user.py:30-66 | Starting from zero counters on any existing table: success + error = lines not skipped, `len(errors) == error_count`, and the table grows by the successes. |
| UserImport.ImportValid | braingrow-ai-backend/create_user.py:30-66 | The import keeps the table's keys and usernames unique. |
| UserImport.LineEffect | braingrow-ai-backend/create_user.py:39-64 | A skipped line changes nothing. A malformed line or a refused user adds one message starting with its line number and no row. An accepted user adds one row and no message. |
| UserImport.LineNumberReadsBack | braingrow-ai-backend/create_user.py:46 | The number in an error message reads back as the line number. |
| UserPrefs.AggregateHistory | braingrow-ai-backend/models.py:115-132 | The history loop computes the board and topic statistics of `StatsOf`. |
| UserPrefs.AggregateRow | braingrow-ai-backend/models.py:118-132 | One row is skipped when its video is missing, and otherwise counts under its lower-cased board and topic. |
| UserPrefs.StatsOfGet | braingrow-ai-backend/models.py:117-132 | A key is present exactly when some row counts towards it. Its count, progress sum and focus sum are those rows' totals, with NULL progress as 0 and NULL focus as the progress. |
| UserPrefs.StatsOfBounded | braingrow-ai-backend/models.py:117-132 | Over clamped rows, every entry has a positive count and sums between 0 and the count. |
| UserPrefs.PrefScoreBounds | braingrow-ai-backend/models.py:134-141 | Over such statistics, `pref_score` lies in [0, 1]. |
| UserPrefs.PrefScoreOfHistory | braingrow-ai-backend/models.py:134-141 | The preference is 0.6 × mean progress + 0.4 × mean focus over the rows of that key, and 0 when there are none. |
| UserPrefs.KeywordHitsAll | braingrow-ai-backend/models.py:149-152 | The hit count reaches the number of keywords exactly when every keyword occurs in the text. It is zero exactly when none does. |
| UserPrefs.BaseMatch | braingrow-ai-backend/models.py:148-154 | `base_match` lies in [0, 1]. |
| UserPrefs.BaseMatchExtremes | braingrow-ai-backend/models.py:148-154 | With keywords, the match is 1 exactly when all occur in the video text, and 0 exactly when none does. |
| UserPrefs.UserScoreBounds | braingrow-ai-backend/models.py:156-166 | With clamped statistics and focus level, every score lies in [0, 1], and an unwatched video scores at least 0.1. |
| UserPrefs.NoveltyBonus | braingrow-ai-backend/models.py:163-166 | Of two videos alike in text, board and topic, the unwatched one scores exactly 0.1 more. |
| UserPrefs.ScoreVideos | braingrow-ai-backend/models.py:144-167 | The scoring loop yields one `(score, video)` pair per catalog video, in order. |
| UserPrefs.RankedFacts | braingrow-ai-backend/models.py:170 | The sort keeps every video once, each with its own score, best first. |
| UserPrefs.RankFacts | braingrow-ai-backend/models.py:170-171 | The result has `min(limit, |catalog|)` videos for a non-negative limit, each a catalog video. They are best first, and no video left out scores higher than a returned one. |
| UserPrefs.RecommendedVideosForUser | braingrow-ai-backend/models.py:88-171 | The function's result equals `ForUser`. |
| UserPrefs.ForUserFacts | braingrow-ai-backend/models.py:98-171 | An unknown user gets the random draw. A known user gets the top of the ranking over their own context, with the guarantees of `RankFacts`. |
| UserPrefs.ContextScores | braingrow-ai-backend/models.py:110-166 | When the stored rows and focus level are clamped, as the writers guarantee, every score lies in [0, 1]. |
| Conversation.AddTurnFacts | braingrow-ai-backend/main.py:607-616 | The new history has between 2 and 40 entries and ends with the question and the answer. What precedes them is the newest part of the old history: all of it while it fits, otherwise enough to reach exactly 40. |
| Conversation.Conversations.RecordTurn | braingrow-ai-backend/main.py:607-619 | Only the entry under the key built from the caller (or "anon") and the video changes, to the capped history, and the cap is preserved for every key. |
| Text.SplitJoin | braingrow-ai-backend/create_user.py:43 | Splitting a separator-free join gives the parts back. |
| Text.TokenizeJoin | braingrow-ai-backend/main.py:224 | Re-tokenising the comma-join of comma- and space-free tokens gives the tokens back. |
| Text.TokenizeSpaced | braingrow-ai-backend/main.py:224 | Two words joined by a space become two tokens. |
| Text.StripIsStripped | braingrow-ai-backend/main.py:750 | `strip()` (also after `lower()`) leaves no whitespace at either end. |
| Text.DecimalRoundTrip | braingrow-ai-backend/create_user.py:46 | The decimal rendering of a natural number reads back as that number. |
| Sorting.SortDesc | braingrow-ai-backend/main.py:279 | The descending sort is a permutation of its input, ordered by descending key. |
| Sorting.SortDescStable | braingrow-ai-backend/models.py:169 | The sort is stable: for every key value, the elements with that key come out in their input order. This decides which tied videos make the `limit` cut. |
| Sorting.SortHeadIsFirstMax | braingrow-ai-backend/main.py:307-313 | The head of the sorted list is the first element with the largest key, which is what `max` and `sorted(...)[0]` pick. |
| Sorting.SortDescDistinct | braingrow-ai-backend/main.py:278-280 | Sorting keeps distinct ids distinct. |
| Dicts.Put | braingrow-ai-backend/main.py:236 | `d[k] = v` maps k to v and leaves every other key alone. An existing key keeps its position, and a new key goes last. |
| Videos.Take | braingrow-ai-backend/models.py:83 | `limit(n)` returns a prefix: the whole list for a negative n, otherwise at most n rows, and exactly n when enough exist. |
| Videos.Prefix | braingrow-ai-backend/models.py:171 | Python's `s[:k]` is a prefix of length k, clipped, and for a negative k it drops that many from the end. |
| Videos.LookupFound | braingrow-ai-backend/models.py:173-174 | The row found is a table row, and none is found exactly when no row has the id. |

## Left out

- `Lower` changes only the ASCII letters A–Z. Python's `str.lower()` also changes other Unicode letters.
- A SQL `LIKE` is modelled as a lower-case substring test. The `%` and `_` wildcards inside a keyword or query are not interpreted.
- Scores of `getRecommendedVideosForUser` are `real`, not IEEE floats. Rounding and NaN are not modelled.
- FeedHistory.TopicTime: the summed progress is `real`, but the source adds Python floats, whose rounding can break or create ties. Take progress 0.3 on topic B, then 0.1 and 0.2 on topic A. Python sums A to 0.30000000000000004 and `max` picks A. In the model the two sums tie, and B wins as the first maximum. FeedHistory.TopTopicIsMax holds for the exact sums only.
- Users.Clamp01: it clamps a real. In the source, `float()` can raise on a value that is not a number, and the `except` path then returns False (focus level) or None (watch row). `max(0.0, min(1.0, nan))` gives 1.0. Neither case is modelled.
- `int(round(limit * ratio))` is an input `r`, constrained to lie between 0 and `limit`. The environment variable `RECO_RANDOM_RATIO` and its parsing are not modelled.
- The final `random.shuffle` only reorders the feed and is left out. The random draws (`order_by(func.random())`) are parameters with distinct ids.
- JWT decoding, sessions, Flask routing, JSON responses and the `ask_AI` call are not modelled. The caller's user id and the model's answer are parameters.
- The `except` paths of the database functions are not modelled: a failed commit or rollback never happens. The exception is the unique e-mail constraint on an empty e-mail, which `RegisterResult` reports as None.
- Users.RegisterResult: the password is stored as given. `generate_password_hash` is a foreign call and is not modelled, so the model says nothing about the stored hash.
- The `watched_at` ordering of `getUserWatchHistory` is an input: the history is passed in the order the database returned it.
- `models.py` ranks "with ties broken randomly" according to its comment, but the code's sort is stable. The model follows the code.
- Tags.Catalog: the tendency functions take the catalog as a parameter. `Tags.Catalog` is the shipped one, and `Tags.CatalogWellFormed` discharges `WellFormedCatalog` for it.
- Users.ChosenNameFacts: the 80-character bound holds only while fewer than 10^78 usernames are taken. Beyond that, the suffix alone outgrows the column.
- UserImport.EmailTaken: `create_user_from_data` queries by e-mail even when it is None, and then matches rows without an e-mail. The model keeps that behaviour. The import always passes an e-mail, so it never meets this case.
- Tendency.Body: the request body is always a JSON object, and its values are narrowed. `tags` is a list of strings; the source applies `str()` to any item, so `[1, null, true]` would be stored as "1,none,true". Topic items are strings; the source applies `str(t)` to them too. A truthy body that is not an object (a list, string or number) fails at `data.get` and gets the 500 response. None of these cases can be expressed in `Tendency.Field`/`Tendency.Body`.
- The other endpoints (login, comments, uploads, video handling) and `app.py` are not part of this model.
