# RedditKarmaBot, modelled in Dafny

RedditKarmaBot drives several Reddit accounts ("bots"). Each bot reads new submissions of a subreddit and upvotes and replies to the ones it has not processed yet. It also upvotes and replies to a sample of their comments, avoiding threads where one of the bots has already commented. It remembers the processed submission ids in a pickle store, one per account. When the platform answers with a rate-limit error ("... try again in 7 minutes"), the bot waits and retries the same operation, a bounded number of times.

An orchestrator keeps a roster of bots and a thread pool with one worker per bot. It can do three things:
- run every bot over the same subreddit;
- deal the hot submissions of a subreddit round robin over the roster;
- let the bots upvote each other's recent comments.

The repository has three stages of the bot and two of the orchestrator, and all of them are modelled:
- the full version: `full_feature_version/bot/bot.py`, `full_feature_version/bot/orchestrator.py` and the pacing helpers in `full_feature_version/utils/wait.py`;
- the first bot, with only the submission step and the unbounded retry: `part1_rate_error/bot.py`;
- the second bot, which adds the comment step: `part2_upvote_comments/bot.py`;
- the third version's orchestrator, which has no suspension filter and no cross-upvoting: `part3_orchestrator/orchestrator.py`.

## How the model is built

- **Platform.** Every call through the Reddit client becomes an event appended to the bot's log `events`. The log also holds the bot's own records: a `Crash` when the handler sees an exception, a `Backoff` for the sleep before a retry, and a `Save` for each write of the store. What the platform answers is one `Response` per call. `Pass` lets the call through; `Raise(msg)` makes it raise with that text, and then the call logs nothing. The full version's bot consumes a `script` of answers; the first and second bots keep their fixed `answers` and a count `calls` of the calls made, call number c getting `answers[c]` (a call past the end passes), so their contracts can say which call raised. Fetched data (the new and hot listings, the comment trees, a bot's own comments) are parameters.
- **Randomness.** `random.choice`, `random.sample` and `random.shuffle` are choices of any value that meets the library's promise: a member of the list, distinct positions of the right count, an ordering of the keys. Every contract holds for every such choice.
- **Outcomes.** An operation ends in `Outcome.Returned`, `Raised(msg)` (an exception escapes) or `Hung`. `Hung` covers the reply re-choice loop of the full version, which never ends when every submission phrase is already among the ignored comment bodies. A hung task does nothing more: its `finally` never runs.
- **Thread pool.** The pool runs the submitted tasks one after another, in submission order. Waiting on futures becomes looking at the tasks' outcomes. A pool with R workers whose R running tasks all hang starts no later task; that task's result is `None`.
- **Store.** The pickle store is a map from file name to id set. A missing file reads as the empty set, and a write overwrites.
- **Classes.** The bots of each version and the orchestrators are classes whose fields are updated in place, as in the source. A predicate `Valid()` ties the processed and session sets and the failure counter to the log: e.g. the session submissions are exactly the submissions replied to, each once.

## Model

| member | source | states |
|---|---|---|
| Wait.Resolve | full_feature_version/utils/wait.py:5-9 | a falsy bound (omitted or 0) becomes the default, any other bound is kept |
| Wait.SecondsBounds | full_feature_version/utils/wait.py:5-10 | the sleep is drawn from [a, b] exactly when the resolved low bound is at most the high one, otherwise randint raises; resolved bounds are never 0 |
| Wait.ToSeconds | full_feature_version/utils/wait.py:14-15 | `rand_wait_min` scales a non-zero bound by 60 and leaves a falsy one as it is |
| Wait.NoArgumentsDefault | full_feature_version/utils/wait.py:5-10 | `rand_wait_sec()` sleeps 2 to 3 seconds |
| Wait.ZeroMeansDefault | full_feature_version/utils/wait.py:6-9 | passing 0 for either bound is the same as omitting it |
| Wait.LowAboveDefaultHighRaises | full_feature_version/utils/wait.py:6-10 | a low bound above 3 with no high bound (e.g. `rand_wait_sec(5)`) raises |
| Wait.BackoffWithin | full_feature_version/utils/wait.py:13-16 | `rand_wait_min(w, w + 1)` always sleeps, between 60w and 60(w + 1) seconds; for w = 0 the low bound becomes the default of 2 seconds |
| Wait.FixedPauses | full_feature_version/bot/orchestrator.py:82 | the fixed pauses of the code (25 to 35 s, 1 to 2 s, 1 to 2 min) resolve to exactly those ranges |
| RateLimit.LowerChar | full_feature_version/bot/bot.py:118 | lower-casing keeps digits digits and changes nothing but A to Z |
| RateLimit.Lower | full_feature_version/bot/bot.py:118 | lower-casing works character by character and keeps the length |
| RateLimit.FindFrom | full_feature_version/bot/bot.py:120-121 | the result is the first occurrence of the pattern at or after the start, or there is none |
| RateLimit.Find | full_feature_version/bot/bot.py:120-121 | `p in s` and `s.index(p)`: the first occurrence, or none at all |
| RateLimit.ParseWait | full_feature_version/bot/bot.py:117-126 | no marker means no retry, an IndexError needs a marker, and a read wait is below 100 minutes |
| RateLimit.FirstMarkerAt | full_feature_version/bot/bot.py:120-121 | only the first "try again in " counts: written after a text without one, it is found right there |
| RateLimit.ReadsTwoDigits | full_feature_version/bot/bot.py:122-126 | two digits after the marker are read as a two-digit number of minutes and a third is never looked at |
| RateLimit.ReadsOneDigit | full_feature_version/bot/bot.py:122-126 | a digit followed by a non-digit is read alone |
| RateLimit.NonDigitNoRetry | full_feature_version/bot/bot.py:122 | a non-digit right after the marker means no retry |
| RateLimit.IndexPastEndRaises | full_feature_version/bot/bot.py:122-124 | a message ending at the marker, or one digit after it, raises IndexError |
| RateLimit.ParseDecimal | full_feature_version/bot/bot.py:121-126 | the written wait 0..99 followed by a non-digit is read back exactly (round trip) |
| Retry.NewLimit | full_feature_version/bot/bot.py:111-112 | the retried limit is limit minus processed when that is positive and 1 otherwise, so it is at least 1 and at most the old limit |
| Retry.Decide | full_feature_version/bot/bot.py:104-126 | a retry happens exactly when the incremented count is below 5 and a wait was read, with that wait and the reduced limit; the parser's IndexError escapes only below 5 |
| Retry.BackoffEvent | full_feature_version/bot/bot.py:128 | the back-off sleeps between 60w and 60(w + 1) seconds |
| Retry.UnboundedRetry | part1_rate_error/bot.py:52-65 | in the older bots every readable wait ends in randint's TypeError, an unreadable one returns, and the parser's IndexError escapes |
| Retry.RetryVersionsAgree | part2_upvote_comments/bot.py:64-77 | below the count bound, the full version retries exactly where the older ones raise TypeError, gives up exactly where they return, and raises IndexError in the same cases |
| Sampling.SweepSize | full_feature_version/bot/bot.py:85 | `round(0.75 n)`: the nearest integer to 3n/4, ties to the even one, never above n |
| Sampling.SweepSizeUnique | full_feature_version/bot/bot.py:85 | that rounding has one answer (an independent characterisation) |
| Sampling.ReplyCount | full_feature_version/bot/bot.py:174 | `round(0.35 N)` for N below 12: nearest to 35N/100, ties to even, at most N and at most 4 |
| Sampling.ReplyCountFormula | full_feature_version/bot/bot.py:174 | for N below 12 the count is (35N + 50) div 100 |
| Sampling.SampleExists | full_feature_version/bot/bot.py:176 | a sample of k distinct positions out of n exists whenever k is at most n, so `random.sample` does not raise |
| Sampling.DrawExists | full_feature_version/bot/bot.py:175 | k distinct phrases can be drawn from a pool whose first k entries differ |
| Sampling.SomeOrdering | full_feature_version/bot/orchestrator.py:54-55 | there is an ordering of every key set: each key once |
| CommentTree.Scope | full_feature_version/bot/bot.py:165-170 | the comments looked at are exactly the listed comments and their direct replies |
| CommentTree.ComputeCommentsToIgnore | full_feature_version/bot/bot.py:163-171 | the loop builds exactly the ignore map IgnoreMap |
| CommentTree.KeepAllKeys | full_feature_version/bot/bot.py:166-170 | the map's keys are the ids of the bot-authored comments visited |
| CommentTree.KeepAllValues | full_feature_version/bot/bot.py:166-170 | an id maps to the last bot-authored comment visited with that id |
| CommentTree.IgnoreMapKeys | full_feature_version/bot/bot.py:163-171 | an id is ignored exactly when a comment or direct reply with that id has an author among the bot names |
| CommentTree.IgnoreMapValues | full_feature_version/bot/bot.py:163-171 | each ignored entry is a bot-authored comment or direct reply with that id |
| CommentTree.IgnoreMapEmpty | full_feature_version/bot/bot.py:156 | the map is empty exactly when no comment or direct reply has a bot author |
| CommentTree.SampledIds | full_feature_version/bot/bot.py:176 | the sampled comments are the comments at the sampled positions, in sample order |
| CommentTree.CommentEvents | full_feature_version/bot/bot.py:176-180 | serving k comments makes 2k calls |
| CommentTree.CommentEventsAt | full_feature_version/bot/bot.py:177-179 | the i-th sampled comment is upvoted and then replied to with the i-th drawn phrase |
| CommentTree.CommentEventsReplies | full_feature_version/bot/bot.py:179-180 | the comments replied to are exactly the sampled ones, in order, and no submission is replied to |
| CommentTree.CommentEventsTexts | full_feature_version/bot/bot.py:175-179 | every comment reply uses a drawn phrase: the `next` fallback is never taken |
| Reddit.Take | full_feature_version/bot/bot.py:84 | a `new(limit=n)` listing is the first min(n, length) submissions |
| Reddit.Listing | full_feature_version/bot/bot.py:58-59 | a `hot` listing is a prefix of the feed, no longer than the limit when one is given |
| Reddit.SplitJoin | full_feature_version/bot/bot.py:77 | the '+'-joined subreddit names split back into the same names when no name contains '+' |
| Reddit.Load | part3_orchestrator/store.py:8-14 | a missing store file reads as the empty set |
| Reddit.LoadAfterStore | part3_orchestrator/store.py:8-20 | a write is read back, leaves other files alone, and writing the same set twice is the same as once |
| CrossUpvote.AssignMeaning | full_feature_version/bot/orchestrator.py:50-52 | entering a bot's comments gives each of them that bot as owner and keeps the other entries |
| CrossUpvote.OwnersMeaning | full_feature_version/bot/orchestrator.py:42-52 | the owner map's keys are exactly the fetched ids, and each id's owner is the last bot in roster order that fetched it |
| CrossUpvote.BuildOwnerMap | full_feature_version/bot/orchestrator.py:48-52 | the loop over the fetch results builds exactly that owner map |
| CrossUpvote.OwnersEmpty | full_feature_version/bot/orchestrator.py:54-56 | the owner map is empty exactly when every bot fetched nothing |
| CrossUpvote.SelectFor | full_feature_version/bot/orchestrator.py:61-75 | one bot's scan: every draw before the last was rejected, it stops at the first acceptable comment or after R + 2 draws, uses the last drawn one, and falls back only when that one is unacceptable |
| CrossUpvote.PlanUpvotes | full_feature_version/bot/orchestrator.py:58-77 | one comment per roster bot, with a cursor shared by all bots; each bot takes 1 to R + 2 positions; a fallback is unacceptable, and on a cycle no longer than R + 2 happens only when no comment is acceptable |
| CrossUpvote.PlannedMeaning | full_feature_version/bot/orchestrator.py:58-77 | the per-turn invariant of the selection loop gives those per-bot facts |
| CrossUpvote.CreditMeaning | full_feature_version/bot/orchestrator.py:37-39 | after the upvotes a bot's session set holds what it held before plus exactly the comments its passing upvotes hit |
| CrossUpvote.Select | full_feature_version/bot/orchestrator.py:42-77 | the owner map of the fetches, a shuffle of its keys (empty exactly when nothing was fetched), and one selected comment per bot from it, the bots taking their turns in roster order on one cycle from its start: each rejects every draw but its last, stops at the first acceptable comment or after R + 2 draws, and falls back only then |
| CrossUpvote.TurnUnique | full_feature_version/bot/orchestrator.py:61-75 | a bot's turn is fixed by the cycle position it starts from: where it stops, which comment it takes and whether it fell back |
| CrossUpvote.PlannedUnique | full_feature_version/bot/orchestrator.py:58-77 | the turns of the whole roster on the shared cycle are fixed by the cycle and the session: two plans agree on every stop, comment and fallback |
| CrossUpvote.SelectedUnique | full_feature_version/bot/orchestrator.py:58-77 | the selection of an iteration is a function of the shuffled cycle and the session |
| CrossUpvote.SelectedTwoBots | full_feature_version/bot/orchestrator.py:58-77 | two bots with one comment each, cycled a, b: the first skips its own comment and takes b, the second takes a, no bot falls back, and no other selection is possible |
| CrossUpvote.RoundSession | full_feature_version/bot/orchestrator.py:32-79 | after an iteration the session map only names roster bots and only holds comments some bot fetched, or what it held before |
| Dispatch.FirstFalsy | full_feature_version/bot/orchestrator.py:90-93 | the length of the prefix before the first empty id |
| Dispatch.Distribute | full_feature_version/bot/orchestrator.py:86-94 | one task per id before the first empty one, the i-th id going to bot i mod R |
| Dispatch.RoundRobinLoad | full_feature_version/bot/orchestrator.py:89-94 | bot w gets n div R tasks, plus one when w < n mod R |
| Dispatch.Post | full_feature_version/bot/bot.py:66 | the fetched submission always carries the dealt id; its comments are the ones the platform holds for that id, none for an id it does not know |
| Dispatch.RunParseTasks | full_feature_version/bot/orchestrator.py:94-95 | a result per task; a task is not started exactly when R earlier tasks hung; every started one ends in a parse outcome, and no bot's log shrinks |
| Dispatch.ParseTask | full_feature_version/bot/orchestrator.py:94 | one `parse_submission` task touches only its bot and ends as a parse can end |
| Dispatch.ParseDifferent | full_feature_version/bot/orchestrator.py:84-95 | a failing listing by the chosen bot escapes and nothing is dealt; otherwise the listing is dealt round robin up to its first empty id and the call hangs exactly when a task hangs |
| Dispatch.DealAndRun | full_feature_version/bot/orchestrator.py:88-95 | the dealing loop and the wait: the dealt tasks, a result each, and an outcome that is Hung exactly when one task hung |
| Dispatch.LogKarmaAll | full_feature_version/bot/orchestrator.py:108-114 | every bot gets one karma read, in roster order, whose failure stays in its future |
| FullBot.CommentDrawExists | full_feature_version/bot/bot.py:17-24 | the 18 comment phrases are distinct enough for every k + 1 draw the gate allows |
| FullBot.BotNames | full_feature_version/bot/bot.py:33 | the bot names are the given set, or just the bot itself when none is given |
| FullBot.RedditBot.constructor | full_feature_version/bot/bot.py:28-48 | a new bot has the loaded processed set, empty session sets, a zero failure count, a clear latch and an empty log |
| FullBot.RedditBot.MarkSubmission | full_feature_version/bot/bot.py:183-185 | the id joins both the processed and the session submissions |
| FullBot.RedditBot.MarkComment | full_feature_version/bot/bot.py:187-188 | the id joins the session comments |
| FullBot.RedditBot.ReplyToSubmission | full_feature_version/bot/bot.py:151-152 | a passing reply is logged and marks the submission; a failing one changes nothing |
| FullBot.RedditBot.ReplyToComment | full_feature_version/bot/bot.py:179-180 | a passing reply is logged and marks the comment |
| FullBot.RedditBot.Persist | full_feature_version/bot/bot.py:94 | the processed set is written under the account's file name |
| FullBot.RedditBot.ServeComment | full_feature_version/bot/bot.py:177-180 | upvote, then reply; on a failure, at most the upvote is logged and nothing is marked |
| FullBot.RedditBot.ServeSample | full_feature_version/bot/bot.py:176-180 | when nothing raises, the log gains exactly the upvote and reply of every sampled comment and the session comments gain them; a failure logs a prefix of that |
| FullBot.RedditBot.SessionComments | full_feature_version/bot/bot.py:180 | the session comments after the sample are those before plus the sampled ones |
| FullBot.RedditBot.ProcessComments | full_feature_version/bot/bot.py:173-181 | returns k = round(0.35 N), samples k distinct comments and k + 1 distinct phrases, and serves exactly those comments when nothing raises |
| FullBot.RedditBot.ChooseReply | full_feature_version/bot/bot.py:138-147 | the re-choice loop hangs exactly when the ignore map is non-empty and holds every phrase; otherwise the reply is a phrase that is not an ignored body |
| FullBot.RedditBot.Engage | full_feature_version/bot/bot.py:149-157 | upvote, reply, mark, and then the comment step only when nothing is ignored, serving round(0.35 N) distinct comments with distinct phrases from a draw of one more; a failure logs a prefix of those calls |
| FullBot.RedditBot.UpvoteAndReply | full_feature_version/bot/bot.py:149-152 | the id is marked only after both the upvote and the reply passed |
| FullBot.RedditBot.ProcessSubmission | full_feature_version/bot/bot.py:131-161 | a processed id costs no call and no mark; 12 comments or more cost one fetch and no mark; the step hangs exactly when every phrase is an ignored body; otherwise the step is processed with a non-colliding reply, and comments are served only when nothing is ignored: then exactly round(0.35 N) distinct comments, each with its own phrase from a draw of k + 1 distinct comment phrases |
| FullBot.RedditBot.FetchSubmissionIds | full_feature_version/bot/bot.py:58-59 | the hot ids up to the limit, or the platform's error |
| FullBot.RedditBot.FetchNewComments | full_feature_version/bot/bot.py:61-62 | the bot's newest min(limit, count) comment ids, or the platform's error |
| FullBot.RedditBot.UpvoteOneComment | full_feature_version/bot/bot.py:100-102 | one upvote, logged if it passes, with no dedup check |
| FullBot.RedditBot.LogCommentKarma | full_feature_version/bot/bot.py:73-74 | one karma read |
| FullBot.RedditBot.ProcessPostsOnSubreddits | full_feature_version/bot/bot.py:76-77 | one run over the '+'-joined names with limit 40 per name, which sets the latch unless it hangs |
| FullBot.RedditBot.TryHandleException | full_feature_version/bot/bot.py:104-115 | the count grows by one, a crash is recorded, and a back-off is recorded exactly when the handler decides to retry |
| FullBot.RedditBot.RecordCrash | full_feature_version/bot/bot.py:105-107 | the failure count and the crash records grow together |
| FullBot.RedditBot.RecordBackoff | full_feature_version/bot/bot.py:128 | one back-off record, and no more back-offs than failures |
| FullBot.RedditBot.Sweep | full_feature_version/bot/bot.py:83-87 | a failing listing logs nothing; otherwise a listing call with the limit, round(0.75 n) distinct sampled submissions, and when it returns every sampled one is processed or has 12 comments or more |
| FullBot.RedditBot.ProcessPicked | full_feature_version/bot/bot.py:85-87 | when the loop returns, every picked submission is processed or over the gate |
| FullBot.RedditBot.TryProcess | full_feature_version/bot/bot.py:85-86 | a processed submission costs nothing; a returning step leaves the submission processed or over the gate |
| FullBot.RedditBot.WorkOnSubreddit | full_feature_version/bot/bot.py:79-98 | default limit 60; the run begins with the listing call, or with the crash record when it raised; it sets the latch unless it hangs; the store is written exactly once, as the last event, when the latch is newly set; back-offs need failures |
| FullBot.RedditBot.SweepOrRecover | full_feature_version/bot/bot.py:83-89 | the try block and its handler: the latch can only be set by a failure's retry, and then with the store just written |
| FullBot.RedditBot.RecoverSweep | full_feature_version/bot/bot.py:88-89 | a failure of the sweep is recorded and handled, with the failure count strictly larger |
| FullBot.RedditBot.Recover | full_feature_version/bot/bot.py:104-129 | after the crash record: a retry with back-off and the reduced limit starts a new run; giving up returns; an IndexError escapes |
| FullBot.RedditBot.Finally | full_feature_version/bot/bot.py:90-94 | the first run that ends sets the latch and writes the store; a set latch or a hung run writes nothing |
| FullBot.RedditBot.ParseSubmission | full_feature_version/bot/bot.py:64-71 | each non-hung attempt, the first and every retry, writes the store once, so the writes are one more than the back-offs; a processed id returns after one write |
| FullBot.RedditBot.SaveUnlessHung | full_feature_version/bot/bot.py:70-71 | the `finally` write, unless the task hung |
| FullBot.RedditBot.RecoverParse | full_feature_version/bot/bot.py:68-71 | the handler of a failed parse: one write per back-off it causes |
| FullOrchestrator.Usernames | full_feature_version/bot/orchestrator.py:14 | every credential's username and nothing else |
| FullOrchestrator.Active | full_feature_version/bot/orchestrator.py:16 | the roster keeps only accounts that are not suspended, in credential order |
| FullOrchestrator.ActiveEmpty | full_feature_version/bot/orchestrator.py:16-18 | the roster is empty exactly when every account is suspended |
| FullOrchestrator.FetchAnswer | full_feature_version/bot/orchestrator.py:34-35 | a fetch task fails exactly when its call raises, and otherwise returns at most n of the bot's own comments |
| FullOrchestrator.FirstFailure | full_feature_version/bot/orchestrator.py:48-49 | `future.result()` in roster order re-raises the first failing fetch |
| FullOrchestrator.Plan | full_feature_version/bot/orchestrator.py:48-77 | the first failing fetch escapes; with no comment at all, `next` on the empty cycle raises StopIteration and nothing else is raised; otherwise the selection is Selected over a shuffle of the owner map's keys: turns on one shared cycle, rejected draws skipped, fallback only after R + 2 draws |
| FullOrchestrator.BotOrchestrator.Create | full_feature_version/bot/orchestrator.py:13-18 | one fresh bot per non-suspended account in order, each told every credential's username; no pool exists when every account is suspended |
| FullOrchestrator.BotOrchestrator.ParseSubreddit | full_feature_version/bot/orchestrator.py:28-29 | every bot runs `work_on_subreddit` once; the call hangs exactly when one of them hangs |
| FullOrchestrator.BotOrchestrator.WorkTask | full_feature_version/bot/orchestrator.py:29 | one bot's run: the latch set unless it hung, and the run's first event |
| FullOrchestrator.BotOrchestrator.ParseDifferentSubmissions | full_feature_version/bot/orchestrator.py:84-95 | a failing listing escapes, and otherwise the ids are dealt as Dispatch.ParseDifferent states |
| FullOrchestrator.BotOrchestrator.LogKarma | full_feature_version/bot/orchestrator.py:100-101 | each bot reads its karma once; nothing is awaited |
| FullOrchestrator.BotOrchestrator.UpvoteCommentSequentiallyWithWait | full_feature_version/bot/orchestrator.py:103-106 | the bots upvote in roster order until the first failure, which escapes; later bots are not called |
| FullOrchestrator.BotOrchestrator.UpvoteAt | full_feature_version/bot/orchestrator.py:105 | one bot's upvote leaves every other bot untouched |
| FullOrchestrator.BotOrchestrator.FetchTask | full_feature_version/bot/orchestrator.py:34-35 | a fetch task's result and calls are FetchAnswer's |
| FullOrchestrator.BotOrchestrator.UpvoteTask | full_feature_version/bot/orchestrator.py:36-39 | an upvote task passes exactly when its call does, and only then adds the comment to its bot's session entry |
| FullOrchestrator.BotOrchestrator.UpvoteTaskAt | full_feature_version/bot/orchestrator.py:36-39 | the upvote task of one roster position; the other bots are untouched |
| FullOrchestrator.BotOrchestrator.FetchAll | full_feature_version/bot/orchestrator.py:43-46 | one fetch task per bot, in roster order |
| FullOrchestrator.BotOrchestrator.ExecuteUpvotes | full_feature_version/bot/orchestrator.py:36-79 | one upvote task per bot, in roster order, on that bot's selected comment; the session map after them is Credit of exactly the passing upvotes |
| FullOrchestrator.BotOrchestrator.Gather | full_feature_version/bot/orchestrator.py:42-77 | the fetch tasks and the selection: each bot's fetch is FetchAnswer's, the first failing one escapes, an empty cycle raises StopIteration, otherwise the selection is Selected: one comment per bot, turns on one shared cycle, fallback only after R + 2 rejected draws |
| FullOrchestrator.BotOrchestrator.Round | full_feature_version/bot/orchestrator.py:42-79 | one iteration: fetches, the first failure or StopIteration escaping with the session unchanged and only the fetches made; otherwise the Selected choice (shared cycle, R + 2 rule), each bot having spent two answers, its log gaining its fetch and, exactly when its upvote call passed, the upvote of its selected comment, and the session credited with exactly the passing upvotes |
| FullOrchestrator.BotOrchestrator.PlayRound | full_feature_version/bot/orchestrator.py:40-79 | an iteration that reaches its upvote tasks is recorded after the ones before it, selected against the session they left, and every bot's log and answers then account for the record; one that raises leaves the session and the record as they were, its fetches made from the state the record left, and raises the first failing fetch's message or StopIteration |
| FullOrchestrator.LoggedStep | full_feature_version/bot/orchestrator.py:44-79 | a bot whose log and answers accounted for the iterations so far and that then fetched without an error and upvoted as the new iteration records accounts for the longer record |
| FullOrchestrator.BotRound | full_feature_version/bot/orchestrator.py:44-79 | the same step for a bot object: its log is its starting log plus the Trail of the longer record, and exactly two more answers are spent |
| FullOrchestrator.ChainedStep | full_feature_version/bot/orchestrator.py:40-79 | a chain of iterations extended by one that started from the chain's last session is again a chain |
| FullOrchestrator.ChainedPool | full_feature_version/bot/orchestrator.py:31-39 | the session after a chain of iterations from the empty map names only roster bots and only holds comments some bot fetched |
| FullOrchestrator.BotOrchestrator.UpvoteOtherBotComments | full_feature_version/bot/orchestrator.py:31-82 | runs the iterations until one raises; the session starts empty and persists across them: each completed iteration selected against the session the ones before it left (Selected: turns on one shared cycle, fallback only after R + 2 rejected draws) and added its passing upvotes to it; each bot's final log is its old log plus its Trail (per iteration its fetch and, exactly when that upvote's answer passed, the upvote of its pick), with two answers spent per iteration; a raising iteration fetched from that state and raises the first failing fetch's message or StopIteration; the session names only roster bots and only holds comments some bot fetched |
| Part1Bot.StepReplies | part1_rate_error/bot.py:43-49 | a step replies once, only to an unprocessed submission under the gate |
| Part1Bot.RunMarks | part1_rate_error/bot.py:33-49 | a run marks exactly the submissions it replies to, replies to each at most once and never to one processed before |
| Part1Bot.RunCovers | part1_rate_error/bot.py:33-49 | after a run every listed submission is processed or has 12 comments or more, and nothing is forgotten |
| Part1Bot.RunProcessed | part1_rate_error/bot.py:43 | a listing of processed submissions costs no call: a second run over it does nothing |
| Part1Bot.RedditBot.constructor | part1_rate_error/bot.py:14-21 | a new bot has the loaded processed set and an empty log |
| Part1Bot.RedditBot.ReplyToSubmission | part1_rate_error/bot.py:48-49 | a passing reply is logged and marks the submission |
| Part1Bot.RedditBot.Persist | part1_rate_error/bot.py:39 | the processed set is written under the account's file name |
| Part1Bot.RedditBot.UpvoteAndReply | part1_rate_error/bot.py:47-49 | the id is marked only after both the upvote and the reply passed; every call passed except, on a failure, the last, which raised the failure's message |
| Part1Bot.RedditBot.ProcessSubmission | part1_rate_error/bot.py:41-50 | a processed id costs nothing; a returning step logs and marks exactly one Step with a listed phrase; a failure marks nothing and logs a prefix of the Step; every call passed except, on a failure, the last, which raised the failure's message |
| Part1Bot.RedditBot.Engage | part1_rate_error/bot.py:46-49 | a listed phrase, the upvote, the reply and the mark; a failure marks nothing, logs at most the upvote and is the answer of its last call |
| Part1Bot.Broken | part1_rate_error/bot.py:33-34 | a log that stopped inside a step lies between the Run before that step and the Run through it |
| Part1Bot.RedditBot.ProcessAll | part1_rate_error/bot.py:33-34 | without a failure the loop logs and marks exactly Run over the listing in order; a failure is the message of the first call that raised, every call before it passed, and the log lies between the Run before the failing submission and the Run through it |
| Part1Bot.RedditBot.WorkOnSubreddit | part1_rate_error/bot.py:27-39 | default limit 60; every failure goes to the unbounded retry; on every path the store is written last; without a failure the log is the listing call, the Run and the write; a failure is the message of the first call that raised, every call before it passed, and before the write the log lies between the listing call with the Run before the failing submission and the same with the Run through it |
| Part2Bot.CommentDrawExists | part2_upvote_comments/bot.py:12-13 | the 5 comment phrases suffice for every k + 1 draw the gate allows |
| Part2Bot.StepReplies | part2_upvote_comments/bot.py:46-58 | a step replies once to an unprocessed submission under the gate, and to the sampled comments only when the bot has no comment there |
| Part2Bot.StepCommentsIgnore | part2_upvote_comments/bot.py:55-87 | comments are replied to only when neither a comment nor a direct reply is by the bot itself |
| Part2Bot.RunMarks | part2_upvote_comments/bot.py:36-53 | a run marks exactly the submissions it replies to, each once, never one processed before |
| Part2Bot.RunCovers | part2_upvote_comments/bot.py:36-53 | after a run every listed submission is processed or over the gate, and nothing is forgotten |
| Part2Bot.RunProcessed | part2_upvote_comments/bot.py:46 | a listing of processed submissions costs no call |
| Part2Bot.StepPhrased | part2_upvote_comments/bot.py:50-95 | the replies of a step use listed phrases |
| Part2Bot.RedditBot.constructor | part2_upvote_comments/bot.py:17-24 | a new bot has the loaded processed set and an empty log |
| Part2Bot.RedditBot.ReplyToSubmission | part2_upvote_comments/bot.py:52-53 | a passing reply is logged and marks the submission |
| Part2Bot.RedditBot.ReplyToComment | part2_upvote_comments/bot.py:95 | a passing comment reply is logged and marks nothing |
| Part2Bot.RedditBot.Persist | part2_upvote_comments/bot.py:42 | the processed set is written under the account's file name |
| Part2Bot.RedditBot.ServeComment | part2_upvote_comments/bot.py:93-95 | upvote, then reply; on a failure at most the upvote is logged; every call passed except, on a failure, the last, which raised the failure's message |
| Part2Bot.RedditBot.ServeSample | part2_upvote_comments/bot.py:92-95 | when nothing raises, exactly the upvote and reply of every sampled comment in order; every call passed except, on a failure, the last, which raised the failure's message |
| Part2Bot.RedditBot.ProcessComments | part2_upvote_comments/bot.py:89-96 | returns k = round(0.35 N), samples k distinct comments and k + 1 distinct phrases, and serves exactly those; every call passed except, on a failure, the last, which raised the failure's message |
| Part2Bot.RedditBot.UpvoteAndReply | part2_upvote_comments/bot.py:51-53 | the id is marked only after both the upvote and the reply passed; every call passed except, on a failure, the last, which raised the failure's message |
| Part2Bot.RedditBot.Engage | part2_upvote_comments/bot.py:50-58 | upvote, reply and mark before the ignore set is computed, then the comment step only when the bot has no comment there; every call passed except, on a failure, the last, which raised the failure's message |
| Part2Bot.RedditBot.ProcessSubmission | part2_upvote_comments/bot.py:44-62 | a processed id costs nothing; a returning step logs and marks exactly one Step with listed phrases; the mark is the only change to the processed set; every call passed except, on a failure, the last, which raised the failure's message |
| Part2Bot.RedditBot.TryProcess | part2_upvote_comments/bot.py:36-37 | a returning step is one step of the run, and when it replied its draw was a listed phrase and the promised sample; a failing one logs a prefix of a step |
| Part2Bot.Broken | part2_upvote_comments/bot.py:36-37 | a log that stopped inside a step lies between the Run before that step and the Run through it, and the steps before it that replied kept their draws |
| Part2Bot.AdvanceDrawn | part2_upvote_comments/bot.py:44-58 | the steps of a run so far stay well drawn when the next step, if it replies, draws a listed phrase and the promised sample |
| Part2Bot.RedditBot.ProcessAll | part2_upvote_comments/bot.py:36-37 | without a failure the loop logs and marks exactly Run over the listing in order, and every step that replied drew a listed phrase and, when it served comments, round(0.35 N) distinct comments with one more distinct phrases; a failure is the message of the first call that raised, every call before it passed, and the log lies between the Run before the failing submission and the Run through it |
| Part2Bot.RedditBot.FetchAndProcess | part2_upvote_comments/bot.py:34-37 | the listing call and the loop: a failure is the first raising call's message, and the log is the listing call followed by the Run, or by a log broken off inside the failing step; and every step that replied drew a listed phrase and, when it served comments, round(0.35 N) distinct comments with one more distinct phrases |
| Part2Bot.RedditBot.WorkOnSubreddit | part2_upvote_comments/bot.py:30-42 | default limit 60; every failure goes to the unbounded retry; on every path the store is written last; without a failure the log is the listing call, the Run and the write, and every step that replied drew a listed phrase and, when it served comments, round(0.35 N) distinct comments with one more distinct phrases; a failure is the message of the first call that raised, every call before it passed, and before the write the log broke off inside the failing step |
| Part3Orchestrator.Usernames | part3_orchestrator/orchestrator.py:11 | every credential's username and nothing else |
| Part3Orchestrator.BotOrchestrator.Create | part3_orchestrator/orchestrator.py:10-14 | one fresh bot per credential, in order and with no filter, each told every username; no pool for an empty credential list |
| Part3Orchestrator.BotOrchestrator.ParseDifferentSubmissions | part3_orchestrator/orchestrator.py:22-33 | a failing listing escapes; otherwise the i-th id up to the first empty one goes to bot i mod R and all tasks are awaited |
| Part3Orchestrator.BotOrchestrator.LogKarma | part3_orchestrator/orchestrator.py:35-44 | one karma task per bot in roster order, not awaited |

## Notes on the code

Four behaviours of the code that are easy to misread, each modelled as written:
- The failure count is incremented before the test `failure_count < 5` (`full_feature_version/bot/bot.py:105,109`), so a bot retries at most 4 times in its lifetime (Retry.Decide).
- A retry does not repeat the call unchanged: a `limit` argument is lowered to `max(1, limit - |current_session_submissions|)` (`full_feature_version/bot/bot.py:111-112`; Retry.NewLimit).
- The cross-upvote scan breaks when `loop_passed > len(self.bots) + 1`, so the fallback comes after R + 2 rejected draws for a roster of R bots (`full_feature_version/bot/orchestrator.py:73`; CrossUpvote.SelectFor).
- The rate-limit parser itself raises IndexError when the text ends at the marker or one digit after it (`full_feature_version/bot/bot.py:122,124`); that exception leaves the handler and the operation.

## Left out

- The praw client and the network: each call is an event and a scripted answer. `user.me()` at construction is not a call in the model: a bot's suspension is an input.
- Suspended bots of the full version lack the processed and session fields; the model gives every bot those fields, and suspended bots leave the roster at construction.
- Threads and their interleavings: tasks run in submission order, so races between the bots and on `session_upvotes` are not modelled.
- Duplicate usernames in the credentials: the bots would share one store file. The model keeps one store snapshot per construction and does not relate the saves of two bots.
- All sleeps: the pacing sleeps in `_process_submission` and `_process_comments`, `rand_wait_sec(1, 2)` between submissions, `rand_wait_min(1, 2)` in the sequential upvote, `rand_wait_sec(25, 35)` between iterations, and `sleep(randint(2, 3))` in the second bot. Only the back-off before a retry is recorded, once per retry, with its bounds. The Wait module gives the bounds of the others, none of which can raise.
- Logging, the statistics line and the karma value: `bot_comment_karma` is modelled only as a read call.
- Unicode: lower-casing and `isdigit` cover ASCII only.
- Floating point: `round(len * 0.35)` is modelled for the fewer than 12 comments the gate lets through; `round(len * 0.75)` is exact and is modelled as round-half-to-even of 3n/4.
- A failing store read or write, and the store's pickle format: the store is a map from file name to id set.
- A retry sees the same feed as the failed call; the platform's contents do not change between attempts.
- `execute_custom_func`, a caller-supplied executor, `__enter__` and `__exit__`: they run arbitrary code or only shut the pool down.
- Exceptions are modelled by their message text. A post id with no submission behind it is modelled as a post without comments. The `url` parameters of `parse_submission` and `upvote_comment` are not modelled.
- The `defaultdict` of `session_upvotes` inserts an empty set when read; the model reads a missing entry as the empty set and adds no entry on a read.
- The third version's own bot module is not part of this model: its orchestrator drives the full version's bot, with every account treated as not suspended.
- The first and second bots keep no crash record. Their handler's retry call is never reached, because `randint` with one argument raises first.
- FullBot.RedditBot.WorkOnSubreddit: states the run's first event, the latch, the single store write and the failure counts, but not the whole log of a run that retries.
- FullBot.RedditBot.Sweep: states the listing call, the sample and that every picked submission ends processed or over the gate, but not the exact log of the loop.
- FullBot.RedditBot.ParseSubmission: states the store writes and back-offs, but not the exact log of the submission step inside it.
- FullBot.RedditBot.ProcessPostsOnSubreddits: states the listing call and the latch, not the rest of the run.
- FullOrchestrator.BotOrchestrator.ParseSubreddit: states per bot only what WorkTask states.
- Dispatch.RunParseTasks: states that logs grow and what outcomes are possible, not what each task logged.
