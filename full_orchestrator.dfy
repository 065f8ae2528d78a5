/**
 * The orchestrator of the full version: a roster of the accounts that are not
 * suspended, one thread-pool worker per bot, and the group operations that
 * fan out to the roster.
 *
 * The pool is modelled as running the submitted tasks in submission order.
 * For the operations that give every bot one task, each bot has its own
 * worker, so every task runs whatever the others do; a `wait` on the futures
 * returns only when none of them hangs. Exceptions inside tasks stay in their
 * futures unless the code reads `future.result()`.
 */
module FullOrchestrator {
  import opened Wrappers
  import opened Reddit
  import opened Retry
  import opened Sampling
  import opened Dispatch
  import opened CrossUpvote
  import FullBot

  /** One credential entry: the account name, whether the platform reports the account as
      suspended, and the platform's answers to that account's calls. */
  datatype Account = Account(username: string, suspended: bool, responses: seq<Response>)

  /** What `ThreadPoolExecutor(max_workers=0)` raises: a pool needs at least one worker. */
  const NoWorkers := "max_workers must be greater than 0"

  /** What `next` on the cycle of an empty list raises. */
  const StopIterationMessage := "StopIteration"

  /** `{cred['username'] for cred in all_credentials}`. */
  function Usernames(accounts: seq<Account>): (r: set<string>)
    ensures forall k :: 0 <= k < |accounts| ==> accounts[k].username in r
    ensures forall n :: n in r ==> exists k :: 0 <= k < |accounts| && accounts[k].username == n
  {
    set a | a in accounts :: a.username
  }

  /** The accounts that are not suspended, in credential order. */
  function Active(accounts: seq<Account>): (r: seq<Account>)
    ensures |r| <= |accounts|
    ensures forall k :: 0 <= k < |r| ==> !r[k].suspended && r[k] in accounts
  {
    if accounts == [] then []
    else
      var n := |accounts| - 1;
      Active(accounts[..n]) + (if accounts[n].suspended then [] else [accounts[n]])
  }

  /** An empty roster is exactly a credential list where every account is suspended. */
  lemma {:induction false} ActiveEmpty(accounts: seq<Account>)
    ensures Active(accounts) == [] <==> forall k :: 0 <= k < |accounts| ==> accounts[k].suspended
  {
    if accounts != [] {
      var n := |accounts| - 1;
      ActiveEmpty(accounts[..n]);
      assert forall k :: 0 <= k < n ==> accounts[..n][k] == accounts[k];
    }
  }

  /** The account names of a roster, in roster order. */
  function Names(bots: seq<FullBot.RedditBot>): (r: seq<string>)
    ensures |r| == |bots| && forall k :: 0 <= k < |bots| ==> r[k] == bots[k].username
  {
    seq(|bots|, k requires 0 <= k < |bots| => bots[k].username)
  }

  /** A bot as `RedditBot(creds, all_bot_names=...)` creates it for account `a`. */
  ghost predicate Fresh(b: FullBot.RedditBot, a: Account, names: set<string>, store: map<string, set<Id>>)
    reads b
  {
    && b.Valid()
    && b.username == a.username && b.allBotNames == names && !b.isBroken
    && b.passedSubmissions == Reddit.Load(store, FullBot.StoreKey(a.username))
    && b.sessionSubmissions == {} && b.sessionCommentIds == {}
    && b.failureCount == 0 && !b.isTerminating
    && b.events == [] && b.script == a.responses
  }

  /** The first bot of `work_on_subreddit`'s log entry for a run: its listing call, or the crash
      record when that call raised. */
  function Opening(script: seq<Response>, subreddit: string, limit: Option<nat>): Event
  {
    if Answer(script).None? then FetchNew(subreddit, if limit.Some? then limit.value else DefaultLimit)
    else Crash(Answer(script).value)
  }

  /** What one `work_on_subreddit` run that ended in `o` did to a bot that had log `events`,
      answers `script` and flag `terminating` before it: the flag is set unless the run hung,
      and the run's log entry starts with its listing call, or with the crash record when that
      call raised. */
  ghost predicate Worked(b: FullBot.RedditBot, events: seq<Event>, script: seq<Response>, terminating: bool,
                         o: Outcome, subreddit: string, limit: Option<nat>)
    reads b
  {
    && b.isTerminating == (terminating || o != Hung)
    && events < b.events
    && FullBot.At(b.events, |events|, Opening(script, subreddit, limit))
  }

  /** What `fetch_new_comments(limit=n)` gives a bot whose next answer is the head of
      `script` and whose comment listing is `own`. */
  function FetchAnswer(script: seq<Response>, n: nat, own: seq<Id>): (r: Result<seq<Id>>)
    ensures r.Failure? <==> Answer(script).Some?
    ensures r.Success? ==> r.value <= own && |r.value| <= n
  {
    if Answer(script).Some? then Failure(Answer(script).value) else Success(Take(own, n))
  }

  /** What one fetch task did to a bot that had log `events` and answers `script`. */
  ghost predicate Fetched(b: FullBot.RedditBot, events: seq<Event>, script: seq<Response>, n: nat, own: seq<Id>,
                          r: Result<seq<Id>>)
    reads b
  {
    && r == FetchAnswer(script, n, own)
    && b.script == Rest(script)
    && b.events == events + (if r.Success? then [FetchOwnComments(n)] else [])
  }

  /** What one upvote task did to a bot that had log `events` and answers `script`. */
  ghost predicate Voted(b: FullBot.RedditBot, events: seq<Event>, script: seq<Response>, id: Id, passed: bool)
    reads b
  {
    && (passed <==> Answer(script).None?)
    && b.script == Rest(script)
    && b.events == events + (if passed then [UpvoteComment(id)] else [])
  }

  /** `b` played one iteration from log `events` and answers `script`: it fetched `n`
      comments without an error, then upvoted `id`, which passed as `passed` says. */
  ghost predicate Turned(b: FullBot.RedditBot, events: seq<Event>, script: seq<Response>, n: nat, id: Id, passed: bool)
    reads b
  {
    && Answer(script).None?
    && (passed <==> Answer(Rest(script)).None?)
    && b.script == Rest(Rest(script))
    && b.events == events + [FetchOwnComments(n)] + (if passed then [UpvoteComment(id)] else [])
  }

  /** The first failing fetch in roster order, which `future.result()` re-raises. */
  function FirstFailure(fetched: seq<Result<seq<Id>>>): (r: Option<nat>)
    ensures r.Some? ==> (r.value < |fetched| && fetched[r.value].Failure?
      && forall k :: 0 <= k < r.value ==> fetched[k].Success?)
    ensures r.None? ==> forall k :: 0 <= k < |fetched| ==> fetched[k].Success?
  {
    if fetched == [] then None
    else if fetched[0].Failure? then Some(0)
    else match FirstFailure(fetched[1..])
      case None => None
      case Some(i) => Some(i + 1)
  }

  /** The fetched id lists, once every fetch passed. */
  function Values(fetched: seq<Result<seq<Id>>>): (r: seq<seq<Id>>)
    requires forall k :: 0 <= k < |fetched| ==> fetched[k].Success?
    ensures |r| == |fetched| && forall k :: 0 <= k < |fetched| ==> r[k] == fetched[k].value
  {
    seq(|fetched|, k requires 0 <= k < |fetched| => fetched[k].value)
  }

  /** The part of an iteration between the fetch tasks and the upvote tasks: the first failing
      fetch in roster order raises; otherwise the owner map is built from the fetched lists,
      its keys are shuffled, and a comment is selected for every bot. */
  method Plan(fetched: seq<Result<seq<Id>>>, n: nat, own: seq<seq<Id>>, names: seq<string>, session: map<string, set<Id>>)
    returns (st: Outcome, order: seq<Id>, choices: seq<Id>, fallbacks: seq<bool>)
    requires |fetched| == |own| == |names|
    requires forall k :: 0 <= k < |fetched| && fetched[k].Success? ==> fetched[k].value == Take(own[k], n)
    ensures st == Returned || st.Raised?
    ensures FirstFailure(fetched).Some? ==> st == Raised(fetched[FirstFailure(fetched).value].message)
    ensures FirstFailure(fetched).None? ==> IsOrdering(order, Owners(Takes(own, n), names).Keys)
    ensures FirstFailure(fetched).None? ==>
      (st == Raised(StopIterationMessage) <==> forall k :: 0 <= k < |own| ==> Take(own[k], n) == [])
    ensures FirstFailure(fetched).None? && st.Raised? ==> st == Raised(StopIterationMessage)
    ensures st == Returned ==> (FirstFailure(fetched).None?
      && Selected(Owners(Takes(own, n), names), names, session, order, choices, fallbacks))
  {
    order, choices, fallbacks := [], [], [];
    var failure := FirstFailure(fetched);
    if failure.Some? {
      st := Raised(fetched[failure.value].message);
    } else {
      var lists := Values(fetched);
      assert lists == Takes(own, n);
      var owner;
      owner, order, choices, fallbacks := Select(lists, names, session);
      st := if order == [] then Raised(StopIterationMessage) else Returned;
    }
  }

  /** One iteration of `upvote_other_bot_comments` that got to its upvote tasks: the session
      map it started from, the shuffled cycle, each bot's pick and whether it was a fallback,
      and which upvotes passed. */
  datatype Played = Played(before: map<string, set<Id>>, order: seq<Id>, choices: seq<Id>, fallbacks: seq<bool>,
                           passed: seq<bool>)

  /** The session map after a played iteration: its passed upvotes added to the one before. */
  function After(names: seq<string>, p: Played): map<string, set<Id>>
    requires |p.choices| == |names| && |p.passed| == |names|
  {
    Credit(p.before, names, p.choices, p.passed)
  }

  /** A played iteration picked, for every bot, from the owner map of the bots' listings and
      against the session it started from. */
  ghost predicate Picked(own: seq<seq<Id>>, n: nat, names: seq<string>, p: Played)
  {
    && |own| == |names| && |p.passed| == |names|
    && Selected(Owners(Takes(own, n), names), names, p.before, p.order, p.choices, p.fallbacks)
  }

  /** The iterations of `log` ran one after the other from the session `start`, each against
      the session the ones before it left, and `end` is the session after the last. */
  ghost predicate Chained(own: seq<seq<Id>>, n: nat, names: seq<string>, start: map<string, set<Id>>, log: seq<Played>,
                    end: map<string, set<Id>>)
  {
    && (forall r :: 0 <= r < |log| ==> |log[r].choices| == |names| && |log[r].passed| == |names|)
    && (forall r {:trigger Picked(own, n, names, log[r])} :: 0 <= r < |log| ==> Picked(own, n, names, log[r]))
    && (log != [] ==> log[0].before == start)
    && (forall r {:trigger After(names, log[r])} :: 0 <= r < |log| - 1 ==> log[r + 1].before == After(names, log[r]))
    && end == if log == [] then start else After(names, log[|log| - 1])
  }

  /** One more played iteration, from the session the chain left. */
  lemma ChainedStep(own: seq<seq<Id>>, n: nat, names: seq<string>, start: map<string, set<Id>>, log: seq<Played>,
                    end: map<string, set<Id>>, p: Played)
    requires Chained(own, n, names, start, log, end)
    requires Picked(own, n, names, p) && p.before == end
    ensures Chained(own, n, names, start, log + [p], After(names, p))
  {
    var log' := log + [p];
    forall r | 0 <= r < |log'|
      ensures Picked(own, n, names, log'[r])
    {
      if r < |log| {
        assert log'[r] == log[r];
      }
    }
    forall r | 0 <= r < |log'| - 1
      ensures log'[r + 1].before == After(names, log'[r])
    {
      assert log'[r] == log[r];
      if r + 1 < |log| {
        assert log'[r + 1] == log[r + 1];
        assert After(names, log[r]) == log[r + 1].before;
      }
    }
  }

  /** The session after a chain of iterations from the empty map holds only roster names,
      each with comments the bots fetched. */
  lemma {:induction false} ChainedPool(own: seq<seq<Id>>, n: nat, names: seq<string>, log: seq<Played>,
                                       end: map<string, set<Id>>)
    requires Chained(own, n, names, map[], log, end)
    ensures forall name :: name in end ==> name in names
    ensures forall name, id :: id in Upvoted(end, name) ==> InPool(own, id)
  {
    if log != [] {
      var m := |log| - 1;
      var p := log[m];
      var prior := if m == 0 then map[] else After(names, log[m - 1]);
      forall r | 0 <= r < m
        ensures log[..m][r] == log[r]
      {
      }
      assert Chained(own, n, names, map[], log[..m], prior);
      ChainedPool(own, n, names, log[..m], prior);
      assert Picked(own, n, names, log[m]);
      RoundSession(own, n, names, p.order, p.choices, p.fallbacks, p.passed, p.before);
    }
  }

  /** The answers left to a bot after `i` calls. */
  function Skip(script: seq<Response>, i: nat): seq<Response>
  {
    if i <= |script| then script[i..] else []
  }

  /** Each call takes the next answer: the one it gets is the answer to call number `i`. */
  lemma SkipNext(script: seq<Response>, i: nat)
    ensures Answer(Skip(script, i)) == AnswerAt(script, i)
    ensures Rest(Skip(script, i)) == Skip(script, i + 1)
  {
    if i < |script| {
      assert Skip(script, i)[0] == script[i];
      assert Skip(script, i)[1..] == script[i + 1..];
    }
  }

  /** What the bot at roster position `k` logged in the played iterations of `log`: its fetch,
      and its upvote of its pick when that passed. */
  function Trail(n: nat, log: seq<Played>, k: nat): seq<Event>
  {
    if log == [] then []
    else
      var p := log[|log| - 1];
      Trail(n, log[..|log| - 1], k) + [FetchOwnComments(n)]
        + (if k < |p.passed| && k < |p.choices| && p.passed[k] then [UpvoteComment(p.choices[k])] else [])
  }

  /** One more iteration adds its fetch and its passed upvote to the end of a Trail,
      after whatever log `events` came before. */
  lemma TrailStep(events: seq<Event>, n: nat, log: seq<Played>, p: Played, k: nat)
    ensures Trail(n, log + [p], k) == Trail(n, log, k) + [FetchOwnComments(n)]
      + (if k < |p.passed| && k < |p.choices| && p.passed[k] then [UpvoteComment(p.choices[k])] else [])
    ensures events + Trail(n, log + [p], k) == events + Trail(n, log, k) + [FetchOwnComments(n)]
      + (if k < |p.passed| && k < |p.choices| && p.passed[k] then [UpvoteComment(p.choices[k])] else [])
  {
    assert (log + [p])[..|log|] == log;
  }

  /** The bot at roster position `k`, whose answers were `script`, spent two of them on each
      played iteration of `log`: the fetch passed, and the upvote passed exactly when the
      iteration records it so. */
  predicate Answered(script: seq<Response>, log: seq<Played>, k: nat)
  {
    forall r :: 0 <= r < |log| ==>
      && AnswerAt(script, 2 * r).None?
      && k < |log[r].passed|
      && (log[r].passed[k] <==> AnswerAt(script, 2 * r + 1).None?)
  }

  lemma AnsweredStep(script: seq<Response>, log: seq<Played>, p: Played, k: nat)
    requires Answered(script, log, k)
    requires AnswerAt(script, 2 * |log|).None? && k < |p.passed|
    requires p.passed[k] <==> AnswerAt(script, 2 * |log| + 1).None?
    ensures Answered(script, log + [p], k)
  {
    forall r | 0 <= r < |log| + 1
      ensures AnswerAt(script, 2 * r).None? && k < |(log + [p])[r].passed|
      ensures (log + [p])[r].passed[k] <==> AnswerAt(script, 2 * r + 1).None?
    {
      if r < |log| {
        assert (log + [p])[r] == log[r];
      }
    }
  }

  /** A bot that had logged the iterations of `log` (`e0`, `s0`) and then played iteration `p`
      (fetch passed, upvote passed as `p` records) has logged `log + [p]`. */
  lemma LoggedStep(e0: seq<Event>, s0: seq<Response>, e1: seq<Event>, s1: seq<Response>,
                   events: seq<Event>, script: seq<Response>, n: nat, log: seq<Played>, p: Played, k: nat)
    requires e0 == events + Trail(n, log, k) && s0 == Skip(script, 2 * |log|) && Answered(script, log, k)
    requires k < |p.passed| && k < |p.choices| && Answer(s0).None?
    requires (p.passed[k] <==> Answer(Rest(s0)).None?) && s1 == Rest(Rest(s0))
    requires e1 == e0 + [FetchOwnComments(n)] + (if p.passed[k] then [UpvoteComment(p.choices[k])] else [])
    ensures e1 == events + Trail(n, log + [p], k)
    ensures s1 == Skip(script, 2 * |log + [p]|)
    ensures Answered(script, log + [p], k)
  {
    TrailStep(events, n, log, p, k);
    var m := 2 * |log|;
    assert 2 * |log + [p]| == m + 2;
    SkipNext(script, m);
    SkipNext(script, m + 1);
    AnsweredStep(script, log, p, k);
  }

  /** The bot at roster position `k` after the played iterations of `log`, from the log
      `events` and the answers `script` it started with: it logged its Trail, spent two
      answers per iteration, and each iteration's upvote passed as its answers say. */
  ghost predicate BotLogged(b: FullBot.RedditBot, events: seq<Event>, script: seq<Response>, n: nat,
                            log: seq<Played>, k: nat)
    reads b
  {
    && b.events == events + Trail(n, log, k)
    && b.script == Skip(script, 2 * |log|)
    && Answered(script, log, k)
  }

  /** Every bot of the roster after the played iterations of `log`. */
  ghost predicate Logged(bots: seq<FullBot.RedditBot>, events: seq<seq<Event>>, scripts: seq<seq<Response>>, n: nat,
                         log: seq<Played>)
    reads bots
  {
    && |events| == |bots| && |scripts| == |bots|
    && forall k :: 0 <= k < |bots| ==> BotLogged(bots[k], events[k], scripts[k], n, log, k)
  }

  /** The bots' logs, in roster order. */
  ghost function Logs(bots: seq<FullBot.RedditBot>): (r: seq<seq<Event>>)
    reads bots
    ensures |r| == |bots| && forall k :: 0 <= k < |bots| ==> r[k] == bots[k].events
  {
    if bots == [] then [] else Logs(bots[..|bots| - 1]) + [bots[|bots| - 1].events]
  }

  /** The bots' remaining answers, in roster order. */
  ghost function Scripts(bots: seq<FullBot.RedditBot>): (r: seq<seq<Response>>)
    reads bots
    ensures |r| == |bots| && forall k :: 0 <= k < |bots| ==> r[k] == bots[k].script
  {
    if bots == [] then [] else Scripts(bots[..|bots| - 1]) + [bots[|bots| - 1].script]
  }

  /** A bot that had logged the iterations of `log` (its log and answers then being `e0` and
      `s0`) and then played iteration `p` has logged `log + [p]`. */
  lemma BotRound(b: FullBot.RedditBot, e0: seq<Event>, s0: seq<Response>, events: seq<Event>, script: seq<Response>,
                 n: nat, log: seq<Played>, p: Played, k: nat)
    requires e0 == events + Trail(n, log, k) && s0 == Skip(script, 2 * |log|) && Answered(script, log, k)
    requires k < |p.passed| && k < |p.choices| && Turned(b, e0, s0, n, p.choices[k], p.passed[k])
    ensures BotLogged(b, events, script, n, log + [p], k)
  {
    LoggedStep(e0, s0, b.events, b.script, events, script, n, log, p, k);
  }

  class BotOrchestrator {
    const bots: seq<FullBot.RedditBot>

    /** A non-empty roster of distinct bots, each keeping its own invariant. */
    ghost predicate Valid()
      reads this, bots
    {
      && |bots| > 0
      && (forall k :: 0 <= k < |bots| ==> bots[k].Valid())
      && forall i, j :: 0 <= i < j < |bots| ==> bots[i] != bots[j]
    }

    constructor (roster: seq<FullBot.RedditBot>)
      ensures bots == roster
    {
      bots := roster;
    }

    /** `__init__`: a bot per credential, every one told all the usernames; the suspended
        ones are dropped, and a pool for an empty roster cannot be made. */
    static method Create(accounts: seq<Account>, store: map<string, set<Id>>) returns (r: Result<BotOrchestrator>)
      ensures r.Failure? <==> Active(accounts) == []
      ensures r.Failure? ==> r.message == NoWorkers
      ensures r.Success? ==> fresh(r.value) && r.value.Valid() && |r.value.bots| == |Active(accounts)|
      ensures r.Success? ==> forall k :: 0 <= k < |r.value.bots| ==>
        fresh(r.value.bots[k]) && Fresh(r.value.bots[k], Active(accounts)[k], Usernames(accounts), store)
    {
      var names := set a | a in accounts :: a.username;
      var roster: seq<FullBot.RedditBot> := [];
      ghost var live: seq<Account> := [];
      for i := 0 to |accounts|
        invariant live == Active(accounts[..i]) && |roster| == |live|
        invariant forall k :: 0 <= k < |roster| ==> fresh(roster[k]) && Fresh(roster[k], live[k], names, store)
        invariant forall p, q :: 0 <= p < q < |roster| ==> roster[p] != roster[q]
      {
        assert accounts[..i + 1][..i] == accounts[..i];
        var a := accounts[i];
        assert a.username in names;
        var bot := new FullBot.RedditBot(a.username, names, a.suspended, store, a.responses);
        if !bot.isBroken {
          assert forall k :: 0 <= k < |roster| ==> roster[k] != bot;
          roster := roster + [bot];
          live := live + [a];
        }
      }
      assert accounts[..|accounts|] == accounts;
      if roster == [] {
        r := Failure(NoWorkers);
      } else {
        var o := new BotOrchestrator(roster);
        r := Success(o);
      }
    }

    /** `parse_subreddit`: every bot works on the same subreddit, and the call waits for all of
        them. A failure inside a bot stays in its future. */
    method ParseSubreddit(subreddit: string, limit: Option<nat>, feed: seq<Submission>) returns (st: Outcome, results: seq<Outcome>)
      requires Valid()
      modifies bots
      ensures Valid()
      ensures |results| == |bots|
      ensures st == Hung <==> Hung in results
      ensures st != Hung ==> st == Returned
      ensures forall k :: 0 <= k < |bots| ==> Ending(results[k])
      ensures forall k :: 0 <= k < |bots| ==> Worked(bots[k], old(bots[k].events), old(bots[k].script),
        old(bots[k].isTerminating), results[k], subreddit, limit)
    {
      results := [];
      for k := 0 to |bots|
        invariant |results| == k
        invariant forall j :: 0 <= j < |bots| ==> bots[j].Valid()
        invariant forall j :: 0 <= j < k ==> Ending(results[j])
        invariant forall j :: 0 <= j < k ==> Worked(bots[j], old(bots[j].events), old(bots[j].script),
          old(bots[j].isTerminating), results[j], subreddit, limit)
        invariant forall j :: k <= j < |bots| ==>
          bots[j].events == old(bots[j].events) && bots[j].script == old(bots[j].script)
          && bots[j].isTerminating == old(bots[j].isTerminating)
      {
        var o := WorkTask(bots[k], subreddit, limit, feed);
        results := results + [o];
      }
      st := if Hung in results then Hung else Returned;
    }

    /** The task `parse_subreddit` submits for one bot. */
    static method WorkTask(bot: FullBot.RedditBot, subreddit: string, limit: Option<nat>, feed: seq<Submission>) returns (o: Outcome)
      requires bot.Valid()
      modifies bot
      ensures bot.Valid() && Ending(o)
      ensures Worked(bot, old(bot.events), old(bot.script), old(bot.isTerminating), o, subreddit, limit)
    {
      o := bot.WorkOnSubreddit(subreddit, limit, feed);
    }

    /** `parse_different_submissions`. */
    method ParseDifferentSubmissions(subreddit: string, hotLimit: Option<nat>, hot: seq<Id>, content: map<Id, seq<Comment>>)
      returns (st: Outcome, fetcher: nat, tasks: seq<Task>, results: seq<Option<Outcome>>)
      requires Valid()
      modifies bots
      ensures Valid()
      ensures fetcher < |bots|
      ensures Answer(old(bots[fetcher].script)).Some? ==>
        st == Raised(Answer(old(bots[fetcher].script)).value) && tasks == []
      ensures Answer(old(bots[fetcher].script)).None? ==> Dealt(Listing(hot, hotLimit), |bots|, st, tasks, results)
    {
      st, fetcher, tasks, results := ParseDifferent(bots, subreddit, hotLimit, hot, content);
    }

    /** `log_karma`. */
    method LogKarma()
      requires Valid()
      modifies bots
      ensures Valid()
      ensures forall k :: 0 <= k < |bots| ==>
        bots[k].events == old(bots[k].events) + if Answer(old(bots[k].script)).None? then [ReadKarma(bots[k].username)] else []
    {
      LogKarmaAll(bots);
    }

    /** `upvote_comment_sequentially_with_wait`: the bots upvote the comment one after the
        other; the first failure escapes and the later bots do nothing. */
    method UpvoteCommentSequentiallyWithWait(id: Id) returns (st: Outcome, upvoted: nat)
      requires Valid()
      modifies bots
      ensures Valid()
      ensures upvoted <= |bots|
      ensures st == Returned <==> upvoted == |bots|
      ensures upvoted < |bots| ==> (Answer(old(bots[upvoted].script)).Some?
        && st == Raised(Answer(old(bots[upvoted].script)).value))
      ensures forall k :: 0 <= k < |bots| ==>
        bots[k].events == old(bots[k].events) + (if k < upvoted then [UpvoteComment(id)] else [])
      ensures forall k :: 0 <= k < upvoted ==> Answer(old(bots[k].script)).None?
      ensures forall k :: upvoted < k < |bots| ==> bots[k].script == old(bots[k].script)
    {
      upvoted := 0;
      while upvoted < |bots|
        invariant upvoted <= |bots|
        invariant forall j :: 0 <= j < |bots| ==> bots[j].Valid()
        invariant forall k :: 0 <= k < |bots| ==>
          bots[k].events == old(bots[k].events) + (if k < upvoted then [UpvoteComment(id)] else [])
        invariant forall k :: 0 <= k < upvoted ==> Answer(old(bots[k].script)).None?
        invariant forall k :: upvoted <= k < |bots| ==> bots[k].script == old(bots[k].script)
      {
        var err := UpvoteAt(bots, upvoted, id);
        if err.Some? {
          return Raised(err.value), upvoted;
        }
        upvoted := upvoted + 1;
      }
      st := Returned;
    }

    /** The upvote of the bot at position `w` of a roster of distinct bots; the other bots are
        left as they are. */
    static method UpvoteAt(bots: seq<FullBot.RedditBot>, w: nat, id: Id) returns (err: Option<string>)
      requires w < |bots| && forall k :: 0 <= k < |bots| ==> bots[k].Valid()
      requires forall i, j :: 0 <= i < j < |bots| ==> bots[i] != bots[j]
      modifies bots[w]
      ensures forall k :: 0 <= k < |bots| ==> bots[k].Valid()
      ensures err == Answer(old(bots[w].script))
      ensures bots[w].events == old(bots[w].events) + (if err.None? then [UpvoteComment(id)] else [])
      ensures forall k :: 0 <= k < |bots| && k != w ==>
        bots[k].events == old(bots[k].events) && bots[k].script == old(bots[k].script)
    {
      var bot := bots[w];
      err := bot.UpvoteOneComment(id);
      forall k | 0 <= k < |bots| && k != w
        ensures bots[k].Valid() && bots[k].events == old(bots[k].events) && bots[k].script == old(bots[k].script)
      {
        assert bots[k] != bot && unchanged(bots[k]);
      }
    }

    /** `do_fetch_comment_ids` for one bot. */
    static method FetchTask(bot: FullBot.RedditBot, n: nat, own: seq<Id>) returns (r: Result<seq<Id>>)
      requires bot.Valid()
      modifies bot
      ensures bot.Valid()
      ensures Fetched(bot, old(bot.events), old(bot.script), n, own, r)
    {
      r := bot.FetchNewComments(n, own);
    }

    /** `do_upvote_comment` for one bot: the upvote, and then, if it did not raise, the
        comment joins the bot's entry of the session map. */
    static method UpvoteTask(bot: FullBot.RedditBot, id: Id, session: map<string, set<Id>>)
      returns (passed: bool, session': map<string, set<Id>>)
      requires bot.Valid()
      modifies bot
      ensures bot.Valid()
      ensures Voted(bot, old(bot.events), old(bot.script), id, passed)
      ensures session' == if passed then session[bot.username := Upvoted(session, bot.username) + {id}] else session
    {
      var err := bot.UpvoteOneComment(id);
      passed := err.None?;
      session' := session;
      if passed {
        session' := session[bot.username := Upvoted(session, bot.username) + {id}];
      }
    }

    /** The upvote task of the bot at position `w` of the roster; the other bots are untouched. */
    static method UpvoteTaskAt(bots: seq<FullBot.RedditBot>, w: nat, id: Id, session: map<string, set<Id>>)
      returns (passed: bool, session': map<string, set<Id>>)
      requires w < |bots| && forall k :: 0 <= k < |bots| ==> bots[k].Valid()
      requires forall i, j :: 0 <= i < j < |bots| ==> bots[i] != bots[j]
      modifies bots[w]
      ensures forall k :: 0 <= k < |bots| ==> bots[k].Valid()
      ensures Voted(bots[w], old(bots[w].events), old(bots[w].script), id, passed)
      ensures session' == if passed then session[bots[w].username := Upvoted(session, bots[w].username) + {id}] else session
      ensures forall k :: 0 <= k < |bots| && k != w ==>
        bots[k].events == old(bots[k].events) && bots[k].script == old(bots[k].script)
    {
      var bot := bots[w];
      passed, session' := UpvoteTask(bot, id, session);
      forall k | 0 <= k < |bots| && k != w
        ensures bots[k].Valid() && bots[k].events == old(bots[k].events) && bots[k].script == old(bots[k].script)
      {
        assert bots[k] != bot && unchanged(bots[k]);
      }
    }

    /** The fetch tasks of one iteration and the `wait` after them: every bot lists its newest
        comments, `own[k]` being the listing of bot k. */
    method FetchAll(n: nat, own: seq<seq<Id>>) returns (fetched: seq<Result<seq<Id>>>)
      requires Valid() && |own| == |bots|
      modifies bots
      ensures Valid()
      ensures |fetched| == |bots|
      ensures forall k :: 0 <= k < |bots| ==> Fetched(bots[k], old(bots[k].events), old(bots[k].script), n, own[k], fetched[k])
    {
      fetched := [];
      for k := 0 to |bots|
        invariant |fetched| == k
        invariant forall j :: 0 <= j < |bots| ==> bots[j].Valid()
        invariant forall j :: 0 <= j < k ==> Fetched(bots[j], old(bots[j].events), old(bots[j].script), n, own[j], fetched[j])
        invariant forall j :: k <= j < |bots| ==> bots[j].events == old(bots[j].events) && bots[j].script == old(bots[j].script)
      {
        var r := FetchTask(bots[k], n, own[k]);
        fetched := fetched + [r];
      }
    }

    /** The upvote tasks of one iteration and the `wait` after them: bot k upvotes `choices[k]`
        and, when that passed, adds it to its entry of the session map. A failing upvote stays
        in its future. */
    method ExecuteUpvotes(choices: seq<Id>, session: map<string, set<Id>>)
      returns (passed: seq<bool>, session': map<string, set<Id>>)
      requires Valid() && |choices| == |bots|
      modifies bots
      ensures Valid()
      ensures |passed| == |bots|
      ensures forall k :: 0 <= k < |bots| ==> Voted(bots[k], old(bots[k].events), old(bots[k].script), choices[k], passed[k])
      ensures session' == Credit(session, Names(bots), choices, passed)
    {
      var names := Names(bots);
      passed, session' := [], session;
      for k := 0 to |bots|
        invariant |passed| == k
        invariant forall j :: 0 <= j < |bots| ==> bots[j].Valid()
        invariant forall j :: 0 <= j < k ==> Voted(bots[j], old(bots[j].events), old(bots[j].script), choices[j], passed[j])
        invariant forall j :: k <= j < |bots| ==> bots[j].events == old(bots[j].events) && bots[j].script == old(bots[j].script)
        invariant session' == Credit(session, names[..k], choices[..k], passed)
      {
        assert names[k] == bots[k].username;
        var p;
        p, session' := UpvoteTaskAt(bots, k, choices[k], session');
        CreditStep(session, names, choices, passed, p);
        passed := passed + [p];
      }
      assert names[..|bots|] == names && choices[..|bots|] == choices;
    }

    /** The fetch tasks of one iteration and the selection after them. */
    method Gather(n: nat, own: seq<seq<Id>>, session: map<string, set<Id>>)
      returns (st: Outcome, fetched: seq<Result<seq<Id>>>, order: seq<Id>, choices: seq<Id>, fallbacks: seq<bool>)
      requires Valid() && |own| == |bots|
      modifies bots
      ensures Valid()
      ensures st == Returned || st.Raised?
      ensures |fetched| == |bots|
      ensures forall k :: 0 <= k < |bots| ==> Fetched(bots[k], old(bots[k].events), old(bots[k].script), n, own[k], fetched[k])
      ensures FirstFailure(fetched).Some? ==> st == Raised(fetched[FirstFailure(fetched).value].message)
      ensures FirstFailure(fetched).None? ==>
        (st == Raised(StopIterationMessage) <==> forall k :: 0 <= k < |bots| ==> Take(own[k], n) == [])
      ensures FirstFailure(fetched).None? && st.Raised? ==> st == Raised(StopIterationMessage)
      ensures st == Returned ==> FirstFailure(fetched).None?
      ensures st == Returned ==> Selected(Owners(Takes(own, n), Names(bots)), Names(bots), session, order, choices, fallbacks)
    {
      fetched := FetchAll(n, own);
      st, order, choices, fallbacks := Plan(fetched, n, own, Names(bots), session);
    }

    /** One iteration of `upvote_other_bot_comments`: fetch, build the owner map, shuffle,
        select a comment for every bot from the shared cycle, and upvote. */
    method Round(n: nat, own: seq<seq<Id>>, session: map<string, set<Id>>)
      returns (st: Outcome, fetched: seq<Result<seq<Id>>>, order: seq<Id>, choices: seq<Id>, fallbacks: seq<bool>,
               passed: seq<bool>, session': map<string, set<Id>>)
      requires Valid() && |own| == |bots|
      modifies bots
      ensures Valid()
      ensures st == Returned || st.Raised?
      ensures |fetched| == |bots| && forall k :: 0 <= k < |bots| ==> fetched[k] == FetchAnswer(old(bots[k].script), n, own[k])
      ensures FirstFailure(fetched).Some? ==> st == Raised(fetched[FirstFailure(fetched).value].message)
      ensures FirstFailure(fetched).None? ==>
        (st == Raised(StopIterationMessage) <==> forall k :: 0 <= k < |bots| ==> Take(own[k], n) == [])
      ensures FirstFailure(fetched).None? && st.Raised? ==> st == Raised(StopIterationMessage)
      ensures st.Raised? ==> session' == session
      ensures st == Returned ==> FirstFailure(fetched).None? && |passed| == |bots|
      ensures st == Returned ==> Picked(own, n, Names(bots), Played(session, order, choices, fallbacks, passed))
      ensures st == Returned ==> session' == After(Names(bots), Played(session, order, choices, fallbacks, passed))
      ensures st.Raised? ==> forall k :: 0 <= k < |bots| ==>
        Fetched(bots[k], old(bots[k].events), old(bots[k].script), n, own[k], fetched[k])
      ensures st == Returned ==> forall k :: 0 <= k < |bots| ==>
        Turned(bots[k], old(bots[k].events), old(bots[k].script), n, choices[k], passed[k])
      ensures forall name, id :: id in Upvoted(session', name) ==> id in Upvoted(session, name) || InPool(own, id)
      ensures forall name :: name in session' ==> name in session || name in Names(bots)
    {
      passed, session' := [], session;
      var names := Names(bots);
      st, fetched, order, choices, fallbacks := Gather(n, own, session);
      label Listed:
      if st == Returned {
        assert forall k :: 0 <= k < |bots| ==> fetched[k].Success?;
        passed, session' := ExecuteUpvotes(choices, session);
        assert forall k :: 0 <= k < |bots| ==>
          Voted(bots[k], old@Listed(bots[k].events), old@Listed(bots[k].script), choices[k], passed[k]);
        RoundSession(own, n, names, order, choices, fallbacks, passed, session);
      }
    }

    /** One iteration as `upvote_other_bot_comments` sees it: when it gets to its upvote
        tasks, it is recorded after the chain `log` of the iterations before it. */
    method PlayRound(n: nat, own: seq<seq<Id>>, session: map<string, set<Id>>, ghost log: seq<Played>,
                     ghost events: seq<seq<Event>>, ghost scripts: seq<seq<Response>>)
      returns (st: Outcome, session': map<string, set<Id>>, ghost log': seq<Played>, ghost fetched: seq<Result<seq<Id>>>)
      requires Valid() && |own| == |bots|
      requires Chained(own, n, Names(bots), map[], log, session)
      requires Logged(bots, events, scripts, n, log)
      modifies bots
      ensures Valid()
      ensures st == Returned || st.Raised?
      ensures st.Raised? ==> session' == session && log' == log
      ensures st == Returned ==> |log'| == |log| + 1 && log'[..|log|] == log
      ensures Chained(own, n, Names(bots), map[], log', session')
      ensures st == Returned ==> Logged(bots, events, scripts, n, log')
      ensures st.Raised? ==> |fetched| == |bots| && forall k :: 0 <= k < |bots| ==>
        Fetched(bots[k], events[k] + Trail(n, log, k), Skip(scripts[k], 2 * |log|), n, own[k], fetched[k])
      ensures st.Raised? && FirstFailure(fetched).Some? ==> st == Raised(fetched[FirstFailure(fetched).value].message)
      ensures st.Raised? && FirstFailure(fetched).None? ==>
        st == Raised(StopIterationMessage) && forall k :: 0 <= k < |bots| ==> Take(own[k], n) == []
    {
      var order, choices, fallbacks, passed;
      st, fetched, order, choices, fallbacks, passed, session' := Round(n, own, session);
      log' := log;
      if st == Returned {
        var p := Played(session, order, choices, fallbacks, passed);
        ChainedStep(own, n, Names(bots), map[], log, session, p);
        log' := log + [p];
        forall k | 0 <= k < |bots|
          ensures BotLogged(bots[k], events[k], scripts[k], n, log', k)
        {
          BotRound(bots[k], old(bots[k].events), old(bots[k].script), events[k], scripts[k], n, log, p, k);
        }
      }
    }

    /** `upvote_other_bot_comments`: `iterations` rounds sharing one session map, which starts
        empty; a failing fetch or an empty cycle escapes and ends the call. */
    method UpvoteOtherBotComments(iterations: nat, n: nat, own: seq<seq<Id>>)
      returns (st: Outcome, session: map<string, set<Id>>, rounds: nat, ghost log: seq<Played>,
               ghost fetched: seq<Result<seq<Id>>>)
      requires Valid() && |own| == |bots|
      modifies bots
      ensures Valid()
      ensures rounds <= iterations && (st == Returned <==> rounds == iterations) && (st == Returned || st.Raised?)
      ensures iterations == 0 ==> session == map[]
      ensures |log| == rounds && Chained(own, n, Names(bots), map[], log, session)
      ensures forall k :: 0 <= k < |bots| ==> Answered(old(bots[k].script), log, k)
      ensures st == Returned ==> forall k :: 0 <= k < |bots| ==>
        bots[k].events == old(bots[k].events) + Trail(n, log, k) && bots[k].script == Skip(old(bots[k].script), 2 * rounds)
      ensures st.Raised? ==> |fetched| == |bots| && forall k :: 0 <= k < |bots| ==>
        Fetched(bots[k], old(bots[k].events) + Trail(n, log, k), Skip(old(bots[k].script), 2 * rounds), n, own[k], fetched[k])
      ensures st.Raised? && FirstFailure(fetched).Some? ==> st == Raised(fetched[FirstFailure(fetched).value].message)
      ensures st.Raised? && FirstFailure(fetched).None? ==>
        st == Raised(StopIterationMessage) && forall k :: 0 <= k < |bots| ==> Take(own[k], n) == []
      ensures forall name :: name in session ==> name in Names(bots)
      ensures forall name, id :: id in Upvoted(session, name) ==> InPool(own, id)
    {
      ghost var events, scripts := Logs(bots), Scripts(bots);
      session, st, rounds, log, fetched := map[], Returned, 0, [], [];
      assert Logged(bots, events, scripts, n, log);
      while rounds < iterations
        invariant Valid()
        invariant rounds <= iterations && st == Returned
        invariant |log| == rounds && Chained(own, n, Names(bots), map[], log, session)
        invariant Logged(bots, events, scripts, n, log)
        invariant forall k :: 0 <= k < |bots| ==> events[k] == old(bots[k].events) && scripts[k] == old(bots[k].script)
      {
        st, session, log, fetched := PlayRound(n, own, session, log, events, scripts);
        if st.Raised? {
          break;
        }
        rounds := rounds + 1;
      }
      ChainedPool(own, n, Names(bots), log, session);
    }
  }
}
