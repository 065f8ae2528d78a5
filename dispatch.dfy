/**
 * How both orchestrators hand submissions to their bots: ids are dealt
 * round robin over the roster (`itertools.cycle(self.bots)`) until the first
 * empty id, and each id becomes a `parse_submission` task on a thread pool
 * with one worker per bot.
 *
 * The pool runs the tasks one after another in submission order. A task
 * whose bot never returns keeps its worker busy for good, so once as many
 * tasks as there are workers have hung, the remaining tasks never start.
 * Exceptions inside tasks stay in their futures, which nobody reads.
 */
module Dispatch {
  import opened Wrappers
  import opened Reddit
  import opened Retry
  import FullBot

  /** One `executor.submit(bot.parse_submission, id)`: the roster position of the bot and the id. */
  datatype Task = Task(worker: nat, id: Id)

  /** The number of ids before the first empty one, where `if not submission_id: break` stops. */
  function FirstFalsy(ids: seq<Id>): (n: nat)
    ensures n <= |ids|
    ensures forall i :: 0 <= i < n ==> ids[i] != ""
    ensures n < |ids| ==> ids[n] == ""
  {
    if ids == [] || ids[0] == "" then 0 else 1 + FirstFalsy(ids[1..])
  }

  lemma {:induction false} MulAtLeast(x: int, r: int)
    requires x >= 1 && r > 0
    ensures x * r >= r
    decreases x
  {
    if x > 1 {
      MulAtLeast(x - 1, r);
      assert x * r == (x - 1) * r + r;
    }
  }

  /** Quotient and remainder are the only ones with a remainder below the divisor. */
  lemma DivModUnique(a: int, r: int, q: int, m: int)
    requires r > 0 && 0 <= m < r && a == q * r + m
    ensures a / r == q && a % r == m
  {
    var q2, m2 := a / r, a % r;
    assert a == q2 * r + m2;
    if q2 > q {
      MulAtLeast(q2 - q, r);
    } else if q2 < q {
      MulAtLeast(q - q2, r);
    }
  }

  /** The cycle position after `p` in a roster of `r` bots. */
  lemma NextPosition(p: nat, r: nat)
    requires r > 0
    ensures (p + 1) % r == if p % r == r - 1 then 0 else p % r + 1
    ensures (p + 1) / r == if p % r == r - 1 then p / r + 1 else p / r
  {
    var q, m := p / r, p % r;
    assert p == q * r + m;
    if m == r - 1 {
      assert p + 1 == (q + 1) * r + 0;
      DivModUnique(p + 1, r, q + 1, 0);
    } else {
      DivModUnique(p + 1, r, q, m + 1);
    }
  }

  /** The dispatch loop of `parse_different_submissions`: the i-th id goes to the bot at
      position i mod r, and dealing stops at the first empty id or at the end of the list.
      An empty roster deals nothing, as a cycle over nothing ends at once. */
  method Distribute(ids: seq<Id>, r: nat) returns (tasks: seq<Task>)
    ensures |tasks| == if r == 0 then 0 else FirstFalsy(ids)
    ensures forall i :: 0 <= i < |tasks| ==> tasks[i] == Task(i % r, ids[i])
  {
    tasks := [];
    if r > 0 {
      var worker := 0;
      var i := 0;
      while i < |ids| && ids[i] != ""
        invariant 0 <= i <= FirstFalsy(ids)
        invariant worker == i % r
        invariant |tasks| == i
        invariant forall j :: 0 <= j < i ==> tasks[j] == Task(j % r, ids[j])
      {
        tasks := tasks + [Task(worker, ids[i])];
        NextPosition(i, r);
        worker := if worker == r - 1 then 0 else worker + 1;
        i := i + 1;
      }
    }
  }

  /** The number of tasks dealt to the bot at position `w`. */
  function Load(tasks: seq<Task>, w: nat): nat
  {
    if tasks == [] then 0 else Load(tasks[..|tasks| - 1], w) + (if tasks[|tasks| - 1].worker == w then 1 else 0)
  }

  /** The share of the bot at position `w` of `r` when `n` tasks are dealt round robin:
      `n div r`, and one more for the first `n mod r` bots. */
  function Share(n: nat, r: nat, w: nat): nat
    requires r > 0
  {
    n / r + (if w < n % r then 1 else 0)
  }

  /** Round robin is balanced: every bot gets its share of the tasks. */
  lemma {:induction false} RoundRobinLoad(tasks: seq<Task>, r: nat, w: nat)
    requires r > 0 && w < r
    requires forall i :: 0 <= i < |tasks| ==> tasks[i].worker == i % r
    ensures Load(tasks, w) == Share(|tasks|, r, w)
  {
    if tasks != [] {
      var n := |tasks| - 1;
      var init := tasks[..n];
      assert Load(init, w) == Share(n, r, w) by {
        assert forall i :: 0 <= i < n ==> init[i] == tasks[i];
        RoundRobinLoad(init, r, w);
      }
      assert Load(tasks, w) == Load(init, w) + (if n % r == w then 1 else 0) by {
        assert tasks[n].worker == n % r;
      }
      LoadStep(n, r, w);
    }
  }

  /** One more task raises the share of exactly the bot it goes to. */
  lemma LoadStep(n: nat, r: nat, w: nat)
    requires r > 0 && w < r
    ensures Share(n + 1, r, w) == Share(n, r, w) + (if n % r == w then 1 else 0)
  {
    NextPosition(n, r);
  }

  /** `reddit_client.submission(id=...)`: the submission with the dealt id, carrying the
      comments the platform holds for it; an id the platform does not know is a post without
      comments. */
  function Post(content: map<Id, seq<Comment>>, id: Id): (s: Submission)
    ensures s.id == id
    ensures id in content ==> s.comments == content[id]
    ensures id !in content ==> s.comments == []
  {
    Submission(id, if id in content then content[id] else [])
  }

  /** The number of tasks that never returned. */
  function Hangs(results: seq<Option<Outcome>>): nat
  {
    if results == [] then 0 else Hangs(results[..|results| - 1]) + (if results[|results| - 1] == Some(Hung) then 1 else 0)
  }

  predicate Ending(o: Outcome)
  {
    o == Returned || o == Raised(IndexErrorMessage) || o == Hung
  }

  /** The pool running `parse_submission` tasks with one worker per bot: task j starts exactly
      when fewer than `|bots|` earlier tasks have hung, and its result is None when it never
      starts. Every bot keeps its invariant and only extends its log. */
  method RunParseTasks(bots: seq<FullBot.RedditBot>, tasks: seq<Task>, content: map<Id, seq<Comment>>)
    returns (results: seq<Option<Outcome>>)
    requires forall i :: 0 <= i < |tasks| ==> tasks[i].worker < |bots|
    requires forall k :: 0 <= k < |bots| ==> bots[k].Valid()
    modifies bots
    ensures forall k :: 0 <= k < |bots| ==> bots[k].Valid()
    ensures |results| == |tasks|
    ensures forall j :: 0 <= j < |tasks| ==> (results[j].None? <==> Hangs(results[..j]) >= |bots|)
    ensures forall j :: 0 <= j < |tasks| && results[j].Some? ==> Ending(results[j].value)
    ensures forall k :: 0 <= k < |bots| ==> old(bots[k].events) <= bots[k].events
    ensures forall k :: 0 <= k < |bots| ==> bots[k].isTerminating == old(bots[k].isTerminating)
  {
    results := [];
    for j := 0 to |tasks|
      invariant |results| == j
      invariant forall i :: 0 <= i < j ==> (results[i].None? <==> Hangs(results[..i]) >= |bots|)
      invariant forall i :: 0 <= i < j && results[i].Some? ==> Ending(results[i].value)
      invariant forall k :: 0 <= k < |bots| ==> bots[k].Valid()
      invariant forall k :: 0 <= k < |bots| ==> old(bots[k].events) <= bots[k].events
      invariant forall k :: 0 <= k < |bots| ==> bots[k].isTerminating == old(bots[k].isTerminating)
    {
      var r: Option<Outcome> := None;
      if Hangs(results) < |bots| {
        var st := ParseTask(bots, tasks[j].worker, Post(content, tasks[j].id));
        r := Some(st);
      }
      ghost var prev := results;
      results := results + [r];
      assert forall i :: 0 <= i <= j ==> results[..i] == prev[..i];
      assert prev[..j] == prev;
    }
  }

  /** One `parse_submission` task on the bot at position `w`; the other bots are left as
      they are. */
  method ParseTask(bots: seq<FullBot.RedditBot>, w: nat, s: Submission) returns (st: Outcome)
    requires w < |bots| && forall k :: 0 <= k < |bots| ==> bots[k].Valid()
    modifies bots[w]
    ensures Ending(st)
    ensures forall k :: 0 <= k < |bots| ==> bots[k].Valid()
    ensures forall k :: 0 <= k < |bots| ==> old(bots[k].events) <= bots[k].events
    ensures forall k :: 0 <= k < |bots| ==> bots[k].isTerminating == old(bots[k].isTerminating)
  {
    var bot := bots[w];
    st := bot.ParseSubmission(s);
    forall k | 0 <= k < |bots|
      ensures bots[k].Valid() && old(bots[k].events) <= bots[k].events
      ensures bots[k].isTerminating == old(bots[k].isTerminating)
    {
      if bots[k] != bot {
        assert unchanged(bots[k]);
      }
    }
  }

  /** `parse_different_submissions`: a bot picked at random lists the hot submissions; their
      ids are dealt round robin as `parse_submission` tasks, and the call waits for all of
      them, for ever if one of them never ends. A failing listing escapes to the caller. */
  method ParseDifferent(bots: seq<FullBot.RedditBot>, subreddit: string, hotLimit: Option<nat>, hot: seq<Id>,
                        content: map<Id, seq<Comment>>)
    returns (st: Outcome, fetcher: nat, tasks: seq<Task>, results: seq<Option<Outcome>>)
    requires |bots| > 0 && forall k :: 0 <= k < |bots| ==> bots[k].Valid()
    modifies bots
    ensures forall k :: 0 <= k < |bots| ==> bots[k].Valid()
    ensures fetcher < |bots|
    ensures Answer(old(bots[fetcher].script)).Some? ==>
      st == Raised(Answer(old(bots[fetcher].script)).value) && tasks == [] && results == []
      && forall k :: 0 <= k < |bots| ==> bots[k].events == old(bots[k].events)
    ensures Answer(old(bots[fetcher].script)).None? ==>
      Dealt(Listing(hot, hotLimit), |bots|, st, tasks, results)
    ensures forall k :: 0 <= k < |bots| ==> old(bots[k].events) <= bots[k].events
  {
    tasks, results := [], [];
    fetcher :| 0 <= fetcher < |bots|;
    var r := bots[fetcher].FetchSubmissionIds(subreddit, hotLimit, hot);
    if r.Failure? {
      st := Raised(r.message);
    } else {
      ghost var fetched := bots[fetcher].events;
      st, tasks, results := DealAndRun(bots, r.value, content);
      FullBot.PrefixTrans(old(bots[fetcher].events), fetched, bots[fetcher].events);
    }
  }

  /** What the dispatch of `ids` over `r` bots gives: the tasks of Distribute, a result per
      task, and a wait that ends only when no task hangs. */
  predicate Dealt(ids: seq<Id>, r: nat, st: Outcome, tasks: seq<Task>, results: seq<Option<Outcome>>)
  {
    && |tasks| == (if r == 0 then 0 else FirstFalsy(ids))
    && (forall i :: 0 <= i < |tasks| ==> tasks[i] == Task(i % r, ids[i]))
    && |results| == |tasks|
    && (forall j :: 0 <= j < |tasks| ==> (results[j].None? <==> Hangs(results[..j]) >= r))
    && (st == Hung <==> Some(Hung) in results) && (st != Hung ==> st == Returned)
  }

  /** The dispatch loop of `parse_different_submissions` and the `wait(futures)` after it. */
  method DealAndRun(bots: seq<FullBot.RedditBot>, ids: seq<Id>, content: map<Id, seq<Comment>>)
    returns (st: Outcome, tasks: seq<Task>, results: seq<Option<Outcome>>)
    requires forall k :: 0 <= k < |bots| ==> bots[k].Valid()
    modifies bots
    ensures forall k :: 0 <= k < |bots| ==> bots[k].Valid()
    ensures Dealt(ids, |bots|, st, tasks, results)
    ensures forall j :: 0 <= j < |tasks| && results[j].Some? ==> Ending(results[j].value)
    ensures forall k :: 0 <= k < |bots| ==> old(bots[k].events) <= bots[k].events
  {
    tasks := Distribute(ids, |bots|);
    results := RunParseTasks(bots, tasks, content);
    st := if Some(Hung) in results then Hung else Returned;
  }

  /** `log_karma`: every bot reads its comment karma; nothing waits for the reads, and a failing
      one is lost in its future. */
  method LogKarmaAll(bots: seq<FullBot.RedditBot>)
    requires forall k :: 0 <= k < |bots| ==> bots[k].Valid()
    requires forall i, j :: 0 <= i < j < |bots| ==> bots[i] != bots[j]
    modifies bots
    ensures forall k :: 0 <= k < |bots| ==> bots[k].Valid()
    ensures forall k :: 0 <= k < |bots| ==> bots[k].script == Rest(old(bots[k].script))
    ensures forall k :: 0 <= k < |bots| ==>
      bots[k].events == old(bots[k].events) + if Answer(old(bots[k].script)).None? then [ReadKarma(bots[k].username)] else []
  {
    for k := 0 to |bots|
      invariant forall j :: 0 <= j < |bots| ==> bots[j].Valid()
      invariant forall j :: 0 <= j < k ==> bots[j].script == Rest(old(bots[j].script))
      invariant forall j :: 0 <= j < k ==>
        bots[j].events == old(bots[j].events) + if Answer(old(bots[j].script)).None? then [ReadKarma(bots[j].username)] else []
      invariant forall j :: k <= j < |bots| ==> bots[j].script == old(bots[j].script) && bots[j].events == old(bots[j].events)
    {
      var err := bots[k].LogCommentKarma();
    }
  }
}
