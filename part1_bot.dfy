/**
 * The bot of the first version (part 1): one account that upvotes and
 * replies to every new submission of a subreddit with fewer than 12
 * comments, remembers the submissions it has processed, and on a failure
 * reads the rate-limit text of the error. A readable wait crashes the
 * handler (`random.randint` is called with one argument) before any retry.
 *
 * The run over a listing is specified by `Run`, a function of the processed
 * set and the listing; `WorkOnSubreddit` is proved to log exactly its events
 * when no call raises, and the lemmas about `Run` say what such a run does.
 */
module Part1Bot {
  import opened Wrappers
  import opened Reddit
  import opened Retry
  import FullBot

  /** `submission_reply_list`. */
  const SubmissionPhrases: seq<string> := ["Nice", "up up", "nice job, friend", "I like your creativity", "Very nice"]

  /** `_process_submission` when none of its calls raises: the events it logs and the
      processed set after it. A processed submission is left alone, one with 12 comments or
      more is only fetched, any other is upvoted, replied to with `reply` and marked. */
  function Step(passed: set<Id>, s: Submission, reply: string): (seq<Event>, set<Id>)
  {
    if s.id in passed then ([], passed)
    else if |s.comments| >= FullBot.CommentGate then ([FetchComments(s.id)], passed)
    else ([FetchComments(s.id), UpvoteSubmission(s.id), ReplySubmission(s.id, reply)], passed + {s.id})
  }

  /** The loop of `work_on_subreddit` over `subs` in listing order, when no call raises; the
      i-th submission is replied to with `replies[i]` if it is replied to at all. */
  function Run(passed: set<Id>, subs: seq<Submission>, replies: seq<string>): (seq<Event>, set<Id>)
    requires |replies| == |subs|
  {
    if subs == [] then ([], passed)
    else
      var n := |subs| - 1;
      var prior := Run(passed, subs[..n], replies[..n]);
      var step := Step(prior.1, subs[n], replies[n]);
      (prior.0 + step.0, step.1)
  }

  /** The one reply of a step, if it makes one. */
  lemma StepReplies(passed: set<Id>, s: Submission, reply: string)
    ensures SubmissionReplies(Step(passed, s, reply).0)
      == if s.id !in passed && |s.comments| < FullBot.CommentGate then [s.id] else []
  {
    var fetch, up, answer := FetchComments(s.id), UpvoteSubmission(s.id), ReplySubmission(s.id, reply);
    LogOne([], fetch);
    LogOne([fetch], up);
    LogOne([fetch, up], answer);
    assert [] + [fetch] == [fetch] && [fetch] + [up] == [fetch, up] && [fetch, up] + [answer] == [fetch, up, answer];
  }

  /** A run marks exactly the submissions it replies to, replies to each at most once, and
      never to a submission that was already processed. */
  lemma {:induction false} RunMarks(passed: set<Id>, subs: seq<Submission>, replies: seq<string>)
    requires |replies| == |subs|
    ensures Marks(passed, Run(passed, subs, replies))
  {
    if subs != [] {
      var n := |subs| - 1;
      RunMarks(passed, subs[..n], replies[..n]);
      MarksStep(passed, Run(passed, subs[..n], replies[..n]), subs[n], replies[n]);
    }
  }

  /** One step keeps Marks. */
  lemma MarksStep(passed: set<Id>, prior: (seq<Event>, set<Id>), s: Submission, reply: string)
    requires Marks(passed, prior)
    ensures var step := Step(prior.1, s, reply); Marks(passed, (prior.0 + step.0, step.1))
  {
    var step := Step(prior.1, s, reply);
    StepReplies(prior.1, s, reply);
    LogAppend(prior.0, step.0);
    var ps, all := SubmissionReplies(prior.0), SubmissionReplies(prior.0 + step.0);
    if s.id !in prior.1 && |s.comments| < FullBot.CommentGate {
      assert all == ps + [s.id];
      MarksAdd(passed, prior.1, ps, s.id);
    } else {
      assert all == ps + [] == ps;
    }
  }

  /** After a run every listed submission is processed, unless it has 12 comments or more,
      and nothing processed before is forgotten. */
  lemma {:induction false} RunCovers(passed: set<Id>, subs: seq<Submission>, replies: seq<string>)
    requires |replies| == |subs|
    ensures passed <= Run(passed, subs, replies).1
    ensures forall j :: 0 <= j < |subs| ==>
      subs[j].id in Run(passed, subs, replies).1 || |subs[j].comments| >= FullBot.CommentGate
  {
    if subs != [] {
      var n := |subs| - 1;
      RunCovers(passed, subs[..n], replies[..n]);
      assert forall j :: 0 <= j < n ==> subs[..n][j] == subs[j];
    }
  }

  /** A listing whose submissions are all processed already costs no call at all: running
      the bot twice over the same listing replies to nothing the second time. */
  lemma {:induction false} RunProcessed(passed: set<Id>, subs: seq<Submission>, replies: seq<string>)
    requires |replies| == |subs|
    requires forall j :: 0 <= j < |subs| ==> subs[j].id in passed
    ensures Run(passed, subs, replies) == ([], passed)
  {
    if subs != [] {
      var n := |subs| - 1;
      assert forall j :: 0 <= j < n ==> subs[..n][j] == subs[j];
      RunProcessed(passed, subs[..n], replies[..n]);
      assert Step(passed, subs[n], replies[n]) == ([], passed);
      var prior := Run(passed, subs[..n], replies[..n]);
      assert prior.0 + [] == [];
    }
  }

  /** One more submission of the listing. */
  lemma RunStep(passed: set<Id>, subs: seq<Submission>, replies: seq<string>, reply: string, i: nat)
    requires i < |subs| && |replies| == i
    ensures var prior := Run(passed, subs[..i], replies);
      var step := Step(prior.1, subs[i], reply);
      Run(passed, subs[..i + 1], replies + [reply]) == (prior.0 + step.0, step.1)
  {
    assert subs[..i + 1][..i] == subs[..i];
    assert (replies + [reply])[..i] == replies;
  }

  /** A log that has done the first `|replies|` steps of a run and then part of the next one
      lies between those steps and the run one step longer. */
  lemma Broken(start: seq<Event>, passed: set<Id>, subs: seq<Submission>, replies: seq<string>, reply: string, log: seq<Event>)
    requires |replies| < |subs|
    requires var prior := Run(passed, subs[..|replies|], replies);
      start + prior.0 <= log <= start + prior.0 + Step(prior.1, subs[|replies|], reply).0
    ensures var longer := replies + [reply];
      && start + Run(passed, subs[..|longer| - 1], longer[..|longer| - 1]).0 <= log
      && log <= start + Run(passed, subs[..|longer|], longer).0
  {
    var longer := replies + [reply];
    assert longer[..|longer| - 1] == replies;
    RunStep(passed, subs, replies, reply, |replies|);
    var prior := Run(passed, subs[..|replies|], replies);
    assert start + prior.0 + Step(prior.1, subs[|replies|], reply).0 == start + (prior.0 + Step(prior.1, subs[|replies|], reply).0);
  }

  /** Every reply a log makes uses one of the phrases. */
  predicate PhrasesOnly(log: seq<Event>)
  {
    forall e :: e in log && e.ReplySubmission? ==> e.text in SubmissionPhrases
  }

  /** A log that has done the first `|replies|` steps of a run, and then the next one with a
      phrase for its reply, has done one more step of the run. */
  lemma Advance(start: seq<Event>, passed: set<Id>, subs: seq<Submission>, replies: seq<string>, reply: string, log: seq<Event>)
    requires |replies| < |subs|
    requires var prior := Run(passed, subs[..|replies|], replies);
      && PhrasesOnly(prior.0)
      && log == start + prior.0 + Step(prior.1, subs[|replies|], reply).0
      && (subs[|replies|].id !in prior.1 && |subs[|replies|].comments| < FullBot.CommentGate ==> reply in SubmissionPhrases)
    ensures var next := Run(passed, subs[..|replies| + 1], replies + [reply]);
      && log == start + next.0
      && next.1 == Step(Run(passed, subs[..|replies|], replies).1, subs[|replies|], reply).1
      && PhrasesOnly(next.0)
  {
    RunStep(passed, subs, replies, reply, |replies|);
  }

  class RedditBot {
    const username: string
    /** The processed ids read from the store when the bot was created. */
    ghost const loaded: set<Id>
    /** The platform's answers to the bot's calls, in order. */
    const answers: seq<Response>

    var passedSubmissions: set<Id>
    /** The bot's calls that passed, with its save records. */
    var events: seq<Event>
    /** The number of calls the bot has made; the next one gets `AnswerAt(answers, calls)`. */
    var calls: nat

    /** The processed set is the loaded one plus the submissions replied to; no submission
        is replied to twice, nor one that was loaded as processed. */
    ghost predicate Valid()
      reads this
    {
      && passedSubmissions == loaded + ToSet(SubmissionReplies(events))
      && loaded !! ToSet(SubmissionReplies(events))
      && NoDup(SubmissionReplies(events))
    }

    /** `__init__`: the processed set comes from the store. */
    constructor (username: string, store: map<string, set<Id>>, responses: seq<Response>)
      ensures Valid()
      ensures this.username == username
      ensures passedSubmissions == Load(store, FullBot.StoreKey(username)) && loaded == passedSubmissions
      ensures events == [] && answers == responses && calls == 0
    {
      this.username := username;
      loaded := Load(store, FullBot.StoreKey(username));
      answers := responses;
      passedSubmissions := Load(store, FullBot.StoreKey(username));
      events := [];
      calls := 0;
    }

    /** One platform call that reads or upvotes. */
    method Call(e: Event) returns (err: Option<string>)
      requires Valid() && FullBot.Plain(e)
      modifies this
      ensures Valid()
      ensures err == AnswerAt(answers, old(calls)) && calls == old(calls) + 1
      ensures events == old(events) + (if err.None? then [e] else [])
      ensures passedSubmissions == old(passedSubmissions)
    {
      err := AnswerAt(answers, calls);
      calls := calls + 1;
      if err.None? {
        FullBot.PlainLog(events, e);
        events := events + [e];
      }
    }

    /** `submission.reply(text)` followed by `passed_submissions.add`. */
    method ReplyToSubmission(id: Id, text: string) returns (err: Option<string>)
      requires Valid() && id !in passedSubmissions
      modifies this
      ensures Valid()
      ensures err == AnswerAt(answers, old(calls)) && calls == old(calls) + 1
      ensures events == old(events) + (if err.None? then [ReplySubmission(id, text)] else [])
      ensures passedSubmissions == old(passedSubmissions) + (if err.None? then {id} else {})
    {
      err := AnswerAt(answers, calls);
      calls := calls + 1;
      if err.None? {
        var e := ReplySubmission(id, text);
        LogOne(events, e);
        ToSetAppend(SubmissionReplies(events), [id]);
        assert ToSet([id]) == {id};
        events := events + [e];
        passedSubmissions := passedSubmissions + {id};
      }
    }

    /** `dump_pickled(self.passed_submissions, ...)`. */
    method Persist()
      requires Valid()
      modifies this
      ensures Valid()
      ensures events == old(events) + [Save(FullBot.StoreKey(username), passedSubmissions)]
      ensures calls == old(calls) && passedSubmissions == old(passedSubmissions)
    {
      var e := Save(FullBot.StoreKey(username), passedSubmissions);
      LogOne(events, e);
      events := events + [e];
    }

    /** `submission.upvote()`, then the reply and the mark. */
    method UpvoteAndReply(id: Id, reply: string) returns (err: Option<string>)
      requires Valid() && id !in passedSubmissions
      modifies this
      ensures Valid()
      ensures err.None? ==> events == old(events) + [UpvoteSubmission(id), ReplySubmission(id, reply)]
      ensures err.None? ==> passedSubmissions == old(passedSubmissions) + {id}
      ensures err.Some? ==> events == old(events) || events == old(events) + [UpvoteSubmission(id)]
      ensures err.Some? ==> passedSubmissions == old(passedSubmissions)
      ensures calls == old(calls) + |events| - |old(events)| + (if err.Some? then 1 else 0)
      ensures Spent(answers, old(calls), calls, err)
    {
      err := Call(UpvoteSubmission(id));
      SpentOne(answers, old(calls));
      if err.None? {
        err := ReplyToSubmission(id, reply);
        SpentOne(answers, old(calls) + 1);
        SpentThen(answers, old(calls), old(calls) + 1, calls, err);
      }
    }

    /** `_process_submission`: skip a processed submission; fetch the comments; with fewer
        than 12, upvote, reply with a random phrase and mark the submission, in that order.
        A call that raises ends it, and the mark happens only after both calls passed. */
    method ProcessSubmission(s: Submission) returns (st: Outcome, reply: string)
      requires Valid()
      modifies this
      ensures Valid()
      ensures st == Returned || st.Raised?
      ensures s.id in old(passedSubmissions) ==> st == Returned && events == old(events) && calls == old(calls)
      ensures s.id !in old(passedSubmissions) && AnswerAt(answers, old(calls)).Some? ==>
        st == Raised(AnswerAt(answers, old(calls)).value) && events == old(events)
      ensures st == Returned ==> events == old(events) + Step(old(passedSubmissions), s, reply).0
      ensures st == Returned ==> passedSubmissions == Step(old(passedSubmissions), s, reply).1
      ensures st == Returned && s.id !in old(passedSubmissions) && |s.comments| < FullBot.CommentGate ==>
        reply in SubmissionPhrases
      ensures st.Raised? ==> passedSubmissions == old(passedSubmissions)
      ensures old(events) <= events <= old(events) + Step(old(passedSubmissions), s, reply).0
      ensures calls == old(calls) + |events| - |old(events)| + (if st.Raised? then 1 else 0)
      ensures Spent(answers, old(calls), calls, Escaped(st))
    {
      reply := "";
      st := Returned;
      if s.id in passedSubmissions {
        return;
      }
      var err := Call(FetchComments(s.id));
      SpentOne(answers, old(calls));
      if err.Some? {
        st := Raised(err.value);
        return;
      }
      if |s.comments| >= FullBot.CommentGate {
        return;
      }
      ghost var fetched := calls;
      st, reply := Engage(s.id);
      SpentThen(answers, old(calls), fetched, calls, Escaped(st));
      ghost var full := [FetchComments(s.id), UpvoteSubmission(s.id), ReplySubmission(s.id, reply)];
      assert Step(old(passedSubmissions), s, reply) == (full, old(passedSubmissions) + {s.id});
      if st.Raised? {
        assert events == old(events) + [FetchComments(s.id)] || events == old(events) + full[..2];
        assert events <= old(events) + full;
      } else {
        assert events == old(events) + full;
      }
    }

    /** `_process_submission` from the upvote on, for a new submission with fewer than 12
        comments: a random phrase, then the upvote, the reply and the mark. */
    method Engage(id: Id) returns (st: Outcome, reply: string)
      requires Valid() && id !in passedSubmissions
      modifies this
      ensures Valid()
      ensures reply in SubmissionPhrases
      ensures st == Returned || st.Raised?
      ensures st == Returned ==> events == old(events) + [UpvoteSubmission(id), ReplySubmission(id, reply)]
      ensures st == Returned ==> passedSubmissions == old(passedSubmissions) + {id}
      ensures st.Raised? ==> events == old(events) || events == old(events) + [UpvoteSubmission(id)]
      ensures st.Raised? ==> passedSubmissions == old(passedSubmissions)
      ensures calls == old(calls) + |events| - |old(events)| + (if st.Raised? then 1 else 0)
      ensures Spent(answers, old(calls), calls, Escaped(st))
    {
      assert SubmissionPhrases[0] in SubmissionPhrases;
      reply :| reply in SubmissionPhrases;
      assert reply in SubmissionPhrases;
      var err := UpvoteAndReply(id, reply);
      st := if err.Some? then Raised(err.value) else Returned;
      assert Escaped(st) == err;
    }

    /** The loop of `work_on_subreddit` over the fetched submissions, in order; `failure` is
        the message of the first call that raises, which ends the loop. `replies` holds the
        reply of each submission tried, the failing one included. */
    method ProcessAll(subs: seq<Submission>) returns (failure: Option<string>, replies: seq<string>)
      requires Valid()
      modifies this
      ensures Valid()
      ensures old(events) <= events && old(passedSubmissions) <= passedSubmissions
      ensures calls == old(calls) + |events| - |old(events)| + (if failure.Some? then 1 else 0)
      ensures Spent(answers, old(calls), calls, failure)
      ensures failure.None? ==> (|replies| == |subs|
        && events == old(events) + Run(old(passedSubmissions), subs, replies).0
        && passedSubmissions == Run(old(passedSubmissions), subs, replies).1
        && PhrasesOnly(Run(old(passedSubmissions), subs, replies).0))
      ensures failure.Some? ==> (0 < |replies| <= |subs|
        && old(events) + Run(old(passedSubmissions), subs[..|replies| - 1], replies[..|replies| - 1]).0 <= events
        && events <= old(events) + Run(old(passedSubmissions), subs[..|replies|], replies).0)
    {
      ghost var start, p0 := events, passedSubmissions;
      failure, replies := None, [];
      var i := 0;
      while i < |subs|
        invariant 0 <= i <= |subs|
        invariant Valid()
        invariant old(events) <= events && old(passedSubmissions) <= passedSubmissions
        invariant calls == old(calls) + |events| - |start| && Spent(answers, old(calls), calls, None)
        invariant |replies| == i
        invariant events == start + Run(p0, subs[..i], replies).0
        invariant passedSubmissions == Run(p0, subs[..i], replies).1
        invariant PhrasesOnly(Run(p0, subs[..i], replies).0)
      {
        ghost var before, c0 := events, calls;
        var st, reply := ProcessSubmission(subs[i]);
        FullBot.PrefixTrans(old(events), before, events);
        SpentThen(answers, old(calls), c0, calls, Escaped(st));
        if st.Raised? {
          failure := Some(st.message);
          Broken(start, p0, subs, replies, reply, events);
          replies := replies + [reply];
          return;
        }
        Advance(start, p0, subs, replies, reply, events);
        replies := replies + [reply];
        i := i + 1;
      }
      assert subs[..i] == subs;
    }

    /** `work_on_subreddit`: fetch the new submissions (60 unless a limit is given) and process
        each in order; on a failure, the handler, which returns when the text holds no
        readable wait and raises otherwise; finally, on every path, the save of the processed
        set. `failure` is the message the handler was given, if it ran: the answer to the
        first call that raised, every call before it having passed. */
    method WorkOnSubreddit(subreddit: string, limit: Option<nat>, feed: seq<Submission>)
      returns (st: Outcome, failure: Option<string>, replies: seq<string>)
      requires Valid()
      modifies this
      ensures Valid()
      ensures st == Returned || st == Raised(TypeErrorMessage) || st == Raised(IndexErrorMessage)
      ensures failure.Some? ==> st == UnboundedRetry(failure.value)
      ensures failure.None? ==> st == Returned
      ensures old(events) < events && old(passedSubmissions) <= passedSubmissions
      ensures events[|events| - 1] == Save(FullBot.StoreKey(username), passedSubmissions)
      ensures calls == old(calls) + |events| - 1 - |old(events)| + (if failure.Some? then 1 else 0)
      ensures Spent(answers, old(calls), calls, failure)
      ensures AnswerAt(answers, old(calls)).Some? ==> (failure == AnswerAt(answers, old(calls))
        && events == old(events) + [Save(FullBot.StoreKey(username), old(passedSubmissions))]
        && passedSubmissions == old(passedSubmissions))
      ensures failure.None? ==>
        var subs := Take(feed, if limit.Some? then limit.value else DefaultLimit);
        && |replies| == |subs|
        && events == old(events) + [FetchNew(subreddit, if limit.Some? then limit.value else DefaultLimit)]
          + Run(old(passedSubmissions), subs, replies).0 + [Save(FullBot.StoreKey(username), passedSubmissions)]
        && passedSubmissions == Run(old(passedSubmissions), subs, replies).1
        && PhrasesOnly(Run(old(passedSubmissions), subs, replies).0)
      ensures failure.Some? && AnswerAt(answers, old(calls)).None? ==>
        var fetch := old(events) + [FetchNew(subreddit, if limit.Some? then limit.value else DefaultLimit)];
        var subs := Take(feed, if limit.Some? then limit.value else DefaultLimit);
        (0 < |replies| <= |subs|
        && fetch + Run(old(passedSubmissions), subs[..|replies| - 1], replies[..|replies| - 1]).0 <= events[..|events| - 1]
        && events[..|events| - 1] <= fetch + Run(old(passedSubmissions), subs[..|replies|], replies).0)
    {
      var lim := if limit.Some? then limit.value else DefaultLimit;
      replies := [];
      failure := Call(FetchNew(subreddit, lim));
      SpentOne(answers, old(calls));
      if failure.None? {
        ghost var fetched, c1 := events, calls;
        failure, replies := ProcessAll(Take(feed, lim));
        FullBot.PrefixTrans(old(events), fetched, events);
        SpentThen(answers, old(calls), c1, calls, failure);
      }
      st := if failure.Some? then UnboundedRetry(failure.value) else Returned;
      ghost var ran := events;
      Persist();
      assert events[..|events| - 1] == ran;
    }
  }
}
