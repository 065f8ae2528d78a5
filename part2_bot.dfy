/**
 * The bot of the second version (part 2): the first version plus a comment
 * phase. After replying to a submission and marking it, the bot looks for
 * its own comments among the submission's comments and their direct
 * replies; when there is none, it upvotes and replies to round(0.35 N) of
 * the N comments, each with a different phrase. Comments are never marked,
 * so a later run may reply to the same comment again only through another
 * submission, since the submission itself is marked.
 *
 * As in the first version, the run over a listing is specified by `Run` and
 * `WorkOnSubreddit` is proved to log exactly its events when no call raises.
 */
module Part2Bot {
  import opened Wrappers
  import opened Reddit
  import opened Sampling
  import opened CommentTree
  import opened Retry
  import FullBot

  /** `submission_reply_list`. */
  const SubmissionPhrases: seq<string> := ["Nice", "up up", "nice job, friend", "I like your creativity", "Very nice"]

  /** `comment_reply_list`. */
  const CommentPhrases: seq<string> := ["Get my upvote", "Here is upvote for you", "Free karma for you", "I like you",
    "You seem like a nice person"]

  /** The sample of k + 1 comment phrases exists for every k the comment gate lets through:
      `random.sample` never raises here. */
  lemma CommentDrawExists(k: nat)
    requires k <= 4
    ensures IsDraw(CommentPhrases[..k + 1], CommentPhrases, k + 1)
  {
    assert NoDup(CommentPhrases);
    assert CommentPhrases[..k + 1] == CommentPhrases[..5][..k + 1];
    DrawExists(CommentPhrases, k + 1);
  }

  /** The random choices of one `_process_submission`: the submission reply, the positions of
      the sampled comments and the sampled comment phrases. */
  datatype Draw = Draw(reply: string, picks: seq<nat>, texts: seq<string>)

  /** The draw can pair every sampled comment of `s` with a phrase. */
  predicate Fits(s: Submission, d: Draw)
  {
    |d.picks| <= |d.texts| && forall i :: 0 <= i < |d.picks| ==> d.picks[i] < |s.comments|
  }

  /** `_process_submission` of the bot `username` when none of its calls raises: the events
      it logs and the processed set after it. These are the calls of the full version with
      the bot's own name as the only bot name. */
  function Step(username: string, passed: set<Id>, s: Submission, d: Draw): (seq<Event>, set<Id>)
    requires Fits(s, d)
  {
    if s.id in passed then ([], passed)
    else (FullBot.SubmissionEvents(s, {username}, d.reply, SampledIds(s.comments, d.picks), d.texts),
          if |s.comments| >= FullBot.CommentGate then passed else passed + {s.id})
  }

  predicate AllFit(subs: seq<Submission>, draws: seq<Draw>)
  {
    |draws| == |subs| && forall j :: 0 <= j < |subs| ==> Fits(subs[j], draws[j])
  }

  /** The loop of `work_on_subreddit` over `subs` in listing order with the i-th draw for the
      i-th submission, when no call raises. */
  function Run(username: string, passed: set<Id>, subs: seq<Submission>, draws: seq<Draw>): (seq<Event>, set<Id>)
    requires AllFit(subs, draws)
  {
    if subs == [] then ([], passed)
    else
      var n := |subs| - 1;
      assert AllFit(subs[..n], draws[..n]) by {
        assert forall j :: 0 <= j < n ==> subs[..n][j] == subs[j] && draws[..n][j] == draws[j];
      }
      var prior := Run(username, passed, subs[..n], draws[..n]);
      var step := Step(username, prior.1, subs[n], draws[n]);
      (prior.0 + step.0, step.1)
  }

  lemma PrefixFits(subs: seq<Submission>, draws: seq<Draw>, n: nat)
    requires AllFit(subs, draws) && n <= |subs|
    ensures AllFit(subs[..n], draws[..n])
  {
    assert forall j :: 0 <= j < n ==> subs[..n][j] == subs[j] && draws[..n][j] == draws[j];
  }

  /** A step replies to its submission once, when it is new and has fewer than 12 comments,
      and to comments only when none of the comments or their direct replies is the bot's
      own; those are the sampled comments, in sample order. */
  lemma StepReplies(username: string, passed: set<Id>, s: Submission, d: Draw)
    requires Fits(s, d)
    ensures var log := Step(username, passed, s, d).0;
      && SubmissionReplies(log) == (if s.id !in passed && |s.comments| < FullBot.CommentGate then [s.id] else [])
      && CommentReplies(log) == (if s.id !in passed && |s.comments| < FullBot.CommentGate
           && IgnoreMap(s.comments, {username}) == map[] then SampledIds(s.comments, d.picks) else [])
  {
    var fetch := FetchComments(s.id);
    if s.id in passed {
    } else if |s.comments| >= FullBot.CommentGate {
      LogOne([], fetch);
      assert [] + [fetch] == [fetch];
    } else {
      var ids := SampledIds(s.comments, d.picks);
      var comments := if IgnoreMap(s.comments, {username}) == map[] then CommentEvents(ids, d.texts) else [];
      var head := [fetch, UpvoteSubmission(s.id), ReplySubmission(s.id, d.reply)];
      assert Step(username, passed, s, d).0 == head + comments;
      CommentEventsReplies(ids, d.texts);
      HeadReplies(s.id, d.reply);
      LogAppend(head, comments);
    }
  }

  /** The fetch, the upvote and the reply of a step reply to the submission only. */
  lemma HeadReplies(id: Id, reply: string)
    ensures SubmissionReplies([FetchComments(id), UpvoteSubmission(id), ReplySubmission(id, reply)]) == [id]
    ensures CommentReplies([FetchComments(id), UpvoteSubmission(id), ReplySubmission(id, reply)]) == []
  {
    var fetch, up, answer := FetchComments(id), UpvoteSubmission(id), ReplySubmission(id, reply);
    assert [fetch, up, answer][..2] == [fetch, up];
    assert [fetch, up][..1] == [fetch];
    assert [fetch][..0] == [];
    assert SubmissionReplies([fetch]) == SubmissionReplies([]) + [] == [];
    assert CommentReplies([fetch]) == CommentReplies([]) + [] == [];
    assert SubmissionReplies([fetch, up]) == SubmissionReplies([fetch]) + [] == [];
    assert CommentReplies([fetch, up]) == CommentReplies([fetch]) + [] == [];
  }

  /** Comments are replied to only under submissions where no comment nor direct reply is
      the bot's. */
  lemma StepCommentsIgnore(username: string, passed: set<Id>, s: Submission, d: Draw)
    requires Fits(s, d)
    requires CommentReplies(Step(username, passed, s, d).0) != []
    ensures forall i :: 0 <= i < |s.comments| ==>
      !AuthoredBy(s.comments[i], {username}) && forall r :: r in s.comments[i].replies ==> !AuthoredBy(r, {username})
  {
    StepReplies(username, passed, s, d);
    IgnoreMapEmpty(s.comments, {username});
  }

  /** A run marks exactly the submissions it replies to, replies to each at most once, and
      never to a submission that was already processed. */
  lemma {:induction false} RunMarks(username: string, passed: set<Id>, subs: seq<Submission>, draws: seq<Draw>)
    requires AllFit(subs, draws)
    ensures Marks(passed, Run(username, passed, subs, draws))
  {
    if subs != [] {
      var n := |subs| - 1;
      PrefixFits(subs, draws, n);
      RunMarks(username, passed, subs[..n], draws[..n]);
      MarksStep(username, passed, Run(username, passed, subs[..n], draws[..n]), subs[n], draws[n]);
    }
  }

  /** One step keeps Marks. */
  lemma MarksStep(username: string, passed: set<Id>, prior: (seq<Event>, set<Id>), s: Submission, d: Draw)
    requires Fits(s, d) && Marks(passed, prior)
    ensures var step := Step(username, prior.1, s, d); Marks(passed, (prior.0 + step.0, step.1))
  {
    var step := Step(username, prior.1, s, d);
    StepReplies(username, prior.1, s, d);
    LogAppend(prior.0, step.0);
    var ps, all := SubmissionReplies(prior.0), SubmissionReplies(prior.0 + step.0);
    if s.id !in prior.1 && |s.comments| < FullBot.CommentGate {
      assert all == ps + [s.id];
      MarksAdd(passed, prior.1, ps, s.id);
    } else {
      assert all == ps + [] == ps;
    }
  }

  /** After a run every listed submission is processed, unless it has 12 comments or more,
      and nothing processed before is forgotten. */
  lemma {:induction false} RunCovers(username: string, passed: set<Id>, subs: seq<Submission>, draws: seq<Draw>)
    requires AllFit(subs, draws)
    ensures passed <= Run(username, passed, subs, draws).1
    ensures forall j :: 0 <= j < |subs| ==>
      subs[j].id in Run(username, passed, subs, draws).1 || |subs[j].comments| >= FullBot.CommentGate
  {
    if subs != [] {
      var n := |subs| - 1;
      PrefixFits(subs, draws, n);
      RunCovers(username, passed, subs[..n], draws[..n]);
      assert forall j :: 0 <= j < n ==> subs[..n][j] == subs[j];
    }
  }

  /** A listing whose submissions are all processed already costs no call at all. */
  lemma {:induction false} RunProcessed(username: string, passed: set<Id>, subs: seq<Submission>, draws: seq<Draw>)
    requires AllFit(subs, draws)
    requires forall j :: 0 <= j < |subs| ==> subs[j].id in passed
    ensures Run(username, passed, subs, draws) == ([], passed)
  {
    if subs != [] {
      var n := |subs| - 1;
      PrefixFits(subs, draws, n);
      assert forall j :: 0 <= j < n ==> subs[..n][j] == subs[j];
      RunProcessed(username, passed, subs[..n], draws[..n]);
      assert Step(username, passed, subs[n], draws[n]) == ([], passed);
      var prior := Run(username, passed, subs[..n], draws[..n]);
      assert prior.0 + [] == [];
    }
  }

  /** The draw of a step that replied used the phrase pools as `random.choice` and
      `random.sample` do. */
  predicate Drawn(s: Submission, username: string, d: Draw)
  {
    && d.reply in SubmissionPhrases
    && (IgnoreMap(s.comments, {username}) == map[] && |s.comments| < FullBot.CommentGate ==>
         var k := ReplyCount(|s.comments|);
         IsSample(d.picks, |s.comments|, k) && IsDraw(d.texts, CommentPhrases, k + 1))
  }

  /** Every reply a log makes uses a phrase of the right pool. */
  predicate Phrased(log: seq<Event>)
  {
    forall e :: e in log ==>
      (e.ReplySubmission? ==> e.text in SubmissionPhrases) && (e.ReplyComment? ==> e.text in CommentPhrases)
  }

  /** The events of one step use the pools when its draw does. */
  lemma StepPhrased(username: string, passed: set<Id>, s: Submission, d: Draw)
    requires Fits(s, d)
    requires s.id !in passed && |s.comments| < FullBot.CommentGate ==> Drawn(s, username, d)
    ensures Phrased(Step(username, passed, s, d).0)
  {
    if s.id !in passed && |s.comments| < FullBot.CommentGate && IgnoreMap(s.comments, {username}) == map[] {
      CommentEventsTexts(SampledIds(s.comments, d.picks), d.texts);
    }
  }

  /** One more submission of the listing. */
  lemma RunStep(username: string, passed: set<Id>, subs: seq<Submission>, draws: seq<Draw>, d: Draw)
    requires |draws| < |subs| && AllFit(subs[..|draws|], draws) && Fits(subs[|draws|], d)
    ensures AllFit(subs[..|draws| + 1], draws + [d])
    ensures var prior := Run(username, passed, subs[..|draws|], draws);
      var step := Step(username, prior.1, subs[|draws|], d);
      Run(username, passed, subs[..|draws| + 1], draws + [d]) == (prior.0 + step.0, step.1)
  {
    var i := |draws|;
    assert subs[..i + 1][..i] == subs[..i];
    assert (draws + [d])[..i] == draws;
    assert forall j :: 0 <= j < i ==> subs[..i + 1][j] == subs[..i][j] && (draws + [d])[j] == draws[j];
  }

  /** A log that has done the first `|draws|` steps of a run, and then the next one, has done
      one more step of the run. */
  lemma Advance(username: string, start: seq<Event>, passed: set<Id>, subs: seq<Submission>, draws: seq<Draw>, d: Draw, log: seq<Event>)
    requires |draws| < |subs| && AllFit(subs[..|draws|], draws) && Fits(subs[|draws|], d)
    requires var prior := Run(username, passed, subs[..|draws|], draws);
      log == start + prior.0 + Step(username, prior.1, subs[|draws|], d).0
    ensures AllFit(subs[..|draws| + 1], draws + [d])
    ensures var next := Run(username, passed, subs[..|draws| + 1], draws + [d]);
      && log == start + next.0
      && next.1 == Step(username, Run(username, passed, subs[..|draws|], draws).1, subs[|draws|], d).1
  {
    var prior := Run(username, passed, subs[..|draws|], draws);
    var step := Step(username, prior.1, subs[|draws|], d);
    RunStep(username, passed, subs, draws, d);
    FullBot.Regroup(start, prior.0, step.0);
  }

  /** `log` lies between the first `|draws| - 1` steps of a run from `start` and `passed` and
      the first `|draws|`: the run broke off in step number `|draws|`, and the steps before it
      that replied used draws of the promised sizes. */
  predicate Broke(username: string, start: seq<Event>, passed: set<Id>, subs: seq<Submission>, draws: seq<Draw>,
                  log: seq<Event>)
  {
    && 0 < |draws| <= |subs|
    && AllFit(subs[..|draws|], draws) && AllFit(subs[..|draws| - 1], draws[..|draws| - 1])
    && start + Run(username, passed, subs[..|draws| - 1], draws[..|draws| - 1]).0 <= log
    && log <= start + Run(username, passed, subs[..|draws|], draws).0
    && AllDrawn(username, passed, subs[..|draws| - 1], draws[..|draws| - 1])
  }

  /** A log that has done the first `|draws|` steps of a run and then part of the next one
      lies between those steps and the run one step longer. */
  lemma Broken(username: string, start: seq<Event>, passed: set<Id>, subs: seq<Submission>, draws: seq<Draw>, d: Draw,
               log: seq<Event>)
    requires |draws| < |subs| && AllFit(subs[..|draws|], draws) && Fits(subs[|draws|], d)
    requires AllDrawn(username, passed, subs[..|draws|], draws)
    requires var prior := Run(username, passed, subs[..|draws|], draws);
      start + prior.0 <= log <= start + prior.0 + Step(username, prior.1, subs[|draws|], d).0
    ensures Broke(username, start, passed, subs, draws + [d], log)
  {
    var longer := draws + [d];
    assert longer[..|longer| - 1] == draws;
    RunStep(username, passed, subs, draws, d);
    var prior := Run(username, passed, subs[..|draws|], draws);
    FullBot.Regroup(start, prior.0, Step(username, prior.1, subs[|draws|], d).0);
  }

  /** The events of a run so far use the pools when every draw that replied did. */
  lemma AdvancePhrased(username: string, passed: set<Id>, subs: seq<Submission>, draws: seq<Draw>, d: Draw)
    requires |draws| < |subs| && AllFit(subs[..|draws|], draws) && Fits(subs[|draws|], d)
    requires var prior := Run(username, passed, subs[..|draws|], draws);
      && Phrased(prior.0)
      && (subs[|draws|].id !in prior.1 && |subs[|draws|].comments| < FullBot.CommentGate ==> Drawn(subs[|draws|], username, d))
    ensures AllFit(subs[..|draws| + 1], draws + [d])
    ensures Phrased(Run(username, passed, subs[..|draws| + 1], draws + [d]).0)
  {
    var prior := Run(username, passed, subs[..|draws|], draws);
    var step := Step(username, prior.1, subs[|draws|], d);
    RunStep(username, passed, subs, draws, d);
    StepPhrased(username, prior.1, subs[|draws|], d);
    assert Phrased(prior.0 + step.0);
  }

  /** Step `j` of a run meets a submission that is not processed yet and has fewer than 12
      comments: the step that replies, and so the one whose draw is used. */
  predicate RepliesAt(username: string, passed: set<Id>, subs: seq<Submission>, draws: seq<Draw>, j: nat)
    requires AllFit(subs, draws) && j < |subs|
  {
    PrefixFits(subs, draws, j);
    subs[j].id !in Run(username, passed, subs[..j], draws[..j]).1 && |subs[j].comments| < FullBot.CommentGate
  }

  /** Every step of a run that replies drew a listed phrase and, when it serves comments,
      round(0.35 N) distinct comments with that many plus one distinct phrases. */
  predicate AllDrawn(username: string, passed: set<Id>, subs: seq<Submission>, draws: seq<Draw>)
    requires AllFit(subs, draws)
  {
    forall j :: 0 <= j < |subs| && RepliesAt(username, passed, subs, draws, j) ==> Drawn(subs[j], username, draws[j])
  }

  /** The draws of a run so far stay drawn when the next step's draw is. */
  lemma AdvanceDrawn(username: string, passed: set<Id>, subs: seq<Submission>, draws: seq<Draw>, d: Draw)
    requires |draws| < |subs| && AllFit(subs[..|draws|], draws) && Fits(subs[|draws|], d)
    requires AllDrawn(username, passed, subs[..|draws|], draws)
    requires var prior := Run(username, passed, subs[..|draws|], draws);
      subs[|draws|].id !in prior.1 && |subs[|draws|].comments| < FullBot.CommentGate ==> Drawn(subs[|draws|], username, d)
    ensures AllFit(subs[..|draws| + 1], draws + [d])
    ensures AllDrawn(username, passed, subs[..|draws| + 1], draws + [d])
  {
    var i := |draws|;
    var longer, more := subs[..i + 1], draws + [d];
    RunStep(username, passed, subs, draws, d);
    forall j | 0 <= j < |longer| && RepliesAt(username, passed, longer, more, j)
      ensures Drawn(longer[j], username, more[j])
    {
      if j < i {
        assert longer[..j] == subs[..i][..j] && more[..j] == draws[..j];
        assert longer[j] == subs[..i][j] && more[j] == draws[j];
        assert RepliesAt(username, passed, subs[..i], draws, j);
      } else {
        assert longer[..i] == subs[..i] && more[..i] == draws;
      }
    }
  }

  /** `log` and `now` are what the first `|draws|` steps of a run from `start` and `passed`
      leave; every reply so far uses a phrase of its pool, and every step that replied used
      a draw of the sizes the bot promises. */
  predicate Ran(username: string, start: seq<Event>, passed: set<Id>, subs: seq<Submission>, draws: seq<Draw>,
                log: seq<Event>, now: set<Id>)
  {
    && |draws| <= |subs| && AllFit(subs[..|draws|], draws)
    && log == start + Run(username, passed, subs[..|draws|], draws).0
    && now == Run(username, passed, subs[..|draws|], draws).1
    && Phrased(Run(username, passed, subs[..|draws|], draws).0)
    && AllDrawn(username, passed, subs[..|draws|], draws)
  }

  /** `after` and `now` are what one step on `s` with draw `d` leaves, and the draw used the
      pools if the step replied. */
  predicate Stepped(username: string, passed: set<Id>, s: Submission, d: Draw, before: seq<Event>, after: seq<Event>, now: set<Id>)
  {
    && Fits(s, d)
    && after == before + Step(username, passed, s, d).0
    && now == Step(username, passed, s, d).1
    && (s.id !in passed && |s.comments| < FullBot.CommentGate ==> Drawn(s, username, d))
  }

  lemma RanStep(username: string, start: seq<Event>, passed: set<Id>, subs: seq<Submission>, draws: seq<Draw>, d: Draw,
                log: seq<Event>, mid: set<Id>, after: seq<Event>, now: set<Id>)
    requires |draws| < |subs| && Ran(username, start, passed, subs, draws, log, mid)
    requires Stepped(username, mid, subs[|draws|], d, log, after, now)
    ensures Ran(username, start, passed, subs, draws + [d], after, now)
  {
    Advance(username, start, passed, subs, draws, d, after);
    AdvancePhrased(username, passed, subs, draws, d);
    AdvanceDrawn(username, passed, subs, draws, d);
  }

  class RedditBot {
    const username: string
    /** The processed ids read from the store when the bot was created. */
    ghost const loaded: set<Id>
    /** The platform's answers to the bot's calls, in order. */
    const answers: seq<Response>

    var passedSubmissions: set<Id>
    /** The bot's calls that passed, with its save records. */
    var events: seq<Event>
    /** The number of calls the bot has made; the next one gets `AnswerAt(answers, calls)`. */
    var calls: nat

    /** The processed set is the loaded one plus the submissions replied to; no submission
        is replied to twice, nor one that was loaded as processed. */
    ghost predicate Valid()
      reads this
    {
      && passedSubmissions == loaded + ToSet(SubmissionReplies(events))
      && loaded !! ToSet(SubmissionReplies(events))
      && NoDup(SubmissionReplies(events))
    }

    /** `__init__`: the processed set comes from the store. */
    constructor (username: string, store: map<string, set<Id>>, responses: seq<Response>)
      ensures Valid()
      ensures this.username == username
      ensures passedSubmissions == Load(store, FullBot.StoreKey(username)) && loaded == passedSubmissions
      ensures events == [] && answers == responses && calls == 0
    {
      this.username := username;
      loaded := Load(store, FullBot.StoreKey(username));
      answers := responses;
      passedSubmissions := Load(store, FullBot.StoreKey(username));
      events := [];
      calls := 0;
    }

    /** One platform call that reads or upvotes. */
    method Call(e: Event) returns (err: Option<string>)
      requires Valid() && FullBot.Plain(e)
      modifies this
      ensures Valid()
      ensures err == AnswerAt(answers, old(calls)) && calls == old(calls) + 1
      ensures events == old(events) + (if err.None? then [e] else [])
      ensures passedSubmissions == old(passedSubmissions)
    {
      err := AnswerAt(answers, calls);
      calls := calls + 1;
      if err.None? {
        FullBot.PlainLog(events, e);
        events := events + [e];
      }
    }

    /** `submission.reply(text)` followed by `passed_submissions.add`. */
    method ReplyToSubmission(id: Id, text: string) returns (err: Option<string>)
      requires Valid() && id !in passedSubmissions
      modifies this
      ensures Valid()
      ensures err == AnswerAt(answers, old(calls)) && calls == old(calls) + 1
      ensures events == old(events) + (if err.None? then [ReplySubmission(id, text)] else [])
      ensures passedSubmissions == old(passedSubmissions) + (if err.None? then {id} else {})
    {
      err := AnswerAt(answers, calls);
      calls := calls + 1;
      if err.None? {
        var e := ReplySubmission(id, text);
        LogOne(events, e);
        ToSetAppend(SubmissionReplies(events), [id]);
        assert ToSet([id]) == {id};
        events := events + [e];
        passedSubmissions := passedSubmissions + {id};
      }
    }

    /** `comment.reply(text)`; the comment is not marked. */
    method ReplyToComment(id: Id, text: string) returns (err: Option<string>)
      requires Valid()
      modifies this
      ensures Valid()
      ensures err == AnswerAt(answers, old(calls)) && calls == old(calls) + 1
      ensures events == old(events) + (if err.None? then [ReplyComment(id, text)] else [])
      ensures passedSubmissions == old(passedSubmissions)
    {
      err := AnswerAt(answers, calls);
      calls := calls + 1;
      if err.None? {
        var e := ReplyComment(id, text);
        LogOne(events, e);
        events := events + [e];
      }
    }

    /** `dump_pickled(self.passed_submissions, ...)`. */
    method Persist()
      requires Valid()
      modifies this
      ensures Valid()
      ensures events == old(events) + [Save(FullBot.StoreKey(username), passedSubmissions)]
      ensures calls == old(calls) && passedSubmissions == old(passedSubmissions)
    {
      var e := Save(FullBot.StoreKey(username), passedSubmissions);
      LogOne(events, e);
      events := events + [e];
    }

    /** One iteration of the loop of `_process_comments`: upvote, then reply. */
    method ServeComment(id: Id, text: string) returns (err: Option<string>)
      requires Valid()
      modifies this
      ensures Valid()
      ensures err.None? ==> events == old(events) + [UpvoteComment(id), ReplyComment(id, text)]
      ensures err.Some? ==> events == old(events) || events == old(events) + [UpvoteComment(id)]
      ensures passedSubmissions == old(passedSubmissions)
      ensures calls == old(calls) + |events| - |old(events)| + (if err.Some? then 1 else 0)
      ensures Spent(answers, old(calls), calls, err)
    {
      err := Call(UpvoteComment(id));
      SpentOne(answers, old(calls));
      if err.None? {
        err := ReplyToComment(id, text);
        SpentOne(answers, old(calls) + 1);
        SpentThen(answers, old(calls), old(calls) + 1, calls, err);
      }
    }

    /** The loop of `_process_comments` over the sampled comments, pairing the i-th one with
        the i-th phrase; it stops at the first call that raises. */
    method ServeSample(ids: seq<Id>, texts: seq<string>) returns (st: Outcome)
      requires Valid() && |ids| <= |texts|
      modifies this
      ensures Valid()
      ensures st == Returned || st.Raised?
      ensures old(events) <= events <= old(events) + CommentEvents(ids, texts)
      ensures st == Returned ==> events == old(events) + CommentEvents(ids, texts)
      ensures passedSubmissions == old(passedSubmissions)
      ensures calls == old(calls) + |events| - |old(events)| + (if st.Raised? then 1 else 0)
      ensures Spent(answers, old(calls), calls, Escaped(st))
    {
      ghost var start := events;
      ghost var full := CommentEvents(ids, texts);
      st := Returned;
      var i := 0;
      while i < |ids|
        invariant 0 <= i <= |ids|
        invariant Valid() && passedSubmissions == old(passedSubmissions)
        invariant events == start + CommentEvents(ids[..i], texts)
        invariant start <= events <= start + full
        invariant calls == old(calls) + |events| - |start| && Spent(answers, old(calls), calls, None)
      {
        ghost var done := CommentEvents(ids[..i], texts);
        ghost var step := [UpvoteComment(ids[i]), ReplyComment(ids[i], texts[i])];
        ghost var c0 := calls;
        CommentEventsStep(ids, texts, i);
        CommentEventsPrefix(ids, texts, i + 1);
        var err := ServeComment(ids[i], texts[i]);
        SpentThen(answers, old(calls), c0, calls, err);
        if err.Some? {
          st := Raised(err.value);
          FullBot.PartialStep(start, done, step, full, events);
          return;
        }
        FullBot.Regroup(start, done, step);
        i := i + 1;
        FullBot.PrefixExtend(start, CommentEvents(ids[..i], texts), [], events);
        assert start + CommentEvents(ids[..i], texts) + [] == start + CommentEvents(ids[..i], texts);
      }
      assert ids[..i] == ids;
    }

    /** `_process_comments`: upvote and reply to round(0.35 N) sampled comments, each with a
        different phrase of a sample one larger, and return that number. */
    method ProcessComments(comments: seq<Comment>) returns (k: nat, st: Outcome, picks: seq<nat>, texts: seq<string>)
      requires Valid() && |comments| < FullBot.CommentGate
      modifies this
      ensures Valid()
      ensures k == ReplyCount(|comments|)
      ensures IsSample(picks, |comments|, k) && IsDraw(texts, CommentPhrases, k + 1)
      ensures st == Returned || st.Raised?
      ensures old(events) <= events <= old(events) + CommentEvents(SampledIds(comments, picks), texts)
      ensures st == Returned ==> events == old(events) + CommentEvents(SampledIds(comments, picks), texts)
      ensures passedSubmissions == old(passedSubmissions)
      ensures calls == old(calls) + |events| - |old(events)| + (if st.Raised? then 1 else 0)
      ensures Spent(answers, old(calls), calls, Escaped(st))
    {
      k := ReplyCount(|comments|);
      CommentDrawExists(k);
      texts :| IsDraw(texts, CommentPhrases, k + 1);
      assert IsDraw(texts, CommentPhrases, k + 1);
      SampleExists(|comments|, k);
      picks :| IsSample(picks, |comments|, k);
      assert IsSample(picks, |comments|, k);
      st := ServeSample(SampledIds(comments, picks), texts);
    }

    /** `submission.upvote()`, then the reply and the mark. */
    method UpvoteAndReply(id: Id, reply: string) returns (err: Option<string>)
      requires Valid() && id !in passedSubmissions
      modifies this
      ensures Valid()
      ensures err.None? ==> events == old(events) + [UpvoteSubmission(id), ReplySubmission(id, reply)]
      ensures err.None? ==> passedSubmissions == old(passedSubmissions) + {id}
      ensures err.Some? ==> events == old(events) || events == old(events) + [UpvoteSubmission(id)]
      ensures err.Some? ==> passedSubmissions == old(passedSubmissions)
      ensures calls == old(calls) + |events| - |old(events)| + (if err.Some? then 1 else 0)
      ensures Spent(answers, old(calls), calls, err)
    {
      err := Call(UpvoteSubmission(id));
      SpentOne(answers, old(calls));
      if err.None? {
        err := ReplyToSubmission(id, reply);
        SpentOne(answers, old(calls) + 1);
        SpentThen(answers, old(calls), old(calls) + 1, calls, err);
      }
    }

    /** `_process_submission` from the upvote on, for a new submission with fewer than 12
        comments: upvote, reply, mark, and then, when none of the comments or their direct
        replies is the bot's own, the comment phase. A raise in the comment phase leaves the
        submission marked. */
    method Engage(s: Submission, reply: string) returns (st: Outcome, picks: seq<nat>, texts: seq<string>)
      requires Valid() && s.id !in passedSubmissions && |s.comments| < FullBot.CommentGate
      modifies this
      ensures Valid()
      ensures Fits(s, Draw(reply, picks, texts))
      ensures st == Returned || st.Raised?
      ensures IgnoreMap(s.comments, {username}) == map[] && st == Returned ==> (
        var k := ReplyCount(|s.comments|);
        IsSample(picks, |s.comments|, k) && IsDraw(texts, CommentPhrases, k + 1))
      ensures old(events) <= events
        <= old(events) + FullBot.EngageEvents(s, {username}, reply, SampledIds(s.comments, picks), texts)
      ensures st == Returned ==>
        events == old(events) + FullBot.EngageEvents(s, {username}, reply, SampledIds(s.comments, picks), texts)
      ensures st == Returned ==> passedSubmissions == old(passedSubmissions) + {s.id}
      ensures passedSubmissions == old(passedSubmissions) || passedSubmissions == old(passedSubmissions) + {s.id}
      ensures calls == old(calls) + |events| - |old(events)| + (if st.Raised? then 1 else 0)
      ensures Spent(answers, old(calls), calls, Escaped(st))
    {
      picks, texts := [], [];
      var err := UpvoteAndReply(s.id, reply);
      if err.Some? {
        st := Raised(err.value);
      } else {
        st := Returned;
        var toIgnore := ComputeCommentsToIgnore(s.comments, {username});
        if toIgnore == map[] {
          var k;
          ghost var c1 := calls;
          k, st, picks, texts := ProcessComments(s.comments);
          SpentThen(answers, old(calls), c1, calls, Escaped(st));
          FullBot.PrefixExtend(old(events), [UpvoteSubmission(s.id), ReplySubmission(s.id, reply)],
            CommentEvents(SampledIds(s.comments, picks), texts), events);
        } else {
          assert events == old(events) + [UpvoteSubmission(s.id), ReplySubmission(s.id, reply)] + [];
        }
      }
    }

    /** `_process_submission`: skip a processed submission; fetch the comments; with fewer
        than 12, upvote, reply, mark and process the comments as `Engage` does. */
    method ProcessSubmission(s: Submission) returns (st: Outcome, d: Draw)
      requires Valid()
      modifies this
      ensures Valid()
      ensures Fits(s, d)
      ensures st == Returned || st.Raised?
      ensures s.id in old(passedSubmissions) ==> st == Returned && events == old(events) && calls == old(calls)
      ensures s.id !in old(passedSubmissions) && AnswerAt(answers, old(calls)).Some? ==>
        st == Raised(AnswerAt(answers, old(calls)).value) && events == old(events)
      ensures st == Returned ==> events == old(events) + Step(username, old(passedSubmissions), s, d).0
      ensures st == Returned ==> passedSubmissions == Step(username, old(passedSubmissions), s, d).1
      ensures st == Returned && s.id !in old(passedSubmissions) && |s.comments| < FullBot.CommentGate ==>
        Drawn(s, username, d)
      ensures passedSubmissions == old(passedSubmissions) || passedSubmissions == old(passedSubmissions) + {s.id}
      ensures old(events) <= events <= old(events) + Step(username, old(passedSubmissions), s, d).0
      ensures calls == old(calls) + |events| - |old(events)| + (if st.Raised? then 1 else 0)
      ensures Spent(answers, old(calls), calls, Escaped(st))
    {
      d := Draw("", [], []);
      st := Returned;
      if s.id !in passedSubmissions {
        var err := Call(FetchComments(s.id));
        SpentOne(answers, old(calls));
        if err.Some? {
          st := Raised(err.value);
        } else if |s.comments| < FullBot.CommentGate {
          assert SubmissionPhrases[0] in SubmissionPhrases;
          var reply :| reply in SubmissionPhrases;
          assert reply in SubmissionPhrases;
          ghost var mid, c1 := events, calls;
          var picks, texts;
          st, picks, texts := Engage(s, reply);
          SpentThen(answers, old(calls), c1, calls, Escaped(st));
          d := Draw(reply, picks, texts);
          FullBot.PrefixExtend(old(events), [FetchComments(s.id)],
            FullBot.EngageEvents(s, {username}, reply, SampledIds(s.comments, picks), texts), events);
        }
      }
    }

    /** `_process_submission` as the loop of `work_on_subreddit` sees it. */
    method TryProcess(s: Submission) returns (st: Outcome, d: Draw)
      requires Valid()
      modifies this
      ensures Valid()
      ensures st == Returned || st.Raised?
      ensures old(events) <= events && old(passedSubmissions) <= passedSubmissions
      ensures st == Returned ==> Stepped(username, old(passedSubmissions), s, d, old(events), events, passedSubmissions)
      ensures st.Raised? ==> Fits(s, d) && events <= old(events) + Step(username, old(passedSubmissions), s, d).0
      ensures calls == old(calls) + |events| - |old(events)| + (if st.Raised? then 1 else 0)
      ensures Spent(answers, old(calls), calls, Escaped(st))
    {
      st, d := ProcessSubmission(s);
    }

    /** The loop of `work_on_subreddit` over the fetched submissions, in order; `failure` is
        the message of the first call that raises, which ends the loop. `draws` holds the
        draw of each submission tried, the failing one included. */
    method ProcessAll(subs: seq<Submission>) returns (failure: Option<string>, draws: seq<Draw>)
      requires Valid()
      modifies this
      ensures Valid()
      ensures old(events) <= events && old(passedSubmissions) <= passedSubmissions
      ensures calls == old(calls) + |events| - |old(events)| + (if failure.Some? then 1 else 0)
      ensures Spent(answers, old(calls), calls, failure)
      ensures failure.None? ==> (AllFit(subs, draws)
        && events == old(events) + Run(username, old(passedSubmissions), subs, draws).0
        && passedSubmissions == Run(username, old(passedSubmissions), subs, draws).1
        && Phrased(Run(username, old(passedSubmissions), subs, draws).0)
        && AllDrawn(username, old(passedSubmissions), subs, draws))
      ensures failure.Some? ==> Broke(username, old(events), old(passedSubmissions), subs, draws, events)
    {
      ghost var start, p0 := events, passedSubmissions;
      failure, draws := None, [];
      var i := 0;
      while i < |subs|
        invariant 0 <= i <= |subs|
        invariant Valid()
        invariant old(events) <= events && old(passedSubmissions) <= passedSubmissions
        invariant calls == old(calls) + |events| - |start| && Spent(answers, old(calls), calls, None)
        invariant |draws| == i && Ran(username, start, p0, subs, draws, events, passedSubmissions)
      {
        ghost var before, mid, c0 := events, passedSubmissions, calls;
        var st, d := TryProcess(subs[i]);
        FullBot.PrefixTrans(old(events), before, events);
        SpentThen(answers, old(calls), c0, calls, Escaped(st));
        if st.Raised? {
          failure := Some(st.message);
          Broken(username, start, p0, subs, draws, d, events);
          draws := draws + [d];
          return;
        }
        RanStep(username, start, p0, subs, draws, d, before, mid, events, passedSubmissions);
        draws := draws + [d];
        i := i + 1;
      }
      assert subs[..i] == subs;
    }

    /** The body of the `try` of `work_on_subreddit`: fetch `lim` new submissions and process
        each in order, up to the first call that raises, whose message is `failure`. */
    method FetchAndProcess(subreddit: string, lim: nat, feed: seq<Submission>)
      returns (failure: Option<string>, draws: seq<Draw>)
      requires Valid()
      modifies this
      ensures Valid()
      ensures old(events) <= events && old(passedSubmissions) <= passedSubmissions
      ensures calls == old(calls) + |events| - |old(events)| + (if failure.Some? then 1 else 0)
      ensures Spent(answers, old(calls), calls, failure)
      ensures AnswerAt(answers, old(calls)).Some? ==> (failure == AnswerAt(answers, old(calls))
        && events == old(events) && passedSubmissions == old(passedSubmissions))
      ensures failure.None? ==> (AllFit(Take(feed, lim), draws)
        && events == old(events) + [FetchNew(subreddit, lim)] + Run(username, old(passedSubmissions), Take(feed, lim), draws).0
        && passedSubmissions == Run(username, old(passedSubmissions), Take(feed, lim), draws).1
        && Phrased(Run(username, old(passedSubmissions), Take(feed, lim), draws).0)
        && AllDrawn(username, old(passedSubmissions), Take(feed, lim), draws))
      ensures failure.Some? && AnswerAt(answers, old(calls)).None? ==>
        Broke(username, old(events) + [FetchNew(subreddit, lim)], old(passedSubmissions), Take(feed, lim), draws, events)
    {
      draws := [];
      failure := Call(FetchNew(subreddit, lim));
      SpentOne(answers, old(calls));
      if failure.None? {
        ghost var fetched, c1 := events, calls;
        failure, draws := ProcessAll(Take(feed, lim));
        FullBot.PrefixTrans(old(events), fetched, events);
        SpentThen(answers, old(calls), c1, calls, failure);
      }
    }

    /** `work_on_subreddit`: fetch the new submissions (60 unless a limit is given) and process
        each in order; on a failure, the handler, which returns when the text holds no
        readable wait and raises otherwise; finally, on every path, the save of the processed
        set. `failure` is the message the handler was given, if it ran: the answer to the
        first call that raised, every call before it having passed. */
    method WorkOnSubreddit(subreddit: string, limit: Option<nat>, feed: seq<Submission>)
      returns (st: Outcome, failure: Option<string>, draws: seq<Draw>)
      requires Valid()
      modifies this
      ensures Valid()
      ensures st == Returned || st == Raised(TypeErrorMessage) || st == Raised(IndexErrorMessage)
      ensures failure.Some? ==> st == UnboundedRetry(failure.value)
      ensures failure.None? ==> st == Returned
      ensures old(events) < events && old(passedSubmissions) <= passedSubmissions
      ensures events[|events| - 1] == Save(FullBot.StoreKey(username), passedSubmissions)
      ensures calls == old(calls) + |events| - 1 - |old(events)| + (if failure.Some? then 1 else 0)
      ensures Spent(answers, old(calls), calls, failure)
      ensures AnswerAt(answers, old(calls)).Some? ==> (failure == AnswerAt(answers, old(calls))
        && events == old(events) + [Save(FullBot.StoreKey(username), old(passedSubmissions))]
        && passedSubmissions == old(passedSubmissions))
      ensures failure.None? ==>
        var subs := Take(feed, if limit.Some? then limit.value else DefaultLimit);
        (AllFit(subs, draws)
        && events == old(events) + [FetchNew(subreddit, if limit.Some? then limit.value else DefaultLimit)]
          + Run(username, old(passedSubmissions), subs, draws).0 + [Save(FullBot.StoreKey(username), passedSubmissions)]
        && passedSubmissions == Run(username, old(passedSubmissions), subs, draws).1
        && Phrased(Run(username, old(passedSubmissions), subs, draws).0)
        && AllDrawn(username, old(passedSubmissions), subs, draws))
      ensures failure.Some? && AnswerAt(answers, old(calls)).None? ==>
        Broke(username, old(events) + [FetchNew(subreddit, if limit.Some? then limit.value else DefaultLimit)],
          old(passedSubmissions), Take(feed, if limit.Some? then limit.value else DefaultLimit), draws, events[..|events| - 1])
    {
      var lim := if limit.Some? then limit.value else DefaultLimit;
      failure, draws := FetchAndProcess(subreddit, lim, feed);
      st := if failure.Some? then UnboundedRetry(failure.value) else Returned;
      ghost var ran := events;
      Persist();
      assert events[..|events| - 1] == ran;
    }
  }
}
