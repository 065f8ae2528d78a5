/**
 * The bot of the full version: one account that upvotes and replies to new
 * submissions and to some of their comments, remembers the submissions it
 * has processed, and retries a rate-limited run a bounded number of times.
 *
 * Each platform call consumes the next answer of `script` and, when it
 * passes, is appended to `events`. The invariant `Valid` ties the session sets
 * and the failure counter to that log: every submission is replied to at most
 * once in the bot's life, never one that was loaded as processed, and at most
 * four retries ever happen.
 */
module FullBot {
  import opened Wrappers
  import opened Reddit
  import opened RateLimit
  import opened Sampling
  import opened CommentTree
  import opened Retry

  /** `submission_reply_list`: the set literal, listed in some order. */
  const SubmissionPhrases: seq<string> := [
    "Done, my friend!", "Done!", "Here you go", "Wow", "Quality content", "Free upvotes!",
    "Get that karma", "up you go", "get that upvote", "upvoted!", "Nice post",
    "Let me give you some upvotes", "Nice", "up up", "nice job, friend",
    "I like your creativity", "Very nice", "Get on that karma train",
    "Wanna some free karma? You got it", "Brilliant", "10 out of 10", "Great post",
    "Get it here", "Karma train is coming", "You are the best", "I like it",
    "Best content on reddit!", "Spread the love", "Donee"]

  /** `comment_reply_list`. */
  const CommentPhrases: seq<string> := [
    "Get my upvote", "Here is upvote for you", "Free karma for you", "I like you",
    "You seem like a nice person", "Lovely comment", "What a nice thing to say",
    "Free upvote", "you have to go up", "good comment", "you get my vote", "Hey. Have an upvote!",
    "Get on it", "woot woot", "Here, take my upvote", "So kind of you", "Did you say free karma?",
    "you wanna free upvote?"]

  /** A submission with this many comments or more is skipped. */
  const CommentGate := 12

  /** A sample of k + 1 comment phrases exists for every k the comment gate lets through. */
  lemma CommentDrawExists(k: nat)
    requires k <= 4
    ensures IsDraw(CommentPhrases[..k + 1], CommentPhrases, k + 1)
  {
    var first := CommentPhrases[..5];
    assert first == ["Get my upvote", "Here is upvote for you", "Free karma for you", "I like you",
      "You seem like a nice person"];
    assert NoDup(first);
    assert CommentPhrases[..k + 1] == first[..k + 1];
    DrawExists(CommentPhrases, k + 1);
  }

  /** The store key of an account's processed submissions. */
  function StoreKey(username: string): string
  {
    "submissions-" + username + ".pickle"
  }

  /** `all_bot_names if all_bot_names else {username}`. */
  function BotNames(username: string, given: set<string>): (r: set<string>)
    ensures r != {}
    ensures given != {} ==> r == given
    ensures given == {} ==> r == {username}
  {
    if given != {} then given else {username}
  }

  /** The calls `_process_submission` makes after the comment fetch on a submission with
      fewer than 12 comments, when none of them raises: the upvote, the reply and, when no
      comment is a bot's, the events of `_process_comments` for the sampled `ids`. */
  function EngageEvents(s: Submission, names: set<string>, reply: string, ids: seq<Id>, texts: seq<string>): seq<Event>
    requires |ids| <= |texts|
  {
    [UpvoteSubmission(s.id), ReplySubmission(s.id, reply)]
    + (if IgnoreMap(s.comments, names) == map[] then CommentEvents(ids, texts) else [])
  }

  /** The calls `_process_submission` makes on a submission not yet processed, when none of
      them raises. */
  function SubmissionEvents(s: Submission, names: set<string>, reply: string, ids: seq<Id>, texts: seq<string>): seq<Event>
    requires |ids| <= |texts|
  {
    [FetchComments(s.id)] + (if |s.comments| >= CommentGate then [] else EngageEvents(s, names, reply, ids, texts))
  }

  /** The events a bot logs for a platform call that only reads or upvotes. */
  predicate Plain(e: Event)
  {
    !(e.ReplySubmission? || e.ReplyComment? || e.Crash? || e.Backoff? || e.Save?)
  }

  lemma PlainLog(log: seq<Event>, e: Event)
    requires Plain(e)
    ensures Count(log + [e], CrashRecord) == Count(log, CrashRecord)
    ensures Count(log + [e], BackoffRecord) == Count(log, BackoffRecord)
    ensures Count(log + [e], SaveRecord) == Count(log, SaveRecord)
    ensures SubmissionReplies(log + [e]) == SubmissionReplies(log)
    ensures CommentReplies(log + [e]) == CommentReplies(log)
  {
    LogOne(log, e);
  }

  lemma Regroup<T>(a: seq<T>, b: seq<T>, c: seq<T>)
    ensures (a + b) + c == a + (b + c)
  {
  }

  /** A log between `a + b` and `a + b + c` lies between `a` and `a` followed by `b + c`. */
  lemma PrefixExtend<T>(a: seq<T>, b: seq<T>, c: seq<T>, log: seq<T>)
    requires a + b <= log <= a + b + c
    ensures a <= log <= a + (b + c)
    ensures log == a + b + c ==> log == a + (b + c)
  {
    assert a + b + c == a + (b + c);
    assert log[..|a|] == (a + b)[..|a|] == a;
  }

  lemma PrefixTrans<T>(a: seq<T>, b: seq<T>, c: seq<T>)
    requires a <= b && b <= c
    ensures a <= c
  {
    assert c[..|a|] == b[..|a|];
  }

  /** A log that stopped inside a two-event step is still a prefix of the completed run. */
  lemma PartialStep<T>(start: seq<T>, done: seq<T>, step: seq<T>, full: seq<T>, log: seq<T>)
    requires |step| == 2 && done + step <= full
    requires log == start + done || log == start + done + [step[0]]
    ensures start <= log <= start + full
  {
    assert (start + full)[..|start + done + step|] == start + done + step;
    if log == start + done {
      assert (start + done + step)[..|log|] == log;
    } else {
      assert (start + done + step)[..|log|] == log;
    }
  }

  /** The event at position `at` of the log is `e`. */
  predicate At(log: seq<Event>, at: nat, e: Event)
  {
    at < |log| && log[at] == e
  }

  /** A log that extends a strict prefix of another extends that prefix strictly, and keeps
      its events. */
  lemma Extend(a: seq<Event>, b: seq<Event>, c: seq<Event>, at: nat, e: Event)
    requires a <= b && b <= c
    ensures a <= c && (a < b ==> a < c)
    ensures At(b, at, e) ==> At(c, at, e)
  {
    assert c[..|a|] == b[..|a|];
  }

  class RedditBot {
    const username: string
    const allBotNames: set<string>
    const isBroken: bool
    /** The processed ids read from the store when the bot was created. */
    ghost const loaded: set<Id>

    var passedSubmissions: set<Id>
    var sessionCommentIds: set<Id>
    var sessionSubmissions: set<Id>
    var failureCount: nat
    var isTerminating: bool

    /** The bot's calls that passed, with its crash, back-off and save records. */
    var events: seq<Event>
    /** The platform's answers to the bot's next calls. */
    var script: seq<Response>

    ghost predicate Valid()
      reads this
    {
      && passedSubmissions == loaded + sessionSubmissions
      && loaded !! sessionSubmissions
      && sessionSubmissions == ToSet(SubmissionReplies(events))
      && NoDup(SubmissionReplies(events))
      && sessionCommentIds == ToSet(CommentReplies(events))
      && failureCount == Count(events, CrashRecord)
      && Count(events, BackoffRecord) <= failureCount
      && Count(events, BackoffRecord) <= MaxFailures - 1
    }

    /** The numbers of back-off and save records in the log. */
    ghost function Records(): (nat, nat)
      reads this
    {
      (Count(events, BackoffRecord), Count(events, SaveRecord))
    }

    /** The last event is a save of the current processed set under the account's key. */
    ghost predicate LastSaved()
      reads this
    {
      events != [] && events[|events| - 1] == Save(StoreKey(username), passedSubmissions)
    }

    /** `__init__`: the processed set comes from the store, the session starts empty. */
    constructor (username: string, allBotNames: set<string>, suspended: bool,
                 store: map<string, set<Id>>, responses: seq<Response>)
      ensures Valid()
      ensures this.username == username && this.allBotNames == BotNames(username, allBotNames)
      ensures isBroken == suspended
      ensures passedSubmissions == Load(store, StoreKey(username)) && loaded == passedSubmissions
      ensures sessionCommentIds == {} && sessionSubmissions == {}
      ensures failureCount == 0 && !isTerminating
      ensures events == [] && script == responses
    {
      this.username := username;
      this.allBotNames := BotNames(username, allBotNames);
      isBroken := suspended;
      loaded := Load(store, StoreKey(username));
      passedSubmissions := Load(store, StoreKey(username));
      sessionCommentIds := {};
      sessionSubmissions := {};
      failureCount := 0;
      isTerminating := false;
      events := [];
      script := responses;
    }

    /** One platform call that reads or upvotes. */
    method Call(e: Event) returns (err: Option<string>)
      requires Valid() && Plain(e)
      modifies this
      ensures Valid()
      ensures Records() == old(Records())
      ensures err == Answer(old(script)) && script == Rest(old(script))
      ensures events == old(events) + (if err.None? then [e] else [])
      ensures passedSubmissions == old(passedSubmissions) && sessionSubmissions == old(sessionSubmissions)
      ensures sessionCommentIds == old(sessionCommentIds)
      ensures failureCount == old(failureCount) && isTerminating == old(isTerminating)
    {
      err := Answer(script);
      script := Rest(script);
      if err.None? {
        PlainLog(events, e);
        events := events + [e];
      }
    }

    /** `_mark_submission`. */
    method MarkSubmission(id: Id)
      modifies this
      ensures passedSubmissions == old(passedSubmissions) + {id}
      ensures sessionSubmissions == old(sessionSubmissions) + {id}
      ensures sessionCommentIds == old(sessionCommentIds) && events == old(events) && script == old(script)
      ensures failureCount == old(failureCount) && isTerminating == old(isTerminating)
    {
      passedSubmissions := passedSubmissions + {id};
      sessionSubmissions := sessionSubmissions + {id};
    }

    /** `_mark_comment`. */
    method MarkComment(id: Id)
      modifies this
      ensures sessionCommentIds == old(sessionCommentIds) + {id}
      ensures passedSubmissions == old(passedSubmissions) && sessionSubmissions == old(sessionSubmissions)
      ensures events == old(events) && script == old(script)
      ensures failureCount == old(failureCount) && isTerminating == old(isTerminating)
    {
      sessionCommentIds := sessionCommentIds + {id};
    }

    /** `submission.reply(text)` followed by `_mark_submission`. */
    method ReplyToSubmission(id: Id, text: string) returns (err: Option<string>)
      requires Valid() && id !in passedSubmissions
      modifies this
      ensures Valid()
      ensures Records() == old(Records())
      ensures err == Answer(old(script)) && script == Rest(old(script))
      ensures err.None? ==> events == old(events) + [ReplySubmission(id, text)]
      ensures err.None? ==> passedSubmissions == old(passedSubmissions) + {id}
      ensures err.None? ==> sessionSubmissions == old(sessionSubmissions) + {id}
      ensures err.Some? ==> events == old(events)
      ensures err.Some? ==> passedSubmissions == old(passedSubmissions) && sessionSubmissions == old(sessionSubmissions)
      ensures sessionCommentIds == old(sessionCommentIds)
      ensures failureCount == old(failureCount) && isTerminating == old(isTerminating)
    {
      err := Answer(script);
      script := Rest(script);
      if err.None? {
        var e := ReplySubmission(id, text);
        LogOne(events, e);
        ToSetAppend(SubmissionReplies(events), [id]);
        assert ToSet([id]) == {id};
        assert CommentReplies(events + [e]) == CommentReplies(events);
        events := events + [e];
        MarkSubmission(id);
      }
    }

    /** `comment.reply(text)` followed by `_mark_comment`. */
    method ReplyToComment(id: Id, text: string) returns (err: Option<string>)
      requires Valid()
      modifies this
      ensures Valid()
      ensures Records() == old(Records())
      ensures err == Answer(old(script)) && script == Rest(old(script))
      ensures events == old(events) + (if err.None? then [ReplyComment(id, text)] else [])
      ensures sessionCommentIds == old(sessionCommentIds) + (if err.None? then {id} else {})
      ensures passedSubmissions == old(passedSubmissions) && sessionSubmissions == old(sessionSubmissions)
      ensures failureCount == old(failureCount) && isTerminating == old(isTerminating)
    {
      err := Answer(script);
      script := Rest(script);
      if err.None? {
        var e := ReplyComment(id, text);
        LogOne(events, e);
        ToSetAppend(CommentReplies(events), [id]);
        assert ToSet([id]) == {id};
        assert SubmissionReplies(events + [e]) == SubmissionReplies(events);
        events := events + [e];
        MarkComment(id);
      }
    }

    /** `dump_pickled(self.passed_submissions, ...)`. */
    method Persist()
      requires Valid()
      modifies this
      ensures Valid()
      ensures events == old(events) + [Save(StoreKey(username), passedSubmissions)]
      ensures script == old(script) && passedSubmissions == old(passedSubmissions)
      ensures sessionSubmissions == old(sessionSubmissions) && sessionCommentIds == old(sessionCommentIds)
      ensures failureCount == old(failureCount) && isTerminating == old(isTerminating)
    {
      var e := Save(StoreKey(username), passedSubmissions);
      LogOne(events, e);
      events := events + [e];
    }

    /** One iteration of the loop of `_process_comments`: upvote, reply, `_mark_comment`. */
    method ServeComment(id: Id, text: string) returns (err: Option<string>)
      requires Valid()
      modifies this
      ensures Valid()
      ensures Records() == old(Records())
      ensures err.None? ==> events == old(events) + [UpvoteComment(id), ReplyComment(id, text)]
      ensures err.None? ==> sessionCommentIds == old(sessionCommentIds) + {id}
      ensures err.Some? ==> events == old(events) || events == old(events) + [UpvoteComment(id)]
      ensures err.Some? ==> sessionCommentIds == old(sessionCommentIds)
      ensures passedSubmissions == old(passedSubmissions) && sessionSubmissions == old(sessionSubmissions)
      ensures failureCount == old(failureCount) && isTerminating == old(isTerminating)
    {
      err := Call(UpvoteComment(id));
      if err.None? {
        err := ReplyToComment(id, text);
      }
    }

    /** `_process_comments`: upvote and reply to round(0.35 N) sampled comments, each with a
        different phrase of a sample one larger, and return that number. */
    method ProcessComments(comments: seq<Comment>) returns (k: nat, st: Outcome, picks: seq<nat>, texts: seq<string>)
      requires Valid() && |comments| < CommentGate
      modifies this
      ensures Valid()
      ensures Records() == old(Records())
      ensures k == ReplyCount(|comments|)
      ensures IsSample(picks, |comments|, k) && IsDraw(texts, CommentPhrases, k + 1)
      ensures st == Returned || st.Raised?
      ensures old(events) <= events <= old(events) + CommentEvents(SampledIds(comments, picks), texts)
      ensures st == Returned ==> events == old(events) + CommentEvents(SampledIds(comments, picks), texts)
      ensures st == Returned ==> sessionCommentIds == old(sessionCommentIds) + ToSet(SampledIds(comments, picks))
      ensures passedSubmissions == old(passedSubmissions) && sessionSubmissions == old(sessionSubmissions)
      ensures failureCount == old(failureCount) && isTerminating == old(isTerminating)
    {
      k := ReplyCount(|comments|);
      CommentDrawExists(k);
      texts :| IsDraw(texts, CommentPhrases, k + 1);
      assert IsDraw(texts, CommentPhrases, k + 1);
      SampleExists(|comments|, k);
      picks :| IsSample(picks, |comments|, k);
      assert IsSample(picks, |comments|, k);
      var ids := SampledIds(comments, picks);
      st := ServeSample(ids, texts);
    }

    /** The loop of `_process_comments` over the sampled comments, pairing the i-th one with
        the i-th phrase; it stops at the first call that raises. */
    method ServeSample(ids: seq<Id>, texts: seq<string>) returns (st: Outcome)
      requires Valid() && |ids| <= |texts|
      modifies this
      ensures Valid()
      ensures Records() == old(Records())
      ensures st == Returned || st.Raised?
      ensures old(events) <= events <= old(events) + CommentEvents(ids, texts)
      ensures st == Returned ==> events == old(events) + CommentEvents(ids, texts)
      ensures st == Returned ==> sessionCommentIds == old(sessionCommentIds) + ToSet(ids)
      ensures passedSubmissions == old(passedSubmissions) && sessionSubmissions == old(sessionSubmissions)
      ensures failureCount == old(failureCount) && isTerminating == old(isTerminating)
    {
      ghost var start := events;
      ghost var full := CommentEvents(ids, texts);
      var i := 0;
      while i < |ids|
        invariant 0 <= i <= |ids|
        invariant Valid() && Records() == old(Records())
        invariant events == start + CommentEvents(ids[..i], texts)
        invariant passedSubmissions == old(passedSubmissions) && sessionSubmissions == old(sessionSubmissions)
        invariant failureCount == old(failureCount) && isTerminating == old(isTerminating)
      {
        ghost var done := CommentEvents(ids[..i], texts);
        ghost var step := [UpvoteComment(ids[i]), ReplyComment(ids[i], texts[i])];
        CommentEventsStep(ids, texts, i);
        var err := ServeComment(ids[i], texts[i]);
        if err.Some? {
          st := Raised(err.value);
          CommentEventsPrefix(ids, texts, i + 1);
          PartialStep(start, done, step, full, events);
          return;
        }
        Regroup(start, done, step);
        i := i + 1;
      }
      assert ids[..i] == ids;
      st := Returned;
      SessionComments(start, ids, texts);
    }

    /** The comment ids of a completed comment phase are the sampled ids. */
    lemma SessionComments(start: seq<Event>, ids: seq<Id>, texts: seq<string>)
      requires |ids| <= |texts|
      ensures ToSet(CommentReplies(start + CommentEvents(ids, texts))) == ToSet(CommentReplies(start)) + ToSet(ids)
    {
      LogAppend(start, CommentEvents(ids, texts));
      CommentEventsReplies(ids, texts);
      ToSetAppend(CommentReplies(start), ids);
    }

    /** The reply choice of `_process_submission`: any phrase when no comment is a bot's,
        otherwise a phrase no bot comment has as its body; `hung` when there is none, where
        the re-choice loop never ends. Nothing changes. */
    method ChooseReply(comments: seq<Comment>) returns (toIgnore: map<Id, Comment>, hung: bool, reply: string)
      ensures toIgnore == IgnoreMap(comments, allBotNames)
      ensures hung <==> (IgnoreMap(comments, allBotNames) != map[]
        && forall p :: p in SubmissionPhrases ==> p in Bodies(IgnoreMap(comments, allBotNames)))
      ensures !hung ==> reply in SubmissionPhrases && reply !in Bodies(IgnoreMap(comments, allBotNames))
    {
      toIgnore := ComputeCommentsToIgnore(comments, allBotNames);
      var bodies := Bodies(toIgnore);
      assert SubmissionPhrases[0] in SubmissionPhrases;
      reply :| reply in SubmissionPhrases;
      assert reply in SubmissionPhrases;
      hung := false;
      if toIgnore != map[] {
        if forall p :: p in SubmissionPhrases ==> p in bodies {
          hung := true;
          return;
        }
        reply :| reply in SubmissionPhrases && reply !in bodies;
        assert reply in SubmissionPhrases && reply !in bodies;
      }
    }

    /** `_process_submission` from the upvote on, for a submission not yet processed with
        fewer than 12 comments and a reply already chosen. */
    method Engage(s: Submission, toIgnore: map<Id, Comment>, reply: string) returns (st: Outcome, picks: seq<nat>, texts: seq<string>)
      requires Valid() && s.id !in passedSubmissions && |s.comments| < CommentGate
      requires toIgnore == IgnoreMap(s.comments, allBotNames)
      modifies this
      ensures Valid()
      ensures Records() == old(Records())
      ensures IsSample(picks, |s.comments|, ReplyCount(|s.comments|))
      ensures |picks| <= |texts|
      ensures IgnoreMap(s.comments, allBotNames) == map[] ==> IsDraw(texts, CommentPhrases, ReplyCount(|s.comments|) + 1)
      ensures st == Returned || st.Raised?
      ensures old(events) <= events <= old(events) + EngageEvents(s, allBotNames, reply, SampledIds(s.comments, picks), texts)
      ensures st == Returned ==> events == old(events) + EngageEvents(s, allBotNames, reply, SampledIds(s.comments, picks), texts)
      ensures st == Returned ==> s.id in passedSubmissions
      ensures passedSubmissions == old(passedSubmissions) || passedSubmissions == old(passedSubmissions) + {s.id}
      ensures sessionSubmissions == old(sessionSubmissions) || sessionSubmissions == old(sessionSubmissions) + {s.id}
      ensures IgnoreMap(s.comments, allBotNames) != map[] ==> sessionCommentIds == old(sessionCommentIds)
      ensures st == Returned && IgnoreMap(s.comments, allBotNames) == map[] ==>
        sessionCommentIds == old(sessionCommentIds) + ToSet(SampledIds(s.comments, picks))
      ensures failureCount == old(failureCount) && isTerminating == old(isTerminating)
    {
      st := Returned;
      var k := ReplyCount(|s.comments|);
      SampleExists(|s.comments|, k);
      picks := FirstPositions(k);
      texts := CommentPhrases[..k + 1];
      CommentDrawExists(k);
      var err := UpvoteAndReply(s.id, reply);
      if err.Some? {
        st := Raised(err.value);
        return;
      }
      if toIgnore == map[] {
        k, st, picks, texts := ProcessComments(s.comments);
        PrefixExtend(old(events), [UpvoteSubmission(s.id), ReplySubmission(s.id, reply)],
          CommentEvents(SampledIds(s.comments, picks), texts), events);
      }
    }

    /** `submission.upvote()`, then the reply and `_mark_submission`. */
    method UpvoteAndReply(id: Id, reply: string) returns (err: Option<string>)
      requires Valid() && id !in passedSubmissions
      modifies this
      ensures Valid()
      ensures Records() == old(Records())
      ensures err.None? ==> events == old(events) + [UpvoteSubmission(id), ReplySubmission(id, reply)]
      ensures err.None? ==> passedSubmissions == old(passedSubmissions) + {id} && sessionSubmissions == old(sessionSubmissions) + {id}
      ensures err.Some? ==> events == old(events) || events == old(events) + [UpvoteSubmission(id)]
      ensures err.Some? ==> passedSubmissions == old(passedSubmissions) && sessionSubmissions == old(sessionSubmissions)
      ensures sessionCommentIds == old(sessionCommentIds)
      ensures failureCount == old(failureCount) && isTerminating == old(isTerminating)
    {
      err := Call(UpvoteSubmission(id));
      if err.None? {
        err := ReplyToSubmission(id, reply);
      }
    }

    /** `_process_submission`: skip a processed submission; fetch the comments; skip one with
        12 or more; choose a reply no bot comment has; upvote, reply, mark; and, when no
        comment is a bot's, process the comments. */
    method ProcessSubmission(s: Submission) returns (st: Outcome, reply: string, picks: seq<nat>, texts: seq<string>)
      requires Valid()
      modifies this
      ensures Valid()
      ensures Records() == old(Records())
      ensures failureCount == old(failureCount) && isTerminating == old(isTerminating)
      ensures forall i :: 0 <= i < |picks| ==> picks[i] < |s.comments|
      ensures |picks| <= |texts|
      ensures s.id in old(passedSubmissions) ==>
        st == Returned && events == old(events) && script == old(script) && passedSubmissions == old(passedSubmissions)
      ensures old(events) <= events
      ensures s.id !in old(passedSubmissions) ==>
        events <= old(events) + SubmissionEvents(s, allBotNames, reply, SampledIds(s.comments, picks), texts)
      ensures st == Returned && s.id !in old(passedSubmissions) ==>
        events == old(events) + SubmissionEvents(s, allBotNames, reply, SampledIds(s.comments, picks), texts)
      ensures st == Returned && s.id !in old(passedSubmissions) && |s.comments| < CommentGate ==>
        reply in SubmissionPhrases && reply !in Bodies(IgnoreMap(s.comments, allBotNames))
        && s.id in passedSubmissions && s.id in sessionSubmissions
      ensures st == Hung <==> (s.id !in old(passedSubmissions) && Answer(old(script)).None? && |s.comments| < CommentGate
        && IgnoreMap(s.comments, allBotNames) != map[]
        && forall p :: p in SubmissionPhrases ==> p in Bodies(IgnoreMap(s.comments, allBotNames)))
      ensures st == Hung ==> events == old(events) + [FetchComments(s.id)]
      ensures st == Returned ==> s.id in passedSubmissions || |s.comments| >= CommentGate
      ensures |s.comments| >= CommentGate ==> passedSubmissions == old(passedSubmissions)
      ensures passedSubmissions == old(passedSubmissions) || passedSubmissions == old(passedSubmissions) + {s.id}
      ensures sessionSubmissions == old(sessionSubmissions) || sessionSubmissions == old(sessionSubmissions) + {s.id}
      ensures IgnoreMap(s.comments, allBotNames) != map[] ==> sessionCommentIds == old(sessionCommentIds)
      ensures (st == Returned && s.id !in old(passedSubmissions) && |s.comments| < CommentGate
        && IgnoreMap(s.comments, allBotNames) == map[]) ==>
        sessionCommentIds == old(sessionCommentIds) + ToSet(SampledIds(s.comments, picks))
      ensures (st == Returned && s.id !in old(passedSubmissions) && |s.comments| < CommentGate
        && IgnoreMap(s.comments, allBotNames) == map[]) ==>
        IsSample(picks, |s.comments|, ReplyCount(|s.comments|)) && IsDraw(texts, CommentPhrases, ReplyCount(|s.comments|) + 1)
    {
      reply, picks, texts := "", [], [];
      st := Returned;
      if s.id in passedSubmissions {
        return;
      }
      var err := Call(FetchComments(s.id));
      if err.Some? {
        st := Raised(err.value);
        return;
      }
      if |s.comments| >= CommentGate {
        return;
      }
      var toIgnore, hung;
      toIgnore, hung, reply := ChooseReply(s.comments);
      if hung {
        st := Hung;
        return;
      }
      st, picks, texts := Engage(s, toIgnore, reply);
      PrefixExtend(old(events), [FetchComments(s.id)], EngageEvents(s, allBotNames, reply, SampledIds(s.comments, picks), texts), events);
    }

    /** `fetch_submission_ids`: the ids of the hot listing of a subreddit, at most `hotLimit`
        of them when a limit is given; `hot` is the listing the platform holds. */
    method FetchSubmissionIds(subreddit: string, hotLimit: Option<nat>, hot: seq<Id>) returns (r: Result<seq<Id>>)
      requires Valid()
      modifies this
      ensures Valid() && Records() == old(Records())
      ensures Answer(old(script)).Some? <==> r.Failure?
      ensures r.Failure? ==> r.message == Answer(old(script)).value && events == old(events)
      ensures r.Success? ==> r.value == Listing(hot, hotLimit)
      ensures r.Success? ==> r.value <= hot && (hotLimit.Some? ==> |r.value| <= hotLimit.value)
      ensures r.Success? && (hotLimit.None? || |hot| <= hotLimit.value) ==> r.value == hot
      ensures r.Success? ==> events == old(events) + [FetchHot(subreddit, hotLimit)]
      ensures script == Rest(old(script))
      ensures passedSubmissions == old(passedSubmissions) && sessionSubmissions == old(sessionSubmissions)
      ensures sessionCommentIds == old(sessionCommentIds)
      ensures failureCount == old(failureCount) && isTerminating == old(isTerminating)
    {
      var err := Call(FetchHot(subreddit, hotLimit));
      if err.Some? {
        r := Failure(err.value);
      } else {
        r := Success(Listing(hot, hotLimit));
      }
    }

    /** `fetch_new_comments(limit=n)`: the ids of the account's newest comments, at most `n`;
        `own` is the account's comment listing, newest first. */
    method FetchNewComments(limit: nat, own: seq<Id>) returns (r: Result<seq<Id>>)
      requires Valid()
      modifies this
      ensures Valid() && Records() == old(Records())
      ensures Answer(old(script)).Some? <==> r.Failure?
      ensures r.Failure? ==> r.message == Answer(old(script)).value && events == old(events)
      ensures r.Success? ==> r.value == Take(own, limit)
      ensures r.Success? ==> r.value <= own && |r.value| == (if limit < |own| then limit else |own|)
      ensures r.Success? ==> events == old(events) + [FetchOwnComments(limit)]
      ensures script == Rest(old(script))
      ensures passedSubmissions == old(passedSubmissions) && sessionSubmissions == old(sessionSubmissions)
      ensures sessionCommentIds == old(sessionCommentIds)
      ensures failureCount == old(failureCount) && isTerminating == old(isTerminating)
    {
      var err := Call(FetchOwnComments(limit));
      if err.Some? {
        r := Failure(err.value);
      } else {
        r := Success(Take(own, limit));
      }
    }

    /** `upvote_comment`: one upvote; a failure escapes to the caller. */
    method UpvoteOneComment(id: Id) returns (err: Option<string>)
      requires Valid()
      modifies this
      ensures Valid() && Records() == old(Records())
      ensures err == Answer(old(script)) && script == Rest(old(script))
      ensures events == old(events) + (if err.None? then [UpvoteComment(id)] else [])
      ensures passedSubmissions == old(passedSubmissions) && sessionSubmissions == old(sessionSubmissions)
      ensures sessionCommentIds == old(sessionCommentIds)
      ensures failureCount == old(failureCount) && isTerminating == old(isTerminating)
    {
      err := Call(UpvoteComment(id));
    }

    /** `log_comment_karma`: one read of the account's comment karma; the logged number is
        not modelled. */
    method LogCommentKarma() returns (err: Option<string>)
      requires Valid()
      modifies this
      ensures Valid() && Records() == old(Records())
      ensures err == Answer(old(script)) && script == Rest(old(script))
      ensures events == old(events) + (if err.None? then [ReadKarma(username)] else [])
      ensures passedSubmissions == old(passedSubmissions) && sessionSubmissions == old(sessionSubmissions)
      ensures sessionCommentIds == old(sessionCommentIds)
      ensures failureCount == old(failureCount) && isTerminating == old(isTerminating)
    {
      err := Call(ReadKarma(username));
    }

    /** `process_posts_on_subreddits`: one run over the multireddit that joins the names with
        '+', listing 40 submissions per name. */
    method ProcessPostsOnSubreddits(subreddits: seq<string>, feed: seq<Submission>) returns (st: Outcome)
      requires Valid()
      modifies this
      ensures Valid()
      ensures st == Returned || st == Raised(IndexErrorMessage) || st == Hung
      ensures isTerminating == (old(isTerminating) || st != Hung)
      ensures old(events) < events && old(passedSubmissions) <= passedSubmissions
      ensures Answer(old(script)).None? ==> At(events, |old(events)|, FetchNew(Join(subreddits, '+'), 40 * |subreddits|))
    {
      st := WorkOnSubreddit(Join(subreddits, '+'), Some(40 * |subreddits|), feed);
    }

    /** `_try_handle_exception` with `_retry_rate_limited_failure` up to the retried call: count
        the failure, record it and, when a retry follows, record its back-off. */
    method TryHandleException(msg: string, limit: Option<nat>) returns (d: Decision)
      requires Valid()
      modifies this
      ensures Valid()
      ensures failureCount == old(failureCount) + 1
      ensures d == Decide(failureCount, msg, limit, |sessionSubmissions|)
      ensures events == old(events) + [Crash(msg)] + (if d.Retry? then [BackoffEvent(d.minutes)] else [])
      ensures Count(events, BackoffRecord) == old(Count(events, BackoffRecord)) + (if d.Retry? then 1 else 0)
      ensures Count(events, SaveRecord) == old(Count(events, SaveRecord))
      ensures script == old(script) && passedSubmissions == old(passedSubmissions)
      ensures sessionSubmissions == old(sessionSubmissions) && sessionCommentIds == old(sessionCommentIds)
      ensures isTerminating == old(isTerminating)
    {
      RecordCrash(msg);
      d := Decide(failureCount, msg, limit, |sessionSubmissions|);
      if d.Retry? {
        RecordBackoff(d.minutes);
      }
    }

    /** The failure count and the crash record of one failure. */
    method RecordCrash(msg: string)
      requires Valid()
      modifies this
      ensures Valid()
      ensures failureCount == old(failureCount) + 1
      ensures events == old(events) + [Crash(msg)]
      ensures Records() == old(Records())
      ensures script == old(script) && passedSubmissions == old(passedSubmissions)
      ensures sessionSubmissions == old(sessionSubmissions) && sessionCommentIds == old(sessionCommentIds)
      ensures isTerminating == old(isTerminating)
    {
      LogOne(events, Crash(msg));
      failureCount := failureCount + 1;
      events := events + [Crash(msg)];
    }

    /** The record of the wait before a retry, which the handler allows only below five failures. */
    method RecordBackoff(minutes: nat)
      requires Valid() && failureCount < MaxFailures && Count(events, BackoffRecord) < failureCount
      modifies this
      ensures Valid()
      ensures events == old(events) + [BackoffEvent(minutes)]
      ensures Count(events, BackoffRecord) == old(Count(events, BackoffRecord)) + 1
      ensures Count(events, SaveRecord) == old(Count(events, SaveRecord))
      ensures script == old(script) && passedSubmissions == old(passedSubmissions)
      ensures sessionSubmissions == old(sessionSubmissions) && sessionCommentIds == old(sessionCommentIds)
      ensures failureCount == old(failureCount) && isTerminating == old(isTerminating)
    {
      var b := BackoffEvent(minutes);
      LogOne(events, b);
      events := events + [b];
    }

    /** The body of the `try` in `work_on_subreddit`: list the newest submissions, then process
        a random three quarters of them in random order. */
    method Sweep(subreddit: string, limit: nat, feed: seq<Submission>) returns (st: Outcome, picked: seq<nat>)
      requires Valid()
      modifies this
      ensures Valid() && Records() == old(Records())
      ensures failureCount == old(failureCount) && isTerminating == old(isTerminating)
      ensures old(events) <= events && old(passedSubmissions) <= passedSubmissions
      ensures Answer(old(script)).Some? ==>
        st == Raised(Answer(old(script)).value) && events == old(events) && picked == []
      ensures Answer(old(script)).None? ==>
        |events| > |old(events)| && events[|old(events)|] == FetchNew(subreddit, limit)
        && IsSample(picked, |Take(feed, limit)|, SweepSize(|Take(feed, limit)|))
      ensures st == Returned ==> forall j :: 0 <= j < |picked| ==>
        Take(feed, limit)[picked[j]].id in passedSubmissions || |Take(feed, limit)[picked[j]].comments| >= CommentGate
    {
      picked := [];
      var err := Call(FetchNew(subreddit, limit));
      if err.Some? {
        st := Raised(err.value);
      } else {
        var submissions := Take(feed, limit);
        var k := SweepSize(|submissions|);
        SampleExists(|submissions|, k);
        picked :| IsSample(picked, |submissions|, k);
        assert IsSample(picked, |submissions|, k);
        st := ProcessPicked(submissions, picked);
      }
    }

    /** The loop of the sweep over the sampled submissions, in sample order; it stops at the
        first one that raises or never ends. */
    method ProcessPicked(submissions: seq<Submission>, picked: seq<nat>) returns (st: Outcome)
      requires Valid()
      requires forall j :: 0 <= j < |picked| ==> picked[j] < |submissions|
      modifies this
      ensures Valid() && Records() == old(Records())
      ensures failureCount == old(failureCount) && isTerminating == old(isTerminating)
      ensures old(events) <= events && old(passedSubmissions) <= passedSubmissions
      ensures st == Returned ==> forall j :: 0 <= j < |picked| ==>
        submissions[picked[j]].id in passedSubmissions || |submissions[picked[j]].comments| >= CommentGate
    {
      st := Returned;
      var i := 0;
      while i < |picked| && st == Returned
        invariant 0 <= i <= |picked|
        invariant Valid() && Records() == old(Records())
        invariant failureCount == old(failureCount) && isTerminating == old(isTerminating)
        invariant old(events) <= events && old(passedSubmissions) <= passedSubmissions
        invariant st == Returned ==> forall j :: 0 <= j < i ==>
          submissions[picked[j]].id in passedSubmissions || |submissions[picked[j]].comments| >= CommentGate
      {
        st := TryProcess(submissions[picked[i]]);
        i := i + 1;
      }
    }

    /** `_process_submission` as the sweep and `parse_submission` see it. */
    method TryProcess(s: Submission) returns (st: Outcome)
      requires Valid()
      modifies this
      ensures Valid() && Records() == old(Records())
      ensures failureCount == old(failureCount) && isTerminating == old(isTerminating)
      ensures old(events) <= events && old(passedSubmissions) <= passedSubmissions
      ensures st == Returned ==> s.id in passedSubmissions || |s.comments| >= CommentGate
      ensures s.id in old(passedSubmissions) ==> st == Returned && events == old(events) && passedSubmissions == old(passedSubmissions)
    {
      var reply, picks, texts;
      st, reply, picks, texts := ProcessSubmission(s);
    }

    /** `work_on_subreddit`: the sweep; on a failure the handler, and on a readable wait a retry
        with the remaining limit; finally, the first time only, the save of the processed set.
        A sweep that never ends never reaches the `finally`. */
    method WorkOnSubreddit(subreddit: string, limit: Option<nat>, feed: seq<Submission>) returns (st: Outcome)
      requires Valid()
      modifies this
      decreases if failureCount < MaxFailures then MaxFailures - failureCount else 0, 3
      ensures Valid()
      ensures st == Returned || st == Raised(IndexErrorMessage) || st == Hung
      ensures isTerminating == (old(isTerminating) || st != Hung)
      ensures Count(events, SaveRecord) == old(Count(events, SaveRecord)) + (if !old(isTerminating) && st != Hung then 1 else 0)
      ensures !old(isTerminating) && st != Hung ==> LastSaved()
      ensures old(events) < events && old(passedSubmissions) <= passedSubmissions
      ensures At(events, |old(events)|, if Answer(old(script)).None?
        then FetchNew(subreddit, if limit.Some? then limit.value else DefaultLimit)
        else Crash(Answer(old(script)).value))
      ensures failureCount >= old(failureCount)
      ensures failureCount == old(failureCount) ==> Count(events, BackoffRecord) == old(Count(events, BackoffRecord))
    {
      var lim := if limit.Some? then limit.value else DefaultLimit;
      ghost var first := if Answer(script).None? then FetchNew(subreddit, lim) else Crash(Answer(script).value);
      st := SweepOrRecover(subreddit, lim, feed);
      ghost var mid := events;
      Finally(st);
      Extend(old(events), mid, events, |old(events)|, first);
    }

    /** The `try` and `except` of `work_on_subreddit`, up to its `finally`. */
    method SweepOrRecover(subreddit: string, lim: nat, feed: seq<Submission>) returns (st: Outcome)
      requires Valid()
      modifies this
      decreases if failureCount < MaxFailures then MaxFailures - failureCount else 0, 2
      ensures Valid()
      ensures st == Returned || st == Raised(IndexErrorMessage) || st == Hung
      ensures old(isTerminating) ==> isTerminating
      ensures isTerminating && !old(isTerminating) ==> st != Hung && LastSaved()
      ensures st == Hung ==> isTerminating == old(isTerminating)
      ensures Count(events, SaveRecord) == old(Count(events, SaveRecord)) + (if isTerminating && !old(isTerminating) then 1 else 0)
      ensures old(events) < events && old(passedSubmissions) <= passedSubmissions
      ensures At(events, |old(events)|, if Answer(old(script)).None? then FetchNew(subreddit, lim) else Crash(Answer(old(script)).value))
      ensures failureCount >= old(failureCount)
      ensures failureCount == old(failureCount) ==>
        Count(events, BackoffRecord) == old(Count(events, BackoffRecord)) && isTerminating == old(isTerminating)
    {
      ghost var first := if Answer(script).None? then FetchNew(subreddit, lim) else Crash(Answer(script).value);
      var picked;
      st, picked := Sweep(subreddit, lim, feed);
      if st.Raised? {
        ghost var swept := events;
        var msg := st.message;
        st := RecoverSweep(subreddit, lim, msg, feed);
        Extend(swept, swept + [Crash(msg)], events, |old(events)|, first);
        if swept != old(events) {
          Extend(old(events), swept, swept + [Crash(msg)], |old(events)|, first);
        }
      }
    }

    /** Recover as `work_on_subreddit` sees it. */
    method RecoverSweep(subreddit: string, limit: nat, msg: string, feed: seq<Submission>) returns (st: Outcome)
      requires Valid()
      modifies this
      decreases if failureCount < MaxFailures then MaxFailures - failureCount else 0, 1
      ensures Valid()
      ensures st == Returned || st == Raised(IndexErrorMessage) || st == Hung
      ensures failureCount > old(failureCount)
      ensures old(isTerminating) ==> isTerminating
      ensures isTerminating && !old(isTerminating) ==> st != Hung
      ensures st == Hung ==> isTerminating == old(isTerminating)
      ensures Count(events, SaveRecord) == old(Count(events, SaveRecord)) + (if isTerminating && !old(isTerminating) then 1 else 0)
      ensures isTerminating && !old(isTerminating) ==> LastSaved()
      ensures old(events) + [Crash(msg)] <= events && old(passedSubmissions) <= passedSubmissions
    {
      var d;
      st, d := Recover(subreddit, limit, msg, feed);
      PrefixTrans(old(events) + [Crash(msg)], old(events) + [Crash(msg)] + (if d.Retry? then [BackoffEvent(d.minutes)] else []), events);
    }

    /** The `except` branch of `work_on_subreddit`: the handler and, on a readable wait, the
        retried call, which runs its own `finally`. */
    method Recover(subreddit: string, limit: nat, msg: string, feed: seq<Submission>) returns (st: Outcome, d: Decision)
      requires Valid()
      modifies this
      decreases if failureCount < MaxFailures then MaxFailures - failureCount else 0, 0
      ensures Valid()
      ensures d.Retry? ==> d.limit == Some(NewLimit(limit, |old(sessionSubmissions)|))
      ensures !d.Retry? ==> st == (if d.GiveUp? then Returned else Raised(IndexErrorMessage))
      ensures old(events) + [Crash(msg)] + (if d.Retry? then [BackoffEvent(d.minutes)] else []) <= events
      ensures d.Retry? ==> At(events, |old(events)| + 2, if Answer(old(script)).None?
        then FetchNew(subreddit, NewLimit(limit, |old(sessionSubmissions)|))
        else Crash(Answer(old(script)).value))
      ensures st == Returned || st == Raised(IndexErrorMessage) || st == Hung
      ensures failureCount > old(failureCount)
      ensures old(isTerminating) ==> isTerminating
      ensures isTerminating && !old(isTerminating) ==> st != Hung
      ensures st == Hung ==> isTerminating == old(isTerminating)
      ensures Count(events, SaveRecord) == old(Count(events, SaveRecord)) + (if isTerminating && !old(isTerminating) then 1 else 0)
      ensures isTerminating && !old(isTerminating) ==> LastSaved()
      ensures old(passedSubmissions) <= passedSubmissions
    {
      d := TryHandleException(msg, Some(limit));
      if d.Retry? {
        ghost var saves := Count(events, SaveRecord);
        ghost var mid := events;
        ghost var first := if Answer(script).None?
          then FetchNew(subreddit, NewLimit(limit, |sessionSubmissions|))
          else Crash(Answer(script).value);
        assert |mid| == |old(events)| + 2;
        st := WorkOnSubreddit(subreddit, d.limit, feed);
        assert At(events, |mid|, first);
        assert Count(events, SaveRecord) == saves + (if isTerminating && !old(isTerminating) then 1 else 0);
        assert isTerminating && !old(isTerminating) ==> LastSaved();
      } else if d.ParseRaises? {
        st := Raised(IndexErrorMessage);
      } else {
        st := Returned;
      }
    }

    /** The `finally` of `work_on_subreddit`: the first run to reach it sets the terminating
        flag and saves the processed set; later runs do nothing. */
    method Finally(st: Outcome)
      requires Valid()
      modifies this
      ensures Valid()
      ensures isTerminating == (old(isTerminating) || st != Hung)
      ensures Count(events, SaveRecord) == old(Count(events, SaveRecord)) + (if !old(isTerminating) && st != Hung then 1 else 0)
      ensures !old(isTerminating) && st != Hung ==> events == old(events) + [Save(StoreKey(username), passedSubmissions)]
      ensures !old(isTerminating) && st != Hung ==> LastSaved()
      ensures old(isTerminating) || st == Hung ==> events == old(events)
      ensures Count(events, BackoffRecord) == old(Count(events, BackoffRecord))
      ensures failureCount == old(failureCount) && passedSubmissions == old(passedSubmissions)
    {
      if st != Hung && !isTerminating {
        isTerminating := true;
        LogOne(events, Save(StoreKey(username), passedSubmissions));
        Persist();
      }
    }

    /** `parse_submission`: process one submission by id; on a failure the handler, and on a
        readable wait a retry with no limit to adjust; finally, on every attempt that ends,
        the save of the processed set. */
    method ParseSubmission(s: Submission) returns (st: Outcome)
      requires Valid()
      modifies this
      decreases if failureCount < MaxFailures then MaxFailures - failureCount else 0, 1
      ensures Valid()
      ensures st == Returned || st == Raised(IndexErrorMessage) || st == Hung
      ensures isTerminating == old(isTerminating) && failureCount >= old(failureCount)
      ensures old(events) <= events && old(passedSubmissions) <= passedSubmissions
      ensures st != Hung ==> LastSaved()
      ensures st != Hung ==>
        Count(events, SaveRecord) - old(Count(events, SaveRecord)) == Count(events, BackoffRecord) - old(Count(events, BackoffRecord)) + 1
      ensures st == Hung ==> Count(events, SaveRecord) == old(Count(events, SaveRecord))
      ensures s.id in old(passedSubmissions) ==>
        st == Returned && events == old(events) + [Save(StoreKey(username), passedSubmissions)]
    {
      st := TryProcess(s);
      if st.Raised? {
        st := RecoverParse(s, st.message);
      }
      SaveUnlessHung(st);
    }

    /** The `finally` of `parse_submission`: a save on every attempt that ends. */
    method SaveUnlessHung(st: Outcome)
      requires Valid()
      modifies this
      ensures Valid()
      ensures st != Hung ==> LastSaved() && events == old(events) + [Save(StoreKey(username), passedSubmissions)]
      ensures st == Hung ==> events == old(events)
      ensures Count(events, SaveRecord) == old(Count(events, SaveRecord)) + (if st != Hung then 1 else 0)
      ensures Count(events, BackoffRecord) == old(Count(events, BackoffRecord))
      ensures failureCount == old(failureCount) && isTerminating == old(isTerminating)
      ensures passedSubmissions == old(passedSubmissions)
    {
      if st != Hung {
        LogOne(events, Save(StoreKey(username), passedSubmissions));
        Persist();
      }
    }

    /** The `except` branch of `parse_submission`. */
    method RecoverParse(s: Submission, msg: string) returns (st: Outcome)
      requires Valid()
      modifies this
      decreases if failureCount < MaxFailures then MaxFailures - failureCount else 0, 0
      ensures Valid()
      ensures st == Returned || st == Raised(IndexErrorMessage) || st == Hung
      ensures isTerminating == old(isTerminating) && failureCount > old(failureCount)
      ensures old(events) <= events && old(passedSubmissions) <= passedSubmissions
      ensures st == Hung ==> Count(events, SaveRecord) == old(Count(events, SaveRecord))
      ensures st != Hung ==>
        Count(events, SaveRecord) - old(Count(events, SaveRecord)) == Count(events, BackoffRecord) - old(Count(events, BackoffRecord))
    {
      var d := TryHandleException(msg, None);
      if d.Retry? {
        st := ParseSubmission(s);
      } else if d.ParseRaises? {
        st := Raised(IndexErrorMessage);
      } else {
        st := Returned;
      }
    }
  }
}
