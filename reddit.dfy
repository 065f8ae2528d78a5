/**
 * The platform as the bots see it: the content they fetch, the answers the
 * platform gives to their calls, the log of what each bot's client has done,
 * and the per-account store of processed submission ids.
 *
 * The platform client itself (praw) is not modelled. Each call a bot makes
 * consumes the next answer of its `script`: the call either passes, and is
 * appended to the bot's event log, or raises with an error message, and
 * leaves no event. Content (feeds, comment lists) is an input to the model.
 */
module Reddit {
  import opened Wrappers

  type Id = string

  /** A comment as the platform lists it: id, author name (None when the
      author was deleted), body text and direct replies. */
  datatype Comment = Comment(id: Id, author: Option<string>, body: string, replies: seq<Comment>)

  /** A submission with the flat list of comments that `comments.list()` returns. */
  datatype Submission = Submission(id: Id, comments: seq<Comment>)

  /** The platform's answer to one call. */
  datatype Response = Pass | Raise(message: string)

  /** How a bot operation ends: it returns, it lets an exception escape, or it never ends
      (the reply re-choice loop of the full version). */
  datatype Outcome = Returned | Raised(message: string) | Hung

  /** What a bot's client did, plus the bot's own crash, back-off and save records. */
  datatype Event =
    | FetchNew(subreddit: string, limit: nat)
    | FetchHot(feed: string, hotLimit: Option<nat>)
    | FetchComments(submission: Id)
    | FetchOwnComments(limit: nat)
    | ReadKarma(username: string)
    | UpvoteSubmission(id: Id)
    | ReplySubmission(id: Id, text: string)
    | UpvoteComment(id: Id)
    | ReplyComment(id: Id, text: string)
    | Crash(message: string)
    | Backoff(minutes: nat, lo: int, hi: int)
    | Save(key: string, ids: set<Id>)

  /** The error message of the next call, if the platform makes it raise. */
  function Answer(script: seq<Response>): (r: Option<string>)
    ensures r.Some? <==> script != [] && script[0].Raise?
  {
    if script != [] && script[0].Raise? then Some(script[0].message) else None
  }

  /** The answers left after one call. */
  function Rest(script: seq<Response>): (r: seq<Response>)
    ensures script != [] ==> r == script[1..]
    ensures script == [] ==> r == []
  {
    if script == [] then [] else script[1..]
  }

  /** At most the first `n` elements, as a listing with `limit=n` returns them. */
  function Take<T>(s: seq<T>, n: nat): (r: seq<T>)
    ensures |r| == if n < |s| then n else |s|
    ensures r <= s
  {
    if n < |s| then s[..n] else s
  }

  /** A listing with an optional limit: no limit returns the whole listing. */
  function Listing<T>(s: seq<T>, limit: Option<nat>): (r: seq<T>)
    ensures r <= s
    ensures limit.Some? ==> |r| <= limit.value
  {
    if limit.None? then s else Take(s, limit.value)
  }

  // ----- multireddit names -----

  /** `sep.join(parts)`. */
  function Join(parts: seq<string>, sep: char): string
  {
    if parts == [] then [] else if |parts| == 1 then parts[0] else parts[0] + [sep] + Join(parts[1..], sep)
  }

  /** The first position of `c` in `s`. */
  function IndexOf(s: string, c: char): (r: Option<nat>)
    ensures r.Some? ==> r.value < |s| && s[r.value] == c && c !in s[..r.value]
    ensures r.None? ==> c !in s
  {
    if s == [] then None
    else if s[0] == c then Some(0)
    else match IndexOf(s[1..], c)
      case None => None
      case Some(i) =>
        assert s[..i + 1] == [s[0]] + s[1..][..i];
        Some(i + 1)
  }

  /** `s.split(sep)`: the pieces between separators. */
  function Split(s: string, sep: char): (r: seq<string>)
    ensures |r| >= 1
    decreases |s|
  {
    match IndexOf(s, sep)
    case None => [s]
    case Some(i) => [s[..i]] + Split(s[i + 1..], sep)
  }

  lemma {:induction false} FirstSeparator(a: string, sep: char, b: string)
    requires sep !in a
    ensures IndexOf(a + [sep] + b, sep) == Some(|a|)
  {
    if a != [] {
      assert (a + [sep] + b)[1..] == a[1..] + [sep] + b;
      FirstSeparator(a[1..], sep, b);
    }
  }

  /** Names without the separator are recovered from the joined name: the multireddit
      "a+b" stands for exactly the subreddits a and b. */
  lemma {:induction false} SplitJoin(parts: seq<string>, sep: char)
    requires |parts| >= 1
    requires forall i :: 0 <= i < |parts| ==> sep !in parts[i]
    ensures Split(Join(parts, sep), sep) == parts
    decreases |parts|
  {
    if |parts| > 1 {
      var rest := Join(parts[1..], sep);
      var s := parts[0] + [sep] + rest;
      FirstSeparator(parts[0], sep, rest);
      assert s[..|parts[0]|] == parts[0];
      assert s[|parts[0]| + 1..] == rest;
      SplitJoin(parts[1..], sep);
      assert [parts[0]] + parts[1..] == parts;
    }
  }

  // ----- the store of processed ids (pickle files keyed by file name) -----

  /** `read_pickled_set`: the stored set, or the empty set when nothing is stored under `key`. */
  function Load(store: map<string, set<Id>>, key: string): (r: set<Id>)
    ensures key !in store ==> r == {}
  {
    if key in store then store[key] else {}
  }

  /** `dump_pickled`: overwrites whatever was stored under `key`. */
  function Store(store: map<string, set<Id>>, key: string, ids: set<Id>): map<string, set<Id>>
  {
    store[key := ids]
  }

  /** Last write wins, and other keys are untouched. */
  lemma LoadAfterStore(store: map<string, set<Id>>, key: string, ids: set<Id>, other: string)
    ensures Load(Store(store, key, ids), key) == ids
    ensures other != key ==> Load(Store(store, key, ids), other) == Load(store, other)
    ensures Store(Store(store, key, ids), key, ids) == Store(store, key, ids)
  {
  }

  // ----- projections of an event log -----

  predicate NoDup<T(==)>(s: seq<T>)
  {
    forall i, j :: 0 <= i < j < |s| ==> s[i] != s[j]
  }

  function ToSet<T>(s: seq<T>): set<T>
  {
    set x | x in s
  }

  lemma ToSetAppend<T>(a: seq<T>, b: seq<T>)
    ensures ToSet(a + b) == ToSet(a) + ToSet(b)
  {
  }

  /** The processed set is the set loaded at the start plus the submissions replied to,
      each replied to once and none of them loaded. */
  predicate Marks(passed: set<Id>, r: (seq<Event>, set<Id>))
  {
    && r.1 == passed + ToSet(SubmissionReplies(r.0))
    && passed !! ToSet(SubmissionReplies(r.0))
    && NoDup(SubmissionReplies(r.0))
  }

  /** The set arithmetic of one more reply. */
  lemma MarksAdd(passed: set<Id>, marked: set<Id>, ps: seq<Id>, id: Id)
    requires marked == passed + ToSet(ps) && passed !! ToSet(ps) && NoDup(ps) && id !in marked
    ensures marked + {id} == passed + ToSet(ps + [id])
    ensures passed !! ToSet(ps + [id]) && NoDup(ps + [id])
  {
    AppendFresh(ps, id);
  }

  /** Appending an element not yet in a sequence without duplicates keeps it without
      duplicates. */
  lemma AppendFresh<T>(s: seq<T>, x: T)
    requires NoDup(s) && x !in ToSet(s)
    ensures NoDup(s + [x]) && ToSet(s + [x]) == ToSet(s) + {x}
  {
    forall i, j | 0 <= i < j < |s + [x]|
      ensures (s + [x])[i] != (s + [x])[j]
    {
      if j == |s| {
        assert (s + [x])[i] == s[i] && s[i] in ToSet(s);
      }
    }
  }

  /** The error an operation let escape, if any. */
  function Escaped(st: Outcome): (r: Option<string>)
    ensures r.Some? <==> st.Raised?
    ensures st.Raised? ==> r.value == st.message
  {
    if st.Raised? then Some(st.message) else None
  }

  /** The answer to call number `k` (counted from 0) of a bot whose platform answers are
      `answers`: the error message when that answer is a raise; a call past the end passes. */
  function AnswerAt(answers: seq<Response>, k: nat): (r: Option<string>)
    ensures r.Some? <==> k < |answers| && answers[k].Raise?
    ensures r.Some? ==> answers[k] == Raise(r.value)
  {
    if k < |answers| && answers[k].Raise? then Some(answers[k].message) else None
  }

  /** Calls `c0` up to `c1` of a bot whose platform answers are `answers` all passed, except,
      when `failure` holds a message, the last one, which raised it. */
  predicate Spent(answers: seq<Response>, c0: nat, c1: nat, failure: Option<string>)
  {
    && c0 + (if failure.Some? then 1 else 0) <= c1
    && (forall k :: c0 <= k < c1 - (if failure.Some? then 1 else 0) ==> AnswerAt(answers, k).None?)
    && (failure.Some? ==> AnswerAt(answers, c1 - 1) == failure)
  }

  /** One call: it passed, or raised its answer. */
  lemma SpentOne(answers: seq<Response>, c: nat)
    ensures Spent(answers, c, c + 1, AnswerAt(answers, c))
  {
    forall k | c <= k < c + 1 - (if AnswerAt(answers, c).Some? then 1 else 0) ensures AnswerAt(answers, k).None? {
      assert k == c;
    }
  }

  /** Calls that passed, then more calls: they compose. */
  lemma SpentThen(answers: seq<Response>, c0: nat, c1: nat, c2: nat, failure: Option<string>)
    requires Spent(answers, c0, c1, None) && Spent(answers, c1, c2, failure)
    ensures Spent(answers, c0, c2, failure)
  {
    forall k | c0 <= k < c2 - (if failure.Some? then 1 else 0)
      ensures AnswerAt(answers, k).None?
    {
      if k >= c1 {
        assert c1 <= k < c2 - (if failure.Some? then 1 else 0);
      }
    }
  }

  /** The bot's own records, as opposed to platform calls. */
  datatype Record = CrashRecord | BackoffRecord | SaveRecord

  predicate IsRecord(e: Event, k: Record)
  {
    match k
    case CrashRecord => e.Crash?
    case BackoffRecord => e.Backoff?
    case SaveRecord => e.Save?
  }

  /** The number of records of a kind. */
  function Count(log: seq<Event>, k: Record): nat
  {
    if log == [] then 0 else Count(log[..|log| - 1], k) + (if IsRecord(log[|log| - 1], k) then 1 else 0)
  }

  /** The submissions replied to, in order. */
  function SubmissionReplies(log: seq<Event>): seq<Id>
  {
    if log == [] then []
    else SubmissionReplies(log[..|log| - 1]) + (if log[|log| - 1].ReplySubmission? then [log[|log| - 1].id] else [])
  }

  /** The comments replied to, in order. */
  function CommentReplies(log: seq<Event>): seq<Id>
  {
    if log == [] then []
    else CommentReplies(log[..|log| - 1]) + (if log[|log| - 1].ReplyComment? then [log[|log| - 1].id] else [])
  }

  /** What one more event adds to each projection. */
  lemma LogOne(a: seq<Event>, e: Event)
    ensures Count(a + [e], CrashRecord) == Count(a, CrashRecord) + (if e.Crash? then 1 else 0)
    ensures Count(a + [e], BackoffRecord) == Count(a, BackoffRecord) + (if e.Backoff? then 1 else 0)
    ensures Count(a + [e], SaveRecord) == Count(a, SaveRecord) + (if e.Save? then 1 else 0)
    ensures SubmissionReplies(a + [e]) == SubmissionReplies(a) + (if e.ReplySubmission? then [e.id] else [])
    ensures CommentReplies(a + [e]) == CommentReplies(a) + (if e.ReplyComment? then [e.id] else [])
  {
    assert (a + [e])[..|a|] == a;
  }

  /** Every projection distributes over appending to the log. */
  lemma {:induction false} LogAppend(a: seq<Event>, b: seq<Event>)
    ensures Count(a + b, CrashRecord) == Count(a, CrashRecord) + Count(b, CrashRecord)
    ensures Count(a + b, BackoffRecord) == Count(a, BackoffRecord) + Count(b, BackoffRecord)
    ensures Count(a + b, SaveRecord) == Count(a, SaveRecord) + Count(b, SaveRecord)
    ensures SubmissionReplies(a + b) == SubmissionReplies(a) + SubmissionReplies(b)
    ensures CommentReplies(a + b) == CommentReplies(a) + CommentReplies(b)
    decreases |b|
  {
    if b == [] {
      assert a + b == a;
    } else {
      var b' := b[..|b| - 1];
      assert (a + b)[..|a + b| - 1] == a + b';
      assert (a + b)[|a + b| - 1] == b[|b| - 1];
      LogAppend(a, b');
    }
  }
}
