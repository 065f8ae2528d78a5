/**
 * What `_compute_comments_to_ignore` and `_process_comments` do with a
 * submission's comment list. Both bot versions that look at comments share
 * this logic; they differ only in the set of author names that marks a
 * comment as a bot's (all roster names in the full version, the bot's own
 * name in the older one).
 */
module CommentTree {
  import opened Wrappers
  import opened Reddit

  /** `comment.author and comment.author.name in names`: a deleted author never matches. */
  predicate AuthoredBy(c: Comment, names: set<string>)
  {
    c.author.Some? && c.author.value in names
  }

  /** The comments the ignore scan looks at, in its order: each listed comment, then its direct replies. */
  function Scope(cs: seq<Comment>): (r: seq<Comment>)
    ensures forall x :: x in r <==> exists i :: 0 <= i < |cs| && (x == cs[i] || x in cs[i].replies)
  {
    if cs == [] then []
    else
      var c := cs[|cs| - 1];
      var r := Scope(cs[..|cs| - 1]) + [c] + c.replies;
      assert forall i :: 0 <= i < |cs| - 1 ==> cs[..|cs| - 1][i] == cs[i];
      r
  }

  function Keep(m: map<Id, Comment>, x: Comment, names: set<string>): map<Id, Comment>
  {
    if AuthoredBy(x, names) then m[x.id := x] else m
  }

  /** Inserting the bot-authored comments of `xs` in order; a later comment with the same id overwrites. */
  function KeepAll(m: map<Id, Comment>, xs: seq<Comment>, names: set<string>): map<Id, Comment>
  {
    if xs == [] then m else Keep(KeepAll(m, xs[..|xs| - 1], names), xs[|xs| - 1], names)
  }

  /** The dictionary `_compute_comments_to_ignore` returns. */
  function IgnoreMap(cs: seq<Comment>, names: set<string>): map<Id, Comment>
  {
    KeepAll(map[], Scope(cs), names)
  }

  /** `{comment.body for comment in comments_to_ignore.values()}`. */
  function Bodies(m: map<Id, Comment>): set<string>
  {
    set id | id in m :: m[id].body
  }

  /** The loop of `_compute_comments_to_ignore`: each comment, then each of its direct replies. */
  method ComputeCommentsToIgnore(comments: seq<Comment>, names: set<string>) returns (toIgnore: map<Id, Comment>)
    ensures toIgnore == IgnoreMap(comments, names)
  {
    toIgnore := map[];
    for i := 0 to |comments|
      invariant toIgnore == KeepAll(map[], Scope(comments[..i]), names)
    {
      var comment := comments[i];
      ghost var done := Scope(comments[..i]);
      assert comments[..i + 1][..i] == comments[..i];
      if comment.author.Some? && comment.author.value in names {
        toIgnore := toIgnore[comment.id := comment];
      }
      ghost var base := toIgnore;
      for j := 0 to |comment.replies|
        invariant toIgnore == KeepAll(base, comment.replies[..j], names)
      {
        var reply := comment.replies[j];
        assert comment.replies[..j + 1][..j] == comment.replies[..j];
        if reply.author.Some? && reply.author.value in names {
          toIgnore := toIgnore[reply.id := reply];
        }
      }
      assert comment.replies[..|comment.replies|] == comment.replies;
      KeepAllAppend(map[], done, [comment], names);
      KeepAllAppend(map[], done + [comment], comment.replies, names);
    }
    assert comments[..|comments|] == comments;
  }

  /** Inserting `a + b` is inserting `a`, then `b`. */
  lemma {:induction false} KeepAllAppend(m: map<Id, Comment>, a: seq<Comment>, b: seq<Comment>, names: set<string>)
    ensures KeepAll(m, a + b, names) == KeepAll(KeepAll(m, a, names), b, names)
    decreases |b|
  {
    if b == [] {
      assert a + b == a;
    } else {
      var b' := b[..|b| - 1];
      assert (a + b)[..|a + b| - 1] == a + b';
      KeepAllAppend(m, a, b', names);
    }
  }

  /** The keys are exactly the ids of the bot-authored comments in scope. */
  lemma {:induction false} KeepAllKeys(m: map<Id, Comment>, xs: seq<Comment>, names: set<string>)
    ensures forall id :: id in KeepAll(m, xs, names) <==>
      id in m || exists p :: 0 <= p < |xs| && xs[p].id == id && AuthoredBy(xs[p], names)
  {
    if xs != [] {
      var init := xs[..|xs| - 1];
      KeepAllKeys(m, init, names);
      assert forall p :: 0 <= p < |init| ==> init[p] == xs[p];
    }
  }

  /** Every value is a bot-authored comment in scope stored under its own id, and it is the
      last such comment with that id: later entries overwrite earlier ones. */
  lemma {:induction false} KeepAllValues(xs: seq<Comment>, names: set<string>, id: Id)
    requires id in KeepAll(map[], xs, names)
    ensures exists p :: (0 <= p < |xs| && xs[p] == KeepAll(map[], xs, names)[id]
      && xs[p].id == id && AuthoredBy(xs[p], names)
      && forall q :: p < q < |xs| && xs[q].id == id ==> !AuthoredBy(xs[q], names))
  {
    var init := xs[..|xs| - 1];
    var x := xs[|xs| - 1];
    if AuthoredBy(x, names) && x.id == id {
      assert xs[|xs| - 1] == KeepAll(map[], xs, names)[id];
    } else {
      assert KeepAll(map[], xs, names)[id] == KeepAll(map[], init, names)[id];
      KeepAllValues(init, names, id);
      var p :| 0 <= p < |init| && init[p] == KeepAll(map[], init, names)[id]
        && init[p].id == id && AuthoredBy(init[p], names)
        && forall q :: p < q < |init| && init[q].id == id ==> !AuthoredBy(init[q], names);
      assert xs[p] == init[p];
      forall q | p < q < |xs| && xs[q].id == id
        ensures !AuthoredBy(xs[q], names)
      {
        if q < |init| {
          assert xs[q] == init[q];
        }
      }
    }
  }

  /** The keys of `comments_to_ignore`: an id is a key exactly when some listed comment or
      direct reply with that id has an author in `names`. */
  lemma IgnoreMapKeys(cs: seq<Comment>, names: set<string>)
    ensures forall id :: id in IgnoreMap(cs, names) <==>
      exists x :: x in Scope(cs) && x.id == id && AuthoredBy(x, names)
  {
    KeepAllKeys(map[], Scope(cs), names);
  }

  /** The values of `comments_to_ignore`: each is a listed comment or direct reply with an
      author in `names`, stored under its own id. */
  lemma IgnoreMapValues(cs: seq<Comment>, names: set<string>, id: Id)
    requires id in IgnoreMap(cs, names)
    ensures var x := IgnoreMap(cs, names)[id];
      x.id == id && AuthoredBy(x, names) && exists i :: 0 <= i < |cs| && (x == cs[i] || x in cs[i].replies)
  {
    var xs := Scope(cs);
    KeepAllValues(xs, names, id);
    var p :| 0 <= p < |xs| && xs[p] == KeepAll(map[], xs, names)[id]
      && xs[p].id == id && AuthoredBy(xs[p], names)
      && forall q :: p < q < |xs| && xs[q].id == id ==> !AuthoredBy(xs[q], names);
    assert xs[p] in xs;
  }

  /** No bot-authored comment in scope means nothing to ignore, and back. */
  lemma {:induction false} IgnoreMapEmpty(cs: seq<Comment>, names: set<string>)
    ensures IgnoreMap(cs, names) == map[] <==>
      forall i :: 0 <= i < |cs| ==> !AuthoredBy(cs[i], names) && forall r :: r in cs[i].replies ==> !AuthoredBy(r, names)
  {
    IgnoreMapKeys(cs, names);
    if IgnoreMap(cs, names) != map[] {
      var id :| id in IgnoreMap(cs, names);
      var x :| x in Scope(cs) && x.id == id && AuthoredBy(x, names);
    } else {
      forall i | 0 <= i < |cs|
        ensures !AuthoredBy(cs[i], names) && forall r :: r in cs[i].replies ==> !AuthoredBy(r, names)
      {
        assert cs[i] in Scope(cs);
        assert cs[i].id !in IgnoreMap(cs, names);
        forall r | r in cs[i].replies
          ensures !AuthoredBy(r, names)
        {
          assert r in Scope(cs);
          assert r.id !in IgnoreMap(cs, names);
        }
      }
    }
  }

  /** The ids of the sampled comments, in sample order. */
  function SampledIds(comments: seq<Comment>, picks: seq<nat>): (r: seq<Id>)
    requires forall i :: 0 <= i < |picks| ==> picks[i] < |comments|
    ensures |r| == |picks|
    ensures forall i :: 0 <= i < |picks| ==> r[i] == comments[picks[i]].id
  {
    seq(|picks|, i requires 0 <= i < |picks| => comments[picks[i]].id)
  }

  /** The events of `_process_comments`: for each sampled comment in order, an upvote and
      then a reply with the phrase of the same rank in the phrase sample. */
  function CommentEvents(ids: seq<Id>, texts: seq<string>): (r: seq<Event>)
    requires |ids| <= |texts|
    ensures |r| == 2 * |ids|
  {
    if ids == [] then []
    else
      var n := |ids| - 1;
      CommentEvents(ids[..n], texts) + [UpvoteComment(ids[n]), ReplyComment(ids[n], texts[n])]
  }

  /** Position by position: the i-th sampled comment is upvoted and then replied to with
      the i-th phrase. */
  lemma {:induction false} CommentEventsAt(ids: seq<Id>, texts: seq<string>)
    requires |ids| <= |texts|
    ensures forall i :: 0 <= i < |ids| ==>
      var r := CommentEvents(ids, texts);
      r[2 * i] == UpvoteComment(ids[i]) && r[2 * i + 1] == ReplyComment(ids[i], texts[i])
  {
    if ids != [] {
      var n := |ids| - 1;
      var init := ids[..n];
      CommentEventsAt(init, texts);
      var r := CommentEvents(ids, texts);
      var r' := CommentEvents(init, texts);
      forall i | 0 <= i < |ids|
        ensures r[2 * i] == UpvoteComment(ids[i]) && r[2 * i + 1] == ReplyComment(ids[i], texts[i])
      {
        if i < n {
          assert init[i] == ids[i];
          assert r[2 * i] == r'[2 * i] && r[2 * i + 1] == r'[2 * i + 1];
        }
      }
    }
  }

  /** The replies among those events go to the sampled comments, in sample order, and none
      of them is a submission reply. */
  lemma {:induction false} CommentEventsReplies(ids: seq<Id>, texts: seq<string>)
    requires |ids| <= |texts|
    ensures CommentReplies(CommentEvents(ids, texts)) == ids
    ensures SubmissionReplies(CommentEvents(ids, texts)) == []
  {
    if ids != [] {
      var n := |ids| - 1;
      var init := CommentEvents(ids[..n], texts);
      CommentEventsReplies(ids[..n], texts);
      LogOne(init, UpvoteComment(ids[n]));
      LogOne(init + [UpvoteComment(ids[n])], ReplyComment(ids[n], texts[n]));
      assert init + [UpvoteComment(ids[n])] + [ReplyComment(ids[n], texts[n])] == CommentEvents(ids, texts);
      assert ids[..n] + [ids[n]] == ids;
    }
  }

  /** The events for a prefix of the sample are a prefix of the events for all of it. */
  lemma {:induction false} CommentEventsPrefix(ids: seq<Id>, texts: seq<string>, i: nat)
    requires |ids| <= |texts| && i <= |ids|
    ensures CommentEvents(ids[..i], texts) <= CommentEvents(ids, texts)
    decreases |ids|
  {
    if i == |ids| {
      assert ids[..i] == ids;
    } else {
      var n := |ids| - 1;
      assert ids[..n][..i] == ids[..i];
      CommentEventsPrefix(ids[..n], texts, i);
    }
  }

  lemma CommentEventsStep(ids: seq<Id>, texts: seq<string>, i: nat)
    requires |ids| <= |texts| && i < |ids|
    ensures CommentEvents(ids[..i + 1], texts)
      == CommentEvents(ids[..i], texts) + [UpvoteComment(ids[i]), ReplyComment(ids[i], texts[i])]
  {
    assert ids[..i + 1][..i] == ids[..i];
  }

  /** The replies among those events use phrases of the phrase sample, and none of them is
      a submission reply. */
  lemma {:induction false} CommentEventsTexts(ids: seq<Id>, texts: seq<string>)
    requires |ids| <= |texts|
    ensures forall e :: e in CommentEvents(ids, texts) ==> !e.ReplySubmission? && (e.ReplyComment? ==> e.text in texts)
  {
    if ids != [] {
      CommentEventsTexts(ids[..|ids| - 1], texts);
    }
  }
}
