/**
 * The choices of `upvote_other_bot_comments` in the full orchestrator: who
 * owns each fetched comment, and which comment each bot takes from the
 * shuffled cycle of all of them. Every bot skips its own comments and the
 * ones it has already upvoted in the session, but gives up after
 * `len(self.bots) + 2` rejected draws and takes the last one drawn.
 */
module CrossUpvote {
  import opened Wrappers
  import opened Reddit
  import opened Sampling
  import Dispatch

  /** The entries `(c_id, username)` of one bot's result written into `m`, in order. */
  function Assign(m: map<Id, string>, ids: seq<Id>, name: string): map<Id, string>
  {
    if ids == [] then m else Assign(m, ids[..|ids| - 1], name)[ids[|ids| - 1] := name]
  }

  /** `comment_with_owner` after the fetch results of the bots in roster order. */
  function Owners(fetched: seq<seq<Id>>, names: seq<string>): map<Id, string>
    requires |fetched| == |names|
  {
    if fetched == [] then map[]
    else
      var n := |fetched| - 1;
      Assign(Owners(fetched[..n], names[..n]), fetched[n], names[n])
  }

  lemma {:induction false} AssignMeaning(m: map<Id, string>, ids: seq<Id>, name: string)
    ensures forall id :: id in Assign(m, ids, name) <==> id in m || id in ids
    ensures forall id :: id in ids ==> Assign(m, ids, name)[id] == name
    ensures forall id :: id in m && id !in ids ==> Assign(m, ids, name)[id] == m[id]
  {
    if ids != [] {
      var init := ids[..|ids| - 1];
      AssignMeaning(m, init, name);
      assert forall id :: id in ids <==> id in init || id == ids[|ids| - 1];
    }
  }

  /** Every fetched id has an owner, and its owner is the last bot in roster order whose
      result holds it. */
  lemma {:induction false} OwnersMeaning(fetched: seq<seq<Id>>, names: seq<string>, id: Id)
    requires |fetched| == |names|
    ensures id in Owners(fetched, names) <==> exists k :: 0 <= k < |fetched| && id in fetched[k]
    ensures id in Owners(fetched, names) ==> exists k :: (0 <= k < |fetched| && id in fetched[k]
      && Owners(fetched, names)[id] == names[k] && forall j :: k < j < |fetched| ==> id !in fetched[j])
  {
    if fetched != [] {
      var n := |fetched| - 1;
      OwnersMeaning(fetched[..n], names[..n], id);
      AssignMeaning(Owners(fetched[..n], names[..n]), fetched[n], names[n]);
      assert forall k :: 0 <= k < n ==> fetched[..n][k] == fetched[k] && names[..n][k] == names[k];
      if id in Owners(fetched, names) && id !in fetched[n] {
        var k :| 0 <= k < n && id in fetched[..n][k] && Owners(fetched[..n], names[..n])[id] == names[..n][k]
          && forall j :: k < j < n ==> id !in fetched[..n][j];
        assert forall j :: k < j < |fetched| ==> id !in fetched[j];
      }
    }
  }

  /** The loops of `upvote_other_bot_comments` that fill `comment_with_owner`. */
  method BuildOwnerMap(fetched: seq<seq<Id>>, names: seq<string>) returns (owner: map<Id, string>)
    requires |fetched| == |names|
    ensures owner == Owners(fetched, names)
  {
    owner := map[];
    for k := 0 to |fetched|
      invariant owner == Owners(fetched[..k], names[..k])
    {
      assert fetched[..k + 1][..k] == fetched[..k] && names[..k + 1][..k] == names[..k];
      ghost var before := owner;
      var result := fetched[k];
      for e := 0 to |result|
        invariant owner == Assign(before, result[..e], names[k])
      {
        assert result[..e + 1][..e] == result[..e];
        owner := owner[result[e] := names[k]];
      }
      assert result[..|result|] == result;
    }
    assert fetched[..|fetched|] == fetched && names[..|names|] == names;
  }

  /** `defaultdict(set)`: the comments a bot has upvoted in the session. */
  function Upvoted(session: map<string, set<Id>>, name: string): set<Id>
  {
    if name in session then session[name] else {}
  }

  /** The test that ends the draw loop: neither the bot's own comment nor one it has
      already upvoted. */
  predicate Acceptable(owner: map<Id, string>, id: Id, name: string, upvoted: set<Id>)
    requires id in owner
  {
    owner[id] != name && id !in upvoted
  }

  /** Some position of `n` consecutive positions from `cursor` is `p` modulo `n`. */
  lemma Covers(cursor: nat, n: nat, p: nat)
    requires 0 <= p < n
    ensures exists q :: cursor <= q < cursor + n && q % n == p
  {
    var m := cursor % n;
    var d := cursor / n;
    assert cursor == d * n + m;
    if p >= m {
      Dispatch.DivModUnique(d * n + p, n, d, p);
      assert cursor <= d * n + p < cursor + n;
    } else {
      Dispatch.DivModUnique((d + 1) * n + p, n, d + 1, p);
      assert cursor <= (d + 1) * n + p < cursor + n;
    }
  }

  /** The `while True` loop of one bot: draw from the cycle at `cursor` until a comment is
      acceptable or `r + 2` draws were rejected; the cycle then stands at `next`. */
  method SelectFor(order: seq<Id>, owner: map<Id, string>, name: string, upvoted: set<Id>, r: nat, cursor: nat)
    returns (id: Id, next: nat, fallback: bool)
    requires |order| > 0 && forall p :: 0 <= p < |order| ==> order[p] in owner
    ensures TurnOk(order, owner, name, upvoted, r, cursor, next, id, fallback)
  {
    var loopPassed := 0;
    next := cursor;
    fallback := false;
    while true
      invariant next == cursor + loopPassed && loopPassed <= r + 1
      invariant forall p :: cursor <= p < next ==> !Acceptable(owner, order[p % |order|], name, upvoted)
      decreases r + 1 - loopPassed
    {
      id := order[next % |order|];
      next := next + 1;
      if Acceptable(owner, id, name, upvoted) {
        break;
      }
      loopPassed := loopPassed + 1;
      if loopPassed > r + 1 {
        fallback := true;
        break;
      }
    }
    if fallback && |order| <= r + 2 {
      forall p | 0 <= p < |order|
        ensures !Acceptable(owner, order[p], name, upvoted)
      {
        Covers(cursor, |order|, p);
        var q :| cursor <= q < cursor + |order| && q % |order| == p;
        assert !Acceptable(owner, order[q % |order|], name, upvoted);
      }
    }
  }

  /** What SelectFor promises about one bot's turn: it drew at positions `cursor` up to `next`,
      rejected every comment but the last one drawn, took that one, and fell back exactly
      when it is not acceptable, which happens only after `r + 2` draws and, on a cycle no
      longer than that, only when no comment at all is acceptable. */
  predicate TurnOk(order: seq<Id>, owner: map<Id, string>, name: string, upvoted: set<Id>, r: nat,
                   cursor: nat, next: nat, id: Id, fallback: bool)
    requires |order| > 0 && forall p :: 0 <= p < |order| ==> order[p] in owner
  {
    && cursor < next <= cursor + r + 2
    && (forall p :: cursor <= p < next - 1 ==> !Acceptable(owner, order[p % |order|], name, upvoted))
    && id == order[(next - 1) % |order|]
    && (!fallback <==> Acceptable(owner, id, name, upvoted))
    && (fallback ==> next == cursor + r + 2)
    && (|order| <= r + 2 && fallback ==> forall p :: 0 <= p < |order| ==> !Acceptable(owner, order[p], name, upvoted))
  }

  /** The turns of the first `|choices|` bots, each starting where the previous one stopped. */
  predicate Planned(order: seq<Id>, owner: map<Id, string>, names: seq<string>, session: map<string, set<Id>>,
                    choices: seq<Id>, fallbacks: seq<bool>, cursors: seq<nat>)
    requires |order| > 0 && forall p :: 0 <= p < |order| ==> order[p] in owner
  {
    && |choices| <= |names| && |fallbacks| == |choices| && |cursors| == |choices| + 1
    && cursors[0] == 0
    && forall j :: 0 <= j < |choices| ==>
      TurnOk(order, owner, names[j], Upvoted(session, names[j]), |names|, cursors[j], cursors[j + 1], choices[j], fallbacks[j])
  }

  lemma PlanStep(order: seq<Id>, owner: map<Id, string>, names: seq<string>, session: map<string, set<Id>>,
                 choices: seq<Id>, fallbacks: seq<bool>, cursors: seq<nat>, id: Id, next: nat, fallback: bool)
    requires |order| > 0 && forall p :: 0 <= p < |order| ==> order[p] in owner
    requires Planned(order, owner, names, session, choices, fallbacks, cursors) && |choices| < |names|
    requires var k := |choices|;
      TurnOk(order, owner, names[k], Upvoted(session, names[k]), |names|, cursors[k], next, id, fallback)
    ensures Planned(order, owner, names, session, choices + [id], fallbacks + [fallback], cursors + [next])
  {
    var k := |choices|;
    var c', f', n' := choices + [id], fallbacks + [fallback], cursors + [next];
    forall j | 0 <= j <= k
      ensures TurnOk(order, owner, names[j], Upvoted(session, names[j]), |names|, n'[j], n'[j + 1], c'[j], f'[j])
    {
      if j < k {
        assert n'[j] == cursors[j] && n'[j + 1] == cursors[j + 1] && c'[j] == choices[j] && f'[j] == fallbacks[j];
      }
    }
  }

  /** The selection loop over the roster: each bot in turn draws from the same cycle, which
      starts at the first comment of the shuffled order; bot k draws at positions
      `cursors[k]` up to `cursors[k + 1]`. */
  method PlanUpvotes(order: seq<Id>, owner: map<Id, string>, names: seq<string>, session: map<string, set<Id>>)
    returns (choices: seq<Id>, fallbacks: seq<bool>, cursors: seq<nat>)
    requires |order| > 0 && forall p :: 0 <= p < |order| ==> order[p] in owner
    ensures |choices| == |names| && |fallbacks| == |names| && |cursors| == |names| + 1
    ensures Planned(order, owner, names, session, choices, fallbacks, cursors)
    ensures cursors[0] == 0
    ensures forall k :: 0 <= k < |names| ==>
      cursors[k] < cursors[k + 1] <= cursors[k] + |names| + 2 && choices[k] == order[(cursors[k + 1] - 1) % |order|]
    ensures forall k, p :: 0 <= k < |names| && cursors[k] <= p < cursors[k + 1] - 1 ==>
      !Acceptable(owner, order[p % |order|], names[k], Upvoted(session, names[k]))
    ensures forall k :: 0 <= k < |names| ==> choices[k] in order
    ensures forall k :: 0 <= k < |names| ==>
      (!fallbacks[k] <==> Acceptable(owner, choices[k], names[k], Upvoted(session, names[k])))
    ensures forall k :: 0 <= k < |names| && fallbacks[k] ==> cursors[k + 1] == cursors[k] + |names| + 2
    ensures |order| <= |names| + 2 ==> forall k :: 0 <= k < |names| && fallbacks[k] ==>
      forall p :: 0 <= p < |order| ==> !Acceptable(owner, order[p], names[k], Upvoted(session, names[k]))
  {
    choices, fallbacks, cursors := [], [], [0];
    var cursor := 0;
    for k := 0 to |names|
      invariant Planned(order, owner, names, session, choices, fallbacks, cursors)
      invariant |choices| == k && cursors[k] == cursor
    {
      var id, next, fallback := SelectFor(order, owner, names[k], Upvoted(session, names[k]), |names|, cursor);
      PlanStep(order, owner, names, session, choices, fallbacks, cursors, id, next, fallback);
      choices, fallbacks, cursors := choices + [id], fallbacks + [fallback], cursors + [next];
      cursor := next;
    }
    PlannedMeaning(order, owner, names, session, choices, fallbacks, cursors);
  }

  /** The roster's turns, bot by bot. */
  lemma PlannedMeaning(order: seq<Id>, owner: map<Id, string>, names: seq<string>, session: map<string, set<Id>>,
                       choices: seq<Id>, fallbacks: seq<bool>, cursors: seq<nat>)
    requires |order| > 0 && forall p :: 0 <= p < |order| ==> order[p] in owner
    requires Planned(order, owner, names, session, choices, fallbacks, cursors) && |choices| == |names|
    ensures forall k :: 0 <= k < |names| ==>
      cursors[k] < cursors[k + 1] <= cursors[k] + |names| + 2 && choices[k] == order[(cursors[k + 1] - 1) % |order|]
    ensures forall k, p :: 0 <= k < |names| && cursors[k] <= p < cursors[k + 1] - 1 ==>
      !Acceptable(owner, order[p % |order|], names[k], Upvoted(session, names[k]))
    ensures forall k :: 0 <= k < |names| ==> choices[k] in order
    ensures forall k :: 0 <= k < |names| ==>
      (!fallbacks[k] <==> Acceptable(owner, choices[k], names[k], Upvoted(session, names[k])))
    ensures forall k :: 0 <= k < |names| && fallbacks[k] ==> cursors[k + 1] == cursors[k] + |names| + 2
    ensures |order| <= |names| + 2 ==> forall k :: 0 <= k < |names| && fallbacks[k] ==>
      forall p :: 0 <= p < |order| ==> !Acceptable(owner, order[p], names[k], Upvoted(session, names[k]))
  {
    forall k | 0 <= k < |names|
      ensures cursors[k] < cursors[k + 1] <= cursors[k] + |names| + 2 && choices[k] == order[(cursors[k + 1] - 1) % |order|]
      ensures forall p :: cursors[k] <= p < cursors[k + 1] - 1 ==>
        !Acceptable(owner, order[p % |order|], names[k], Upvoted(session, names[k]))
      ensures choices[k] in order
      ensures !fallbacks[k] <==> Acceptable(owner, choices[k], names[k], Upvoted(session, names[k]))
      ensures fallbacks[k] ==> cursors[k + 1] == cursors[k] + |names| + 2
      ensures |order| <= |names| + 2 && fallbacks[k] ==>
        forall p :: 0 <= p < |order| ==> !Acceptable(owner, order[p], names[k], Upvoted(session, names[k]))
    {
      assert TurnOk(order, owner, names[k], Upvoted(session, names[k]), |names|, cursors[k], cursors[k + 1], choices[k], fallbacks[k]);
    }
  }

  /** A turn is fixed by where it starts: the draw stops at the first acceptable comment or
      after `r + 2` rejected ones, so the stop, the comment and the fallback flag follow. */
  lemma TurnUnique(order: seq<Id>, owner: map<Id, string>, name: string, upvoted: set<Id>, r: nat, cursor: nat,
                   next: nat, id: Id, fallback: bool, next': nat, id': Id, fallback': bool)
    requires |order| > 0 && forall p :: 0 <= p < |order| ==> order[p] in owner
    requires TurnOk(order, owner, name, upvoted, r, cursor, next, id, fallback)
    requires TurnOk(order, owner, name, upvoted, r, cursor, next', id', fallback')
    ensures next == next' && id == id' && fallback == fallback'
  {
  }

  /** The turns of the roster are fixed by the cycle and the session: two plans of the same
      length agree on every stop, choice and fallback. */
  lemma {:induction false} PlannedUnique(order: seq<Id>, owner: map<Id, string>, names: seq<string>,
                                         session: map<string, set<Id>>, choices: seq<Id>, fallbacks: seq<bool>,
                                         cursors: seq<nat>, choices': seq<Id>, fallbacks': seq<bool>, cursors': seq<nat>)
    requires |order| > 0 && forall p :: 0 <= p < |order| ==> order[p] in owner
    requires Planned(order, owner, names, session, choices, fallbacks, cursors)
    requires Planned(order, owner, names, session, choices', fallbacks', cursors')
    requires |choices| == |choices'|
    ensures choices == choices' && fallbacks == fallbacks' && cursors == cursors'
    decreases |choices|
  {
    if choices != [] {
      var m := |choices| - 1;
      assert Planned(order, owner, names, session, choices[..m], fallbacks[..m], cursors[..m + 1]);
      assert Planned(order, owner, names, session, choices'[..m], fallbacks'[..m], cursors'[..m + 1]);
      PlannedUnique(order, owner, names, session, choices[..m], fallbacks[..m], cursors[..m + 1],
                    choices'[..m], fallbacks'[..m], cursors'[..m + 1]);
      assert cursors[m] == cursors[..m + 1][m] == cursors'[..m + 1][m] == cursors'[m];
      TurnUnique(order, owner, names[m], Upvoted(session, names[m]), |names|, cursors[m],
                 cursors[m + 1], choices[m], fallbacks[m], cursors'[m + 1], choices'[m], fallbacks'[m]);
      assert choices == choices[..m] + [choices[m]] && choices' == choices'[..m] + [choices'[m]];
      assert fallbacks == fallbacks[..m] + [fallbacks[m]] && fallbacks' == fallbacks'[..m] + [fallbacks'[m]];
      assert cursors == cursors[..m + 1] + [cursors[m + 1]] && cursors' == cursors'[..m + 1] + [cursors'[m + 1]];
    }
  }

  /** The selection of an iteration is a function of the shuffled cycle and the session. */
  lemma SelectedUnique(owner: map<Id, string>, names: seq<string>, session: map<string, set<Id>>, order: seq<Id>,
                       choices: seq<Id>, fallbacks: seq<bool>, choices': seq<Id>, fallbacks': seq<bool>)
    requires Selected(owner, names, session, order, choices, fallbacks)
    requires Selected(owner, names, session, order, choices', fallbacks')
    ensures choices == choices' && fallbacks == fallbacks'
  {
    var cursors :| Planned(order, owner, names, session, choices, fallbacks, cursors);
    var cursors' :| Planned(order, owner, names, session, choices', fallbacks', cursors');
    PlannedUnique(order, owner, names, session, choices, fallbacks, cursors, choices', fallbacks', cursors');
  }

  /** Two bots with one comment each, cycled in the order a, b: the first bot skips its own
      comment and takes the other's, the second takes the first's, and no other selection
      is possible; in particular neither bot falls back to its own comment. */
  lemma SelectedTwoBots()
    ensures Selected(map["a" := "bot1", "b" := "bot2"], ["bot1", "bot2"], map[], ["a", "b"], ["b", "a"], [false, false])
    ensures forall choices, fallbacks ::
      Selected(map["a" := "bot1", "b" := "bot2"], ["bot1", "bot2"], map[], ["a", "b"], choices, fallbacks) ==>
        choices == ["b", "a"] && fallbacks == [false, false]
  {
    var owner, names, order := map["a" := "bot1", "b" := "bot2"], ["bot1", "bot2"], ["a", "b"];
    assert ToSet(order) == owner.Keys by {
      assert order[0] in ToSet(order) && order[1] in ToSet(order);
    }
    assert TurnOk(order, owner, "bot1", {}, 2, 0, 2, "b", false) by {
      assert forall p :: 0 <= p < 1 ==> p % 2 == 0;
    }
    assert TurnOk(order, owner, "bot2", {}, 2, 2, 3, "a", false);
    assert Planned(order, owner, names, map[], ["b", "a"], [false, false], [0, 2, 3]);
    forall choices, fallbacks | Selected(owner, names, map[], order, choices, fallbacks)
      ensures choices == ["b", "a"] && fallbacks == [false, false]
    {
      SelectedUnique(owner, names, map[], order, ["b", "a"], [false, false], choices, fallbacks);
    }
  }

  /** `session_upvotes` after the upvote tasks of one iteration: each bot whose upvote passed
      gains the comment it upvoted. */
  function Credit(session: map<string, set<Id>>, names: seq<string>, choices: seq<Id>, passed: seq<bool>): map<string, set<Id>>
    requires |names| == |choices| == |passed|
  {
    if names == [] then session
    else
      var n := |names| - 1;
      var s := Credit(session, names[..n], choices[..n], passed[..n]);
      if passed[n] then s[names[n] := Upvoted(s, names[n]) + {choices[n]}] else s
  }

  /** A bot's upvoted set grows by exactly the comments it upvoted successfully, and only the
      bots that upvoted something gain an entry. */
  lemma {:induction false} CreditMeaning(session: map<string, set<Id>>, names: seq<string>, choices: seq<Id>,
                                         passed: seq<bool>, name: string, id: Id)
    requires |names| == |choices| == |passed|
    ensures id in Upvoted(Credit(session, names, choices, passed), name) <==>
      id in Upvoted(session, name) || exists k :: 0 <= k < |names| && names[k] == name && passed[k] && choices[k] == id
    ensures name in Credit(session, names, choices, passed) <==>
      name in session || exists k :: 0 <= k < |names| && names[k] == name && passed[k]
  {
    if names != [] {
      var n := |names| - 1;
      CreditMeaning(session, names[..n], choices[..n], passed[..n], name, id);
      assert forall k :: 0 <= k < n ==> names[..n][k] == names[k] && choices[..n][k] == choices[k] && passed[..n][k] == passed[k];
    }
  }

  /** Some bot's comment listing holds `id`. */
  predicate InPool(own: seq<seq<Id>>, id: Id)
  {
    exists k :: 0 <= k < |own| && id in own[k]
  }

  /** What the bots fetch with `limit=n`: the first `n` ids of each listing. */
  function Takes(own: seq<seq<Id>>, n: nat): (r: seq<seq<Id>>)
    ensures |r| == |own| && forall k :: 0 <= k < |own| ==> r[k] == Take(own[k], n)
  {
    seq(|own|, k requires 0 <= k < |own| => Take(own[k], n))
  }

  /** The owner map is empty exactly when every fetch returned no comment, which is when the
      cycle over its keys has nothing to give. */
  lemma OwnersEmpty(fetched: seq<seq<Id>>, names: seq<string>)
    requires |fetched| == |names|
    ensures Owners(fetched, names) == map[] <==> forall k :: 0 <= k < |fetched| ==> fetched[k] == []
  {
    if Owners(fetched, names) != map[] {
      var id :| id in Owners(fetched, names);
      OwnersMeaning(fetched, names, id);
    } else {
      forall k | 0 <= k < |fetched|
        ensures fetched[k] == []
      {
        if fetched[k] != [] {
          assert fetched[k][0] in fetched[k];
          OwnersMeaning(fetched, names, fetched[k][0]);
        }
      }
    }
  }

  /** The choices of one iteration: one comment per bot from the shuffled `order` of the owner
      map's keys, and a fallback flag that is off exactly when the comment is acceptable; the
      bots take their turns in roster order on one cycle over `order` from its start, as
      Planned says. */
  ghost predicate Selected(owner: map<Id, string>, names: seq<string>, session: map<string, set<Id>>,
                     order: seq<Id>, choices: seq<Id>, fallbacks: seq<bool>)
  {
    && ToSet(order) == owner.Keys
    && |choices| == |names| && |fallbacks| == |names|
    && (forall k :: 0 <= k < |names| ==> (choices[k] in order && choices[k] in owner
      && (!fallbacks[k] <==> Acceptable(owner, choices[k], names[k], Upvoted(session, names[k])))))
    && |order| > 0 && (forall p :: 0 <= p < |order| ==> order[p] in owner)
    && exists cursors :: Planned(order, owner, names, session, choices, fallbacks, cursors)
  }

  /** The part of an iteration of `upvote_other_bot_comments` between the fetches and the
      upvotes: the owner map of the fetched `lists`, its keys shuffled into a cycle, and a
      comment chosen for each bot from it. An empty cycle is where `next` raises. */
  method Select(lists: seq<seq<Id>>, names: seq<string>, session: map<string, set<Id>>)
    returns (owner: map<Id, string>, order: seq<Id>, choices: seq<Id>, fallbacks: seq<bool>)
    requires |lists| == |names|
    ensures owner == Owners(lists, names)
    ensures IsOrdering(order, owner.Keys)
    ensures order == [] <==> forall k :: 0 <= k < |lists| ==> lists[k] == []
    ensures order != [] ==> Selected(owner, names, session, order, choices, fallbacks)
  {
    choices, fallbacks := [], [];
    owner := BuildOwnerMap(lists, names);
    OwnersEmpty(lists, names);
    assert IsOrdering(SomeOrdering(owner.Keys), owner.Keys);
    order :| IsOrdering(order, owner.Keys);
    assert IsOrdering(order, owner.Keys);
    if order != [] {
      assert order[0] in ToSet(order);
      assert forall p :: 0 <= p < |order| ==> order[p] in ToSet(order);
      var cursors;
      choices, fallbacks, cursors := PlanUpvotes(order, owner, names, session);
      assert Planned(order, owner, names, session, choices, fallbacks, cursors);
    } else {
      assert ToSet(order) == {};
    }
  }

  /** One session update step: the next bot's upvote, when it passed, joins its entry. */
  lemma CreditStep(session: map<string, set<Id>>, names: seq<string>, choices: seq<Id>, passed: seq<bool>, p: bool)
    requires |passed| < |names| == |choices|
    ensures var k := |passed|; var c := Credit(session, names[..k], choices[..k], passed);
      Credit(session, names[..k + 1], choices[..k + 1], passed + [p])
      == if p then c[names[k] := Upvoted(c, names[k]) + {choices[k]}] else c
  {
    var k := |passed|;
    assert names[..k + 1][..k] == names[..k] && choices[..k + 1][..k] == choices[..k];
    assert (passed + [p])[..k] == passed;
  }

  /** One iteration adds to a bot's upvoted set only comments the bots fetched, and adds
      entries only for roster names. */
  lemma RoundSession(own: seq<seq<Id>>, n: nat, names: seq<string>, order: seq<Id>, choices: seq<Id>,
                     fallbacks: seq<bool>, passed: seq<bool>, session: map<string, set<Id>>)
    requires |own| == |names| == |passed|
    requires Selected(Owners(Takes(own, n), names), names, session, order, choices, fallbacks)
    ensures forall name, id :: id in Upvoted(Credit(session, names, choices, passed), name) ==>
      id in Upvoted(session, name) || InPool(own, id)
    ensures forall name :: name in Credit(session, names, choices, passed) ==> name in session || name in names
  {
    forall name, id | id in Upvoted(Credit(session, names, choices, passed), name)
      ensures id in Upvoted(session, name) || InPool(own, id)
    {
      CreditMeaning(session, names, choices, passed, name, id);
      if id !in Upvoted(session, name) {
        var k :| 0 <= k < |names| && names[k] == name && passed[k] && choices[k] == id;
        OwnersMeaning(Takes(own, n), names, id);
        var j :| 0 <= j < |own| && id in Takes(own, n)[j];
        assert id in own[j];
      }
    }
    forall name | name in Credit(session, names, choices, passed)
      ensures name in session || name in names
    {
      CreditMeaning(session, names, choices, passed, name, "");
    }
  }
}
