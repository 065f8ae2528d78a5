/**
 * The orchestrator of the third version (part 3): a roster of one bot per
 * credential, suspended or not, one thread-pool worker per bot, and the two
 * group operations of that version. The bots are those of the full version;
 * the third version's own bot module is not part of this model, and its
 * credentials carry no suspension, so every bot is made as for an account
 * that is not suspended.
 *
 * As in the full version, the pool is modelled as running the submitted
 * tasks in submission order.
 */
module Part3Orchestrator {
  import opened Wrappers
  import opened Reddit
  import opened Dispatch
  import FullBot
  import FullOrchestrator

  /** One credential entry of this version: the account name and the platform's answers to
      that account's calls. */
  datatype Credential = Credential(username: string, responses: seq<Response>)

  /** The credential as the full version's bot sees it. */
  function AsAccount(c: Credential): FullOrchestrator.Account
  {
    FullOrchestrator.Account(c.username, false, c.responses)
  }

  /** `{cred['username'] for cred in all_credentials}`. */
  function Usernames(creds: seq<Credential>): (r: set<string>)
    ensures forall k :: 0 <= k < |creds| ==> creds[k].username in r
    ensures forall n :: n in r ==> exists k :: 0 <= k < |creds| && creds[k].username == n
  {
    set c | c in creds :: c.username
  }

  class BotOrchestrator {
    const bots: seq<FullBot.RedditBot>

    /** A non-empty roster of distinct bots, each keeping its own invariant. */
    ghost predicate Valid()
      reads this, bots
    {
      && |bots| > 0
      && (forall k :: 0 <= k < |bots| ==> bots[k].Valid())
      && forall i, j :: 0 <= i < j < |bots| ==> bots[i] != bots[j]
    }

    constructor (roster: seq<FullBot.RedditBot>)
      ensures bots == roster
    {
      bots := roster;
    }

    /** `__init__`: a bot per credential in credential order, every one told all the
        usernames, with no filter; a pool for an empty roster cannot be made. */
    static method Create(creds: seq<Credential>, store: map<string, set<Id>>)
      returns (r: Result<BotOrchestrator>)
      ensures r.Failure? <==> creds == []
      ensures r.Failure? ==> r.message == FullOrchestrator.NoWorkers
      ensures r.Success? ==> fresh(r.value) && r.value.Valid() && |r.value.bots| == |creds|
      ensures r.Success? ==> forall k :: 0 <= k < |creds| ==>
        fresh(r.value.bots[k])
        && FullOrchestrator.Fresh(r.value.bots[k], AsAccount(creds[k]), Usernames(creds), store)
    {
      var names := set c | c in creds :: c.username;
      var roster: seq<FullBot.RedditBot> := [];
      for i := 0 to |creds|
        invariant |roster| == i
        invariant forall k :: 0 <= k < i ==>
          fresh(roster[k]) && FullOrchestrator.Fresh(roster[k], AsAccount(creds[k]), names, store)
        invariant forall p, q :: 0 <= p < q < i ==> roster[p] != roster[q]
      {
        var c := creds[i];
        assert c.username in names;
        var bot := new FullBot.RedditBot(c.username, names, false, store, c.responses);
        roster := roster + [bot];
      }
      if roster == [] {
        r := Failure(FullOrchestrator.NoWorkers);
      } else {
        var o := new BotOrchestrator(roster);
        r := Success(o);
      }
    }

    /** `parse_different_submissions`: a random bot fetches the hot ids, the i-th id goes to
        bot i mod R until the first empty id, and all tasks are awaited. */
    method ParseDifferentSubmissions(subreddit: string, hotLimit: Option<nat>, hot: seq<Id>, content: map<Id, seq<Comment>>)
      returns (st: Outcome, fetcher: nat, tasks: seq<Task>, results: seq<Option<Outcome>>)
      requires Valid()
      modifies bots
      ensures Valid()
      ensures fetcher < |bots|
      ensures Answer(old(bots[fetcher].script)).Some? ==>
        st == Raised(Answer(old(bots[fetcher].script)).value) && tasks == []
      ensures Answer(old(bots[fetcher].script)).None? ==> Dealt(Listing(hot, hotLimit), |bots|, st, tasks, results)
    {
      st, fetcher, tasks, results := ParseDifferent(bots, subreddit, hotLimit, hot, content);
    }

    /** `log_karma`: one task per bot in roster order, not awaited. */
    method LogKarma()
      requires Valid()
      modifies bots
      ensures Valid()
      ensures forall k :: 0 <= k < |bots| ==>
        bots[k].events == old(bots[k].events) + if Answer(old(bots[k].script)).None? then [ReadKarma(bots[k].username)] else []
    {
      LogKarmaAll(bots);
    }
  }
}
