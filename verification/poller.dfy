/** The single-account poller of src/main.py: one search request per round
    for the posts of the target account newer than the cached id, the posts
    forwarded oldest-first, and the adaptive delay of the main loop that
    falls back to the base interval after activity and grows towards the
    maximum interval while nothing happens.

    The search endpoint is an oracle answering each round with an HTTP
    reply; the chat messages handed to the bot and the requests made are
    recorded in logs. */
module Polling {
  import opened Collaborators

  /** Seconds slept after a round that found posts. */
  const BASE_INTERVAL: int := 3
  /** Upper bound of the seconds slept between two rounds. */
  const MAX_INTERVAL: int := 60
  /** Seconds added to the extra delay by each quiet round. */
  const DELAY_STEP: int := 30
  /** Seconds slept inside a round that hit the rate limit. */
  const RATE_LIMIT_PAUSE: nat := 30
  /** The `max_results` parameter of every search request. */
  const MAX_RESULTS: string := "10"

  /** What the search endpoint answers: a status code with the "data" list
      of the JSON body (empty when absent), or no answer at all. */
  datatype HttpReply = Response(status: int, tweets: seq<Tweet>) | TransportFailure

  /** The query parameters of one search request. */
  datatype SearchParams = SearchParams(query: string, maxResults: string, sinceId: Option<string>)

  /** `poll_recent_tweets`' parameters: `since_id` only when the cached id
      is set and non-empty (a Python truth test). */
  function SearchParamsFor(target: string, cursor: Option<string>): (p: SearchParams)
    ensures p.query == "from:" + target && p.maxResults == MAX_RESULTS
    ensures p.sinceId != None <==> cursor != None && cursor.value != ""
    ensures p.sinceId != None ==> p.sinceId == cursor
  {
    var sinceId := match cursor
      case Some(id) => if id != "" then Some(id) else None
      case None => None;
    SearchParams("from:" + target, MAX_RESULTS, sinceId)
  }

  /** The outcome of `poll_recent_tweets`: the posts on status 200, and
      otherwise an error that is a rate-limit error exactly for status 429. */
  function PollRecentTweets(reply: HttpReply): (r: Result<seq<Tweet>, ErrorKind>)
    ensures r.Success? <==> reply.Response? && reply.status == 200
    ensures r.Success? ==> r.value == reply.tweets
    ensures r == Failure(RateLimit) <==> reply.Response? && reply.status == 429
  {
    match reply
    case TransportFailure => Failure(OtherError)
    case Response(status, tweets) =>
      if status == 200 then Success(tweets)
      else if status == 429 then Failure(RateLimit)
      else Failure(OtherError)
  }

  /** Whether a round with this reply forwards anything. */
  predicate Found(reply: HttpReply)
  {
    PollRecentTweets(reply).Success? && reply.tweets != []
  }

  /** The cached id after a round: the newest post's id when the round
      found posts, the previous value otherwise. */
  function Advance(cursor: Option<string>, reply: HttpReply): (c: Option<string>)
    ensures c != cursor ==> Found(reply)
    // the newest id is the one of the last post forwarded oldest-first
    ensures Found(reply) ==> c == Some(reply.tweets[0].id) && c == Some(Reverse(reply.tweets)[|reply.tweets| - 1].id)
  {
    if Found(reply) then
      ReverseAt(reply.tweets, |reply.tweets| - 1);
      Some(reply.tweets[0].id)
    else cursor
  }

  /** The seconds a round sleeps before returning: the rate-limit pause
      after a 429 answer, nothing otherwise. */
  function PauseFor(reply: HttpReply): (p: nat)
    ensures p == RATE_LIMIT_PAUSE <==> reply.Response? && reply.status == 429
    ensures p == 0 <==> !(reply.Response? && reply.status == 429)
  {
    if PollRecentTweets(reply) == Failure(RateLimit) then RATE_LIMIT_PAUSE else 0
  }

  /** The lines forwarded by a round for the target account. */
  function Forwarded(target: string, reply: HttpReply): (lines: seq<string>)
    ensures |lines| == if Found(reply) then |reply.tweets| else 0
  {
    if Found(reply) then Notifications("@" + target, Reverse(reply.tweets)) else []
  }

  /** A round forwards every post of a successful reply exactly once, the
      oldest first, and nothing on any other reply. */
  lemma ForwardedOldestFirst(target: string, reply: HttpReply)
    ensures |Forwarded(target, reply)| == if Found(reply) then |reply.tweets| else 0
    ensures Found(reply) ==> forall k :: 0 <= k < |reply.tweets| ==>
      Forwarded(target, reply)[k] == Notification("@" + target, reply.tweets[|reply.tweets| - 1 - k].text)
  {
    if Found(reply) {
      forall k | 0 <= k < |reply.tweets|
        ensures Forwarded(target, reply)[k] == Notification("@" + target, reply.tweets[|reply.tweets| - 1 - k].text)
      {
        ReverseAt(reply.tweets, k);
      }
    }
  }

  /** What src/main.py keeps and does: the cached id of the newest
      forwarded post, the search requests made and the messages sent. */
  datatype Observed = Observed(cursor: Option<string>, requests: seq<SearchParams>, sent: seq<string>)

  /** The state after one round with this reply. */
  function Poll(target: string, o: Observed, reply: HttpReply): (t: Observed)
    // exactly one request, carrying the cached id whenever it sends one
    ensures |t.requests| == |o.requests| + 1 && t.requests[..|o.requests|] == o.requests
    ensures t.requests[|o.requests|].sinceId != None ==> t.requests[|o.requests|].sinceId == o.cursor
    // lines are only ever appended
    ensures |o.sent| <= |t.sent| && t.sent[..|o.sent|] == o.sent
    ensures !Found(reply) ==> t.cursor == o.cursor && t.sent == o.sent
    ensures Found(reply) ==> t.cursor == Some(reply.tweets[0].id) && |t.sent| == |o.sent| + |reply.tweets|
  {
    Observed(Advance(o.cursor, reply), o.requests + [SearchParamsFor(target, o.cursor)], o.sent + Forwarded(target, reply))
  }

  /** The extra delay after a round: back to 0 after a round that found
      posts, otherwise one step more but never past the maximum interval. */
  function NextAdditionalDelay(additional: int, found: bool): (d: int)
    ensures found ==> d == 0
    ensures !found ==> d <= MAX_INTERVAL - BASE_INTERVAL
    ensures !found ==> d == additional + DELAY_STEP || d == MAX_INTERVAL - BASE_INTERVAL
    ensures !found && additional + DELAY_STEP <= MAX_INTERVAL - BASE_INTERVAL ==> d == additional + DELAY_STEP
  {
    if found then 0 else Min(additional + DELAY_STEP, MAX_INTERVAL - BASE_INTERVAL)
  }

  function Min(a: int, b: int): int
  {
    if a <= b then a else b
  }

  /** The seconds slept before the next round. */
  function SleepInterval(additional: int): (s: int)
    ensures BASE_INTERVAL <= s <= MAX_INTERVAL <==> 0 <= additional <= MAX_INTERVAL - BASE_INTERVAL
  {
    BASE_INTERVAL + additional
  }

  /** The extra delay the main loop holds after the rounds `found`, starting
      from `additional`. */
  function AdditionalAfter(additional: int, found: seq<bool>): int
    decreases |found|
  {
    if found == [] then additional
    else NextAdditionalDelay(AdditionalAfter(additional, found[..|found| - 1]), found[|found| - 1])
  }

  /** The seconds slept after each of the rounds `found`. */
  function Schedule(additional: int, found: seq<bool>): (sleeps: seq<int>)
    ensures |sleeps| == |found|
    decreases |found|
  {
    if found == [] then []
    else Schedule(additional, found[..|found| - 1]) + [SleepInterval(AdditionalAfter(additional, found))]
  }

  /** The delay folds over one more round, in terms of the rounds before. */
  lemma ScheduleExtend(additional: int, found: seq<bool>, last: bool)
    ensures AdditionalAfter(additional, found + [last]) == NextAdditionalDelay(AdditionalAfter(additional, found), last)
    ensures Schedule(additional, found + [last]) ==
      Schedule(additional, found) + [SleepInterval(NextAdditionalDelay(AdditionalAfter(additional, found), last))]
  {
    assert (found + [last])[..|found|] == found;
  }

  /** One round keeps the extra delay in [0, max - base], so the sleep stays
      in [base, max]; activity resets both, a quiet round never lowers them. */
  lemma DelayStep(additional: int, found: bool)
    requires 0 <= additional <= MAX_INTERVAL - BASE_INTERVAL
    ensures 0 <= NextAdditionalDelay(additional, found) <= MAX_INTERVAL - BASE_INTERVAL
    ensures BASE_INTERVAL <= SleepInterval(NextAdditionalDelay(additional, found)) <= MAX_INTERVAL
    ensures found ==> NextAdditionalDelay(additional, found) == 0 && SleepInterval(0) == BASE_INTERVAL
    ensures !found ==> additional < NextAdditionalDelay(additional, found) || additional == MAX_INTERVAL - BASE_INTERVAL
    ensures !found ==> additional <= NextAdditionalDelay(additional, found)
    ensures !found ==> NextAdditionalDelay(additional, found) >= DELAY_STEP
  {
  }

  /** After any rounds the extra delay is still within [0, max - base]. */
  lemma {:induction false} AdditionalStaysInRange(additional: int, found: seq<bool>)
    requires 0 <= additional <= MAX_INTERVAL - BASE_INTERVAL
    ensures 0 <= AdditionalAfter(additional, found) <= MAX_INTERVAL - BASE_INTERVAL
    decreases |found|
  {
    if found != [] {
      AdditionalStaysInRange(additional, found[..|found| - 1]);
      DelayStep(AdditionalAfter(additional, found[..|found| - 1]), found[|found| - 1]);
    }
  }

  /** Every sleep of the schedule lies in [base, max], and a sleep is the
      base interval exactly when its round found posts: the sawtooth. */
  lemma {:induction false} ScheduleSawtooth(additional: int, found: seq<bool>)
    requires 0 <= additional <= MAX_INTERVAL - BASE_INTERVAL
    ensures forall k :: 0 <= k < |found| ==> BASE_INTERVAL <= Schedule(additional, found)[k] <= MAX_INTERVAL
    ensures forall k :: 0 <= k < |found| ==> (Schedule(additional, found)[k] == BASE_INTERVAL <==> found[k])
    decreases |found|
  {
    if found != [] {
      var prefix := found[..|found| - 1];
      ScheduleSawtooth(additional, prefix);
      AdditionalStaysInRange(additional, prefix);
      DelayStep(AdditionalAfter(additional, prefix), found[|found| - 1]);
    }
  }

  /** From no extra delay, n quiet rounds give min(30 n, 57) seconds of
      extra delay: 30, 57, 57, ... */
  lemma {:induction false} QuietRounds(n: nat)
    ensures AdditionalAfter(0, seq(n, _ => false)) == Min(DELAY_STEP * n, MAX_INTERVAL - BASE_INTERVAL)
  {
    if n > 0 {
      var quiet := seq(n, _ => false);
      assert quiet[..n - 1] == seq(n - 1, _ => false);
      QuietRounds(n - 1);
    }
  }

  /** The whole-program state of src/main.py: the cached id of the newest
      forwarded post, and the logs of requests made and messages sent. */
  class Poller {
    const target: string
    var lastTweetId: Option<string>
    /** Search requests made, in order. */
    var requests: seq<SearchParams>
    /** Messages handed to the chat bot, in order. */
    var sent: seq<string>

    function State(): Observed
      reads this
    {
      Observed(lastTweetId, requests, sent)
    }

    /** The state at program start: nothing cached, nothing done. */
    constructor (target: string)
      ensures this.target == target && lastTweetId == None && requests == [] && sent == []
    {
      this.target := target;
      lastTweetId := None;
      requests := [];
      sent := [];
    }

    /** `process_recent_tweets`: one round. `found` is its return value;
        `pause` is the seconds it slept before returning. */
    method ProcessRecentTweets(reply: HttpReply) returns (found: bool, pause: nat)
      modifies this
      ensures requests == old(requests) + [SearchParamsFor(target, old(lastTweetId))]
      ensures found == Found(reply)
      ensures lastTweetId == Advance(old(lastTweetId), reply)
      ensures sent == old(sent) + Forwarded(target, reply)
      ensures pause == PauseFor(reply)
      // the cached id ends on the last post forwarded, which is the newest one
      ensures found ==> lastTweetId == Some(Reverse(reply.tweets)[|reply.tweets| - 1].id) == Some(reply.tweets[0].id)
      ensures !found ==> lastTweetId == old(lastTweetId) && sent == old(sent)
    {
      requests := requests + [SearchParamsFor(target, lastTweetId)];
      match PollRecentTweets(reply)
      case Failure(kind) =>
        found := false;
        pause := if kind == RateLimit then RATE_LIMIT_PAUSE else 0;
      case Success(tweets) =>
        pause := 0;
        if tweets == [] {
          found := false;
        } else {
          var oldestFirst := Reverse(tweets);
          ghost var sent0 := sent;
          ghost var requests0 := requests;
          var i := 0;
          while i < |oldestFirst|
            invariant 0 <= i <= |oldestFirst|
            invariant requests == requests0
            invariant sent == sent0 + Notifications("@" + target, oldestFirst[..i])
            invariant 0 < i ==> lastTweetId == Some(oldestFirst[i - 1].id)
          {
            var message := Notification("@" + target, oldestFirst[i].text);
            assert Notifications("@" + target, oldestFirst[..i + 1]) ==
              Notifications("@" + target, oldestFirst[..i]) + [message];
            sent := sent + [message];
            lastTweetId := Some(oldestFirst[i].id);
            i := i + 1;
          }
          assert oldestFirst[..i] == oldestFirst;
          ReverseAt(tweets, |tweets| - 1);
          found := true;
        }
    }

    /** The main loop over a finite run of replies: each round polls, then
        updates the extra delay and records the seconds it sleeps; the
        rate-limit pause slept inside the round is recorded apart. */
    method Run(replies: seq<HttpReply>) returns (sleeps: seq<int>, pauses: seq<nat>)
      modifies this
      ensures sleeps == Schedule(0, Outcomes(replies))
      ensures forall k :: 0 <= k < |replies| ==> BASE_INTERVAL <= sleeps[k] <= MAX_INTERVAL
      ensures forall k :: 0 <= k < |replies| ==> (sleeps[k] == BASE_INTERVAL <==> Found(replies[k]))
      ensures pauses == Pauses(replies)
      ensures State() == PollAll(target, old(State()), replies)
    {
      var additionalDelay := 0;

      sleeps, pauses := [], [];
      var i := 0;
      while i < |replies|
        invariant 0 <= i <= |replies|
        invariant additionalDelay == AdditionalAfter(0, Outcomes(replies[..i]))
        invariant sleeps == Schedule(0, Outcomes(replies[..i]))
        invariant pauses == Pauses(replies[..i])
        invariant State() == PollAll(target, old(State()), replies[..i])
      {
        ghost var done := replies[..i];
        RoundsExtend(target, old(State()), replies, i);
        var foundNew, pause := ProcessRecentTweets(replies[i]);
        additionalDelay := NextAdditionalDelay(additionalDelay, foundNew);
        var sleepInterval := SleepInterval(additionalDelay);
        ScheduleExtend(0, Outcomes(done), foundNew);
        sleeps := sleeps + [sleepInterval];
        pauses := pauses + [pause];
        i := i + 1;
      }
      assert replies[..i] == replies;
      ScheduleSawtooth(0, Outcomes(replies));
      forall k | 0 <= k < |replies|
        ensures Outcomes(replies)[k] == Found(replies[k])
      {
        OutcomesAt(replies, k);
      }
    }
  }

  /** The folds over the first i + 1 rounds, in terms of the first i. */
  lemma RoundsExtend(target: string, o: Observed, replies: seq<HttpReply>, i: nat)
    requires i < |replies|
    ensures PollAll(target, o, replies[..i + 1]) == Poll(target, PollAll(target, o, replies[..i]), replies[i])
    ensures Outcomes(replies[..i + 1]) == Outcomes(replies[..i]) + [Found(replies[i])]
    ensures Pauses(replies[..i + 1]) == Pauses(replies[..i]) + [PauseFor(replies[i])]
  {
    assert replies[..i + 1][..i] == replies[..i];
  }

  /** Whether each of the rounds `replies` found posts. */
  function Outcomes(replies: seq<HttpReply>): (found: seq<bool>)
    ensures |found| == |replies|
    decreases |replies|
  {
    if replies == [] then []
    else Outcomes(replies[..|replies| - 1]) + [Found(replies[|replies| - 1])]
  }

  lemma {:induction false} OutcomesAt(replies: seq<HttpReply>, k: nat)
    requires k < |replies|
    ensures Outcomes(replies)[k] == Found(replies[k])
    decreases |replies|
  {
    if k < |replies| - 1 {
      OutcomesAt(replies[..|replies| - 1], k);
    }
  }

  /** The seconds slept inside each of the rounds `replies`. */
  function Pauses(replies: seq<HttpReply>): (pauses: seq<nat>)
    ensures |pauses| == |replies|
    decreases |replies|
  {
    if replies == [] then []
    else Pauses(replies[..|replies| - 1]) + [PauseFor(replies[|replies| - 1])]
  }

  /** The state after the rounds `replies`. */
  function PollAll(target: string, o: Observed, replies: seq<HttpReply>): (t: Observed)
    // one request per round, and both logs only grow at the end
    ensures |t.requests| == |o.requests| + |replies| && t.requests[..|o.requests|] == o.requests
    ensures |o.sent| <= |t.sent| && t.sent[..|o.sent|] == o.sent
    decreases |replies|
  {
    if replies == [] then o
    else Poll(target, PollAll(target, o, replies[..|replies| - 1]), replies[|replies| - 1])
  }
}
