/** The multi-account engine of src/streamer.py: a registry of tracked
    usernames, a per-account cursor (the id of the newest post already
    forwarded) and a per-account backoff deadline, one check per account and
    one round over all accounts.

    The two services are oracles: `Feed` answers the id lookup and the
    timeline fetch of one username with a given `since_id`, `Sink` answers
    one chat message. What the engine hands to them is recorded in the
    `calls` and `sent` logs, so that "no request was made" and "these
    messages were sent, in this order" can be stated. */
module Streaming {
  import opened Collaborators

  /** Seconds an account is skipped after a rate-limit error. */
  const BACKOFF_SECONDS: int := 30

  /** Default seconds between two rounds of `start_stream`. */
  const DEFAULT_POLL_INTERVAL: int := 3

  type Feed = (string, Option<string>) -> FetchReply
  type Sink = string -> SendReply

  /** One lookup-and-fetch request: the username and the `since_id` passed with it. */
  datatype FetchCall = FetchCall(username: string, sinceId: Option<string>)

  /** The engine's whole observable state: the tracked usernames in order,
      the two maps keyed by username, and the logs of requests and messages. */
  datatype Snapshot = Snapshot(
    usernames: seq<string>,
    cursors: map<string, Option<string>>,
    deadlines: map<string, int>,
    calls: seq<FetchCall>,
    sent: seq<string>)

  /** Every tracked username has a cursor and a deadline. */
  ghost predicate Tracked(s: Snapshot)
  {
    forall u :: u in s.usernames ==> u in s.cursors && u in s.deadlines
  }

  /** The cursor of `u`, `None` when the map has no entry (dict.get). */
  function CursorOf(s: Snapshot, u: string): (c: Option<string>)
    ensures u in s.cursors ==> c == s.cursors[u]
    ensures c != None ==> u in s.cursors && s.cursors[u] == c
  {
    if u in s.cursors then s.cursors[u] else None
  }

  /** The deadline of `u`, 0 when the map has no entry (dict.get with 0). */
  function DeadlineOf(s: Snapshot, u: string): (d: int)
    ensures u in s.deadlines ==> d == s.deadlines[u]
    ensures d != 0 ==> u in s.deadlines && s.deadlines[u] == d
  {
    if u in s.deadlines then s.deadlines[u] else 0
  }

  /** The state right after construction from the list `names`. */
  function Initial(names: seq<string>): (s: Snapshot)
    ensures Tracked(s)
    ensures s.usernames == names && s.calls == [] && s.sent == []
    ensures s.cursors.Keys == (set u | u in names) && s.deadlines.Keys == (set u | u in names)
    ensures forall u :: u in s.cursors ==> s.cursors[u] == None
    ensures forall u :: u in s.deadlines ==> s.deadlines[u] == 0
  {
    Snapshot(names, map u | u in names :: None, map u | u in names :: 0, [], [])
  }

  /** Registering a username: a no-op for a tracked one, otherwise appended
      with a fresh cursor and no backoff. */
  function Register(s: Snapshot, u: string): (t: Snapshot)
    ensures u in t.usernames
    ensures u in s.usernames ==> t == s
    ensures u !in s.usernames ==> t.usernames == s.usernames + [u]
    ensures u !in s.usernames ==> t.cursors == s.cursors[u := None] && t.deadlines == s.deadlines[u := 0]
    ensures t.calls == s.calls && t.sent == s.sent
    ensures Tracked(s) ==> Tracked(t)
  {
    if u in s.usernames then s
    else s.(usernames := s.usernames + [u], cursors := s.cursors[u := None], deadlines := s.deadlines[u := 0])
  }

  /** Registering twice is registering once. */
  lemma RegisterIdempotent(s: Snapshot, u: string)
    ensures Register(Register(s, u), u) == Register(s, u)
  {
  }

  /** Registering a username leaves every other account's entries alone. */
  lemma RegisterOthersUnchanged(s: Snapshot, u: string, v: string)
    requires v != u
    ensures CursorOf(Register(s, u), v) == CursorOf(s, v)
    ensures DeadlineOf(Register(s, u), v) == DeadlineOf(s, v)
    ensures (v in Register(s, u).usernames) == (v in s.usernames)
  {
  }

  /** How a run of sends ended: the messages handed to the bot and, if one
      of them raised, the kind of its error. */
  datatype Delivery = Delivery(attempted: seq<string>, failure: Option<ErrorKind>)

  /** Sends `msgs` in order until the first one whose send raises; that one
      counts as attempted and ends the run. */
  function Deliver(msgs: seq<string>, sink: Sink): (d: Delivery)
    ensures |d.attempted| <= |msgs| && d.attempted == msgs[..|d.attempted|]
    ensures forall j :: 0 <= j < |d.attempted| - 1 ==> sink(msgs[j]) == Delivered
    ensures d.failure == None ==> d.attempted == msgs && forall j :: 0 <= j < |msgs| ==> sink(msgs[j]) == Delivered
    ensures d.failure != None ==> d.attempted != [] && sink(msgs[|d.attempted| - 1]) == SendFailed(d.failure.value)
  {
    if msgs == [] then Delivery([], None)
    else match sink(msgs[0])
      case SendFailed(kind) => Delivery([msgs[0]], Some(kind))
      case Delivered =>
        var rest := Deliver(msgs[1..], sink);
        Delivery([msgs[0]] + rest.attempted, rest.failure)
  }

  /** When every send succeeds, every message is attempted and none fails. */
  lemma {:induction false} DeliverAll(msgs: seq<string>, sink: Sink)
    requires forall j :: 0 <= j < |msgs| ==> sink(msgs[j]) == Delivered
    ensures Deliver(msgs, sink) == Delivery(msgs, None)
  {
    if msgs != [] {
      assert sink(msgs[0]) == Delivered;
      assert forall j :: 0 <= j < |msgs[1..]| ==> msgs[1..][j] == msgs[j + 1];
      DeliverAll(msgs[1..], sink);
      assert [msgs[0]] + msgs[1..] == msgs;
    }
  }

  /** The run ends exactly at the first failing send, which is included. */
  lemma {:induction false} DeliverStopsAtFirstFailure(msgs: seq<string>, sink: Sink, n: nat)
    requires n < |msgs| && sink(msgs[n]).SendFailed?
    requires forall j :: 0 <= j < n ==> sink(msgs[j]) == Delivered
    ensures Deliver(msgs, sink) == Delivery(msgs[..n + 1], Some(sink(msgs[n]).kind))
  {
    if n > 0 {
      assert sink(msgs[0]) == Delivered;
      assert forall j :: 0 <= j < |msgs[1..]| ==> msgs[1..][j] == msgs[j + 1];
      DeliverStopsAtFirstFailure(msgs[1..], sink, n - 1);
      assert [msgs[0]] + msgs[1..][..n] == msgs[..n + 1];
    }
  }

  /** What one account's check does: the request it makes (none while the
      account is backed off), the cursor and deadline it writes (if any) and
      the messages it hands to the bot. */
  datatype Check = Check(
    call: Option<FetchCall>,
    cursorWrite: Option<string>,
    deadlineWrite: Option<int>,
    sent: seq<string>)

  /** One account's check against its cursor and deadline at time `now`. */
  function CheckAccount(u: string, cursor: Option<string>, deadline: int, now: int, feed: Feed, sink: Sink): (c: Check)
    // backoff gates the request, and the request carries the cursor
    ensures c.call == None <==> now < deadline
    ensures c.call != None ==> c.call.value == FetchCall(u, cursor)
    // the cursor moves exactly when posts came back, to the first (newest) one
    ensures c.cursorWrite != None <==> now >= deadline && feed(u, cursor).Posts? && feed(u, cursor).tweets != []
    ensures c.cursorWrite != None ==> c.cursorWrite.value == feed(u, cursor).tweets[0].id
    // messages go out only after the cursor moved, one per post in API order, up to the first failed send
    ensures c.sent != [] ==> c.cursorWrite != None
    ensures c.cursorWrite != None ==> c.sent == Deliver(Notifications(u, feed(u, cursor).tweets), sink).attempted
    // the deadline moves only on a rate-limit error, to now + 30
    ensures c.deadlineWrite != None ==> c.deadlineWrite.value == now + BACKOFF_SECONDS
    ensures c.deadlineWrite != None <==>
      now >= deadline &&
      (feed(u, cursor) == FetchFailed(RateLimit) ||
       (c.cursorWrite != None && Deliver(Notifications(u, feed(u, cursor).tweets), sink).failure == Some(RateLimit)))
  {
    if now < deadline then Check(None, None, None, [])
    else
      var call := FetchCall(u, cursor);
      match feed(u, cursor)
      case FetchFailed(kind) =>
        Check(Some(call), None, if kind == RateLimit then Some(now + BACKOFF_SECONDS) else None, [])
      case Posts(tweets) =>
        if tweets == [] then Check(Some(call), None, None, [])
        else
          var d := Deliver(Notifications(u, tweets), sink);
          Check(Some(call), Some(tweets[0].id), if d.failure == Some(RateLimit) then Some(now + BACKOFF_SECONDS) else None, d.attempted)
  }

  /** The state after checking `u` at time `now`. */
  function Step(s: Snapshot, u: string, now: int, feed: Feed, sink: Sink): (t: Snapshot)
    ensures t.usernames == s.usernames
    ensures t.cursors - {u} == s.cursors - {u} && t.deadlines - {u} == s.deadlines - {u}
    ensures s.cursors.Keys <= t.cursors.Keys && s.deadlines.Keys <= t.deadlines.Keys
    ensures Tracked(s) ==> Tracked(t)
  {
    var c := CheckAccount(u, CursorOf(s, u), DeadlineOf(s, u), now, feed, sink);
    s.(cursors := if c.cursorWrite != None then s.cursors[u := Some(c.cursorWrite.value)] else s.cursors,
       deadlines := if c.deadlineWrite != None then s.deadlines[u := c.deadlineWrite.value] else s.deadlines,
       calls := s.calls + (if c.call != None then [c.call.value] else []),
       sent := s.sent + c.sent)
  }

  /** One round: every name of `names` checked in list order. */
  function Round(s: Snapshot, names: seq<string>, now: int, feed: Feed, sink: Sink): (t: Snapshot)
    ensures t.usernames == s.usernames
    ensures Tracked(s) ==> Tracked(t)
    decreases |names|
  {
    if names == [] then s
    else Step(Round(s, names[..|names| - 1], now, feed, sink), names[|names| - 1], now, feed, sink)
  }

  /** A round leaves the entries of every username it does not check alone. */
  lemma {:induction false} RoundOthersUnchanged(s: Snapshot, names: seq<string>, now: int, feed: Feed, sink: Sink, v: string)
    requires v !in names
    ensures var t := Round(s, names, now, feed, sink);
      (v in t.cursors <==> v in s.cursors) && (v in t.deadlines <==> v in s.deadlines) &&
      CursorOf(t, v) == CursorOf(s, v) && DeadlineOf(t, v) == DeadlineOf(s, v)
    decreases |names|
  {
    if names != [] {
      var prefix := names[..|names| - 1];
      var last := names[|names| - 1];
      assert v !in prefix && v != last;
      RoundOthersUnchanged(s, prefix, now, feed, sink, v);
      var r := Round(s, prefix, now, feed, sink);
      var t := Step(r, last, now, feed, sink);
      assert v in (t.cursors - {last}) <==> v in (r.cursors - {last});
      assert v in (t.deadlines - {last}) <==> v in (r.deadlines - {last});
      if v in t.cursors {
        assert t.cursors[v] == (t.cursors - {last})[v];
      }
      if v in t.deadlines {
        assert t.deadlines[v] == (t.deadlines - {last})[v];
      }
    }
  }

  /** Checking `w` leaves the cursor and deadline of every other account alone. */
  lemma StepOthersUnchanged(s: Snapshot, w: string, now: int, feed: Feed, sink: Sink, v: string)
    requires v != w
    ensures CursorOf(Step(s, w, now, feed, sink), v) == CursorOf(s, v)
    ensures DeadlineOf(Step(s, w, now, feed, sink), v) == DeadlineOf(s, v)
  {
    var t := Step(s, w, now, feed, sink);
    assert v in t.cursors <==> v in (t.cursors - {w});
    assert v in t.deadlines <==> v in (t.deadlines - {w});
    if v in t.cursors {
      assert t.cursors[v] == (t.cursors - {w})[v];
    }
    if v in t.deadlines {
      assert t.deadlines[v] == (t.deadlines - {w})[v];
    }
  }

  /** The round's effect on one account that is checked once is the effect
      of checking that account alone: checks never touch each other's
      entries, so running them one after the other in list order gives each
      account the same cursor and deadline as any concurrent schedule. */
  lemma {:induction false} RoundIsPerAccount(s: Snapshot, names: seq<string>, now: int, feed: Feed, sink: Sink, u: string)
    requires multiset(names)[u] == 1
    ensures CursorOf(Round(s, names, now, feed, sink), u) == CursorOf(Step(s, u, now, feed, sink), u)
    ensures DeadlineOf(Round(s, names, now, feed, sink), u) == DeadlineOf(Step(s, u, now, feed, sink), u)
    decreases |names|
  {
    var prefix := names[..|names| - 1];
    var last := names[|names| - 1];
    assert names == prefix + [last];
    var r := Round(s, prefix, now, feed, sink);
    if last == u {
      assert multiset(prefix)[u] == 0;
      RoundOthersUnchanged(s, prefix, now, feed, sink, u);
    } else {
      assert multiset(prefix)[u] == 1;
      RoundIsPerAccount(s, prefix, now, feed, sink, u);
      StepOthersUnchanged(r, last, now, feed, sink, u);
    }
  }

  /** A round in which every checked account is backed off makes no request,
      sends nothing and changes nothing. */
  lemma {:induction false} RoundIdleWhenAllBackedOff(s: Snapshot, names: seq<string>, now: int, feed: Feed, sink: Sink)
    requires forall u :: u in names ==> now < DeadlineOf(s, u)
    ensures Round(s, names, now, feed, sink) == s
    decreases |names|
  {
    if names != [] {
      var prefix := names[..|names| - 1];
      assert forall u :: u in prefix ==> u in names;
      RoundIdleWhenAllBackedOff(s, prefix, now, feed, sink);
      assert names[|names| - 1] in names;
    }
  }

  /** Repeated rounds over the tracked usernames, one per entry of `ticks`. */
  datatype Tick = Tick(now: int, feed: Feed, sink: Sink)

  function Rounds(s: Snapshot, ticks: seq<Tick>): (t: Snapshot)
    ensures t.usernames == s.usernames
    ensures Tracked(s) ==> Tracked(t)
    decreases |ticks|
  {
    if ticks == [] then s
    else
      var r := Rounds(s, ticks[..|ticks| - 1]);
      var k := ticks[|ticks| - 1];
      Round(r, r.usernames, k.now, k.feed, k.sink)
  }

  /** A feed for the scenario below: "A" has two new posts, newest first;
      every other account has none. */
  function ScenarioFeed(u: string, since: Option<string>): FetchReply
  {
    if u == "A" then Posts([Tweet("2", "second"), Tweet("1", "first")]) else Posts([])
  }

  /** Scenario: accounts "A" (two new posts) and "B" (none) in one round
      with a bot that accepts everything: two messages, both from "A", in
      API order; "A"'s cursor moves to its newest post; "B"'s stays unset. */
  lemma TwoAccountsScenario(sink: Sink)
    requires forall m :: sink(m) == Delivered
    ensures var t := Round(Initial(["A", "B"]), ["A", "B"], 0, ScenarioFeed, sink);
      t.sent == [Notification("A", "second"), Notification("A", "first")] &&
      CursorOf(t, "A") == Some("2") && CursorOf(t, "B") == None &&
      t.calls == [FetchCall("A", None), FetchCall("B", None)]
  {
    var s := Initial(["A", "B"]);
    var names := ["A", "B"];
    assert names[..1] == ["A"] && names[..1][..0] == [];
    var msgs := Notifications("A", [Tweet("2", "second"), Tweet("1", "first")]);
    DeliverAll(msgs, sink);
    assert CursorOf(s, "A") == None && DeadlineOf(s, "A") == 0;
    var r1 := Step(s, "A", 0, ScenarioFeed, sink);
    assert Round(s, names[..1], 0, ScenarioFeed, sink) == r1;
    assert r1.sent == msgs && r1.calls == [FetchCall("A", None)];
    assert CursorOf(r1, "A") == Some("2");
    StepOthersUnchanged(s, "A", 0, ScenarioFeed, sink, "B");
    assert CursorOf(r1, "B") == None && DeadlineOf(r1, "B") == 0;
    var r2 := Step(r1, "B", 0, ScenarioFeed, sink);
    assert r2.sent == msgs && r2.calls == [FetchCall("A", None), FetchCall("B", None)];
    StepOthersUnchanged(r1, "B", 0, ScenarioFeed, sink, "A");
  }

  /** The `Streamer` object: its fields are updated in place by its methods. */
  class Streamer {
    var usernames: seq<string>
    const pollInterval: int
    var lastTweetIds: map<string, Option<string>>
    var backoffUntil: map<string, int>
    /** Lookup-and-fetch requests made, in order. */
    var calls: seq<FetchCall>
    /** Messages handed to the chat bot, in order. */
    var sent: seq<string>

    function State(): Snapshot
      reads this
    {
      Snapshot(usernames, lastTweetIds, backoffUntil, calls, sent)
    }

    /** Every tracked username has a cursor and a deadline; this is what
        keeps the deadline lookup of a check from failing for a tracked
        name. */
    ghost predicate Valid()
      reads this
    {
      Tracked(State())
    }

    /** A streamer tracking a copy of `names`, every one with no cursor and
        deadline 0. */
    constructor (names: seq<string>, pollInterval: int := DEFAULT_POLL_INTERVAL)
      ensures Valid()
      ensures State() == Initial(names) && this.pollInterval == pollInterval
    {
      this.pollInterval := pollInterval;
      usernames := names;
      lastTweetIds := map[];
      backoffUntil := map[];
      calls := [];
      sent := [];
      new;
      var i := 0;
      while i < |names|
        invariant 0 <= i <= |names|
        invariant usernames == names && calls == [] && sent == []
        invariant lastTweetIds == map u | u in names[..i] :: None
        invariant backoffUntil == map u | u in names[..i] :: 0
      {
        assert names[..i + 1] == names[..i] + [names[i]];
        lastTweetIds := lastTweetIds[names[i] := None];
        backoffUntil := backoffUntil[names[i] := 0];
        i := i + 1;
      }
      assert names[..i] == names;
    }

    /** `add_username`: track `username` if it is not tracked yet. */
    method AddUsername(username: string)
      requires Valid()
      modifies this
      ensures Valid()
      ensures State() == Register(old(State()), username)
    {
      if username !in usernames {
        usernames := usernames + [username];
        lastTweetIds := lastTweetIds[username := None];
        backoffUntil := backoffUntil[username := 0];
      }
    }

    /** `check_username`: one account's step at time `now` (seconds since
        the epoch, so never negative). */
    method CheckUsername(username: string, now: int, feed: Feed, sink: Sink)
      requires Valid()
      requires 0 <= now
      modifies this
      ensures Valid()
      ensures State() == Step(old(State()), username, now, feed, sink)
    {
      var deadline := if username in backoffUntil then backoffUntil[username] else 0;
      if now < deadline {
        return;
      }
      var since := if username in lastTweetIds then lastTweetIds[username] else None;
      calls := calls + [FetchCall(username, since)];
      match feed(username, since)
      case FetchFailed(kind) =>
        if kind == RateLimit {
          backoffUntil := backoffUntil[username := now + BACKOFF_SECONDS];
        }
      case Posts(tweets) =>
        if tweets != [] {
          lastTweetIds := lastTweetIds[username := Some(tweets[0].id)];
          var failure := SendAll(username, tweets, sink);
          if failure == Some(RateLimit) {
            backoffUntil := backoffUntil[username := now + BACKOFF_SECONDS];
          }
        }
    }

    /** The send loop of `check_username`: one message per post in list
        order, stopping at the first send that raises. */
    method SendAll(username: string, tweets: seq<Tweet>, sink: Sink) returns (failure: Option<ErrorKind>)
      modifies this`sent
      ensures sent == old(sent) + Deliver(Notifications(username, tweets), sink).attempted
      ensures failure == Deliver(Notifications(username, tweets), sink).failure
    {
      ghost var msgs := Notifications(username, tweets);
      var i := 0;
      failure := None;
      while i < |tweets| && failure == None
        invariant 0 <= i <= |tweets|
        invariant sent == old(sent) + msgs[..i]
        decreases |tweets| - i
        invariant failure == None ==> forall j :: 0 <= j < i ==> sink(msgs[j]) == Delivered
        invariant failure != None ==>
          0 < i && sink(msgs[i - 1]) == SendFailed(failure.value) &&
          forall j :: 0 <= j < i - 1 ==> sink(msgs[j]) == Delivered
      {
        var message := Notification(username, tweets[i].text);
        assert message == msgs[i];
        assert msgs[..i + 1] == msgs[..i] + [message];
        sent := sent + [message];
        var reply := sink(message);
        if reply.SendFailed? {
          failure := Some(reply.kind);
        }
        i := i + 1;
      }
      if failure == None {
        DeliverAll(msgs, sink);
        assert msgs[..i] == msgs;
      } else {
        DeliverStopsAtFirstFailure(msgs, sink, i - 1);
      }
    }

    /** `fetch_and_forward`: check every tracked username once. With no
        username the thread pool cannot be created (zero workers) and the
        call fails, changing nothing; `ok` reports which happened. */
    method FetchAndForward(now: int, feed: Feed, sink: Sink) returns (ok: bool)
      requires Valid()
      requires 0 <= now
      modifies this
      ensures Valid()
      ensures ok <==> old(usernames) != []
      ensures State() == if ok then Round(old(State()), old(usernames), now, feed, sink) else old(State())
    {
      if usernames == [] {
        return false;
      }
      var names := usernames;
      var i := 0;
      while i < |names|
        invariant 0 <= i <= |names|
        invariant Valid() && usernames == names
        invariant State() == Round(old(State()), names[..i], now, feed, sink)
      {
        assert names[..i + 1][..i] == names[..i];
        CheckUsername(names[i], now, feed, sink);
        i := i + 1;
      }
      assert names[..i] == names;
      ok := true;
    }

    /** `start_stream`: one round per tick until a round fails, which only
        happens when no username is tracked. Returns the number of rounds
        that completed. */
    method StartStream(ticks: seq<Tick>) returns (completed: nat)
      requires Valid()
      requires forall k :: 0 <= k < |ticks| ==> 0 <= ticks[k].now
      modifies this
      ensures Valid()
      ensures completed == if old(usernames) == [] then 0 else |ticks|
      ensures State() == Rounds(old(State()), ticks[..completed])
    {
      completed := 0;
      while completed < |ticks|
        invariant 0 <= completed <= |ticks|
        invariant Valid() && usernames == old(usernames)
        invariant old(usernames) == [] ==> completed == 0
        invariant State() == Rounds(old(State()), ticks[..completed])
      {
        var k := ticks[completed];
        var ok := FetchAndForward(k.now, k.feed, k.sink);
        if !ok {
          assert ticks[..completed] == [];
          return;
        }
        assert ticks[..completed + 1][..completed] == ticks[..completed];
        completed := completed + 1;
      }
    }
  }
}
