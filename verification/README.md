# Tweet relay engine — a Dafny model

This project models the polling and forwarding engine of a small service. The
service watches accounts on a social-media platform and relays each new post
as a line to a chat bot. There are two variants of the engine, and both are
modelled:

- `src/streamer.py`, module `Streaming`. The `Streamer` object tracks a list
  of usernames. It keeps two maps keyed by username: the cursor (the id of
  the newest post already forwarded, `None` at first) and the backoff
  deadline (0 at first). One check of an account skips it while `now` is
  before its deadline. Otherwise the check fetches the account's posts newer
  than the cursor. If posts come back, it moves the cursor to the newest
  one and sends one line per post. On a rate-limit error it sets the
  deadline to `now + 30`. A round checks every tracked username, and the
  stream repeats rounds.
- `src/main.py`, module `Polling`. A single target account is polled through
  the recent-search endpoint. `since_id` is the cached id of the last
  forwarded post. Posts are forwarded oldest-first, and the cached id ends on
  the newest one. The main loop then picks an adaptive sleep: 3 seconds after
  a round that found posts; otherwise 30 seconds more per quiet round, capped
  at 60 seconds in all.

The two web services are oracles:

- Streamer feed: `Feed` maps a username and a `since_id` to a post list or a
  tagged error. It covers the account-id lookup and the timeline fetch
  together.
- Streamer chat bot: `Sink` maps a message to "delivered" or a tagged error.
- Search endpoint: `HttpReply` is a status code with the post list, or a
  transport failure.

The requests and chat lines the engine hands to these services are recorded
in logs (`calls`, `requests`, `sent`). This lets the contracts say which
requests were made and which lines were sent, in order. Time is an integer
`now` in seconds. The sleeps of the main loop are returned as values instead
of being slept.

Each stateful class has a pure specification function beside it. Its methods
are proved to produce exactly that function of the old state:

- `Streamer.CheckUsername` gives `Step`.
- `Streamer.FetchAndForward` gives `Round`.
- `Streamer.StartStream` gives `Rounds`.
- `Poller.Run` gives `PollAll` and `Schedule`.

The lemmas state the engine's properties about these functions.

### Behaviour worth knowing

- `check_username` sends the posts in the order the API returns them
  (newest-first). It does not reverse them. Only `src/main.py` reverses to
  oldest-first.
- `check_username` writes the cursor before sending anything. `TelegramBot.send_message` re-raises a failed send. So the first
  send that fails ends the account's batch: later posts of the batch are
  never sent, and the cursor has already passed them. If that error's text
  contains 429, the account is backed off as for a fetch rate limit
  (`Deliver`, `CheckAccount`).
- `fetch_and_forward` with no tracked username fails. The thread pool cannot
  be built with zero workers, so `start_stream` stops (`FetchAndForward`
  returns `ok == false` and changes nothing).
- In `src/main.py` a rate-limit answer does not set a deadline. The round
  sleeps 30 seconds itself (the `pause` result), returns `False`, and then
  the usual adaptive sleep follows.
- Each quiet round adds 30 seconds to the extra delay, although the comment
  at src/main.py:126 speaks of 10-second steps.

## Model

| member | source | states |
|---|---|---|
| `Streaming.CursorOf` | src/streamer.py:48 | the cursor read for a check is the map's entry when there is one; a set cursor always comes from the map, and a missing entry reads as `None` |
| `Streaming.DeadlineOf` | src/streamer.py:40 | the deadline read for a check is the map's entry when there is one; a non-zero deadline always comes from the map, and a missing entry reads as 0 |
| `Streaming.Initial` | src/streamer.py:17-27 | the usernames are the given list; both maps have exactly those usernames as keys, every cursor `None`, every deadline 0; no request made, nothing sent |
| `Streaming.Streamer.constructor` | src/streamer.py:11-27 | building the maps entry by entry yields `Initial(names)`; the poll interval is the one given, 3 seconds by default |
| `Streaming.Register` | src/streamer.py:29-34 | a tracked name leaves everything unchanged; a new name is appended at the end with cursor `None` and deadline 0; the tracked-keys invariant is kept |
| `Streaming.RegisterIdempotent` | src/streamer.py:29-31 | adding the same username twice equals adding it once |
| `Streaming.RegisterOthersUnchanged` | src/streamer.py:31-34 | adding a username changes no other account's cursor, deadline or tracked status |
| `Streaming.Streamer.AddUsername` | src/streamer.py:29-35 | the new state is `Register(old state, username)` |
| `Streaming.Deliver` | src/streamer.py:55-68 | sends go out in list order; the attempted lines are a prefix of the list; no failure means all were delivered; a failure means it was the last attempted and all before it were delivered |
| `Streaming.DeliverAll` | src/streamer.py:55-57 | when every send succeeds, every line is attempted and none fails |
| `Streaming.DeliverStopsAtFirstFailure` | src/streamer.py:55-68 | the run ends exactly at the first send that raises, which is included, with that send's error |
| `Streaming.CheckAccount` | src/streamer.py:37-68 | a request is made iff `now` is not before the deadline, and it carries the account's cursor as `since_id`; the cursor moves iff non-empty posts came back, to the first (newest) id; lines are sent only then, one per post in API order, up to the first failed send; the deadline moves only to `now + 30` and only on a rate-limit error from the fetch or from a send; any other error or an empty result writes nothing |
| `Streaming.Step` | src/streamer.py:37-68 | one account's check changes only that account's map entries, never removes a key, and keeps the usernames and the tracked-keys invariant |
| `Streaming.StepOthersUnchanged` | src/streamer.py:37-68 | checking one account leaves every other account's cursor and deadline as they were |
| `Streaming.Streamer.SendAll` | src/streamer.py:55-58 | the send loop hands the bot exactly `Deliver`'s attempted lines, in order, and reports its failure |
| `Streaming.Streamer.CheckUsername` | src/streamer.py:37-68 | the new state (maps, request log, sent lines) is `Step(old state, username, now)` |
| `Streaming.Round` | src/streamer.py:70-79 | a round over any names keeps the usernames and the tracked-keys invariant |
| `Streaming.RoundOthersUnchanged` | src/streamer.py:70-79 | a round leaves the entries of every username it does not check untouched |
| `Streaming.RoundIsPerAccount` | src/streamer.py:72-79 | for a username checked once in the round, its final cursor and deadline are those of checking it alone, so the sequential order stands for any concurrent schedule |
| `Streaming.RoundIdleWhenAllBackedOff` | src/streamer.py:38-42 | a round in which every checked account is still backed off makes no request, sends nothing and changes nothing |
| `Streaming.TwoAccountsScenario` | src/streamer.py:44-57 | account A with two new posts and B with none: exactly two lines, both from A, in API order; A's cursor is its newest id; B's stays `None`; both fetched with `since_id` `None` |
| `Streaming.Streamer.FetchAndForward` | src/streamer.py:70-79 | with tracked usernames, the new state is `Round` over them in list order; with none, it fails and nothing changes |
| `Streaming.Rounds` | src/streamer.py:81-86 | repeated rounds keep the usernames and the tracked-keys invariant |
| `Streaming.Streamer.StartStream` | src/streamer.py:81-90 | every tick runs one round unless no username is tracked, in which case none runs; the new state is `Rounds` over the completed ticks |
| `Collaborators.Notifications` | src/streamer.py:55-57 | one line per post, in the posts' order, each `New tweet from <source>: <text>` |
| `Collaborators.Reverse` | src/main.py:87 | reversal keeps the length |
| `Collaborators.ReverseAt` | src/main.py:85-87 | position k of the reversed list holds the element at position n-1-k |
| `Collaborators.ReverseReverse` | src/main.py:85-87 | reversing twice gives back the API order |
| `Polling.SearchParamsFor` | src/main.py:46-52 | the query is `from:<target>` with `max_results` 10; `since_id` is sent iff the cached id is set and non-empty, and then equals it |
| `Polling.PollRecentTweets` | src/main.py:53-56 | success iff status 200, carrying the returned posts; a rate-limit error iff status 429; any other status or a transport failure is another error |
| `Polling.Advance` | src/main.py:88-94 | the cached id changes only in a round that found posts, and then becomes the newest post's id, which is the id of the last post forwarded oldest-first |
| `Polling.PauseFor` | src/main.py:101-104 | a round sleeps 30 seconds exactly when the answer was status 429, and not at all otherwise |
| `Polling.Forwarded` | src/main.py:84-92 | a round that found posts forwards one line per post; any other round forwards nothing |
| `Polling.ForwardedOldestFirst` | src/main.py:84-92 | on a non-empty success every post is forwarded once, oldest first (line k is post n-1-k), as `New tweet from @<target>: <text>`; on anything else nothing is forwarded |
| `Polling.Poller.constructor` | src/main.py:110-111 | the program starts with no cached id, no requests and nothing sent |
| `Polling.Poller.ProcessRecentTweets` | src/main.py:73-107 | one request with the cached id's `since_id`; returns true iff a 200 reply had posts; then the lines are the posts oldest-first and the cached id is the last forwarded, i.e. the newest id; an empty reply, a 429 or any other failure returns false and leaves the cached id and the sent lines unchanged; only a 429 pauses 30 seconds |
| `Polling.Poll` | src/main.py:73-107 | one round makes exactly one more request, whose `since_id`, when sent, is the cached id; the sent lines only grow at the end; a round that found nothing leaves the cached id and the sent lines as they were; one that found posts moves the cached id to the newest and sends one line per post |
| `Polling.PollAll` | src/main.py:119-120 | a run of rounds makes one request per round and only appends to the request log and the sent lines |
| `Polling.NextAdditionalDelay` | src/main.py:121-128 | a round that found posts resets the extra delay to 0; a quiet round adds 30 seconds but never goes past 57 (the maximum interval less the base) |
| `Polling.SleepInterval` | src/main.py:121-128 | the sleep lies in [3, 60] exactly when the extra delay lies in [0, 57] |
| `Polling.DelayStep` | src/main.py:119-128 | one round keeps the extra delay in [0, 57] and the sleep in [3, 60]; activity resets the extra delay to 0 and the sleep to 3; a quiet round never lowers the delay, raises it to at least 30, and raises it strictly unless it is already at the cap |
| `Polling.AdditionalStaysInRange` | src/main.py:115-128 | after any sequence of rounds the extra delay stays within [0, max - base] |
| `Polling.ScheduleSawtooth` | src/main.py:119-128 | every sleep of a run lies in [3, 60], and a sleep is 3 exactly when its round found posts |
| `Polling.QuietRounds` | src/main.py:125-128 | from no extra delay, n quiet rounds give min(30 n, 57) seconds: 30, 57, 57, ... |
| `Polling.Poller.Run` | src/main.py:109-130 | the main loop over a finite run of replies: the sleeps are the adaptive schedule of the rounds' outcomes, each in [3, 60] and equal to 3 iff the round found posts; the in-round pauses and the final state (cached id, requests, sent lines) are those of the rounds in order |

## Left out

- HTTP: the calls to the platform API and the chat bot (`requests.get`/`post` in src/twitter_client.py, src/telegram_bot.py and src/main.py) are oracles. src/twitter_client.py and src/telegram_bot.py are not part of this model beyond the shapes of their answers. The streamer's `Feed` does not tell the id lookup from the timeline fetch: both fail into the same handler.
- Error classification: the test `"429" in str(e)` (streamer) and `"HTTP 429" in err_str` (main) is replaced by an error tag. In `Polling.PollRecentTweets` the tag is derived from status 429. A body text or a transport error message that happens to contain "HTTP 429" is classed as another error there.
- Post shape: posts always carry an id and a text. A post without them (`tweet.get` returning `None`) is not modelled.
- Concurrency: `fetch_and_forward`'s thread pool and the lock are modelled as a sequential loop over the usernames in list order. `RoundIsPerAccount` shows that per-account state does not depend on that order, but only for a username listed once in the round (`multiset(names)[u] == 1`). The interleaving of different accounts' lines in the chat is not modelled.
- `Streaming.Streamer.FetchAndForward`: a username listed twice is checked twice in sequence, the second check using the cursor the first one wrote. In the source the two threads may both read the cursor (src/streamer.py:48) before either writes it (src/streamer.py:53-54), and then send the same posts twice; the model does not capture that.
- `Streaming.Round`: all checks of one round share one `now`. In the source each thread reads the clock itself (src/streamer.py:38), so later checks of a round may see a later time.
- Wall-clock time: `time.time()` is an integer `now`. The deadline is set from the same `now`, not from a second, later reading of the clock.
- Sleeping: the sleeps in `src/main.py` are returned as values. `start_stream`'s `time.sleep(poll_interval)` between rounds is not recorded.
- `Streaming.Streamer.StartStream`: the endless loop becomes a finite sequence of ticks. A `KeyboardInterrupt` and its log line are not modelled.
- `Streaming.Streamer.CheckUsername` requires `now >= 0`, as `time.time()` is. For an untracked username and a negative time, the log line at src/streamer.py:41 would raise a `KeyError`.
- The chat bot oracle answers by message text: within one run two identical lines get the same answer. `send_message`'s return value is ignored, as in the source.
- `src/main.py`'s `send_message_to_telegram` swallows its errors, so the poller's sends never stop a round. The model records the lines without an answer from the bot.
- `create_headers` only builds an authorization header from the token. It and the token are not modelled.
- Start-up configuration (`.env` loading, the `ValueError` checks for missing settings), all logging, src/utils.py and src/__init__.py are left out.
