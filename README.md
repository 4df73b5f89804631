# Broadcast channel: a Dafny model

A broadcast channel pushes every message to all of its subscribers over a
per-subscriber delivery session. Each subscriber holds a session token.
The channel watches whether the subscriber is still there:

- A subscriber that has not answered within the channel's ping interval gets its
  next message flagged as a ping request.
- When the subscriber answers (a pong), it counts as heard from again.
- If a ping request goes unanswered for more than ten seconds, the next send
  reports a timeout. The fan-out then hands the subscriber to an optional timeout
  callback and deletes it from the store.
- Subscribers that were sent a ping request are stored again with the time of that
  probe.

The model is organised as follows:

- `Liveness` holds the pure decisions:
  - the OK / TIMEOUT / UPDATE outcome of one send;
  - the rule for reissuing a session token;
  - the `"<channel>:<name>"` key of a subscriber.
- `FanOutSpec` describes one fan-out as functions of the stored subscriber records:
  - which subscribers are evicted, which are probed and stored again;
  - which messages go out, in order;
  - what the store holds afterwards.
- `Broadcast` holds the stateful side:
  - a `Datastore` of records by key;
  - `Subscriber` objects, which are in-memory copies that methods update field by
    field and that `Put`/`Delete` write back;
  - the `BroadcastChannel` with its fan-out loop;
  - a `Transport` outbox standing for the push channel;
  - a `TokenProvider` standing for the session-token service.
- `Wrappers` holds `Option`, `Result` and `Outcome`.

Time is an explicit `now` in whole seconds. Each source method reads the clock
several times; each is modelled as one instant.

## Model

| member | source | states |
|---|---|---|
| Liveness.Decide | src/broadcast_channel.py:82-95 | OK exactly when the subscriber was heard from within the ping interval. TIMEOUT exactly when it is overdue and its probe is older than 10 seconds. UPDATE exactly when it is overdue and no stale probe is outstanding. A never-answered subscriber counts as overdue. |
| Liveness.DecideAsWritten | src/broadcast_channel.py:82 | The silence check as written fails for every input, a subscriber fresh from creation included: it adds an integer to `None` or to a datetime. |
| Liveness.FreshSubscriberIsProbed | src/broadcast_channel.py:82-88 | A subscriber that never ponged and was never probed is sent its message with a ping request (UPDATE). |
| Liveness.NoProbeNoTimeout | src/broadcast_channel.py:83-86 | With no probe outstanding, a send never reports TIMEOUT. |
| Liveness.PongedIsOk | src/broadcast_channel.py:82 | After a pong at t, every send up to t + ping interval is OK, whatever the probe state. |
| Liveness.ProbeGivesGrace | src/broadcast_channel.py:83-88 | Within 10 seconds of a probe, a send does not time out. |
| Liveness.SilenceAfterProbeTimesOut | src/broadcast_channel.py:82-86 | An overdue subscriber whose probe is more than 10 seconds old times out. |
| Liveness.TokenKeptWithinMaxAge | src/broadcast_channel.py:67-69 | Unforced, a token is kept exactly while now ≤ issue time + max token age. |
| Liveness.KeyName | src/broadcast_channel.py:132 | The key is the channel name, one ':' and the subscriber name, in that order. |
| Liveness.KeyNameInjective | src/broadcast_channel.py:132 | When channel names contain no ':', distinct (channel, name) pairs get distinct keys. |
| Liveness.KeyNameCollides | src/broadcast_channel.py:132 | With a ':' in the channel name, two different pairs share a key. |
| FanOutSpec.Evicted | src/broadcast_channel.py:36-39 | The delete list is no longer than the members, and holds only members whose send times out. |
| FanOutSpec.Probed | src/broadcast_channel.py:36-41 | The re-store list is no longer than the members, and holds only members whose send is an UPDATE. |
| FanOutSpec.Deliveries | src/broadcast_channel.py:36-37 | A fan-out pushes no more messages than there are members. |
| FanOutSpec.EvictedExactly | src/broadcast_channel.py:38-39 | A key is in the delete list if and only if it is a member whose send times out. |
| FanOutSpec.ProbedExactly | src/broadcast_channel.py:40-41 | A key is in the re-store list if and only if it is a member whose send is an UPDATE. |
| FanOutSpec.ProbedDistinct | src/broadcast_channel.py:40-41 | Over distinct members, the re-store list holds no key twice. |
| FanOutSpec.DeliveriesCount | src/broadcast_channel.py:36-41 | Messages sent plus subscribers evicted equals the number of members. |
| FanOutSpec.DeliveriesAddressed | src/broadcast_channel.py:79-93 | Each message goes to a non-evicted member's token with the broadcast body, flagged as a ping request exactly when that member was probed. Every non-evicted member gets such a message. |
| FanOutSpec.TallyListsPrefix | src/broadcast_channel.py:36-41 | After visiting n members, the loop's two lists are the delete and re-store lists of those n members. |
| FanOutSpec.TallySentPrefix | src/broadcast_channel.py:36-37 | After visiting n members, the outbox is the starting outbox followed by the messages to those n members. |
| FanOutSpec.BatchesMakeAfterFanOut | src/broadcast_channel.py:43-48 | Deleting the evicted members and then storing the probed ones yields exactly AfterFanOut: timed-out members gone, probed members carry the probe time, everything else unchanged. |
| FanOutSpec.AfterFanOutKeepsPairing | src/broadcast_channel.py:43-48 | A fan-out keeps every stored token paired with its issue time. |
| FanOutSpec.RetryKeepsStore | src/broadcast_channel.py:22-24 | Re-running the fan-out at the same instant leaves the store as the first run left it. |
| FanOutSpec.RetryEvictsNobody | src/broadcast_channel.py:22-24 | A retry at the same instant evicts nobody. |
| Broadcast.Transport.Push | src/broadcast_channel.py:91 | Sending appends exactly one envelope (token, body, ping request) to the outbox. |
| Broadcast.TokenProvider.CreateChannel | src/broadcast_channel.py:70 | Each new session token carries the next serial number. |
| Broadcast.Datastore.Query | src/broadcast_channel.py:33-36 | Loads each stored subscriber of the channel exactly once, as a fresh object equal to its stored record. |
| Broadcast.Datastore.DeleteAll | src/broadcast_channel.py:46 | Removes exactly the given keys and leaves the other records unchanged, keeping the store invariant. |
| Broadcast.Datastore.PutAll | src/broadcast_channel.py:48 | Stores each given subscriber's current state, adds no other key, and leaves all other records unchanged. |
| Broadcast.BroadcastChannel.constructor | src/broadcast_channel.py:9-14 | Records the given ping interval and max token age; they default to 60 seconds and 115 minutes. |
| Broadcast.BroadcastChannel.FanOut | src/broadcast_channel.py:29-52 | Succeeds exactly when every member has a token. On success: store = AfterFanOut; outbox = old outbox + Deliveries; the callback is called exactly when one was supplied and someone timed out. It is handed exactly the evicted subscribers, in visiting order. `handedOver` is the state of those very objects, and each equals the record it was loaded from. On failure at the first token-less member: store untouched, no callback, earlier members' messages already sent. The store invariant is kept. |
| Broadcast.BroadcastChannel.VisitAll | src/broadcast_channel.py:36-41 | Stops at the first token-less member. The delete list (each subscriber as loaded), the re-store list (each subscriber in its probed state) and the outbox equal the tally of the members visited before it. |
| Broadcast.BroadcastChannel.Commit | src/broadcast_channel.py:43-48 | Calls the callback exactly when one was supplied and the delete list is non-empty, handing it that list. Afterwards the store equals AfterFanOut, and the delete-list subscribers are unchanged. |
| Broadcast.VisitedBatches | src/broadcast_channel.py:36-41 | After a completed loop, the delete list holds the evicted members as they were loaded, in visiting order. The re-store list holds the probed members, each once, in their probed state. |
| Broadcast.BroadcastChannel.FanOutAsWritten | src/broadcast_channel.py:36-52 | As written, no attempt completes. With at least one subscriber, the send call without its channel argument raises a TypeError. A channel without subscribers reaches the log call and raises a NameError. |
| Broadcast.Subscriber.constructor | src/broadcast_channel.py:135 | A new subscriber of the given channel has no token, no issue time, no ping and no pong. |
| Broadcast.Subscriber.Load | src/broadcast_channel.py:133 | The loaded subscriber equals its stored record. |
| Broadcast.Subscriber.Put | src/broadcast_channel.py:72 | Storing writes the subscriber's current state under its key and nothing else. A paired subscriber keeps the store invariant. |
| Broadcast.Subscriber.Delete | src/broadcast_channel.py:108 | Removes exactly this subscriber's key, keeping the store invariant. |
| Broadcast.Subscriber.GetToken | src/broadcast_channel.py:66-73 | Reissues exactly when forced, when there is no token, or when the token is older than the max token age. A reissue stamps `now`, stores the subscriber and returns the provider's next token, which differs from the previous token whenever that one came from the same provider. Otherwise the same token is returned and nothing is written. The token is always paired with its issue time afterwards, and the store invariant is kept. |
| Broadcast.Subscriber.Dispatch | src/broadcast_channel.py:75-95 | Fails, changing nothing, exactly when there is no token. Otherwise it returns the decided status; only an UPDATE changes state, setting the probe time to `now`. TIMEOUT sends nothing; OK sends one message and UPDATE one ping-request message. |
| Broadcast.Subscriber.SendMessage | src/broadcast_channel.py:97-112 | Answers false exactly on TIMEOUT, after deleting the subscriber. An UPDATE stores the new probe time; an OK changes nothing in the store. A paired subscriber keeps the store invariant. |
| Broadcast.Subscriber.Pong | src/broadcast_channel.py:114-118 | Sets the pong time to `now`, clears the outstanding probe and stores the subscriber. With a non-negative ping interval, a send at the same instant is OK. A paired subscriber keeps the store invariant. |
| Broadcast.Subscriber.Create | src/broadcast_channel.py:120-138 | An existing subscriber is returned as stored, with no write. Otherwise a new one is created for the channel, issued a token stamped `now`, and stored. |
| Broadcast.CreateTwice | src/broadcast_channel.py:131-138 | Creating the same subscriber twice returns the same state and stores one record. |

## Left out

- The enqueueing half of `BroadcastChannel.send_message` (lines 16-26), which defers the fan-out to a task queue: the deferred task itself is modelled as `BroadcastChannel.FanOut`. Task-queue retries appear only as the retry lemmas.
- The push channel service and JSON encoding. A message is an `Envelope` of token, body and ping-request flag, appended to the `Transport` outbox.
- Session-token creation. The `TokenProvider` hands out serial-numbered tokens; real tokens are opaque strings. Line 70 passes the subscriber's encoded datastore key as the client id; the model passes the key name, so `Token.client` is the key name and not the encoded key.
- Channel identity. The source finds a channel's subscribers by the channel's datastore key, and a request may load a new object for the same channel. The model uses one `BroadcastChannel` object per stored channel and compares subscribers' channels by object.
- Datastore transactions, concurrency and consistency (the transaction around `create`, concurrent fan-outs, pongs arriving mid-fan-out). Each method runs alone against one `Datastore`.
- The subscriber count, the timing and the log message of the fan-out (lines 30-31, 42 and 50-52). They write no record and send no message. The log call as written raises, which ends every attempt that reaches it: as written, only an attempt on a channel without subscribers (see Findings); the model of the corrected fan-out leaves it out.
- Wall-clock time. `now` is a parameter in whole seconds. Line 82 adds an integer to a datetime; the model takes the integer as seconds (see Findings).
- An empty-string token is false in the source's `not self.current_token` test. The model has no empty token: a token is either present or absent.
- A stored subscriber with a token but no issue time. `Datastore.Valid` rules it out. `Subscriber.Create`, `Subscriber.GetToken`, `Subscriber.Delete`, `Datastore.DeleteAll` and `BroadcastChannel.FanOut` keep it. `Subscriber.Put`, `Pong` and `SendMessage` keep it whenever the subscriber they write has its token paired with its issue time. `Datastore.PutAll` states nothing about it: it runs only inside a fan-out, whose contract states it.
- Broadcast.Subscriber.GetToken: requires the token to be paired with its issue time. On a token without an issue time, line 69 compares `None` with a datetime and raises a TypeError; the model does not reach that case.
- Datastore.PutAll: requires the keys of one batch to be distinct. The fan-out only ever stores a probed set with distinct keys.
- Broadcast.BroadcastChannel.FanOut: the timeout callback is not run. The model reports the list it is handed (`callbackArg`) and the states of those subscribers at the call (`handedOver`). The callback's own effects are not modelled. Neither is a callback that raises: in the source, that skips both batches (lines 45-48) and the task is retried.
- Broadcast.BroadcastChannel.FanOut: a subscriber without a token aborts the whole attempt, as the raised exception does in the code. Nothing is skipped and the store is not touched.
- Channel names containing ':' make keys collide (`KeyNameCollides`). The model keeps the key format as written.
- The handlers and request modules (HTTP endpoints) are not part of this model.

## Findings

| source | as written | input that shows it | evidently intended | confidence | as-written member | corrected member |
|---|---|---|---|---|---|---|
| src/broadcast_channel.py:82 | `self.last_pong + chan.ping_interval` adds an int to `None` (never ponged) or to a datetime; both raise TypeError | any subscriber with a token, e.g. one just made by `create` (`last_pong` is None) | treat the interval as seconds, and count a subscriber that never ponged as overdue so that it is probed | not executed; high | Liveness.DecideAsWritten | Liveness.Decide, Liveness.FreshSubscriberIsProbed |
| src/broadcast_channel.py:37 | `sub._send_message(message)` omits the `chan` argument that `_send_message(self, body, chan)` requires | a channel with one stored subscriber | pass the channel being fanned out | not executed; high | Broadcast.BroadcastChannel.FanOutAsWritten | Broadcast.BroadcastChannel.FanOut, FanOutSpec.DeliveriesCount |
| src/broadcast_channel.py:52 | `logging.debug(...)` is called, but the module never imports `logging`, so the call raises a NameError | a channel with no subscribers; once lines 37 and 82 are corrected, any channel whose subscribers all hold a token | import `logging`, so that an attempt completes after its batches are written. Once lines 37 and 82 are corrected, the raise would come after the delete and put batches of such a channel, so the task queue would re-run the attempt. Each re-run sends the message again to every remaining subscriber, calls the callback only for subscribers that time out during that re-run (the ones handed over before were already deleted), and raises again, until the task queue gives up. | not executed; high | Broadcast.BroadcastChannel.FanOutAsWritten | Broadcast.BroadcastChannel.FanOut |
