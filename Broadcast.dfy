/**
 * The broadcast channel and its subscribers as stateful entities.
 *
 * Storage is a Datastore object holding the stored subscriber records by key name;
 * a Subscriber object is an in-memory copy that the methods update field by field and
 * that Put and Delete write back. The push transport is an outbox of envelopes, the
 * session-token provider a counter of issued tokens, and the current time an explicit
 * `now` in seconds.
 */
module Broadcast {
  import opened Wrappers
  import opened Liveness
  import opened FanOutSpec

  /** The error the fan-out's send call raises as written: the channel argument is missing. */
  const MissingChannelArgument: string := "_send_message() takes exactly 3 arguments (2 given)"

  /** The error the fan-out's closing log call raises as written: logging is never imported. */
  const UndefinedLogging: string := "global name 'logging' is not defined"

  /** The stored form of a subscriber. */
  type Row = Record<BroadcastChannel>

  /** The key names of `subs`, in order. */
  function KeysOf(subs: seq<Subscriber>): (ks: seq<string>)
    ensures |ks| == |subs| && forall i :: 0 <= i < |subs| ==> ks[i] == subs[i].key
  {
    seq(|subs|, i requires 0 <= i < |subs| => subs[i].key)
  }

  /** The stored form of each of `subs`, in order. */
  function Snapshots(subs: seq<Subscriber>): (rs: seq<Row>)
    reads subs
    ensures |rs| == |subs| && forall m :: 0 <= m < |subs| ==> rs[m] == subs[m].Snapshot()
  {
    seq(|subs|, m requires 0 <= m < |subs| reads subs => subs[m].Snapshot())
  }

  /**
   * The two lists a completed fan-out loop over the members `ks` built, read against the
   * specification: the delete list holds the evicted members as they were loaded, in
   * visiting order, and the re-store list the probed members, each once, in its probed state.
   */
  lemma VisitedBatches(toDelete: seq<Subscriber>, toPut: seq<Subscriber>, ks: seq<string>, rows: map<string, Row>,
                       outbox: seq<Envelope>, body: Payload, pingInterval: int, now: int)
    requires Distinct(ks)
    requires forall j :: 0 <= j < |ks| ==> ks[j] in rows && rows[ks[j]].currentToken.Some?
    requires
      var tally := TallyAfter(outbox, rows, ks, |ks|, body, pingInterval, now);
      && |toDelete| == |tally.deleted|
      && (forall m :: 0 <= m < |toDelete| ==>
            toDelete[m].key == tally.deleted[m] && tally.deleted[m] in rows && toDelete[m].Snapshot() == Stepped(rows[tally.deleted[m]], pingInterval, now))
      && |toPut| == |tally.put|
      && forall m :: 0 <= m < |toPut| ==>
           toPut[m].key == tally.put[m] && tally.put[m] in rows && toPut[m].Snapshot() == Stepped(rows[tally.put[m]], pingInterval, now)
    ensures KeysOf(toDelete) == Evicted(rows, ks, pingInterval, now)
    ensures KeysOf(toPut) == Probed(rows, ks, pingInterval, now) && Distinct(KeysOf(toPut))
    ensures forall m :: 0 <= m < |toDelete| ==> toDelete[m].key in rows && toDelete[m].Snapshot() == rows[toDelete[m].key]
    ensures forall m :: 0 <= m < |toPut| ==> toPut[m].key in rows && toPut[m].Snapshot() == Stepped(rows[toPut[m].key], pingInterval, now)
  {
    TallyListsPrefix(outbox, rows, ks, |ks|, body, pingInterval, now);
    assert ks[..|ks|] == ks;
    ProbedDistinct(rows, ks, pingInterval, now);
    EvictedExactly(rows, ks, pingInterval, now);
    forall m | 0 <= m < |toDelete|
      ensures toDelete[m].Snapshot() == rows[toDelete[m].key]
    {
      assert toDelete[m].key in Evicted(rows, ks, pingInterval, now);
    }
  }

  /** The push transport: every message handed to it, in order. */
  class Transport {
    var outbox: seq<Envelope>

    constructor ()
      ensures outbox == []
    {
      outbox := [];
    }

    /** Push one message to the client holding `token`. */
    method Push(token: Token, body: Payload, pingRequest: bool)
      modifies this
      ensures outbox == old(outbox) + [Envelope(token, body, pingRequest)]
    {
      outbox := outbox + [Envelope(token, body, pingRequest)];
    }
  }

  /** The session-token provider: each token it issues carries a new serial number. */
  class TokenProvider {
    var issued: nat

    constructor ()
      ensures issued == 0
    {
      issued := 0;
    }

    /** Open a delivery session for `clientId` and return its token. */
    method CreateChannel(clientId: string) returns (t: Token)
      modifies this
      ensures t == Token(clientId, old(issued)) && issued == old(issued) + 1
    {
      t := Token(clientId, issued);
      issued := issued + 1;
    }
  }

  /** The stored subscribers, by key name. */
  class Datastore {
    var rows: map<string, Row>

    constructor ()
      ensures rows == map[]
    {
      rows := map[];
    }

    /** Every stored subscriber has a token exactly when it has an issue time. */
    ghost predicate Valid()
      reads this
    {
      forall k :: k in rows ==> rows[k].Paired()
    }

    /** Load the subscribers of `chan`, each once, as fresh in-memory entities, in no particular order. */
    method Query(chan: BroadcastChannel) returns (subs: seq<Subscriber>)
      ensures Distinct(KeysOf(subs))
      ensures forall k :: k in KeysOf(subs) <==> k in rows && rows[k].channel == chan
      ensures forall i, j :: 0 <= i < j < |subs| ==> subs[i] != subs[j]
      ensures forall i :: 0 <= i < |subs| ==>
        fresh(subs[i]) && subs[i].key in rows && subs[i].Snapshot() == rows[subs[i].key]
    {
      var pending := set k | k in rows && rows[k].channel == chan;
      subs := [];
      while pending != {}
        invariant forall k :: k in KeysOf(subs) || k in pending <==> k in rows && rows[k].channel == chan
        invariant forall k :: k in pending ==> k !in KeysOf(subs)
        invariant Distinct(KeysOf(subs))
        invariant forall i, j :: 0 <= i < j < |subs| ==> subs[i] != subs[j]
        invariant forall i :: 0 <= i < |subs| ==>
          fresh(subs[i]) && subs[i].key in rows && subs[i].Snapshot() == rows[subs[i].key]
        decreases pending
      {
        var k :| k in pending;
        var sub := new Subscriber.Load(k, rows[k]);
        assert KeysOf(subs + [sub]) == KeysOf(subs) + [k];
        subs := subs + [sub];
        pending := pending - {k};
      }
    }

    /** Remove the stored records of `subs` in one batch. */
    method DeleteAll(subs: seq<Subscriber>)
      modifies this
      ensures old(Valid()) ==> Valid()
      ensures forall k :: k in rows <==> k in old(rows) && k !in KeysOf(subs)
      ensures forall k :: k in rows ==> rows[k] == old(rows)[k]
    {
      rows := rows - (set k | k in KeysOf(subs));
    }

    /** Store `subs` in one batch; a batch holds each subscriber once. */
    method PutAll(subs: seq<Subscriber>)
      requires Distinct(KeysOf(subs))
      modifies this
      ensures forall k :: k in rows <==> k in old(rows) || k in KeysOf(subs)
      ensures forall k :: k in old(rows) && k !in KeysOf(subs) ==> rows[k] == old(rows)[k]
      ensures forall i :: 0 <= i < |subs| ==> subs[i].key in rows && rows[subs[i].key] == subs[i].Snapshot()
    {
      var j := 0;
      while j < |subs|
        invariant 0 <= j <= |subs|
        invariant forall k :: k in rows <==> k in old(rows) || k in KeysOf(subs)[..j]
        invariant forall k :: k in old(rows) && k !in KeysOf(subs)[..j] ==> rows[k] == old(rows)[k]
        invariant forall i :: 0 <= i < j ==> subs[i].key in rows && rows[subs[i].key] == subs[i].Snapshot()
      {
        assert KeysOf(subs)[..j + 1] == KeysOf(subs)[..j] + [subs[j].key];
        rows := rows[subs[j].key := subs[j].Snapshot()];
        j := j + 1;
      }
      assert KeysOf(subs)[..j] == KeysOf(subs);
    }
  }

  /** A broadcast channel and its configuration. */
  class BroadcastChannel {
    const name: string
    /** Seconds of silence after which a subscriber is probed. */
    const pingInterval: int
    /** Seconds after which a delivery token is reissued rather than handed out. */
    const maxTokenAge: int

    constructor (name: string, pingInterval: int := DefaultPingInterval, maxTokenAge: int := DefaultMaxTokenAge)
      ensures this.name == name && this.pingInterval == pingInterval && this.maxTokenAge == maxTokenAge
    {
      this.name := name;
      this.pingInterval := pingInterval;
      this.maxTokenAge := maxTokenAge;
    }

    /**
     * One fan-out attempt: send `message` to every stored subscriber of this channel,
     * then evict the ones that timed out (handing them to the timeout callback first,
     * when there is one) and re-store the ones that were probed. `order` is the order
     * in which the subscribers were visited. A subscriber without a token aborts the
     * attempt at `failedAt`: what was already pushed stays pushed, the store is untouched.
     */
    method FanOut(message: Payload, hasCallback: bool, db: Datastore, transport: Transport, now: int)
      returns (outcome: Outcome, callbackArg: Option<seq<Subscriber>>, ghost order: seq<string>, ghost failedAt: nat, ghost handedOver: seq<Row>)
      requires db.Valid()
      modifies db, transport
      ensures db.Valid()
      ensures Distinct(order)
      ensures forall k :: k in order <==> k in old(db.rows) && old(db.rows)[k].channel == this
      ensures outcome.Pass? <==> forall k :: k in order ==> old(db.rows)[k].currentToken.Some?
      ensures outcome.Pass? ==>
        && db.rows == AfterFanOut(old(db.rows), (set k | k in order), pingInterval, now)
        && transport.outbox == old(transport.outbox) + Deliveries(old(db.rows), order, message, pingInterval, now)
        && (callbackArg.Some? <==> hasCallback && Evicted(old(db.rows), order, pingInterval, now) != [])
        && (callbackArg.Some? ==> KeysOf(callbackArg.value) == Evicted(old(db.rows), order, pingInterval, now))
        && (callbackArg.Some? ==> Snapshots(callbackArg.value) == handedOver)
        && (callbackArg.Some? ==> forall m :: 0 <= m < |handedOver| ==> handedOver[m] == old(db.rows)[callbackArg.value[m].key])
      ensures outcome.Fail? ==>
        && db.rows == old(db.rows)
        && callbackArg.None?
        && failedAt < |order|
        && old(db.rows)[order[failedAt]].currentToken.None?
        && (forall j :: 0 <= j < failedAt ==> old(db.rows)[order[j]].currentToken.Some?)
        && transport.outbox == old(transport.outbox) + Deliveries(old(db.rows), order[..failedAt], message, pingInterval, now)
    {
      ghost var rows0 := db.rows;
      var subs := db.Query(this);
      order := KeysOf(subs);
      callbackArg, handedOver := None, [];
      var toDelete, toPut;
      outcome, toDelete, toPut, failedAt := VisitAll(subs, order, message, transport, now, rows0);
      if outcome.Fail? {
        TallySentPrefix(old(transport.outbox), rows0, order, failedAt, message, pingInterval, now);
        return;
      }
      TallySentPrefix(old(transport.outbox), rows0, order, |order|, message, pingInterval, now);
      assert order[..|order|] == order;
      VisitedBatches(toDelete, toPut, order, rows0, old(transport.outbox), message, pingInterval, now);
      handedOver := Snapshots(toDelete);
      callbackArg := Commit(toDelete, toPut, hasCallback, db, order, rows0, now);
      AfterFanOutKeepsPairing(rows0, (set k | k in order), pingInterval, now);
    }

    /**
     * The fan-out attempt as written. The loop calls each subscriber's send without the
     * channel argument that send requires, so the first subscriber raises a TypeError
     * before anything is sent or stored. A channel without subscribers gets through the
     * loop and the (empty) batches, and then raises a NameError at the closing log call,
     * whose logging module is never imported. No attempt completes.
     */
    method FanOutAsWritten(db: Datastore) returns (outcome: Outcome)
      ensures outcome.Fail?
      ensures outcome == Fail(UndefinedLogging) <==> forall k :: k in db.rows ==> db.rows[k].channel != this
      ensures outcome == Fail(MissingChannelArgument) <==> exists k :: k in db.rows && db.rows[k].channel == this
    {
      var subs := db.Query(this);
      if |subs| > 0 {
        assert KeysOf(subs)[0] in KeysOf(subs);
        return Fail(MissingChannelArgument);
      }
      outcome := Fail(UndefinedLogging);
    }

    /**
     * The store step of a fan-out over the subscribers `order` loaded from `rows`: hand the
     * timed-out subscribers to the callback (when there is one and there are any), delete
     * them in one batch, then store the probed ones in one batch.
     */
    method Commit(toDelete: seq<Subscriber>, toPut: seq<Subscriber>, hasCallback: bool, db: Datastore, ghost order: seq<string>, ghost rows: map<string, Row>, now: int)
      returns (callbackArg: Option<seq<Subscriber>>)
      requires db.rows == rows
      requires forall k :: k in order ==> k in rows
      requires KeysOf(toDelete) == Evicted(rows, order, pingInterval, now)
      requires KeysOf(toPut) == Probed(rows, order, pingInterval, now)
      requires Distinct(KeysOf(toPut))
      requires forall m :: 0 <= m < |toPut| ==> toPut[m].key in rows && toPut[m].Snapshot() == Stepped(rows[toPut[m].key], pingInterval, now)
      modifies db
      ensures db.rows == AfterFanOut(rows, (set k | k in order), pingInterval, now)
      ensures callbackArg.Some? <==> hasCallback && toDelete != []
      ensures callbackArg.Some? ==> callbackArg.value == toDelete
      ensures Snapshots(toDelete) == old(Snapshots(toDelete))
    {
      callbackArg := None;
      ghost var evicted, probed := KeysOf(toDelete), KeysOf(toPut);
      if |toDelete| > 0 {
        if hasCallback {
          callbackArg := Some(toDelete);
        }
        db.DeleteAll(toDelete);
      }
      if |toPut| > 0 {
        db.PutAll(toPut);
      }
      assert forall i :: 0 <= i < |probed| ==> probed[i] in db.rows && db.rows[probed[i]] == Stepped(rows[probed[i]], pingInterval, now);
      BatchesMakeAfterFanOut(rows, order, db.rows, pingInterval, now);
    }

    /**
     * The loop of a fan-out attempt: send `message` to each of `subs` in turn, collecting
     * the ones that timed out (to delete) and the ones that were probed (to store again).
     * `ks` are their keys and `rows` what the store held for them when they were loaded.
     * The loop stops at the first subscriber without a token; `visited` counts the
     * subscribers before it (all of them when there is none), and the lists and the
     * outbox are the tally of those.
     */
    method VisitAll(subs: seq<Subscriber>, ghost ks: seq<string>, message: Payload, transport: Transport, now: int, ghost rows: map<string, Row>)
      returns (outcome: Outcome, toDelete: seq<Subscriber>, toPut: seq<Subscriber>, ghost visited: nat)
      requires |ks| == |subs|
      requires forall i, j :: 0 <= i < j < |subs| ==> subs[i] != subs[j]
      requires forall i :: 0 <= i < |subs| ==> subs[i].key == ks[i] && ks[i] in rows && subs[i].Snapshot() == rows[ks[i]]
      modifies transport, subs
      ensures visited <= |subs| && forall j :: 0 <= j < visited ==> rows[ks[j]].currentToken.Some?
      ensures outcome.Pass? <==> visited == |subs|
      ensures outcome.Fail? ==> visited < |subs| && rows[ks[visited]].currentToken.None?
      ensures
        var tally := TallyAfter(old(transport.outbox), rows, ks, visited, message, pingInterval, now);
        && transport.outbox == tally.sent
        && |toDelete| == |tally.deleted|
        && (forall m :: 0 <= m < |toDelete| ==>
              toDelete[m].key == tally.deleted[m] && tally.deleted[m] in rows && toDelete[m].Snapshot() == Stepped(rows[tally.deleted[m]], pingInterval, now))
        && |toPut| == |tally.put|
        && forall m :: 0 <= m < |toPut| ==>
             toPut[m].key == tally.put[m] && tally.put[m] in rows && toPut[m].Snapshot() == Stepped(rows[tally.put[m]], pingInterval, now)
    {
      outcome, toDelete, toPut := Pass, [], [];
      ghost var tally := Tally([], [], transport.outbox);
      ghost var putAt: seq<int> := [];
      ghost var deleteAt: seq<int> := [];
      var i := 0;
      while i < |subs|
        invariant 0 <= i <= |subs| && outcome == Pass
        invariant forall j :: 0 <= j < i ==> rows[ks[j]].currentToken.Some? && subs[j].Snapshot() == Stepped(rows[ks[j]], pingInterval, now)
        invariant forall j :: i <= j < |subs| ==> subs[j].Snapshot() == rows[ks[j]]
        invariant tally == TallyAfter(old(transport.outbox), rows, ks, i, message, pingInterval, now)
        invariant transport.outbox == tally.sent
        invariant |toDelete| == |tally.deleted| == |deleteAt|
        invariant forall m :: 0 <= m < |toDelete| ==> 0 <= deleteAt[m] < i && toDelete[m] == subs[deleteAt[m]] && tally.deleted[m] == ks[deleteAt[m]]
        invariant |toPut| == |tally.put| == |putAt|
        invariant forall m :: 0 <= m < |toPut| ==> 0 <= putAt[m] < i && toPut[m] == subs[putAt[m]] && tally.put[m] == ks[putAt[m]]
      {
        var status := subs[i].Dispatch(message, this, transport, now);
        if status.Failure? {
          outcome := Fail(status.error);
          break;
        }
        if status.value == Timeout {
          toDelete := toDelete + [subs[i]];
          deleteAt := deleteAt + [i];
          tally := tally.(deleted := tally.deleted + [ks[i]]);
        } else if status.value == Update {
          toPut := toPut + [subs[i]];
          putAt := putAt + [i];
          tally := tally.(put := tally.put + [ks[i]], sent := transport.outbox);
        } else {
          tally := tally.(sent := transport.outbox);
        }
        i := i + 1;
      }
      visited := i;
    }
  }

  /** One recipient's delivery session within a channel. */
  class Subscriber {
    /** The key name, "<channel>:<name>". */
    const key: string
    /** The owning channel; it never changes. */
    const channel: BroadcastChannel
    var currentToken: Option<Token>
    var tokenIssued: Option<int>
    /** When the outstanding probe was sent; none while no probe is outstanding. */
    var lastPing: Option<int>
    /** When the subscriber last answered a probe. */
    var lastPong: Option<int>

    /** A token is held exactly when its issue time is known. */
    ghost predicate Valid()
      reads this
    {
      Snapshot().Paired()
    }

    /** The record that storing this subscriber writes. */
    function Snapshot(): Row
      reads this
    {
      Record(channel, currentToken, tokenIssued, lastPing, lastPong)
    }

    /** A new, not yet stored subscriber of `chan`. */
    constructor (key: string, chan: BroadcastChannel)
      ensures this.key == key && channel == chan
      ensures currentToken == None && tokenIssued == None && lastPing == None && lastPong == None
    {
      this.key := key;
      channel := chan;
      currentToken, tokenIssued, lastPing, lastPong := None, None, None, None;
    }

    /** The in-memory copy of the stored subscriber `row` under `key`. */
    constructor Load(key: string, row: Row)
      ensures this.key == key && Snapshot() == row
    {
      this.key := key;
      channel := row.channel;
      currentToken, tokenIssued := row.currentToken, row.tokenIssued;
      lastPing, lastPong := row.lastPing, row.lastPong;
    }

    /** Store this subscriber. */
    method Put(db: Datastore)
      modifies db
      ensures old(db.Valid()) && Valid() ==> db.Valid()
      ensures db.rows == old(db.rows)[key := Snapshot()]
    {
      db.rows := db.rows[key := Snapshot()];
    }

    /** Remove this subscriber from the store. */
    method Delete(db: Datastore)
      modifies db
      ensures old(db.Valid()) ==> db.Valid()
      ensures db.rows == old(db.rows) - {key}
    {
      db.rows := db.rows - {key};
    }

    /**
     * Return a delivery token, reissuing it (and storing the subscriber) when forced,
     * when there is none, or when it is older than the channel's maximum token age.
     */
    method GetToken(force: bool, db: Datastore, tokens: TokenProvider, now: int) returns (t: Token)
      requires Valid()
      modifies this`currentToken, this`tokenIssued, db, tokens
      ensures Valid() && currentToken == Some(t)
      ensures old(db.Valid()) ==> db.Valid()
      ensures !NeedsFreshToken(force, old(currentToken), old(tokenIssued), channel.maxTokenAge, now) ==>
        && t == old(currentToken).value
        && tokenIssued == old(tokenIssued)
        && db.rows == old(db.rows)
        && tokens.issued == old(tokens.issued)
      ensures NeedsFreshToken(force, old(currentToken), old(tokenIssued), channel.maxTokenAge, now) ==>
        && t == Token(key, old(tokens.issued))
        && tokenIssued == Some(now)
        && tokens.issued == old(tokens.issued) + 1
        && db.rows == old(db.rows)[key := Snapshot()]
      ensures (&& NeedsFreshToken(force, old(currentToken), old(tokenIssued), channel.maxTokenAge, now)
               && old(currentToken).Some? && old(currentToken).value.serial < old(tokens.issued)) ==>
        t != old(currentToken).value
    {
      if NeedsFreshToken(force, currentToken, tokenIssued, channel.maxTokenAge, now) {
        var newToken := tokens.CreateChannel(key);
        currentToken := Some(newToken);
        tokenIssued := Some(now);
        Put(db);
      }
      t := currentToken.value;
    }

    /**
     * Send `body` under the configuration of `chan`: plainly when the subscriber was heard
     * from within the ping interval (OK), with a probe request when it was not (UPDATE,
     * recording the probe time), and not at all when an earlier probe has gone unanswered
     * for more than the grace period (TIMEOUT). A subscriber without a token is a fault.
     */
    method Dispatch(body: Payload, chan: BroadcastChannel, transport: Transport, now: int) returns (r: Result<Status>)
      modifies this`lastPing, transport
      ensures r.Success? <==> old(currentToken).Some?
      ensures r.Failure? ==> lastPing == old(lastPing) && transport.outbox == old(transport.outbox)
      ensures r.Success? ==>
        && r.value == old(Snapshot()).StatusAt(chan.pingInterval, now)
        && Snapshot() == Stepped(old(Snapshot()), chan.pingInterval, now)
        && transport.outbox == old(transport.outbox) + Outgoing(old(Snapshot()), body, chan.pingInterval, now)
    {
      if currentToken.None? {
        return Failure("Cannot send to a client with no channel.");
      }
      var pingRequest: bool;
      if lastPong.None? || lastPong.value + chan.pingInterval < now {
        if lastPing.Some? && lastPing.value < now - ProbeGrace {
          return Success(Timeout);
        }
        pingRequest := true;
        lastPing := Some(now);
      } else {
        pingRequest := false;
      }
      transport.Push(currentToken.value, body, pingRequest);
      r := Success(if pingRequest then Update else Ok);
    }

    /**
     * Send `body` to this subscriber alone, under its own channel's configuration.
     * On TIMEOUT the subscriber deletes itself and the answer is false; on UPDATE it
     * stores its new probe time; either way a delivered message answers true.
     */
    method SendMessage(body: Payload, db: Datastore, transport: Transport, now: int) returns (r: Result<bool>)
      modifies this`lastPing, db, transport
      ensures r.Success? <==> old(currentToken).Some?
      ensures old(db.Valid()) && Valid() ==> db.Valid()
      ensures r.Failure? ==>
        lastPing == old(lastPing) && db.rows == old(db.rows) && transport.outbox == old(transport.outbox)
      ensures r.Success? ==>
        var s := Decide(lastPong, old(lastPing), channel.pingInterval, now);
        && r.value == (s != Timeout)
        && Snapshot() == Stepped(old(Snapshot()), channel.pingInterval, now)
        && transport.outbox == old(transport.outbox) + Outgoing(old(Snapshot()), body, channel.pingInterval, now)
        && db.rows == match s
                      case Timeout => old(db.rows) - {key}
                      case Update => old(db.rows)[key := Snapshot()]
                      case Ok => old(db.rows)
    {
      var status := Dispatch(body, channel, transport, now);
      if status.Failure? {
        return Failure(status.error);
      }
      if status.value == Timeout {
        Delete(db);
        return Success(false);
      } else if status.value == Update {
        Put(db);
      }
      r := Success(true);
    }

    /** Register that the subscriber answered a probe: no probe is outstanding any more. */
    method Pong(db: Datastore, now: int)
      modifies this`lastPong, this`lastPing, db
      ensures lastPong == Some(now) && lastPing == None
      ensures old(db.Valid()) && Valid() ==> db.Valid()
      ensures db.rows == old(db.rows)[key := Snapshot()]
      ensures channel.pingInterval >= 0 ==> Decide(lastPong, lastPing, channel.pingInterval, now) == Ok
    {
      lastPong := Some(now);
      lastPing := None;
      Put(db);
    }

    /**
     * Get-or-create the subscriber `name` of `chan` under the key "<channel>:<name>".
     * A stored subscriber is returned as stored; otherwise a new one is made for `chan`,
     * issued a token and stored.
     */
    static method Create(chan: BroadcastChannel, name: string, db: Datastore, tokens: TokenProvider, now: int)
      returns (sub: Subscriber)
      requires db.Valid()
      modifies db, tokens
      ensures db.Valid() && fresh(sub) && sub.Valid()
      ensures sub.key == KeyName(chan.name, name) && sub.key in db.rows && db.rows[sub.key] == sub.Snapshot()
      ensures KeyName(chan.name, name) in old(db.rows) ==>
        && sub.Snapshot() == old(db.rows)[sub.key]
        && db.rows == old(db.rows)
        && tokens.issued == old(tokens.issued)
      ensures KeyName(chan.name, name) !in old(db.rows) ==>
        && sub.Snapshot() == Record(chan, Some(Token(sub.key, old(tokens.issued))), Some(now), None, None)
        && db.rows == old(db.rows)[sub.key := sub.Snapshot()]
        && tokens.issued == old(tokens.issued) + 1
    {
      var key := KeyName(chan.name, name);
      if key in db.rows {
        sub := new Subscriber.Load(key, db.rows[key]);
      } else {
        sub := new Subscriber(key, chan);
        var _ := sub.GetToken(false, db, tokens, now);
      }
    }
  }

  /**
   * Creating the same subscriber twice makes one stored subscriber: the second call
   * returns what the first stored and changes nothing.
   */
  method CreateTwice(chan: BroadcastChannel, name: string, db: Datastore, tokens: TokenProvider, now: int, later: int)
    returns (first: Subscriber, second: Subscriber)
    requires db.Valid()
    modifies db, tokens
    ensures first.key == second.key && second.Snapshot() == first.Snapshot()
    ensures db.rows == old(db.rows)[first.key := first.Snapshot()]
  {
    first := Subscriber.Create(chan, name, db, tokens, now);
    ghost var afterFirst := db.rows;
    second := Subscriber.Create(chan, name, db, tokens, later);
    assert db.rows == afterFirst;
  }
}
