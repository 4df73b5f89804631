/**
 * What one fan-out does to the stored subscribers of a channel, as functions of the
 * stored records: which subscribers are evicted, which are re-stored with a new probe
 * time, which messages go out, and what the store holds afterwards.
 * The channel reference of a record is the type parameter C.
 */
module FanOutSpec {
  import opened Wrappers
  import opened Liveness

  /** A message body; the core never looks inside it. */
  type Payload = string

  /** One push to the transport: the wire shape {body, ping_request} addressed to a token. */
  datatype Envelope = Envelope(token: Token, body: Payload, pingRequest: bool)

  /** The stored properties of one subscriber. */
  datatype Record<C> = Record(
    channel: C,
    currentToken: Option<Token>,
    tokenIssued: Option<int>,
    lastPing: Option<int>,
    lastPong: Option<int>)
  {
    /** current_token and token_issued are set together. */
    predicate Paired()
    {
      currentToken.Some? <==> tokenIssued.Some?
    }

    /** The outcome of sending to this subscriber at `now`. */
    function StatusAt(pingInterval: int, now: int): Status
    {
      Decide(lastPong, lastPing, pingInterval, now)
    }
  }

  /** The subscriber after one send at `now`: an UPDATE records the probe time, nothing else changes. */
  function Stepped<C>(r: Record<C>, pingInterval: int, now: int): Record<C>
  {
    if r.StatusAt(pingInterval, now) == Update then r.(lastPing := Some(now)) else r
  }

  /** The messages one send pushes: none on TIMEOUT, one (flagged as a probe on UPDATE) otherwise. */
  function Outgoing<C>(r: Record<C>, body: Payload, pingInterval: int, now: int): seq<Envelope>
    requires r.currentToken.Some?
  {
    match r.StatusAt(pingInterval, now)
    case Timeout => []
    case Ok => [Envelope(r.currentToken.value, body, false)]
    case Update => [Envelope(r.currentToken.value, body, true)]
  }

  /** No key occurs twice. */
  predicate Distinct(ks: seq<string>)
  {
    forall i, j :: 0 <= i < j < |ks| ==> ks[i] != ks[j]
  }

  /** The keys, in sending order, of the subscribers a fan-out over `ks` evicts. */
  function Evicted<C>(rows: map<string, Record<C>>, ks: seq<string>, pingInterval: int, now: int): (ev: seq<string>)
    requires forall k :: k in ks ==> k in rows
    ensures |ev| <= |ks|
    ensures forall k :: k in ev ==> k in ks && rows[k].StatusAt(pingInterval, now) == Timeout
    decreases |ks|
  {
    if ks == [] then []
    else
      var k := ks[|ks| - 1];
      Evicted(rows, ks[..|ks| - 1], pingInterval, now)
        + (if rows[k].StatusAt(pingInterval, now) == Timeout then [k] else [])
  }

  /** The keys, in sending order, of the subscribers a fan-out over `ks` probes and must re-store. */
  function Probed<C>(rows: map<string, Record<C>>, ks: seq<string>, pingInterval: int, now: int): (pr: seq<string>)
    requires forall k :: k in ks ==> k in rows
    ensures |pr| <= |ks|
    ensures forall k :: k in pr ==> k in ks && rows[k].StatusAt(pingInterval, now) == Update
    decreases |ks|
  {
    if ks == [] then []
    else
      var k := ks[|ks| - 1];
      Probed(rows, ks[..|ks| - 1], pingInterval, now)
        + (if rows[k].StatusAt(pingInterval, now) == Update then [k] else [])
  }

  /** The messages a fan-out over `ks` pushes, in sending order. */
  function Deliveries<C>(rows: map<string, Record<C>>, ks: seq<string>, body: Payload, pingInterval: int, now: int): (out: seq<Envelope>)
    requires forall k :: k in ks ==> k in rows && rows[k].currentToken.Some?
    ensures |out| <= |ks|
    decreases |ks|
  {
    if ks == [] then []
    else
      var k := ks[|ks| - 1];
      Deliveries(rows, ks[..|ks| - 1], body, pingInterval, now) + Outgoing(rows[k], body, pingInterval, now)
  }

  /**
   * The store after a fan-out to the subscribers whose keys are `members`: members that
   * timed out are gone, members that were probed carry the new probe time, and every
   * other record is as it was.
   */
  function AfterFanOut<C>(rows: map<string, Record<C>>, members: set<string>, pingInterval: int, now: int): map<string, Record<C>>
  {
    map k | k in rows && !(k in members && rows[k].StatusAt(pingInterval, now) == Timeout)
      :: if k in members then Stepped(rows[k], pingInterval, now) else rows[k]
  }

  /** What a fan-out has accumulated so far: keys to delete, keys to store again, and the outbox. */
  datatype Tally = Tally(deleted: seq<string>, put: seq<string>, sent: seq<Envelope>)

  /**
   * The tally after visiting the first n subscribers of `ks`, starting from the outbox
   * `outbox`: a TIMEOUT adds the key to the delete list, an UPDATE adds it to the
   * re-store list, and every subscriber that is not timed out is sent the message.
   */
  function TallyAfter<C>(outbox: seq<Envelope>, rows: map<string, Record<C>>, ks: seq<string>, n: nat, body: Payload, pingInterval: int, now: int): Tally
    requires n <= |ks|
    requires forall j :: 0 <= j < n ==> ks[j] in rows && rows[ks[j]].currentToken.Some?
  {
    if n == 0 then Tally([], [], outbox)
    else
      var t := TallyAfter(outbox, rows, ks, n - 1, body, pingInterval, now);
      var r := rows[ks[n - 1]];
      match r.StatusAt(pingInterval, now)
      case Timeout => t.(deleted := t.deleted + [ks[n - 1]])
      case Update => t.(put := t.put + [ks[n - 1]], sent := t.sent + Outgoing(r, body, pingInterval, now))
      case Ok => t.(sent := t.sent + Outgoing(r, body, pingInterval, now))
  }

  /** Both tally lists grow exactly as the eviction and re-store lists of the first n subscribers. */
  lemma {:induction false} TallyListsPrefix<C>(outbox: seq<Envelope>, rows: map<string, Record<C>>, ks: seq<string>, n: nat, body: Payload, pingInterval: int, now: int)
    requires n <= |ks|
    requires forall j :: 0 <= j < n ==> ks[j] in rows && rows[ks[j]].currentToken.Some?
    ensures TallyAfter(outbox, rows, ks, n, body, pingInterval, now).deleted == Evicted(rows, ks[..n], pingInterval, now)
    ensures TallyAfter(outbox, rows, ks, n, body, pingInterval, now).put == Probed(rows, ks[..n], pingInterval, now)
  {
    if n == 0 {
      assert ks[..0] == [];
    } else {
      TallyListsPrefix(outbox, rows, ks, n - 1, body, pingInterval, now);
      var p := ks[..n];
      assert p[..|p| - 1] == ks[..n - 1];
      assert p[|p| - 1] == ks[n - 1];
    }
  }

  /** The tally's outbox is the starting outbox followed by the messages to the first n subscribers. */
  lemma {:induction false} TallySentPrefix<C>(outbox: seq<Envelope>, rows: map<string, Record<C>>, ks: seq<string>, n: nat, body: Payload, pingInterval: int, now: int)
    requires n <= |ks|
    requires forall j :: 0 <= j < n ==> ks[j] in rows && rows[ks[j]].currentToken.Some?
    ensures TallyAfter(outbox, rows, ks, n, body, pingInterval, now).sent == outbox + Deliveries(rows, ks[..n], body, pingInterval, now)
  {
    if n == 0 {
      assert ks[..0] == [];
    } else {
      TallySentPrefix(outbox, rows, ks, n - 1, body, pingInterval, now);
      var p := ks[..n];
      assert p[..|p| - 1] == ks[..n - 1];
      assert p[|p| - 1] == ks[n - 1];
      var out' := Deliveries(rows, ks[..n - 1], body, pingInterval, now);
      var last := Outgoing(rows[ks[n - 1]], body, pingInterval, now);
      assert Deliveries(rows, p, body, pingInterval, now) == out' + last;
      assert TallyAfter(outbox, rows, ks, n, body, pingInterval, now).sent
        == TallyAfter(outbox, rows, ks, n - 1, body, pingInterval, now).sent + last;
      assert outbox + (out' + last) == (outbox + out') + last;
    }
  }

  /** The re-store list of a fan-out over distinct keys holds each key once. */
  lemma {:induction false} ProbedDistinct<C>(rows: map<string, Record<C>>, ks: seq<string>, pingInterval: int, now: int)
    requires forall k :: k in ks ==> k in rows
    requires Distinct(ks)
    ensures Distinct(Probed(rows, ks, pingInterval, now))
  {
    if ks != [] {
      var init := ks[..|ks| - 1];
      assert forall k :: k in init ==> k != ks[|ks| - 1];
      ProbedDistinct(rows, init, pingInterval, now);
    }
  }

  /** Every member that times out is in the eviction list: the list is exactly the TIMEOUT members. */
  lemma {:induction false} EvictedExactly<C>(rows: map<string, Record<C>>, ks: seq<string>, pingInterval: int, now: int)
    requires forall k :: k in ks ==> k in rows
    ensures forall k :: k in Evicted(rows, ks, pingInterval, now) <==> k in ks && rows[k].StatusAt(pingInterval, now) == Timeout
  {
    if ks != [] {
      var init := ks[..|ks| - 1];
      EvictedExactly(rows, init, pingInterval, now);
      assert ks == init + [ks[|ks| - 1]];
    }
  }

  /** The re-store list is exactly the UPDATE members. */
  lemma {:induction false} ProbedExactly<C>(rows: map<string, Record<C>>, ks: seq<string>, pingInterval: int, now: int)
    requires forall k :: k in ks ==> k in rows
    ensures forall k :: k in Probed(rows, ks, pingInterval, now) <==> k in ks && rows[k].StatusAt(pingInterval, now) == Update
  {
    if ks != [] {
      var init := ks[..|ks| - 1];
      ProbedExactly(rows, init, pingInterval, now);
      assert ks == init + [ks[|ks| - 1]];
    }
  }

  /** Every member not evicted receives exactly one message: the message count is the member count minus the evictions. */
  lemma {:induction false} DeliveriesCount<C>(rows: map<string, Record<C>>, ks: seq<string>, body: Payload, pingInterval: int, now: int)
    requires forall k :: k in ks ==> k in rows && rows[k].currentToken.Some?
    ensures |Deliveries(rows, ks, body, pingInterval, now)| + |Evicted(rows, ks, pingInterval, now)| == |ks|
  {
    if ks != [] {
      DeliveriesCount(rows, ks[..|ks| - 1], body, pingInterval, now);
    }
  }

  /**
   * Each message goes to the token of a member that was not evicted, carries the
   * broadcast body, and asks for a pong exactly when that member was probed; and every
   * member that was not evicted gets such a message.
   */
  lemma {:induction false} DeliveriesAddressed<C>(rows: map<string, Record<C>>, ks: seq<string>, body: Payload, pingInterval: int, now: int)
    requires forall k :: k in ks ==> k in rows && rows[k].currentToken.Some?
    ensures forall e :: e in Deliveries(rows, ks, body, pingInterval, now) ==>
      exists k :: k in ks && rows[k].StatusAt(pingInterval, now) != Timeout
        && e == Envelope(rows[k].currentToken.value, body, rows[k].StatusAt(pingInterval, now) == Update)
    ensures forall k :: k in ks && rows[k].StatusAt(pingInterval, now) != Timeout ==>
      Envelope(rows[k].currentToken.value, body, rows[k].StatusAt(pingInterval, now) == Update) in Deliveries(rows, ks, body, pingInterval, now)
  {
    if ks != [] {
      var init := ks[..|ks| - 1];
      DeliveriesAddressed(rows, init, body, pingInterval, now);
      assert ks == init + [ks[|ks| - 1]];
    }
  }

  /**
   * Deleting the evicted subscribers and then storing the probed ones in their new
   * state leaves exactly the store AfterFanOut describes.
   */
  lemma BatchesMakeAfterFanOut<C>(rows: map<string, Record<C>>, ks: seq<string>, stored: map<string, Record<C>>, pingInterval: int, now: int)
    requires forall k :: k in ks ==> k in rows
    requires forall k :: k in stored <==>
      (k in rows && k !in Evicted(rows, ks, pingInterval, now)) || k in Probed(rows, ks, pingInterval, now)
    requires forall i :: 0 <= i < |Probed(rows, ks, pingInterval, now)| ==>
      var k := Probed(rows, ks, pingInterval, now)[i];
      k in stored && stored[k] == Stepped(rows[k], pingInterval, now)
    requires forall k :: k in stored && k !in Probed(rows, ks, pingInterval, now) ==> stored[k] == rows[k]
    ensures stored == AfterFanOut(rows, (set k | k in ks), pingInterval, now)
  {
    EvictedExactly(rows, ks, pingInterval, now);
    ProbedExactly(rows, ks, pingInterval, now);
    var pr := Probed(rows, ks, pingInterval, now);
    forall k | k in pr ensures stored[k] == Stepped(rows[k], pingInterval, now) {
      var i :| 0 <= i < |pr| && pr[i] == k;
      assert Probed(rows, ks, pingInterval, now)[i] == k;
    }
  }

  /** A fan-out keeps every stored subscriber's token paired with its issue time. */
  lemma AfterFanOutKeepsPairing<C>(rows: map<string, Record<C>>, members: set<string>, pingInterval: int, now: int)
    requires forall k :: k in rows ==> rows[k].Paired()
    ensures var after := AfterFanOut(rows, members, pingInterval, now);
      forall k :: k in after ==> after[k].Paired()
  {
  }

  /**
   * Re-running a fan-out at the same instant (the task queue may retry it) leaves the
   * store as the first run left it: nobody more is evicted and the probed members keep
   * their probe time.
   */
  lemma RetryKeepsStore<C>(rows: map<string, Record<C>>, members: set<string>, pingInterval: int, now: int)
    ensures AfterFanOut(AfterFanOut(rows, members, pingInterval, now), members, pingInterval, now)
         == AfterFanOut(rows, members, pingInterval, now)
  {
    var once := AfterFanOut(rows, members, pingInterval, now);
    var twice := AfterFanOut(once, members, pingInterval, now);
    forall k | k in once && k in members
      ensures once[k].StatusAt(pingInterval, now) != Timeout && Stepped(once[k], pingInterval, now) == once[k]
    {
      assert rows[k].StatusAt(pingInterval, now) != Timeout;
    }
    assert twice.Keys == once.Keys;
  }

  /** A retried fan-out at the same instant evicts nobody. */
  lemma RetryEvictsNobody<C>(rows: map<string, Record<C>>, members: set<string>, ks: seq<string>, pingInterval: int, now: int)
    requires forall k :: k in ks ==> k in AfterFanOut(rows, members, pingInterval, now) && k in members
    ensures Evicted(AfterFanOut(rows, members, pingInterval, now), ks, pingInterval, now) == []
  {
    var once := AfterFanOut(rows, members, pingInterval, now);
    forall k | k in ks ensures once[k].StatusAt(pingInterval, now) != Timeout {
      assert rows[k].StatusAt(pingInterval, now) != Timeout;
    }
  }
}
