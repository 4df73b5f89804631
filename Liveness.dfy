/**
 * The pure decisions a subscriber makes: whether a message is delivered plainly,
 * delivered with a liveness probe, or withheld because the subscriber timed out;
 * whether a delivery token must be reissued; and the datastore key of a subscriber.
 * Times are whole seconds.
 */
module Liveness {
  import opened Wrappers

  /** Seconds an unanswered probe may stay outstanding before the subscriber is evicted. */
  const ProbeGrace: int := 10

  /** Default silence, in seconds, after which a subscriber is probed. */
  const DefaultPingInterval: int := 60

  /** Default age, in seconds, after which a delivery token is reissued. */
  const DefaultMaxTokenAge: int := 115 * 60

  /** The three outcomes of one delivery attempt (STATUS_OK, STATUS_TIMEOUT, STATUS_UPDATE). */
  datatype Status = Ok | Timeout | Update

  /** An opaque delivery token, as handed out by the session-token provider. */
  datatype Token = Token(client: string, serial: nat)

  /** The subscriber has been silent longer than the ping interval; one that never answered counts as silent. */
  predicate Overdue(lastPong: Option<int>, pingInterval: int, now: int)
  {
    lastPong.None? || lastPong.value + pingInterval < now
  }

  /** A probe is outstanding and was sent more than the grace period ago. */
  predicate ProbeStale(lastPing: Option<int>, now: int)
  {
    lastPing.Some? && lastPing.value < now - ProbeGrace
  }

  /** The outcome of sending to a subscriber with the given liveness timestamps. */
  function Decide(lastPong: Option<int>, lastPing: Option<int>, pingInterval: int, now: int): (s: Status)
    ensures s == Ok <==> !Overdue(lastPong, pingInterval, now)
    ensures s == Timeout <==> Overdue(lastPong, pingInterval, now) && ProbeStale(lastPing, now)
    ensures s == Update <==> Overdue(lastPong, pingInterval, now) && !ProbeStale(lastPing, now)
  {
    if lastPong.Some? && now <= lastPong.value + pingInterval then
      Ok
    else if lastPing.Some? && lastPing.value < now - ProbeGrace then
      Timeout
    else
      Update
  }

  /**
   * The outcome check as written: it adds the ping interval, a number of seconds, to
   * last_pong, which is None for a subscriber that never answered a probe and a datetime
   * otherwise. Both additions raise a TypeError, so no send gets past the check.
   */
  function DecideAsWritten(lastPong: Option<int>, lastPing: Option<int>, pingInterval: int, now: int): (r: Result<Status>)
    ensures r.Failure?
  {
    match lastPong
    case None => Failure("unsupported operand type(s) for +: 'NoneType' and 'int'")
    case Some(_) => Failure("unsupported operand type(s) for +: 'datetime.datetime' and 'int'")
  }

  /** A subscriber fresh from creation (never ponged, never probed) is sent its message with a ping request. */
  lemma FreshSubscriberIsProbed(pingInterval: int, now: int)
    ensures Decide(None, None, pingInterval, now) == Update
  {
  }

  /** Only a probe that has gone unanswered beyond the grace period evicts: a subscriber with no probe outstanding is never timed out. */
  lemma NoProbeNoTimeout(lastPong: Option<int>, pingInterval: int, now: int)
    ensures Decide(lastPong, None, pingInterval, now) != Timeout
  {
  }

  /** A pong at time t keeps every send up to t + pingInterval plain, so a send right after a pong is OK. */
  lemma PongedIsOk(t: int, lastPing: Option<int>, pingInterval: int, now: int)
    requires now <= t + pingInterval
    ensures Decide(Some(t), lastPing, pingInterval, now) == Ok
  {
  }

  /**
   * The probe that an UPDATE records protects the subscriber for the grace period:
   * until ProbeGrace seconds have passed, further sends probe again but never evict.
   */
  lemma ProbeGivesGrace(lastPong: Option<int>, pingInterval: int, probed: int, now: int)
    requires now <= probed + ProbeGrace
    ensures Decide(lastPong, Some(probed), pingInterval, now) != Timeout
  {
  }

  /**
   * A subscriber that stays silent is evicted: once probed at `probed`, a send more than
   * ProbeGrace seconds later that still finds it overdue reports TIMEOUT.
   */
  lemma SilenceAfterProbeTimesOut(lastPong: Option<int>, pingInterval: int, probed: int, now: int)
    requires Overdue(lastPong, pingInterval, now)
    requires probed + ProbeGrace < now
    ensures Decide(lastPong, Some(probed), pingInterval, now) == Timeout
  {
  }

  /**
   * Whether get_token must ask for a fresh token: when forced, when there is no token,
   * or when the token was issued before now - maxTokenAge. A token always comes with
   * its issue time.
   */
  predicate NeedsFreshToken(force: bool, token: Option<Token>, issued: Option<int>, maxTokenAge: int, now: int)
    requires token.Some? ==> issued.Some?
  {
    force || token.None? || issued.value < now - maxTokenAge
  }

  /** A token issued at `issued` is kept, unforced, for exactly maxTokenAge seconds. */
  lemma TokenKeptWithinMaxAge(token: Token, issued: int, maxTokenAge: int, now: int)
    ensures !NeedsFreshToken(false, Some(token), Some(issued), maxTokenAge, now) <==> now <= issued + maxTokenAge
  {
  }

  /** The datastore key name of subscriber `name` of channel `channel`. */
  function KeyName(channel: string, name: string): (k: string)
    ensures |k| == |channel| + 1 + |name|
    ensures k[..|channel|] == channel && k[|channel|] == ':' && k[|channel| + 1..] == name
  {
    channel + ":" + name
  }

  /** Keys are unique per (channel, name) as long as channel names contain no colon. */
  lemma KeyNameInjective(c1: string, n1: string, c2: string, n2: string)
    requires ':' !in c1 && ':' !in c2
    requires KeyName(c1, n1) == KeyName(c2, n2)
    ensures c1 == c2 && n1 == n2
  {
  }

  /** A colon in a channel name lets two different (channel, name) pairs share one key. */
  lemma KeyNameCollides()
    ensures KeyName("a", "b:c") == KeyName("a:b", "c")
  {
  }
}
