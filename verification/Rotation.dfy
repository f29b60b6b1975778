/** Token caching (internal/stream/token_oauth2.go)
    against session rotation (client_connect.go, tunnelagent/client.go). */
module Rotation {
  import opened Common

  /** How long before expiry the cache stops reusing a token. */
  const CACHE_MARGIN: nat := 45 * SECOND
  /** How long before expiry a session is rotated, at most. */
  const ROTATION_MARGIN: nat := 30 * SECOND

  /** Integer division by four as Go computes it: towards zero. */
  function Quarter(ttl: int): int {
    if ttl >= 0 then ttl / 4 else -((-ttl) / 4)
  }

  /** The rotation timer of a session whose token has ttl left to live. */
  function RotateAfter(ttl: int): int {
    var d := ttl - Min(ROTATION_MARGIN, Quarter(ttl));
    if d > 0 then d else 0
  }

  /** The timer is never negative and, while the token lives, neither later than its expiry nor earlier than
      three quarters of what is left. */
  lemma TimerBounds(ttl: int)
    ensures RotateAfter(ttl) >= 0
    ensures ttl >= 0 ==> RotateAfter(ttl) <= ttl && 4 * RotateAfter(ttl) >= 3 * ttl
    ensures ttl < 0 ==> RotateAfter(ttl) == 0
  {
  }

  /** What is left of a token when the timer fires: a quarter of its life, but no more than 30s. */
  lemma LifeLeftAtRotation(ttl: int)
    ensures ttl - RotateAfter(ttl) <= 30 * SECOND
    ensures 0 <= ttl <= 120 * SECOND ==> ttl - RotateAfter(ttl) == ttl / 4
    ensures ttl >= 120 * SECOND ==> ttl - RotateAfter(ttl) == 30 * SECOND
  {
  }

  /** A granted token; `serial` tells exchanges apart, and a token without expiry never expires. */
  datatype Token = Token(serial: nat, expiry: Option<int>)

  /** The reuse test of oauth2's token cache with an early-expiry margin. */
  predicate Reusable(t: Token, now: int, margin: int) {
    t.expiry.Some? ==> !(t.expiry.value - margin < now)
  }

  /** A session begun with this token finds it too old to reuse when its rotation timer fires. */
  predicate StaleAtRotation(serial: nat, expiry: int, begun: int, margin: int) {
    !Reusable(Token(serial, Some(expiry)), begun + RotateAfter(expiry - begun), margin)
  }

  /** A cache margin guarantees a new exchange after every rotation, for every token lifetime and session
      start, exactly when it exceeds the rotation margin. */
  lemma CacheMarginMustExceedRotationMargin(margin: int)
    ensures (forall serial, expiry, begun :: StaleAtRotation(serial, expiry, begun, margin))
            <==> margin > ROTATION_MARGIN
  {
    if margin > ROTATION_MARGIN {
      forall serial, expiry, begun
        ensures StaleAtRotation(serial, expiry, begun, margin)
      {
        LifeLeftAtRotation(expiry - begun);
      }
    } else {
      LifeLeftAtRotation(4 * ROTATION_MARGIN);
      assert !StaleAtRotation(0, 4 * ROTATION_MARGIN, 0, margin);
    }
  }

  // ----- the cache

  datatype Cache = Cache(token: Option<Token>, exchanges: nat)

  /** The token source's answer and its new cache. `grant` is what the token endpoint would return: nothing
      on failure, otherwise the expiry of the new token. */
  function Fetch(c: Cache, now: int, grant: Option<Option<int>>): (Option<Token>, Cache) {
    if c.token.Some? && Reusable(c.token.value, now, CACHE_MARGIN) then (c.token, c)
    else if grant == None then (None, c)
    else
      var issued := Token(c.exchanges + 1, grant.value);
      (Some(issued), Cache(Some(issued), c.exchanges + 1))
  }

  class OAuth2TokenSource {
    /** The reuse source, built on first use. */
    var started: bool
    var cached: Option<Token>
    var exchanges: nat

    constructor ()
      ensures !started && View() == Cache(None, 0)
    {
      started, cached, exchanges := false, None, 0;
    }

    function View(): Cache
      reads this
    {
      Cache(if started then cached else None, exchanges)
    }

    method TokenWithExpiry(now: int, grant: Option<Option<int>>) returns (token: Option<Token>)
      modifies this
      ensures started && (token, View()) == Fetch(old(View()), now, grant)
    {
      if !started {
        started, cached := true, None;
      }
      if cached.Some? && Reusable(cached.value, now, CACHE_MARGIN) { return cached; }
      if grant == None { return None; }
      exchanges := exchanges + 1;
      cached := Some(Token(exchanges, grant.value));
      token := cached;
    }
  }

  // ----- sessions in a row

  /** One session: when it asked for its token and what the endpoint would grant, when it was established,
      when it ended, and whether the rotation timer ended it. */
  datatype Session = Session(asked: int, grant: Option<Option<int>>, begun: int, ended: int, rotated: bool)

  /** The timer never fires early, and only sessions whose token expires have one. */
  predicate RotatedProperly(s: Session, token: Option<Token>) {
    s.rotated ==> token.Some? && token.value.expiry.Some? &&
                  s.ended >= s.begun + RotateAfter(token.value.expiry.value - s.begun)
  }

  /** tokens[i] is the token of session i and caches[i] the cache before it. */
  ghost predicate IsRun(sessions: seq<Session>, tokens: seq<Option<Token>>, caches: seq<Cache>) {
    && |tokens| == |sessions| && |caches| == |sessions| + 1
    && caches[0] == Cache(None, 0)
    && (forall i :: 0 <= i < |sessions| ==>
          && (tokens[i], caches[i + 1]) == Fetch(caches[i], sessions[i].asked, sessions[i].grant)
          && sessions[i].asked <= sessions[i].begun <= sessions[i].ended
          && RotatedProperly(sessions[i], tokens[i]))
    && (forall i, j :: 0 <= i < j < |sessions| ==> sessions[i].ended <= sessions[j].asked)
  }

  lemma {:induction false} SerialsAreIssued(sessions: seq<Session>, tokens: seq<Option<Token>>, caches: seq<Cache>,
                                            i: nat)
    requires IsRun(sessions, tokens, caches) && i < |caches|
    ensures caches[i].token.Some? ==> caches[i].token.value.serial <= caches[i].exchanges
    decreases i
  {
    if i > 0 {
      SerialsAreIssued(sessions, tokens, caches, i - 1);
      assert (tokens[i - 1], caches[i]) == Fetch(caches[i - 1], sessions[i - 1].asked, sessions[i - 1].grant);
    }
  }

  /** After a rotation the cache holds either the rotated token, by then too old to reuse, or a newer one. */
  lemma {:induction false} RotatedTokenIsStale(sessions: seq<Session>, tokens: seq<Option<Token>>, caches: seq<Cache>,
                                               i: nat, j: nat)
    requires IsRun(sessions, tokens, caches) && i < j <= |sessions| && sessions[i].rotated
    ensures caches[j].token.Some? && tokens[i].Some?
    ensures caches[j].token == tokens[i] || caches[j].token.value.serial > tokens[i].value.serial
    ensures j < |sessions| ==> !Reusable(tokens[i].value, sessions[j].asked, CACHE_MARGIN)
    decreases j
  {
    var t := tokens[i].value;
    LifeLeftAtRotation(t.expiry.value - sessions[i].begun);
    if j == i + 1 {
      assert (tokens[i], caches[i + 1]) == Fetch(caches[i], sessions[i].asked, sessions[i].grant);
    } else {
      RotatedTokenIsStale(sessions, tokens, caches, i, j - 1);
      SerialsAreIssued(sessions, tokens, caches, j - 1);
      assert (tokens[j - 1], caches[j]) == Fetch(caches[j - 1], sessions[j - 1].asked, sessions[j - 1].grant);
    }
  }

  /** No session after a rotation ever reuses the rotated session's token: the next token is a new exchange. */
  lemma RotationForcesExchange(sessions: seq<Session>, tokens: seq<Option<Token>>, caches: seq<Cache>, i: nat, j: nat)
    requires IsRun(sessions, tokens, caches) && i < j < |sessions|
    requires sessions[i].rotated && tokens[j].Some?
    ensures tokens[j].value.serial > tokens[i].value.serial
    ensures j == i + 1 ==> caches[j + 1].exchanges == caches[j].exchanges + 1
  {
    RotatedTokenIsStale(sessions, tokens, caches, i, j);
    SerialsAreIssued(sessions, tokens, caches, j);
    RotatedTokenIsStale(sessions, tokens, caches, i, j + 1);
    assert (tokens[j], caches[j + 1]) == Fetch(caches[j], sessions[j].asked, sessions[j].grant);
  }

  /** The token can be used at this time and for at least 45s more. */
  predicate LivesOn(t: Token, now: int) {
    t.expiry == None || t.expiry.value - now >= 45 * SECOND
  }

  /** A session's token and exchange: a cached token that lives on is reused without an exchange; otherwise the
      endpoint is asked, and its grant is used and cached, or its failure leaves the cache alone. */
  lemma ExchangesOnlyWhenDue(sessions: seq<Session>, tokens: seq<Option<Token>>, caches: seq<Cache>, i: nat)
    requires IsRun(sessions, tokens, caches) && i < |sessions|
    ensures var s, before, after := sessions[i], caches[i], caches[i + 1];
            if before.token.Some? && LivesOn(before.token.value, s.asked)
            then tokens[i] == before.token && after == before
            else if s.grant == None then tokens[i] == None && after == before
            else && tokens[i] == Some(Token(before.exchanges + 1, s.grant.value))
                 && after.token == tokens[i] && after.exchanges == before.exchanges + 1
  {
    assert (tokens[i], caches[i + 1]) == Fetch(caches[i], sessions[i].asked, sessions[i].grant);
  }

  /** In every run a token serves all sessions that ask while it has 45s left: none of them makes an exchange. */
  lemma {:induction false} TokenServesUntilTheMargin(sessions: seq<Session>, tokens: seq<Option<Token>>,
                                                     caches: seq<Cache>, i: nat, j: nat)
    requires IsRun(sessions, tokens, caches) && i < j < |sessions|
    requires tokens[i].Some? && LivesOn(tokens[i].value, sessions[j].asked)
    ensures tokens[j] == tokens[i] && caches[j + 1] == caches[i + 1]
    decreases j
  {
    ExchangesOnlyWhenDue(sessions, tokens, caches, i);
    ExchangesOnlyWhenDue(sessions, tokens, caches, j);
    if i + 1 < j {
      assert sessions[j - 1].asked <= sessions[j - 1].ended <= sessions[j].asked;
      TokenServesUntilTheMargin(sessions, tokens, caches, i, j - 1);
    }
  }
}
