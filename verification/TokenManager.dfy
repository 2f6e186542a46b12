/** Session tokens in memory with a sliding expiry, and the mirror its change sink maintains. A token is
    known by its hash; `None` as expiry is the zero time, which never comes. */
module TokenManager {
  import opened Text

  datatype Claims = Claims(session: string, client: string, expires: Option<int>, role: string)

  datatype Record = Record(claims: Claims, ttl: nat)

  datatype Verdict = Accepted(claims: Claims) | Expired | Unknown

  /** The manager's tokens and what its sink has written to the store. */
  datatype State = State(tokens: map<string, Record>, mirror: map<string, Claims>)

  function Later(now: int, ttl: nat): Option<int> {
    if ttl > 0 then Some(now + ttl) else None
  }

  function NonNegative(ttl: int): nat {
    if ttl < 0 then 0 else ttl
  }

  predicate IsExpired(c: Claims, now: int) {
    c.expires.Some? && now > c.expires.value
  }

  // ---------------------------------------------------------------- operations as steps

  datatype Step =
    | Issue(hash: string, session: string, client: string, ttl: int, role: string, now: int)
    | Verify(hash: string, now: int)
    | Extend(hash: string, ttl: int, now: int)
    | Revoke(hash: string)
    | RevokeSession(session: string)
    | ExtendSession(session: string, ttl: int, now: int)
    | Restart

  function Put(s: State, hash: string, r: Record): State {
    State(s.tokens[hash := r], s.mirror[hash := r.claims])
  }

  function Drop(s: State, hashes: set<string>): State {
    State(s.tokens - hashes, s.mirror - hashes)
  }

  function OfSession(s: State, session: string): set<string> {
    set h | h in s.tokens && s.tokens[h].claims.session == session
  }

  function Reset(r: Record, ttl: nat, now: int): Record {
    Record(r.claims.(expires := Later(now, ttl)), ttl)
  }

  function Restored(mirror: map<string, Claims>): map<string, Record> {
    map h | h in mirror :: Record(mirror[h], 0)
  }

  function Judge(s: State, hash: string, now: int): Verdict {
    if hash !in s.tokens then Unknown
    else
      var r := s.tokens[hash];
      if IsExpired(r.claims, now) then Expired
      else if r.ttl > 0 then Accepted(Reset(r, r.ttl, now).claims)
      else Accepted(r.claims)
  }

  function ResetAll(s: State, hit: set<string>, ttl: nat, now: int): State
    requires hit <= s.tokens.Keys
  {
    State(map h | h in s.tokens :: if h in hit then Reset(s.tokens[h], ttl, now) else s.tokens[h],
          map h | h in s.mirror.Keys + hit :: if h in hit then Reset(s.tokens[h], ttl, now).claims else s.mirror[h])
  }

  function Apply(s: State, step: Step): State {
    match step
    case Issue(hash, session, client, ttl, role, now) =>
      var t := NonNegative(ttl);
      Put(s, hash, Record(Claims(session, client, Later(now, t), role), t))
    case Verify(hash, now) =>
      if hash !in s.tokens then s
      else if IsExpired(s.tokens[hash].claims, now) then Drop(s, {hash})
      else if s.tokens[hash].ttl > 0 then Put(s, hash, Reset(s.tokens[hash], s.tokens[hash].ttl, now))
      else s
    case Extend(hash, ttl, now) =>
      if hash !in s.tokens then s
      else if IsExpired(s.tokens[hash].claims, now) then Drop(s, {hash})
      else Put(s, hash, Reset(s.tokens[hash], NonNegative(ttl), now))
    case Revoke(hash) => if hash in s.tokens then Drop(s, {hash}) else s
    case RevokeSession(session) => Drop(s, OfSession(s, session))
    case ExtendSession(session, ttl, now) => ResetAll(s, OfSession(s, session), NonNegative(ttl), now)
    case Restart => State(Restored(s.mirror), s.mirror)
  }

  function Run(s: State, steps: seq<Step>): State
    decreases |steps|
  {
    if steps == [] then s else Run(Apply(s, steps[0]), steps[1..])
  }

  // ---------------------------------------------------------------- the manager

  class Manager {
    var tokens: map<string, Record>
    /** What the sink has written. */
    var mirror: map<string, Claims>

    function Now(): State
      reads this
    {
      State(tokens, mirror)
    }

    constructor ()
      ensures Now() == State(map[], map[])
    {
      tokens, mirror := map[], map[];
    }

    /** The persistence sink: upsert or delete. */
    method OnChange(hash: string, claims: Claims, deleted: bool)
      modifies this`mirror
      ensures mirror == if deleted then old(mirror) - {hash} else old(mirror)[hash := claims]
    {
      if deleted {
        mirror := mirror - {hash};
      } else {
        mirror := mirror[hash := claims];
      }
    }

    /** A record written, or removed, in memory and then reported to the sink. */
    method Write(hash: string, r: Record)
      modifies this
      ensures Now() == Put(old(Now()), hash, r)
    {
      tokens := tokens[hash := r];
      OnChange(hash, r.claims, false);
    }

    method Remove(hash: string)
      requires hash in tokens
      modifies this
      ensures Now() == Drop(old(Now()), {hash})
    {
      var r := tokens[hash];
      tokens := tokens - {hash};
      OnChange(hash, r.claims, true);
    }

    method Restore(hash: string, claims: Claims)
      modifies this`tokens
      ensures tokens == old(tokens)[hash := Record(claims, 0)]
    {
      tokens := tokens[hash := Record(claims, 0)];
    }

    /** A new manager filled from the mirror. */
    method RestoreAll()
      modifies this
      ensures Now() == Apply(old(Now()), Restart)
    {
      tokens := map[];
      var todo := mirror.Keys;
      while todo != {}
        invariant todo <= mirror.Keys && mirror == old(mirror)
        invariant tokens == map h | h in mirror && h !in todo :: Record(mirror[h], 0)
        decreases todo
      {
        var h :| h in todo;
        Restore(h, mirror[h]);
        todo := todo - {h};
      }
    }

    method IssueWithRole(hash: string, session: string, client: string, ttl: int, role: string, now: int)
      returns (expires: Option<int>)
      modifies this
      ensures Now() == Apply(old(Now()), Issue(hash, session, client, ttl, role, now))
      ensures expires == Later(now, NonNegative(ttl))
    {
      var t: nat := if ttl < 0 then 0 else ttl;
      expires := None;
      if t > 0 {
        expires := Some(now + t);
      }
      Write(hash, Record(Claims(session, client, expires, role), t));
    }

    method VerifyToken(hash: string, now: int) returns (v: Verdict)
      modifies this
      ensures Now() == Apply(old(Now()), Verify(hash, now))
      ensures v == Judge(old(Now()), hash, now)
    {
      if hash !in tokens {
        return Unknown;
      }
      var r := tokens[hash];
      if r.claims.expires.Some? && now > r.claims.expires.value {
        Remove(hash);
        return Expired;
      }
      if r.ttl > 0 {
        r := r.(claims := r.claims.(expires := Some(now + r.ttl)));
        Write(hash, r);
      }
      return Accepted(r.claims);
    }

    method ExtendToken(hash: string, ttl: int, now: int) returns (v: Verdict)
      modifies this
      ensures Now() == Apply(old(Now()), Extend(hash, ttl, now))
      ensures v.Unknown? <==> hash !in old(tokens)
      ensures v.Expired? <==> hash in old(tokens) && IsExpired(old(tokens)[hash].claims, now)
      ensures v.Accepted? ==> v.claims.expires == Later(now, NonNegative(ttl))
    {
      if hash !in tokens {
        return Unknown;
      }
      var r := tokens[hash];
      if r.claims.expires.Some? && now > r.claims.expires.value {
        Remove(hash);
        return Expired;
      }
      var t: nat := if ttl < 0 then 0 else ttl;
      r := Record(r.claims.(expires := if t == 0 then None else Some(now + t)), t);
      Write(hash, r);
      return Accepted(r.claims);
    }

    method RevokeToken(hash: string) returns (existed: bool)
      modifies this
      ensures Now() == Apply(old(Now()), Revoke(hash))
      ensures existed <==> hash in old(tokens)
    {
      existed := hash in tokens;
      if existed {
        Remove(hash);
      }
    }

    method RemoveNext(hash: string, ghost start: State, ghost hit: set<string>)
      requires hash in tokens && Now() == Drop(start, hit)
      modifies this
      ensures Now() == Drop(start, hit + {hash})
    {
      Remove(hash);
      DropOneMore(start, hit, hash);
    }

    method RevokeSessionTokens(session: string) returns (n: nat)
      modifies this
      ensures Now() == Apply(old(Now()), RevokeSession(session))
      ensures n == |OfSession(old(Now()), session)|
    {
      n := 0;
      var todo := tokens.Keys;
      ghost var start := Now();
      while todo != {}
        invariant todo <= start.tokens.Keys
        invariant Now() == Drop(start, Seen(start, session, todo)) && n == |Seen(start, session, todo)|
        decreases todo
      {
        var h :| h in todo;
        SeenOneMore(start, session, todo, h);
        if tokens[h].claims.session == session {
          RemoveNext(h, start, Seen(start, session, todo));
          n := n + 1;
        }
        todo := todo - {h};
      }
      SeenAll(start, session);
    }

    method ExtendSessionTokens(session: string, ttl: int, now: int) returns (found: bool, expires: Option<int>)
      modifies this
      ensures Now() == Apply(old(Now()), ExtendSession(session, ttl, now))
      ensures found <==> OfSession(old(Now()), session) != {}
      ensures found ==> expires == Later(now, NonNegative(ttl))
    {
      var t: nat := if ttl < 0 then 0 else ttl;
      expires := None;
      if t > 0 {
        expires := Some(now + t);
      }
      found := false;
      var todo := tokens.Keys;
      ghost var start, hit := Now(), {};
      while todo != {}
        invariant todo <= start.tokens.Keys && hit == Seen(start, session, todo) && (found <==> hit != {})
        invariant Now() == ResetAll(start, hit, t, now)
        decreases todo
      {
        var h :| h in todo;
        SeenOneMore(start, session, todo, h);
        todo := todo - {h};
        if tokens[h].claims.session == session {
          Write(h, Record(tokens[h].claims.(expires := expires), t));
          found := true;
          ResetOneMore(start, hit, h, t, now);
          hit := hit + {h};
        }
      }
      SeenAll(start, session);
    }
  }

  /** The session's tokens that a loop with `todo` left has passed. */
  ghost function Seen(s: State, session: string, todo: set<string>): set<string> {
    OfSession(s, session) - todo
  }

  lemma SeenOneMore(s: State, session: string, todo: set<string>, h: string)
    requires h in todo && h in s.tokens
    ensures h !in Seen(s, session, todo)
    ensures Seen(s, session, todo - {h}) ==
            Seen(s, session, todo) + if s.tokens[h].claims.session == session then {h} else {}
  {
  }

  lemma SeenAll(s: State, session: string)
    ensures Seen(s, session, {}) == OfSession(s, session)
  {
  }

  lemma DropOneMore(s: State, hit: set<string>, h: string)
    ensures Drop(Drop(s, hit), {h}) == Drop(s, hit + {h})
  {
    assert s.tokens - hit - {h} == s.tokens - (hit + {h});
    assert s.mirror - hit - {h} == s.mirror - (hit + {h});
  }

  lemma ResetOneMore(s: State, hit: set<string>, h: string, ttl: nat, now: int)
    requires hit <= s.tokens.Keys && h in s.tokens
    ensures ResetAll(s, hit + {h}, ttl, now) == Put(ResetAll(s, hit, ttl, now), h, Reset(s.tokens[h], ttl, now))
  {
    var more, one := ResetAll(s, hit + {h}, ttl, now), Put(ResetAll(s, hit, ttl, now), h, Reset(s.tokens[h], ttl, now));
    assert more.tokens == one.tokens;
    assert more.mirror == one.mirror;
  }

  // ---------------------------------------------------------------- the mirror

  function ClaimsOf(tokens: map<string, Record>): map<string, Claims> {
    map h | h in tokens :: tokens[h].claims
  }

  lemma MirrorStep(s: State, step: Step)
    requires s.mirror == ClaimsOf(s.tokens)
    ensures Apply(s, step).mirror == ClaimsOf(Apply(s, step).tokens)
  {
  }

  /** After any operations the mirror holds exactly the live claims. */
  lemma {:induction false} MirrorIsExact(s: State, steps: seq<Step>)
    requires s.mirror == ClaimsOf(s.tokens)
    ensures Run(s, steps).mirror == ClaimsOf(Run(s, steps).tokens)
    decreases |steps|
  {
    if steps != [] {
      MirrorStep(s, steps[0]);
      MirrorIsExact(Apply(s, steps[0]), steps[1..]);
    }
  }

  // ---------------------------------------------------------------- the life of one token

  /** One token told by its history: when it was last touched, or the date a restart froze. */
  datatype Life =
    | Absent
    | Sliding(session: string, touched: int, ttl: nat)
    | Until(session: string, deadline: int)
    | Forever(session: string)

  predicate ValidAt(life: Life, now: int) {
    match life
    case Absent => false
    case Sliding(_, touched, ttl) => now <= touched + ttl
    case Until(_, deadline) => now <= deadline
    case Forever(_) => true
  }

  function Renewed(session: string, ttl: int, now: int): Life {
    if ttl > 0 then Sliding(session, now, ttl) else Forever(session)
  }

  function Live(life: Life, hash: string, step: Step): Life {
    match step
    case Issue(h, session, _, ttl, _, now) => if h == hash then Renewed(session, ttl, now) else life
    case Verify(h, now) =>
      if h != hash || life.Absent? then life
      else if !ValidAt(life, now) then Absent
      else if life.Sliding? then life.(touched := now)
      else life
    case Extend(h, ttl, now) =>
      if h != hash || life.Absent? then life
      else if !ValidAt(life, now) then Absent
      else Renewed(life.session, ttl, now)
    case Revoke(h) => if h == hash then Absent else life
    case RevokeSession(session) => if !life.Absent? && life.session == session then Absent else life
    case ExtendSession(session, ttl, now) =>
      if !life.Absent? && life.session == session then Renewed(session, ttl, now) else life
    case Restart => if life.Sliding? then Until(life.session, life.touched + life.ttl) else life
  }

  function LifeAfter(life: Life, hash: string, steps: seq<Step>): Life
    decreases |steps|
  {
    if steps == [] then life else LifeAfter(Live(life, hash, steps[0]), hash, steps[1..])
  }

  predicate Tells(life: Life, s: State, hash: string) {
    match life
    case Absent => hash !in s.tokens
    case Sliding(session, touched, ttl) =>
      && ttl > 0 && hash in s.tokens && s.tokens[hash].ttl == ttl
      && s.tokens[hash].claims.expires == Some(touched + ttl) && s.tokens[hash].claims.session == session
    case Until(session, deadline) =>
      && hash in s.tokens && s.tokens[hash].ttl == 0
      && s.tokens[hash].claims.expires == Some(deadline) && s.tokens[hash].claims.session == session
    case Forever(session) =>
      && hash in s.tokens && s.tokens[hash].ttl == 0
      && s.tokens[hash].claims.expires == None && s.tokens[hash].claims.session == session
  }

  lemma LifeStep(life: Life, s: State, hash: string, step: Step)
    requires Tells(life, s, hash) && s.mirror == ClaimsOf(s.tokens)
    ensures Tells(Live(life, hash, step), Apply(s, step), hash)
  {
  }

  lemma {:induction false} LifeRun(life: Life, s: State, hash: string, steps: seq<Step>)
    requires Tells(life, s, hash) && s.mirror == ClaimsOf(s.tokens)
    ensures Tells(LifeAfter(life, hash, steps), Run(s, steps), hash)
    decreases |steps|
  {
    if steps != [] {
      LifeStep(life, s, hash, steps[0]);
      MirrorStep(s, steps[0]);
      LifeRun(Live(life, hash, steps[0]), Apply(s, steps[0]), hash, steps[1..]);
    }
  }

  /** After any operations, a sliding token is accepted at exactly the times up to its last touch plus its
      TTL, whatever happened to the others; once past that it is expired, and then unknown. */
  lemma VerdictFollowsHistory(hash: string, steps: seq<Step>, now: int)
    ensures var life, s := LifeAfter(Absent, hash, steps), Run(State(map[], map[]), steps);
            && (Judge(s, hash, now).Accepted? <==> ValidAt(life, now))
            && (Judge(s, hash, now).Unknown? <==> life.Absent?)
            && (Judge(s, hash, now).Expired? ==> forall later :: Judge(Apply(s, Verify(hash, now)), hash, later).Unknown?)
  {
    LifeRun(Absent, State(map[], map[]), hash, steps);
  }

  // ---------------------------------------------------------------- restart

  /** The same answer: accepted, expired or unknown. */
  predicate SameAnswer(a: Verdict, b: Verdict) {
    (a.Accepted? <==> b.Accepted?) && (a.Expired? <==> b.Expired?)
  }

  /** A manager rebuilt from the mirror gives every token the same answer at its next check; from then on
      its expiry stands still. */
  lemma RestartKeepsAnswers(steps: seq<Step>, hash: string, now: int)
    ensures var s := Run(State(map[], map[]), steps);
            var r := Apply(s, Restart);
            && SameAnswer(Judge(r, hash, now), Judge(s, hash, now))
            && (Judge(r, hash, now).Accepted? ==>
                  Apply(r, Verify(hash, now)).tokens[hash] == r.tokens[hash]
                  && r.tokens[hash].claims == s.tokens[hash].claims)
  {
    MirrorIsExact(State(map[], map[]), steps);
  }

  /** The price of a restart, exactly, on a clock that does not go back: at a second check the rebuilt
      manager disagrees when the token was sliding and the check falls after the frozen expiry but within
      a TTL of the first check. */
  lemma RestartStopsSliding(steps: seq<Step>, hash: string, now: int, later: int)
    requires Judge(Run(State(map[], map[]), steps), hash, now).Accepted?
    requires var r := Run(State(map[], map[]), steps).tokens[hash];
             r.claims.expires.Some? ==> r.claims.expires.value <= now + r.ttl || r.ttl == 0
    ensures var s := Run(State(map[], map[]), steps);
            var kept, rebuilt := Apply(s, Verify(hash, now)), Apply(Apply(s, Restart), Verify(hash, now));
            var r := s.tokens[hash];
            SameAnswer(Judge(kept, hash, later), Judge(rebuilt, hash, later)) <==>
            !(r.ttl > 0 && r.claims.expires.Some? && r.claims.expires.value < later <= now + r.ttl)
  {
    MirrorIsExact(State(map[], map[]), steps);
    LifeRun(Absent, State(map[], map[]), hash, steps);
  }
}
