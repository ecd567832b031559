/**
 * Refresh-token rotation. The table forgets: an hour after it was revoked a row may be deleted. The ledger below
 * forgets nothing and records what became of every token ever issued; the table is proved to answer every call
 * as the ledger does.
 */
module RefreshTokens {
  import opened Sequences

  const REFRESH_TOKEN_TTL_SEC: nat := 60 * 60 * 24 * 14
  const ONE_HOUR: nat := 60 * 60 * 1000

  datatype Row = Row(token: string, userId: string, expiresAt: nat, revoked: bool, updatedAt: nat)

  datatype Reply = Session(userId: string, refreshToken: string, expiresAt: nat) | Unauthorized | SignedOut

  /** A token lives for its lifetime from the start of the second it was issued in. */
  function Expiry(now: nat): (at: nat)
    ensures now + REFRESH_TOKEN_TTL_SEC * 1000 - 1000 < at <= now + REFRESH_TOKEN_TTL_SEC * 1000
  {
    (now / 1000 + REFRESH_TOKEN_TTL_SEC) * 1000
  }

  function FindActive(rows: seq<Row>, token: string): (r: Option<nat>)
    ensures r.Some? ==> r.value < |rows| && rows[r.value].token == token && !rows[r.value].revoked
    ensures r.None? ==> forall i :: 0 <= i < |rows| ==> rows[i].token != token || rows[i].revoked
  {
    FindFirst(rows, (row: Row) => row.token == token && !row.revoked)
  }

  function Find(rows: seq<Row>, token: string): (r: Option<nat>)
    ensures r.Some? ==> r.value < |rows| && rows[r.value].token == token
    ensures r.None? ==> forall i :: 0 <= i < |rows| ==> rows[i].token != token
  {
    FindFirst(rows, (row: Row) => row.token == token)
  }

  function Revoke(rows: seq<Row>, i: nat, now: nat): seq<Row>
    requires i < |rows|
  {
    if rows[i].revoked then rows else rows[i := rows[i].(revoked := true, updatedAt := now)]
  }

  predicate Obsolete(row: Row, now: nat) {
    row.revoked && row.updatedAt + ONE_HOUR < now
  }

  function Sweep(rows: seq<Row>, now: nat): seq<Row> {
    if |rows| == 0 then []
    else
      var n := |rows| - 1;
      Sweep(rows[..n], now) + if Obsolete(rows[n], now) then [] else [rows[n]]
  }

  function Issue(rows: seq<Row>, userId: string, token: string, now: nat): seq<Row> {
    rows + [Row(token, userId, Expiry(now), false, now)]
  }

  /** loginByRefresh: the table afterwards, and the answer. */
  function Refresh(rows: seq<Row>, token: string, freshToken: string, now: nat): (seq<Row>, Reply) {
    var found := FindActive(rows, token);
    if found.None? then (rows, Unauthorized)
    else
      var row := rows[found.value];
      if row.expiresAt <= now then (Revoke(rows, found.value, now), Unauthorized)
      else (Sweep(Issue(Revoke(rows, found.value, now), row.userId, freshToken, now), now), Session(row.userId, freshToken, Expiry(now)))
  }

  function Logout(rows: seq<Row>, token: string, now: nat): seq<Row> {
    var found := Find(rows, token);
    if found.Some? then Revoke(rows, found.value, now) else rows
  }

  /** The service over the refresh_token table; every call is taken as one transaction. */
  class AuthService {
    var rows: seq<Row>

    constructor ()
      ensures rows == []
    {
      rows := [];
    }

    /** createOrUpdateGithubUser, once the user is known. */
    method Login(userId: string, freshToken: string, now: nat) returns (reply: Reply)
      modifies this`rows
      ensures rows == Issue(old(rows), userId, freshToken, now)
      ensures reply == Session(userId, freshToken, Expiry(now))
    {
      var nowSec := now / 1000;
      var expiresAt := (nowSec + REFRESH_TOKEN_TTL_SEC) * 1000;
      rows := rows + [Row(freshToken, userId, expiresAt, false, now)];
      return Session(userId, freshToken, expiresAt);
    }

    method LoginByRefresh(refreshToken: string, freshToken: string, now: nat) returns (reply: Reply)
      modifies this`rows
      ensures (rows, reply) == Refresh(old(rows), refreshToken, freshToken, now)
    {
      var nowSec := now / 1000;
      var existing := FindActive(rows, refreshToken);
      if existing.None? {
        return Unauthorized;
      }
      var row := rows[existing.value];
      rows := rows[existing.value := row.(revoked := true, updatedAt := now)];
      if row.expiresAt <= now {
        return Unauthorized;
      }
      var newExpiresAt := (nowSec + REFRESH_TOKEN_TTL_SEC) * 1000;
      rows := rows + [Row(freshToken, row.userId, newExpiresAt, false, now)];
      DeleteObsolete(now);
      return Session(row.userId, freshToken, newExpiresAt);
    }

    method DeleteObsolete(now: nat)
      modifies this`rows
      ensures rows == Sweep(old(rows), now)
    {
      var kept: seq<Row> := [];
      for i := 0 to |rows|
        invariant rows == old(rows)
        invariant kept == Sweep(rows[..i], now)
      {
        assert rows[..i + 1][..i] == rows[..i];
        if !(rows[i].revoked && rows[i].updatedAt + ONE_HOUR < now) {
          kept := kept + [rows[i]];
        }
      }
      assert rows[..|rows|] == rows;
      rows := kept;
    }

    method SignOut(refreshToken: string, now: nat)
      modifies this`rows
      ensures rows == Logout(old(rows), refreshToken, now)
    {
      var token := Find(rows, refreshToken);
      if token.Some? && !rows[token.value].revoked {
        rows := rows[token.value := rows[token.value].(revoked := true, updatedAt := now)];
      }
    }
  }

  // ---------------------------------------------------------------- the ledger

  datatype Fate = Live | Refreshed | LoggedOut | Expired

  /** One token ever issued; chain is the login it descends from, serial counts all tokens. */
  datatype Entry = Entry(userId: string, chain: nat, serial: nat, expiresAt: nat, fate: Fate)

  datatype Step =
    | Tick(ms: nat)
    | LogIn(userId: string, freshToken: string)
    | UseToken(token: string, freshToken: string)
    | LogOut(token: string)

  datatype State = State(rows: seq<Row>, ledger: map<string, Entry>, now: nat)

  const INITIAL := State([], map[], 0)

  predicate IsLive(ledger: map<string, Entry>, token: string) {
    token in ledger && ledger[token].fate.Live?
  }

  function LedgerAfter(ledger: map<string, Entry>, step: Step, now: nat): map<string, Entry> {
    match step
    case Tick(_) => ledger
    case LogIn(userId, freshToken) => ledger[freshToken := Entry(userId, |ledger|, |ledger|, Expiry(now), Live)]
    case UseToken(token, freshToken) =>
      if !IsLive(ledger, token) then ledger
      else
        var e := ledger[token];
        if e.expiresAt <= now then ledger[token := e.(fate := Expired)]
        else ledger[token := e.(fate := Refreshed)][freshToken := Entry(e.userId, e.chain, |ledger|, Expiry(now), Live)]
    case LogOut(token) => if IsLive(ledger, token) then ledger[token := ledger[token].(fate := LoggedOut)] else ledger
  }

  /** What the ledger says the answer must be. */
  function LedgerReply(ledger: map<string, Entry>, step: Step, now: nat): Reply {
    match step
    case LogIn(userId, freshToken) => Session(userId, freshToken, Expiry(now))
    case UseToken(token, freshToken) =>
      if IsLive(ledger, token) && now < ledger[token].expiresAt then Session(ledger[token].userId, freshToken, Expiry(now)) else Unauthorized
    case _ => SignedOut
  }

  function RowsAfter(rows: seq<Row>, step: Step, now: nat): seq<Row> {
    match step
    case Tick(_) => rows
    case LogIn(userId, freshToken) => Issue(rows, userId, freshToken, now)
    case UseToken(token, freshToken) => Refresh(rows, token, freshToken, now).0
    case LogOut(token) => Logout(rows, token, now)
  }

  function TableReply(rows: seq<Row>, step: Step, now: nat): Reply {
    match step
    case LogIn(userId, freshToken) => Session(userId, freshToken, Expiry(now))
    case UseToken(token, freshToken) => Refresh(rows, token, freshToken, now).1
    case _ => SignedOut
  }

  /** New tokens are 64 random bytes; a step whose new token was issued before is skipped. */
  predicate Allowed(s: State, step: Step) {
    (step.LogIn? || step.UseToken?) ==> step.freshToken !in s.ledger
  }

  function Do(s: State, step: Step): State {
    if !Allowed(s, step) then s
    else State(RowsAfter(s.rows, step, s.now), LedgerAfter(s.ledger, step, s.now), if step.Tick? then s.now + step.ms else s.now)
  }

  function Run(steps: seq<Step>): State {
    if |steps| == 0 then INITIAL else Do(Run(steps[..|steps| - 1]), steps[|steps| - 1])
  }

  // ---------------------------------------------------------------- the table follows the ledger

  predicate Matches(row: Row, ledger: map<string, Entry>) {
    && row.token in ledger
    && row.userId == ledger[row.token].userId && row.expiresAt == ledger[row.token].expiresAt
    && (row.revoked <==> !ledger[row.token].fate.Live?)
  }

  predicate HasRow(rows: seq<Row>, token: string) {
    exists i :: 0 <= i < |rows| && rows[i].token == token
  }

  predicate TokensDiffer(rows: seq<Row>) {
    forall i, j :: 0 <= i < j < |rows| ==> rows[i].token != rows[j].token
  }

  predicate Follows(rows: seq<Row>, ledger: map<string, Entry>) {
    && TokensDiffer(rows)
    && (forall i :: 0 <= i < |rows| ==> Matches(rows[i], ledger))
    && (forall t :: t in ledger && IsLive(ledger, t) ==> HasRow(rows, t))
  }

  /** The live token of a chain is the last one the chain was given. */
  predicate ChainsEndLive(ledger: map<string, Entry>) {
    && (forall t :: t in ledger ==> ledger[t].serial < |ledger| && ledger[t].chain < |ledger|)
    && (forall t, u :: t in ledger && u in ledger && ledger[t].chain == ledger[u].chain && ledger[t].fate.Live? && t != u ==>
          ledger[u].serial < ledger[t].serial)
  }

  lemma IssueFollows(rows: seq<Row>, ledger: map<string, Entry>, token: string, e: Entry, now: nat)
    requires Follows(rows, ledger) && token !in ledger && e.fate.Live? && e.expiresAt == Expiry(now)
    ensures Follows(Issue(rows, e.userId, token, now), ledger[token := e])
  {
    var rows', ledger' := Issue(rows, e.userId, token, now), ledger[token := e];
    assert forall i :: 0 <= i < |rows| ==> Matches(rows[i], ledger) && Matches(rows'[i], ledger');
    forall t | IsLive(ledger', t)
      ensures HasRow(rows', t)
    {
      if t == token {
        assert rows'[|rows|].token == t;
      } else {
        assert IsLive(ledger, t) && HasRow(rows, t);
        var i :| 0 <= i < |rows| && rows[i].token == t;
        assert rows'[i].token == t;
      }
    }
  }

  lemma RevokeFollows(rows: seq<Row>, ledger: map<string, Entry>, i: nat, fate: Fate, now: nat)
    requires Follows(rows, ledger) && i < |rows| && !rows[i].revoked && !fate.Live?
    ensures rows[i].token in ledger
    ensures Follows(Revoke(rows, i, now), ledger[rows[i].token := ledger[rows[i].token].(fate := fate)])
  {
    assert Matches(rows[i], ledger);
    var token := rows[i].token;
    var rows', ledger' := Revoke(rows, i, now), ledger[token := ledger[token].(fate := fate)];
    forall j | 0 <= j < |rows|
      ensures Matches(rows'[j], ledger') && rows'[j].token == rows[j].token
    {
      assert Matches(rows[j], ledger);
    }
    forall t | IsLive(ledger', t)
      ensures HasRow(rows', t)
    {
      assert IsLive(ledger, t) && HasRow(rows, t);
      var j :| 0 <= j < |rows| && rows[j].token == t;
      assert rows'[j].token == t;
    }
  }

  lemma {:induction false} SweepKeeps(rows: seq<Row>, now: nat)
    ensures forall r :: r in Sweep(rows, now) <==> r in rows && !Obsolete(r, now)
    ensures TokensDiffer(rows) ==> TokensDiffer(Sweep(rows, now))
  {
    if |rows| > 0 {
      var n := |rows| - 1;
      SweepKeeps(rows[..n], now);
      assert rows == rows[..n] + [rows[n]];
      var kept := Sweep(rows[..n], now);
      assert forall i :: 0 <= i < |kept| ==> kept[i] in rows[..n];
    }
  }

  /** Only revoked rows are deleted, so the table goes on following the ledger. */
  lemma SweepFollows(rows: seq<Row>, ledger: map<string, Entry>, now: nat)
    requires Follows(rows, ledger)
    ensures Follows(Sweep(rows, now), ledger)
  {
    SweepKeeps(rows, now);
    var kept := Sweep(rows, now);
    forall i | 0 <= i < |kept|
      ensures Matches(kept[i], ledger)
    {
      assert kept[i] in rows;
    }
    forall t | IsLive(ledger, t)
      ensures HasRow(kept, t)
    {
      assert HasRow(rows, t);
      var i :| 0 <= i < |rows| && rows[i].token == t;
      assert Matches(rows[i], ledger);
      assert rows[i] in kept;
    }
  }

  lemma FoundExactlyWhenLive(rows: seq<Row>, ledger: map<string, Entry>, token: string)
    requires Follows(rows, ledger)
    ensures FindActive(rows, token).Some? <==> IsLive(ledger, token)
    ensures FindActive(rows, token).Some? ==> Matches(rows[FindActive(rows, token).value], ledger)
    ensures Find(rows, token).Some? && !rows[Find(rows, token).value].revoked <==> IsLive(ledger, token)
  {
    if IsLive(ledger, token) {
      assert HasRow(rows, token);
    }
    assert forall i :: 0 <= i < |rows| ==> Matches(rows[i], ledger);
  }

  lemma StepFollows(s: State, step: Step)
    requires Follows(s.rows, s.ledger)
    ensures Follows(Do(s, step).rows, Do(s, step).ledger)
  {
    if Allowed(s, step) {
      hide Follows, IsLive;
      match step
      case Tick(_) =>
      case LogIn(userId, freshToken) =>
        IssueFollows(s.rows, s.ledger, freshToken, Entry(userId, |s.ledger|, |s.ledger|, Expiry(s.now), Live), s.now);
      case UseToken(token, freshToken) =>
        FoundExactlyWhenLive(s.rows, s.ledger, token);
        var found := FindActive(s.rows, token);
        if found.Some? {
          var e := s.ledger[token];
          if e.expiresAt <= s.now {
            RevokeFollows(s.rows, s.ledger, found.value, Expired, s.now);
          } else {
            RevokeFollows(s.rows, s.ledger, found.value, Refreshed, s.now);
            var revoked := Revoke(s.rows, found.value, s.now);
            var spent := s.ledger[token := e.(fate := Refreshed)];
            var successor := Entry(e.userId, e.chain, |s.ledger|, Expiry(s.now), Live);
            IssueFollows(revoked, spent, freshToken, successor, s.now);
            SweepFollows(Issue(revoked, e.userId, freshToken, s.now), spent[freshToken := successor], s.now);
          }
        }
      case LogOut(token) =>
        FoundExactlyWhenLive(s.rows, s.ledger, token);
        var found := Find(s.rows, token);
        if found.Some? && !s.rows[found.value].revoked {
          RevokeFollows(s.rows, s.ledger, found.value, LoggedOut, s.now);
        }
    }
  }

  lemma EndingKeepsChains(ledger: map<string, Entry>, token: string, fate: Fate)
    requires ChainsEndLive(ledger) && token in ledger && !fate.Live?
    ensures ChainsEndLive(ledger[token := ledger[token].(fate := fate)])
  {
    assert |ledger[token := ledger[token].(fate := fate)]| == |ledger| by {
      assert ledger[token := ledger[token].(fate := fate)].Keys == ledger.Keys;
    }
  }

  lemma GrowingKeepsChains(ledger: map<string, Entry>, token: string, e: Entry)
    requires ChainsEndLive(ledger) && token !in ledger && e.serial == |ledger| && e.chain <= |ledger|
    requires forall t :: t in ledger && ledger[t].chain == e.chain ==> !ledger[t].fate.Live?
    ensures ChainsEndLive(ledger[token := e])
  {
    assert |ledger[token := e]| == |ledger| + 1;
  }

  lemma StepKeepsChains(s: State, step: Step)
    requires ChainsEndLive(s.ledger)
    ensures ChainsEndLive(Do(s, step).ledger)
  {
    if Allowed(s, step) {
      match step
      case Tick(_) =>
      case LogIn(userId, freshToken) =>
        GrowingKeepsChains(s.ledger, freshToken, Entry(userId, |s.ledger|, |s.ledger|, Expiry(s.now), Live));
      case UseToken(token, freshToken) =>
        if IsLive(s.ledger, token) {
          EndingKeepsChains(s.ledger, token, Expired);
          EndingKeepsChains(s.ledger, token, Refreshed);
          var e := s.ledger[token];
          var spent := s.ledger[token := e.(fate := Refreshed)];
          if s.now < e.expiresAt {
            assert spent.Keys == s.ledger.Keys && e.chain < |s.ledger|;
            assert |spent| == |s.ledger|;
            assert forall t :: t in spent && spent[t].chain == e.chain ==> !spent[t].fate.Live?;
            hide ChainsEndLive;
            GrowingKeepsChains(spent, freshToken, Entry(e.userId, e.chain, |s.ledger|, Expiry(s.now), Live));
          }
        }
      case LogOut(token) =>
        if IsLive(s.ledger, token) {
          EndingKeepsChains(s.ledger, token, LoggedOut);
        }
    }
  }

  lemma {:induction false} InvariantHolds(steps: seq<Step>)
    ensures Follows(Run(steps).rows, Run(steps).ledger) && ChainsEndLive(Run(steps).ledger)
  {
    if |steps| > 0 {
      var n := |steps| - 1;
      InvariantHolds(steps[..n]);
      StepFollows(Run(steps[..n]), steps[n]);
      StepKeepsChains(Run(steps[..n]), steps[n]);
    }
  }

  // ---------------------------------------------------------------- main results

  /**
   * The table answers every call as the full history does: a token opens a session exactly when it was issued,
   * has not been used or logged out, and has not expired. Deleting old rows is invisible.
   */
  lemma TableAnswersAsLedger(steps: seq<Step>, step: Step)
    ensures var s := Run(steps); TableReply(s.rows, step, s.now) == LedgerReply(s.ledger, step, s.now)
  {
    InvariantHolds(steps);
    if step.UseToken? {
      FoundExactlyWhenLive(Run(steps).rows, Run(steps).ledger, step.token);
    }
  }

  predicate Succeeds(s: State, step: Step, token: string) {
    step.UseToken? && step.token == token && Allowed(s, step) && TableReply(s.rows, step, s.now).Session?
  }

  function SuccessfulRefreshes(steps: seq<Step>, token: string): nat {
    if |steps| == 0 then 0
    else
      var n := |steps| - 1;
      SuccessfulRefreshes(steps[..n], token) + if Succeeds(Run(steps[..n]), steps[n], token) then 1 else 0
  }

  predicate WasRefreshed(ledger: map<string, Entry>, token: string) {
    token in ledger && ledger[token].fate.Refreshed?
  }

  /** Single use: over a whole run a token string buys at most one session. */
  lemma {:induction false} TokenIsUsedAtMostOnce(steps: seq<Step>, token: string)
    ensures SuccessfulRefreshes(steps, token) == if WasRefreshed(Run(steps).ledger, token) then 1 else 0
  {
    if |steps| > 0 {
      var n := |steps| - 1;
      TokenIsUsedAtMostOnce(steps[..n], token);
      TableAnswersAsLedger(steps[..n], steps[n]);
    }
  }

  /** However often a login is renewed, at most one of its tokens is unrevoked, and that is the last it was given. */
  lemma OneUnrevokedTokenPerLogin(steps: seq<Step>, i: nat, u: string)
    requires i < |Run(steps).rows| && !Run(steps).rows[i].revoked && u in Run(steps).ledger
    ensures var s := Run(steps); var t := s.rows[i].token;
            && t in s.ledger
            && (s.ledger[u].chain == s.ledger[t].chain && u != t ==>
                  s.ledger[u].serial < s.ledger[t].serial
                  && forall j :: 0 <= j < |s.rows| && s.rows[j].token == u ==> s.rows[j].revoked)
  {
    InvariantHolds(steps);
    var s := Run(steps);
    assert forall j :: 0 <= j < |s.rows| ==> Matches(s.rows[j], s.ledger);
  }

  function Active(rows: seq<Row>, userId: string): nat {
    if |rows| == 0 then 0
    else
      var n := |rows| - 1;
      Active(rows[..n], userId) + if rows[n].userId == userId && !rows[n].revoked then 1 else 0
  }

  lemma {:induction false} ActiveAfterRevoke(rows: seq<Row>, i: nat, now: nat, userId: string)
    requires i < |rows| && !rows[i].revoked
    ensures Active(Revoke(rows, i, now), userId) == Active(rows, userId) - if rows[i].userId == userId then 1 else 0
  {
    var n := |rows| - 1;
    var rows' := Revoke(rows, i, now);
    if i == n {
      assert rows'[..n] == rows[..n];
    } else {
      ActiveAfterRevoke(rows[..n], i, now, userId);
      assert rows'[..n] == Revoke(rows[..n], i, now);
    }
  }

  lemma ActiveOfLast(rows: seq<Row>, row: Row, userId: string)
    ensures Active(rows + [row], userId) == Active(rows, userId) + if row.userId == userId && !row.revoked then 1 else 0
  {
    assert (rows + [row])[..|rows|] == rows;
  }

  lemma {:induction false} ActiveAfterSweep(rows: seq<Row>, now: nat, userId: string)
    ensures Active(Sweep(rows, now), userId) == Active(rows, userId)
  {
    hide Active;
    if |rows| > 0 {
      var n := |rows| - 1;
      ActiveAfterSweep(rows[..n], now, userId);
      var kept := Sweep(rows[..n], now);
      ActiveOfLast(rows[..n], rows[n], userId);
      ActiveOfLast(kept, rows[n], userId);
      assert rows == rows[..n] + [rows[n]] && kept + [] == kept;
    } else {
      assert Sweep(rows, now) == rows;
    }
  }

  /** Conservation: a renewal trades one unrevoked token for another; a failed one takes away at most the expired token. */
  lemma RefreshConservesTokens(rows: seq<Row>, token: string, freshToken: string, now: nat, userId: string)
    ensures var (rows', reply) := Refresh(rows, token, freshToken, now);
            var found := FindActive(rows, token);
            Active(rows', userId) ==
            if found.Some? && reply.Unauthorized? && rows[found.value].userId == userId then Active(rows, userId) - 1
            else Active(rows, userId)
  {
    var found := FindActive(rows, token);
    if found.Some? {
      ActiveAfterRevoke(rows, found.value, now, userId);
      var revoked := Revoke(rows, found.value, now);
      var issued := Issue(revoked, rows[found.value].userId, freshToken, now);
      assert issued[..|revoked|] == revoked;
      ActiveAfterSweep(issued, now, userId);
    }
  }
}
