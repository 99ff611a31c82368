/** The refresh_sessions table: the SQL predicates that decide when a session is
    usable, the repository that runs them, and what every history of repository
    calls preserves. */
module RefreshSessions {

  import opened Common

  type UserId = nat
  type TokenHash = string

  /** How long a rotated token stays usable, in seconds. */
  const ROTATION_GRACE: nat := 30

  datatype Row = Row(
    userId: UserId,
    expiresAt: Instant,
    lastUsedAt: Option<Instant>,
    revokedAt: Option<Instant>,
    graceUntil: Option<Instant>)

  /** Rows by token hash; the column is declared UNIQUE. */
  type Table = map<TokenHash, Row>

  datatype SessionError = InvalidRefreshToken | DuplicateToken

  /** `revoked_at IS NULL OR rotation_grace_until > now`, with SQL's reading of NULL. */
  predicate Revocable(row: Row, now: Instant) {
    row.revokedAt.None? || (row.graceUntil.Some? && now < row.graceUntil.value)
  }

  predicate Active(row: Row, now: Instant) {
    Revocable(row, now) && now < row.expiresAt
  }

  predicate ActiveIn(rows: Table, token: TokenHash, now: Instant) {
    token in rows && Active(rows[token], now)
  }

  function Fresh(userId: UserId, expiresAt: Instant): Row {
    Row(userId, expiresAt, None, None, None)
  }

  /** The UPDATE of a rotation: COALESCE keeps the first grace deadline. */
  function Rotated(row: Row, now: Instant): Row {
    row.(revokedAt := Some(now),
         lastUsedAt := Some(now),
         graceUntil := if row.graceUntil.Some? then row.graceUntil else Some(now + ROTATION_GRACE))
  }

  function Revoked(row: Row, now: Instant): Row {
    if Revocable(row, now) then row.(revokedAt := Some(now), graceUntil := None) else row
  }

  /** Rotation commits only for an active row of the same user and an unused replacement hash. */
  predicate CanRotate(rows: Table, token: TokenHash, replacement: TokenHash, userId: UserId, now: Instant) {
    ActiveIn(rows, token, now) && rows[token].userId == userId && replacement !in rows
  }

  datatype Operation =
    | Create(token: TokenHash, userId: UserId, expiresAt: Instant)
    | Rotate(token: TokenHash, replacement: TokenHash, userId: UserId, expiresAt: Instant)
    | Revoke(token: TokenHash)
    | RevokeAll(userId: UserId)

  /** The table after one operation commits or fails at time `now`. */
  function Apply(rows: Table, op: Operation, now: Instant): Table {
    match op
    case Create(token, userId, expiresAt) =>
      if token in rows then rows else rows[token := Fresh(userId, expiresAt)]
    case Rotate(token, replacement, userId, expiresAt) =>
      if CanRotate(rows, token, replacement, userId, now)
      then rows[token := Rotated(rows[token], now)][replacement := Fresh(userId, expiresAt)]
      else rows
    case Revoke(token) =>
      if token in rows then rows[token := Revoked(rows[token], now)] else rows
    case RevokeAll(userId) =>
      map token | token in rows :: if rows[token].userId == userId then Revoked(rows[token], now) else rows[token]
  }

  /** The repository; every method is one atomic statement or transaction. */
  class RefreshSessionRepository {
    var rows: Table

    constructor ()
      ensures rows == map[]
    {
      rows := map[];
    }

    method CreateSession(token: TokenHash, userId: UserId, expiresAt: Instant, ghost now: Instant)
      returns (created: Result<(), SessionError>)
      modifies this
      ensures rows == Apply(old(rows), Create(token, userId, expiresAt), now)
      ensures token !in old(rows) ==> token in rows && rows[token] == Row(userId, expiresAt, None, None, None)
      ensures created == if token in old(rows) then Err(DuplicateToken) else Ok(())
    {
      if token in rows {
        return Err(DuplicateToken);
      }
      rows := rows[token := Fresh(userId, expiresAt)];
      created := Ok(());
    }

    method FindActive(token: TokenHash, now: Instant) returns (found: Result<Row, SessionError>)
      ensures found.Ok? <==>
        && token in rows && now < rows[token].expiresAt
        && (rows[token].revokedAt.None? || (rows[token].graceUntil.Some? && now < rows[token].graceUntil.value))
      ensures found == if ActiveIn(rows, token, now) then Ok(rows[token]) else Err(InvalidRefreshToken)
    {
      if token in rows && Active(rows[token], now) {
        return Ok(rows[token]);
      }
      found := Err(InvalidRefreshToken);
    }

    /** Lock, guarded update, insert; a failure after the update rolls it back. */
    method RotateSession(token: TokenHash, replacement: TokenHash, userId: UserId, expiresAt: Instant, now: Instant)
      returns (rotated: Result<(), SessionError>)
      modifies this
      ensures rows == Apply(old(rows), Rotate(token, replacement, userId, expiresAt), now)
      ensures rotated.Ok? <==> ActiveIn(old(rows), token, now) && old(rows)[token].userId == userId && replacement !in old(rows)
      ensures rotated.Err? && rotated.error == DuplicateToken ==> replacement in old(rows)
    {
      var begin := rows;
      var current := FindActive(token, now);
      if current.Err? || current.value.userId != userId {
        return Err(InvalidRefreshToken);
      }
      if !Revocable(rows[token], now) {
        return Err(InvalidRefreshToken);
      }
      rows := rows[token := Rotated(rows[token], now)];
      rotated := CreateSession(replacement, userId, expiresAt, now);
      if rotated.Err? {
        rows := begin;
      }
    }

    method RevokeSession(token: TokenHash, now: Instant)
      modifies this
      ensures rows == Apply(old(rows), Revoke(token), now)
      ensures !ActiveIn(rows, token, now) && OthersUnchanged(old(rows), rows, {token})
    {
      RevocationEnds(rows, token, now, now);
      if token in rows && Revocable(rows[token], now) {
        rows := rows[token := Revoked(rows[token], now)];
      }
      assert token in rows ==> rows[token := rows[token]] == rows;
    }

    /** Visits the user's rows one by one, in no particular order. */
    method RevokeUserSessions(userId: UserId, now: Instant)
      modifies this
      ensures rows == Apply(old(rows), RevokeAll(userId), now)
      ensures forall token :: token in rows && rows[token].userId == userId ==> !Active(rows[token], now)
      ensures forall token :: token in rows && rows[token].userId != userId ==> token in old(rows) && rows[token] == old(rows)[token]
    {
      var pending := rows.Keys;
      while pending != {}
        invariant rows.Keys == old(rows).Keys && pending <= rows.Keys
        invariant forall token :: token in pending ==> rows[token] == old(rows)[token]
        invariant forall token :: token in rows.Keys - pending ==>
          rows[token] == Apply(old(rows), RevokeAll(userId), now)[token]
        decreases pending
      {
        var token :| token in pending;
        if rows[token].userId == userId && Revocable(rows[token], now) {
          rows := rows[token := rows[token].(revokedAt := Some(now), graceUntil := None)];
        }
        pending := pending - {token};
      }
    }
  }

  /** An operation commits at `time` with the clock reading its caller took at some earlier moment. */
  datatype Timed = At(time: Instant, reading: Instant, op: Operation)

  /** Operations commit in clock order, none before `start` and none after `finish`. */
  predicate Chronological(start: Instant, history: seq<Timed>, finish: Instant)
    decreases |history|
  {
    if history == [] then start <= finish
    else
      && start <= history[0].time && history[0].reading <= history[0].time
      && Chronological(history[0].time, history[1..], finish)
  }

  function Replay(rows: Table, history: seq<Timed>): Table
    decreases |history|
  {
    if history == [] then rows
    else Replay(Apply(rows, history[0].op, history[0].reading), history[1..])
  }

  lemma {:induction false} ChronologicalSpan(start: Instant, history: seq<Timed>, finish: Instant)
    requires Chronological(start, history, finish)
    ensures start <= finish
    decreases |history|
  {
    if history != [] {
      ChronologicalSpan(history[0].time, history[1..], finish);
    }
  }

  /** The only three things an operation can do to an existing row. */
  lemma RowEvolution(rows: Table, op: Operation, reading: Instant, token: TokenHash)
    requires token in rows
    ensures var next := Apply(rows, op, reading);
      && token in next
      && next[token].userId == rows[token].userId
      && (|| next[token] == rows[token]
          || next[token] == Revoked(rows[token], reading)
          || (Active(rows[token], reading) && next[token] == Rotated(rows[token], reading)))
  {
  }

  /** However stale its reading, no operation revives a row that is inactive when it commits. */
  lemma NeverRevives(rows: Table, op: Operation, reading: Instant, now: Instant, token: TokenHash)
    requires token in rows && reading <= now && !Active(rows[token], now)
    ensures token in Apply(rows, op, reading) && !Active(Apply(rows, op, reading)[token], now)
  {
    RowEvolution(rows, op, reading, token);
  }

  /** A grace deadline exists only on a revoked row. */
  predicate GraceOnlyWhenRevoked(rows: Table) {
    forall token :: token in rows && rows[token].graceUntil.Some? ==> rows[token].revokedAt.Some?
  }

  predicate OthersUnchanged(rows: Table, after: Table, touched: set<TokenHash>) {
    (forall token :: token in rows && token !in touched ==> token in after && after[token] == rows[token])
    && (forall token :: token in after ==> token in rows || token in touched)
  }

  /** A new session is active until it expires; a used digest changes nothing. */
  lemma CreationOpens(rows: Table, token: TokenHash, userId: UserId, expiresAt: Instant, reading: Instant, now: Instant)
    ensures var after := Apply(rows, Create(token, userId, expiresAt), reading);
      && OthersUnchanged(rows, after, {token}) && token in after
      && (token in rows ==> after[token] == rows[token])
      && (token !in rows ==> after[token].userId == userId && (Active(after[token], now) <==> now < expiresAt))
  {
  }

  /** After a rotation the replacement is active until it expires, and so is the old token until
      it expires or its grace ends: thirty seconds after the reading of the first rotation. */
  lemma RotationHandsOver(
    rows: Table, token: TokenHash, replacement: TokenHash, userId: UserId, expiresAt: Instant, reading: Instant, now: Instant)
    requires GraceOnlyWhenRevoked(rows) && token in rows
    ensures var after := Apply(rows, Rotate(token, replacement, userId, expiresAt), reading);
      if ActiveIn(rows, token, reading) && rows[token].userId == userId && replacement !in rows then
        && OthersUnchanged(rows, after, {token, replacement})
        && token in after && replacement in after
        && after[replacement].userId == userId && (Active(after[replacement], now) <==> now < expiresAt)
        && (rows[token].revokedAt.None? ==>
              (Active(after[token], now) <==> now < rows[token].expiresAt && now < reading + 30))
        && (rows[token].revokedAt.Some? ==> (Active(after[token], now) <==> Active(rows[token], now)))
      else
        after == rows
  {
  }

  /** A single revocation ends the token, whatever its grace, and touches no other row. */
  lemma RevocationEnds(rows: Table, token: TokenHash, reading: Instant, now: Instant)
    requires reading <= now
    ensures var after := Apply(rows, Revoke(token), reading);
      OthersUnchanged(rows, after, {token}) && after.Keys == rows.Keys && !ActiveIn(after, token, now)
  {
  }

  /** A revoked token is never active again. */
  lemma RevocationIsFinal(rows: Table, token: TokenHash, reading: Instant, now: Instant, history: seq<Timed>, finish: Instant)
    requires token in rows && reading <= now && Chronological(now, history, finish)
    ensures !ActiveIn(Replay(Apply(rows, Revoke(token), reading), history), token, finish)
  {
    RevocationEnds(rows, token, reading, now);
    InactiveIsFinal(Apply(rows, Revoke(token), reading), token, now, history, finish);
  }

  /** A revoke-all leaves the user no session that is active when it commits, and touches
      nobody else's. */
  lemma RevokeAllEnds(rows: Table, userId: UserId, reading: Instant, now: Instant, token: TokenHash)
    requires token in rows && reading <= now
    ensures var after := Apply(rows, RevokeAll(userId), reading);
      && after.Keys == rows.Keys
      && (rows[token].userId == userId ==> !Active(after[token], now))
      && (rows[token].userId != userId ==> after[token] == rows[token])
  {
  }

  /** Once a session is inactive no later history makes it active again. */
  lemma {:induction false} InactiveIsFinal(
    rows: Table, token: TokenHash, start: Instant, history: seq<Timed>, finish: Instant)
    requires token in rows && !Active(rows[token], start)
    requires Chronological(start, history, finish)
    ensures token in Replay(rows, history) && !Active(Replay(rows, history)[token], finish)
    decreases |history|
  {
    if history != [] {
      var first := history[0];
      NeverRevives(rows, first.op, first.reading, first.time, token);
      InactiveIsFinal(Apply(rows, first.op, first.reading), token, first.time, history[1..], finish);
    }
  }

  /** A revoke-all ends every session the user has at that moment, for good. */
  lemma RevokeAllIsFinal(
    rows: Table, userId: UserId, token: TokenHash, reading: Instant, now: Instant, history: seq<Timed>, finish: Instant)
    requires token in rows && rows[token].userId == userId && reading <= now
    requires Chronological(now, history, finish)
    ensures !ActiveIn(Replay(Apply(rows, RevokeAll(userId), reading), history), token, finish)
  {
    RevokeAllEnds(rows, userId, reading, now, token);
    InactiveIsFinal(Apply(rows, RevokeAll(userId), reading), token, now, history, finish);
  }

  lemma {:induction false} GraceOnlyWhenRevokedAlways(rows: Table, history: seq<Timed>)
    requires GraceOnlyWhenRevoked(rows)
    ensures GraceOnlyWhenRevoked(Replay(rows, history))
    decreases |history|
  {
    if history != [] {
      GraceOnlyWhenRevokedAlways(Apply(rows, history[0].op, history[0].reading), history[1..]);
    }
  }

  /** Whatever follows, the deadline fixed by the first rotation is kept or withdrawn. */
  lemma {:induction false} DeadlineNeverMoves(rows: Table, token: TokenHash, history: seq<Timed>)
    requires token in rows && rows[token].revokedAt.Some?
    ensures token in Replay(rows, history)
    ensures var row := Replay(rows, history)[token];
      row.revokedAt.Some? && (row.graceUntil == rows[token].graceUntil || row.graceUntil.None?)
    decreases |history|
  {
    if history != [] {
      var next := Apply(rows, history[0].op, history[0].reading);
      RowEvolution(rows, history[0].op, history[0].reading, token);
      DeadlineNeverMoves(next, token, history[1..]);
    }
  }

  /** The old token dies within the grace period of its first rotation, however often it is rotated again. */
  lemma GraceIsBounded(
    rows: Table, token: TokenHash, replacement: TokenHash, userId: UserId, expiresAt: Instant,
    reading: Instant, now: Instant, history: seq<Timed>, finish: Instant)
    requires GraceOnlyWhenRevoked(rows)
    requires CanRotate(rows, token, replacement, userId, reading) && rows[token].revokedAt.None?
    requires reading <= now && Chronological(now, history, finish)
    requires reading + ROTATION_GRACE <= finish
    ensures !ActiveIn(Replay(Apply(rows, Rotate(token, replacement, userId, expiresAt), reading), history), token, finish)
  {
    var next := Apply(rows, Rotate(token, replacement, userId, expiresAt), reading);
    DeadlineNeverMoves(next, token, history);
  }
}
