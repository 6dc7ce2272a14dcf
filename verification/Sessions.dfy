/** Login sessions with a sliding expiry that is renewed only past the halfway mark. */
module Sessions {
  import opened Wrappers

  type Token = string
  type UserId = int
  type Time = int // nanoseconds

  const HALF: Time := 302_400_000_000_000
  const TTL: Time := 2 * HALF // seven days

  datatype Session = Session(user: Option<UserId>, createdAt: Time, expiresAt: Time, lastSeen: Time)

  type Table = map<Token, Session>

  /** Which database calls of one lookup succeed. */
  datatype Db = Db(query: bool, delete: bool, update: bool)

  const ALL_OK := Db(true, true, true)

  predicate Live(s: Session, now: Time) {
    now < s.expiresAt
  }

  predicate DueForRenewal(s: Session, now: Time) {
    s.expiresAt - now <= HALF
  }

  /** The lookup finds a session it accepts, unless a renewal that is due cannot be written. */
  predicate Accepts(table: Table, token: Token, now: Time, db: Db) {
    && token != "" && db.query && token in table
    && Live(table[token], now) && table[token].user.Some?
    && (DueForRenewal(table[token], now) ==> db.update)
  }

  predicate Renews(table: Table, token: Token, now: Time, db: Db) {
    Accepts(table, token, now, db) && DueForRenewal(table[token], now)
  }

  function AfterLookup(table: Table, token: Token, now: Time, db: Db): Table {
    if Renews(table, token, now, db) then table[token := table[token].(expiresAt := now + TTL, lastSeen := now)]
    else if token != "" && db.query && token in table && !Live(table[token], now) && db.delete then table - {token}
    else table
  }

  /** The lookup meets a live session of a user. */
  predicate Meets(table: Table, token: Token, now: Time, db: Db) {
    token != "" && db.query && token in table && now < table[token].expiresAt && table[token].user.Some?
  }

  /** No more than half of seven days is left. */
  predicate PastHalf(s: Session, now: Time) {
    2 * (s.expiresAt - now) <= 604_800_000_000_000
  }

  function AfterPurge(table: Table, now: Time): Table {
    map token | token in table && table[token].expiresAt >= now :: table[token]
  }

  class SessionStore {
    var rows: Table

    constructor ()
      ensures rows == map[]
    {
      rows := map[];
    }

    /** Token hashes are unique in the table, so a repeated token is refused. */
    method Create(token: Token, user: UserId, now: Time, dbOk: bool) returns (ok: bool)
      modifies this
      ensures ok == (dbOk && token !in old(rows))
      ensures rows == if ok then old(rows)[token := Session(Some(user), now, now + TTL, now)] else old(rows)
    {
      ok := dbOk && token !in rows;
      if ok {
        rows := rows[token := Session(Some(user), now, now + TTL, now)];
      }
    }

    /**
     A lookup accepts a live session of a user, unless the renewal that is due past the half of its life cannot be
     written. It deletes the session looked up if that has expired, gives it seven days from now if it renews it, and
     touches no other.
     */
    method Lookup(token: Token, now: Time, db: Db) returns (user: Option<UserId>)
      modifies this
      ensures rows == AfterLookup(old(rows), token, now, db)
      ensures user.Some? <==> Accepts(old(rows), token, now, db)
      ensures user.Some? <==>
        Meets(old(rows), token, now, db) && (PastHalf(old(rows)[token], now) ==> db.update)
      ensures user.Some? ==> user == old(rows)[token].user
      ensures rows - {token} == old(rows) - {token} && (token in rows ==> token in old(rows))
      ensures token in old(rows) ==>
        (token !in rows <==> token != "" && db.query && old(rows)[token].expiresAt <= now && db.delete)
      ensures token in rows && user.Some? && PastHalf(old(rows)[token], now) ==>
        rows[token] == old(rows)[token].(expiresAt := now + 604_800_000_000_000, lastSeen := now)
      ensures token in rows && !(user.Some? && PastHalf(old(rows)[token], now)) ==> rows[token] == old(rows)[token]
    {
      if token == "" {
        return None;
      }
      if !db.query || token !in rows {
        return None;
      }
      var sess := rows[token];
      if !(now < sess.expiresAt) {
        if db.delete {
          rows := rows - {token};
        }
        return None;
      }
      if sess.user.None? {
        return None;
      }
      if sess.expiresAt - now <= TTL / 2 {
        if !db.update {
          return None;
        }
        rows := rows[token := sess.(expiresAt := now + TTL, lastSeen := now)];
      }
      user := sess.user;
    }

    method Delete(token: Token, dbOk: bool)
      modifies this
      ensures rows == if token != "" && dbOk then old(rows) - {token} else old(rows)
    {
      if token == "" {
        return;
      }
      if dbOk {
        rows := rows - {token};
      }
    }

    method PurgeExpired(now: Time, dbOk: bool) returns (n: nat)
      modifies this
      ensures rows == if dbOk then AfterPurge(old(rows), now) else old(rows)
      ensures n == |old(rows)| - |rows|
      ensures dbOk ==> forall token :: token in old(rows) ==> (token in rows <==> !(old(rows)[token].expiresAt < now))
      ensures forall token :: token in rows ==> token in old(rows) && rows[token] == old(rows)[token]
    {
      if !dbOk {
        return 0;
      }
      var gone := set token | token in rows && rows[token].expiresAt < now;
      SizeWithout(rows, gone);
      rows := rows - gone;
      n := |gone|;
      assert rows == AfterPurge(old(rows), now);
    }
  }

  lemma SizeWithout(table: Table, gone: set<Token>)
    requires gone <= table.Keys
    ensures |table - gone| + |gone| == |table|
  {
    assert (table - gone).Keys == table.Keys - gone;
    assert |(table - gone).Keys| == |table.Keys| - |gone|;
  }

  // ---- sequences of calls ------------------------------------------------

  datatype Op =
    | Create(token: Token, user: UserId, at: Time)
    | Lookup(token: Token, at: Time, db: Db)
    | Delete(token: Token, at: Time)
    | Purge(at: Time)

  function Next(table: Table, op: Op): Table {
    match op
    case Create(token, user, at) => table[token := Session(Some(user), at, at + TTL, at)]
    case Lookup(token, at, db) => AfterLookup(table, token, at, db)
    case Delete(token, _) => if token != "" then table - {token} else table
    case Purge(at) => AfterPurge(table, at)
  }

  function After(table: Table, ops: seq<Op>): Table
    decreases |ops|
  {
    if ops == [] then table else After(Next(table, ops[0]), ops[1..])
  }

  /** What each lookup answers, in order. */
  function Verdicts(table: Table, ops: seq<Op>): seq<bool>
    decreases |ops|
  {
    if ops == [] then []
    else
      (if ops[0].Lookup? then [Accepts(table, ops[0].token, ops[0].at, ops[0].db)] else [])
      + Verdicts(Next(table, ops[0]), ops[1..])
  }

  function Issued(issued: set<Token>, op: Op): set<Token> {
    if op.Create? then issued + {op.token} else issued
  }

  /** The clock does not go back, and no token is issued twice. */
  predicate Timed(ops: seq<Op>, clock: Time, issued: set<Token>)
    decreases |ops|
  {
    ops == [] ||
    (clock <= ops[0].at && (ops[0].Create? ==> ops[0].token !in issued)
     && Timed(ops[1..], ops[0].at, Issued(issued, ops[0])))
  }

  function EndOf(ops: seq<Op>, clock: Time): Time {
    if ops == [] then clock else ops[|ops| - 1].at
  }

  // ---- one lookup --------------------------------------------------------

  ghost predicate ExpiriesOk(table: Table, clock: Time) {
    forall token :: token in table ==> table[token].user.Some? && table[token].expiresAt <= clock + TTL
  }

  /** After an accepted lookup the session has more than half of its life left, and no more than all of it. */
  lemma AcceptedLifetime(table: Table, token: Token, now: Time, db: Db)
    requires ExpiriesOk(table, now) && Accepts(table, token, now, db)
    ensures var t := AfterLookup(table, token, now, db);
      && token in t && t[token].user == table[token].user
      && now + 302_400_000_000_000 < t[token].expiresAt <= now + 604_800_000_000_000
  {
    if Renews(table, token, now, db) {
      assert AfterLookup(table, token, now, db)[token] == table[token].(expiresAt := now + TTL, lastSeen := now);
    }
  }

  lemma NextExpiries(table: Table, op: Op, clock: Time)
    requires ExpiriesOk(table, clock) && clock <= op.at
    ensures ExpiriesOk(Next(table, op), op.at)
  {}

  lemma {:induction false} ExpiriesKept(table: Table, ops: seq<Op>, clock: Time, issued: set<Token>)
    requires ExpiriesOk(table, clock) && Timed(ops, clock, issued)
    ensures ExpiriesOk(After(table, ops), EndOf(ops, clock)) && clock <= EndOf(ops, clock)
    decreases |ops|
  {
    if ops != [] {
      NextExpiries(table, ops[0], clock);
      ExpiriesKept(Next(table, ops[0]), ops[1..], ops[0].at, Issued(issued, ops[0]));
    }
  }

  // ---- staying logged in -------------------------------------------------

  /** No more than half a life since the token's last visit, nobody logs it out, and its own calls work. */
  predicate Attends(op: Op, token: Token, last: Time) {
    && op.at <= last + 302_400_000_000_000
    && match op
       case Lookup(t, _, db) => t == token ==> db == ALL_OK
       case Delete(t, _) => t != token
       case Create(t, _, _) => t != token
       case Purge(_) => true
  }

  predicate Attended(ops: seq<Op>, token: Token, last: Time)
    decreases |ops|
  {
    ops == [] || (Attends(ops[0], token, last) && Attended(ops[1..], token, LastVisit(ops[0], token, last)))
  }

  /** Every lookup of this token is accepted. */
  predicate AlwaysAccepted(table: Table, ops: seq<Op>, token: Token)
    decreases |ops|
  {
    ops == [] ||
    ((ops[0].Lookup? && ops[0].token == token ==> Accepts(table, token, ops[0].at, ops[0].db))
     && AlwaysAccepted(Next(table, ops[0]), ops[1..], token))
  }

  ghost predicate Fresh(table: Table, token: Token, last: Time) {
    token != "" && token in table && table[token].user.Some? && last + HALF < table[token].expiresAt
  }

  function LastVisit(op: Op, token: Token, last: Time): Time {
    if op.Lookup? && op.token == token then op.at else last
  }

  lemma AttendedStep(table: Table, op: Op, token: Token, last: Time, clock: Time)
    requires Fresh(table, token, last) && ExpiriesOk(table, clock) && clock <= op.at && Attends(op, token, last)
    ensures Fresh(Next(table, op), token, LastVisit(op, token, last))
    ensures op.Lookup? && op.token == token ==> Accepts(table, token, op.at, op.db)
  {
    if op.Lookup? && op.token == token {
      NextExpiries(table, op, clock);
      AcceptedLifetime(table, token, op.at, op.db);
    }
  }

  lemma {:induction false} AttendedIsAccepted(table: Table, ops: seq<Op>, token: Token, last: Time, clock: Time,
                                              issued: set<Token>)
    requires Fresh(table, token, last) && ExpiriesOk(table, clock) && Timed(ops, clock, issued)
    requires Attended(ops, token, last)
    ensures AlwaysAccepted(table, ops, token)
    decreases |ops|
  {
    if ops != [] {
      var op := ops[0];
      AttendedStep(table, op, token, last, clock);
      NextExpiries(table, op, clock);
      AttendedIsAccepted(Next(table, op), ops[1..], token, LastVisit(op, token, last), op.at, Issued(issued, op));
    }
  }

  /**
   A session whose visits are never more than half a life apart is never logged out, whatever happens to the
   others.
   */
  lemma NeverLoggedOutWhileAttended(before: seq<Op>, token: Token, user: UserId, at: Time, ops: seq<Op>,
                                    clock: Time, issued: set<Token>)
    requires token != "" && Timed(before, clock, {}) && EndOf(before, clock) <= at
    requires Timed(ops, at, issued) && Attended(ops, token, at)
    ensures AlwaysAccepted(Next(After(map[], before), Create(token, user, at)), ops, token)
  {
    var table := After(map[], before);
    ExpiriesKept(map[], before, clock, {});
    NextExpiries(table, Create(token, user, at), EndOf(before, clock));
    AttendedIsAccepted(Next(table, Create(token, user, at)), ops, token, at, at, issued);
  }

  // ---- being logged out --------------------------------------------------

  predicate Untouched(ops: seq<Op>, token: Token) {
    forall k :: 0 <= k < |ops| && (ops[k].Lookup? || ops[k].Create?) ==> ops[k].token != token
  }

  lemma {:induction false} UntouchedStays(table: Table, ops: seq<Op>, token: Token)
    requires Untouched(ops, token)
    ensures token in After(table, ops) ==> token in table && After(table, ops)[token] == table[token]
    decreases |ops|
  {
    if ops != [] {
      UntouchedStays(Next(table, ops[0]), ops[1..], token);
    }
  }

  /**
   After any history, a session left alone for a whole life is refused, purged or not, whether or not the calls
   work.
   */
  lemma IdleIsLoggedOut(before: seq<Op>, clock: Time, idle: seq<Op>, token: Token, now: Time, db: Db)
    requires Timed(before, clock, {}) && Untouched(idle, token)
    requires EndOf(before, clock) + 604_800_000_000_000 <= now
    ensures !Accepts(After(After(map[], before), idle), token, now, db)
  {
    ExpiriesKept(map[], before, clock, {});
    UntouchedStays(After(map[], before), idle, token);
  }

  // ---- how often a renewal writes ----------------------------------------

  function Renewals(table: Table, ops: seq<Op>, token: Token): nat
    decreases |ops|
  {
    if ops == [] then 0
    else
      (if ops[0].Lookup? && ops[0].token == token && Renews(table, token, ops[0].at, ops[0].db) then 1 else 0)
      + Renewals(Next(table, ops[0]), ops[1..], token)
  }

  /** n renewals made since the session was created at start. */
  ghost predicate Renewed(table: Table, token: Token, start: Time, n: nat, clock: Time) {
    start + n * HALF <= clock && (token in table ==> start + TTL + n * HALF <= table[token].expiresAt)
  }

  lemma {:induction false} RenewalsTakeTime(table: Table, ops: seq<Op>, token: Token, start: Time, n: nat, clock: Time,
                                            issued: set<Token>)
    requires token in issued && Timed(ops, clock, issued) && Renewed(table, token, start, n, clock)
    ensures start + (n + Renewals(table, ops, token)) * HALF <= EndOf(ops, clock)
    decreases |ops|
  {
    if ops != [] {
      var op := ops[0];
      var n' := if op.Lookup? && op.token == token && Renews(table, token, op.at, op.db) then n + 1 else n;
      assert Renewed(Next(table, op), token, start, n', op.at);
      RenewalsTakeTime(Next(table, op), ops[1..], token, start, n', op.at, Issued(issued, op));
    }
  }

  /** n renewals of a session take at least n half lives: however often it is looked up, it is rarely written. */
  lemma RenewalRate(table: Table, token: Token, user: UserId, start: Time, ops: seq<Op>, issued: set<Token>)
    requires token in issued && Timed(ops, start, issued)
    ensures Renewals(Next(table, Create(token, user, start)), ops, token) * 302_400_000_000_000
            <= EndOf(ops, start) - start
  {
    RenewalsTakeTime(Next(table, Create(token, user, start)), ops, token, start, 0, start, issued);
  }

  // ---- purges ------------------------------------------------------------

  function WithoutPurges(ops: seq<Op>): seq<Op> {
    if ops == [] then []
    else if ops[0].Purge? then WithoutPurges(ops[1..])
    else [ops[0]] + WithoutPurges(ops[1..])
  }

  /** The purged table lacks only sessions that have expired. */
  ghost predicate PurgedFrom(purged: Table, table: Table, clock: Time, issued: set<Token>) {
    && table.Keys <= issued
    && (forall token :: token in purged ==> token in table && purged[token] == table[token])
    && (forall token :: token in table && token !in purged ==> table[token].expiresAt < clock)
  }

  lemma NextPurged(purged: Table, table: Table, op: Op, clock: Time, issued: set<Token>)
    requires PurgedFrom(purged, table, clock, issued) && clock <= op.at && (op.Create? ==> op.token !in issued)
    ensures PurgedFrom(Next(purged, op), if op.Purge? then table else Next(table, op), op.at, Issued(issued, op))
    ensures op.Lookup? ==> Accepts(purged, op.token, op.at, op.db) == Accepts(table, op.token, op.at, op.db)
  {
    match op {
      case Create(_, _, _) =>
      case Lookup(token, at, db) => if token in table && token in purged { assert purged[token] == table[token]; }
      case Delete(_, _) =>
      case Purge(_) =>
    }
  }

  lemma {:induction false} SameVerdicts(purged: Table, table: Table, ops: seq<Op>, clock: Time, issued: set<Token>)
    requires PurgedFrom(purged, table, clock, issued) && Timed(ops, clock, issued)
    ensures Verdicts(purged, ops) == Verdicts(table, WithoutPurges(ops))
    decreases |ops|
  {
    if ops != [] {
      var op := ops[0];
      NextPurged(purged, table, op, clock, issued);
      SameVerdicts(Next(purged, op), if op.Purge? then table else Next(table, op), ops[1..], op.at, Issued(issued, op));
      if !op.Purge? {
        assert WithoutPurges(ops)[1..] == WithoutPurges(ops[1..]);
      }
    }
  }

  /** Purges inserted anywhere change no lookup's verdict. */
  lemma PurgesAreInvisible(ops: seq<Op>, clock: Time)
    requires Timed(ops, clock, {})
    ensures Verdicts(map[], ops) == Verdicts(map[], WithoutPurges(ops))
  {
    SameVerdicts(map[], map[], ops, clock, {});
  }
}
