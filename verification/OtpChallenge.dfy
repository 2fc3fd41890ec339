/**
 Changing an email address with a one-time code: the request that opens a challenge, the consumer that emails the
 code, and the confirmation that compares it. Addresses are the trimmed, lower-cased ones the code compares.
 */
module OtpChallenge {
  import opened Options

  datatype Status = Requested | Sent | Verified | Expired | Blocked | DispatchFailed

  datatype ErrorCode = Superseded | OtpExpired | AttemptsExceeded | OtpInvalid | MissingNewEmail | Dispatch(code: string)

  datatype User = User(email: string, active: bool, emailVerified: bool)

  datatype Challenge = Challenge(user: int, oldEmail: string, newEmail: string, otp: int, createdAt: int, expiresAt: int,
                                 maxAttempts: nat, attempts: nat, status: Status, lastError: Option<ErrorCode>) {
    /** The filter of the query for the one active challenge of a user. */
    predicate Open(u: int, now: int) {
      user == u && (status == Requested || status == Sent) && expiresAt > now
    }
  }

  type Users = map<int, User>
  type Challenges = map<string, Challenge>

  datatype Db = Db(users: Users, challenges: Challenges, outbox: seq<string>)

  datatype Reason = EmailRequired | UserNotFound | SameEmail | EmailInUse | InvalidChallenge | AlreadyUsed | Late | TooManyAttempts
                  | WrongOtp | InvalidMetadata | NoLongerValid | DatabaseError

  datatype Reply =
    | Accepted(id: string)
    | AlreadyActive(id: string, expiresIn: int)
    | RetryAfter(seconds: int, id: string)
    | Changed(email: string)
    | Refused(reason: Reason)

  const TTL := 300
  const MAX_ATTEMPTS := 5
  const COOLDOWN := 60
  const SEND_MAX_ATTEMPTS := 3

  predicate ActiveUser(users: Users, u: int) {
    u in users && users[u].active
  }

  /** Another active user already has the address. */
  predicate InUse(users: Users, u: int, email: string) {
    exists v :: v in users && v != u && users[v].active && users[v].email == email
  }

  /** The column is unique over all users, active or not. */
  predicate Taken(users: Users, u: int, email: string) {
    exists v :: v in users && v != u && users[v].email == email
  }

  /** The query for the latest open challenge; among equal creation times the database may return any. */
  predicate FoundOpen(challenges: Challenges, u: int, now: int, found: Option<string>) {
    match found
    case None => forall i :: i in challenges ==> !challenges[i].Open(u, now)
    case Some(id) =>
      && id in challenges && challenges[id].Open(u, now)
      && forall i :: i in challenges && challenges[i].Open(u, now) ==> challenges[i].createdAt <= challenges[id].createdAt
  }

  function Fresh(u: int, oldEmail: string, newEmail: string, otp: int, now: int): Challenge {
    Challenge(u, oldEmail, newEmail, otp, now, now + TTL, MAX_ATTEMPTS, 0, Requested, None)
  }

  /** What an accepted request writes: the challenge it found is superseded by primary key, the new one is inserted. */
  function Stored(db: Db, found: Option<string>, id: string, c: Challenge): Db
    requires found.Some? ==> found.value in db.challenges
  {
    var older := if found.None? then db.challenges
                 else db.challenges[found.value := db.challenges[found.value].(status := Expired, lastError := Some(Superseded))];
    db.(challenges := older[id := c], outbox := db.outbox + [id])
  }

  /** A request, given what the query for an open challenge returned. */
  function Request(db: Db, u: int, newEmail: string, now: int, id: string, otp: int, found: Option<string>): (Db, Reply)
    requires found.Some? ==> found.value in db.challenges
  {
    if newEmail == "" then (db, Refused(EmailRequired))
    else if !ActiveUser(db.users, u) then (db, Refused(UserNotFound))
    else if db.users[u].email == newEmail then (db, Refused(SameEmail))
    else if InUse(db.users, u, newEmail) then (db, Refused(EmailInUse))
    else if found.Some? && now - db.challenges[found.value].createdAt < COOLDOWN
    then (db, RetryAfter(COOLDOWN - (now - db.challenges[found.value].createdAt), found.value))
    else if found.Some? && db.challenges[found.value].newEmail == newEmail
    then (db, AlreadyActive(found.value, Max(0, db.challenges[found.value].expiresAt - now)))
    else if id in db.challenges then (db, Refused(DatabaseError))
    else (Stored(db, found, id, Fresh(u, db.users[u].email, newEmail, otp, now)), Accepted(id))
  }

  ghost predicate RequestOutcome(db: Db, u: int, newEmail: string, now: int, id: string, otp: int, found: Option<string>,
                                 db': Db, reply: Reply)
  {
    FoundOpen(db.challenges, u, now, found) && (db', reply) == Request(db, u, newEmail, now, id, otp, found)
  }

  function Max(a: int, b: int): int {
    if a < b then b else a
  }

  function WithChallenge(db: Db, id: string, c: Challenge): Db {
    db.(challenges := db.challenges[id := c])
  }

  /** A confirmation up to the comparison: what happens unless the code is right. */
  function Rejected(c: Challenge, guess: int, now: int): Option<(Challenge, Reason)> {
    if c.status == Verified then Some((c, AlreadyUsed))
    else if c.expiresAt <= now then Some((c.(status := Expired, lastError := Some(OtpExpired)), Late))
    else if c.attempts >= c.maxAttempts then Some((c.(status := Blocked, lastError := Some(AttemptsExceeded)), TooManyAttempts))
    else if guess != c.otp then
      Some((c.(attempts := c.attempts + 1, lastError := Some(OtpInvalid),
               status := if c.attempts + 1 >= c.maxAttempts then Blocked else c.status), WrongOtp))
    else None
  }

  function Confirm(db: Db, u: int, id: string, guess: int, now: int): (Db, Reply) {
    if id !in db.challenges || db.challenges[id].user != u then (db, Refused(InvalidChallenge))
    else
      var c := db.challenges[id];
      match Rejected(c, guess, now)
      case Some((c', reason)) => (WithChallenge(db, id, c'), Refused(reason))
      case None =>
        if c.newEmail == "" then (db, Refused(InvalidMetadata))
        else if !ActiveUser(db.users, u) then (db, Refused(UserNotFound))
        else if c.oldEmail != "" && db.users[u].email != c.oldEmail then (db, Refused(NoLongerValid))
        else if InUse(db.users, u, c.newEmail) then (db, Refused(EmailInUse))
        else if Taken(db.users, u, c.newEmail) then (db, Refused(DatabaseError))
        else
          (WithChallenge(db, id, c.(attempts := c.attempts + 1, status := Verified, lastError := None))
           .(users := db.users[u := db.users[u].(email := c.newEmail, emailVerified := true)]), Changed(c.newEmail))
  }

  /* ---- dispatch ---- */

  datatype SendResult = AcceptedBy(provider: string) | Rejection(error: string) | Timeout | Raised

  function ErrorOf(r: SendResult): string {
    match r
    case AcceptedBy(_) => ""
    case Rejection(error) => error
    case Timeout => "PROVIDER_TIMEOUT"
    case Raised => "PROVIDER_EXCEPTION"
  }

  /** The provider's answers to the attempts of one dispatch, were all of them made. */
  type Answers = a: seq<SendResult> | |a| == 3 witness [Timeout, Timeout, Timeout]

  predicate AnyAccepted(a: Answers) {
    a[0].AcceptedBy? || a[1].AcceptedBy? || a[2].AcceptedBy?
  }

  function DispatchStatus(c: Challenge, now: int, a: Answers): Challenge {
    if c.status != Requested then c
    else if c.expiresAt <= now then c.(status := Expired, lastError := Some(OtpExpired))
    else if c.newEmail == "" then c.(status := DispatchFailed, lastError := Some(MissingNewEmail))
    else if AnyAccepted(a) then c.(status := Sent, lastError := None)
    else c.(status := DispatchFailed, lastError := Some(Dispatch(if ErrorOf(a[2]) == "" then "DISPATCH_FAILED" else ErrorOf(a[2]))))
  }

  /** Whether the provider is called at all. */
  predicate Sends(c: Challenge, now: int) {
    c.status == Requested && c.expiresAt > now && c.newEmail != ""
  }

  function Dispatched(db: Db, u: int, id: string, now: int, a: Answers): Db {
    if id == "" || u <= 0 || id !in db.challenges then db
    else WithChallenge(db, id, DispatchStatus(db.challenges[id], now, a))
  }

  class SecurityDatabase {
    var users: Users
    var challenges: Challenges
    var outbox: seq<string>
    /** Calls of the email provider, in order. */
    var calls: seq<(string, SendResult)>

    function Contents(): Db
      reads this
    {
      Db(users, challenges, outbox)
    }

    constructor (users: Users)
      ensures Contents() == Db(users, map[], []) && calls == []
    {
      this.users := users;
      challenges, outbox, calls := map[], [], [];
    }

    method RequestEmailChangeOtp(u: int, newEmail: string, now: int, id: string, otp: int) returns (reply: Reply)
      modifies this`challenges, this`outbox
      ensures exists found :: RequestOutcome(old(Contents()), u, newEmail, now, id, otp, found, Contents(), reply)
    {
      ghost var before := Contents();
      ghost var found := QueryReturns(challenges, u, now);
      ghost var expected := Request(before, u, newEmail, now, id, otp, found);
      assert RequestOutcome(before, u, newEmail, now, id, otp, found, expected.0, expected.1);
      if newEmail == "" {
        return Refused(EmailRequired);
      }
      if !ActiveUser(users, u) {
        return Refused(UserNotFound);
      }
      var oldEmail := users[u].email;
      if oldEmail == newEmail {
        return Refused(SameEmail);
      }
      if InUse(users, u, newEmail) {
        return Refused(EmailInUse);
      }
      if o :| o in challenges && FoundOpen(challenges, u, now, Some(o)) {
        expected := Request(before, u, newEmail, now, id, otp, Some(o));
        assert RequestOutcome(before, u, newEmail, now, id, otp, Some(o), expected.0, expected.1);
        var active := challenges[o];
        var elapsed := now - active.createdAt;
        if elapsed < COOLDOWN {
          return RetryAfter(COOLDOWN - elapsed, o);
        }
        if active.newEmail == newEmail {
          return AlreadyActive(o, Max(0, active.expiresAt - now));
        }
        if id in challenges {
          return Refused(DatabaseError);
        }
        challenges := challenges[o := active.(status := Expired, lastError := Some(Superseded))];
      } else {
        assert found.None?;
        if id in challenges {
          return Refused(DatabaseError);
        }
      }
      challenges := challenges[id := Fresh(u, oldEmail, newEmail, otp, now)];
      outbox := outbox + [id];
      assert Contents() == expected.0 && expected.1 == Accepted(id);
      return Accepted(id);
    }

    method ConfirmEmailChangeOtp(u: int, id: string, guess: int, now: int) returns (reply: Reply)
      modifies this`challenges, this`users
      ensures (Contents(), reply) == Confirm(old(Contents()), u, id, guess, now)
    {
      if id !in challenges || challenges[id].user != u {
        return Refused(InvalidChallenge);
      }
      var c := challenges[id];
      if c.status == Verified {
        challenges := challenges[id := c];
        return Refused(AlreadyUsed);
      }
      if c.expiresAt <= now {
        challenges := challenges[id := c.(status := Expired, lastError := Some(OtpExpired))];
        return Refused(Late);
      }
      if c.attempts >= c.maxAttempts {
        challenges := challenges[id := c.(status := Blocked, lastError := Some(AttemptsExceeded))];
        return Refused(TooManyAttempts);
      }
      if guess != c.otp {
        c := c.(attempts := c.attempts + 1, lastError := Some(OtpInvalid));
        if c.attempts >= c.maxAttempts {
          c := c.(status := Blocked);
        }
        challenges := challenges[id := c];
        return Refused(WrongOtp);
      }
      if c.newEmail == "" {
        return Refused(InvalidMetadata);
      }
      if !ActiveUser(users, u) {
        return Refused(UserNotFound);
      }
      if c.oldEmail != "" && users[u].email != c.oldEmail {
        return Refused(NoLongerValid);
      }
      if InUse(users, u, c.newEmail) {
        return Refused(EmailInUse);
      }
      if Taken(users, u, c.newEmail) {
        return Refused(DatabaseError);
      }
      users := users[u := users[u].(email := c.newEmail, emailVerified := true)];
      challenges := challenges[id := c.(attempts := c.attempts + 1, status := Verified, lastError := None)];
      return Changed(c.newEmail);
    }

    /** At most three calls, none after an accepted one. */
    method SendWithRetry(to: string, a: Answers) returns (result: SendResult)
      modifies this`calls
      ensures result.AcceptedBy? <==> AnyAccepted(a)
      ensures !result.AcceptedBy? ==> result == a[2]
      ensures SentTo(old(calls), calls, to, a)
    {
      ghost var before := calls;
      result := Timeout;
      var attempt := 0;
      while attempt < SEND_MAX_ATTEMPTS
        invariant attempt <= SEND_MAX_ATTEMPTS && |calls| == |before| + attempt && before == calls[..|before|]
        invariant forall k :: 0 <= k < attempt ==> calls[|before| + k] == (to, a[k]) && !a[k].AcceptedBy?
        invariant attempt > 0 ==> result == a[attempt - 1]
      {
        result := a[attempt];
        calls := calls + [(to, result)];
        if result.AcceptedBy? {
          assert Attempted(before, calls, to, a, attempt + 1);
          return;
        }
        attempt := attempt + 1;
      }
      assert Attempted(before, calls, to, a, 3);
    }

    /** One delivery of the dispatch message; only a REQUESTED challenge in its time reaches the provider. */
    method ProcessPayload(u: int, id: string, now: int, a: Answers)
      modifies this`challenges, this`calls
      ensures Contents() == Dispatched(old(Contents()), u, id, now, a)
      ensures id in old(challenges) && Sends(old(challenges)[id], now) && id != "" && u > 0 ==>
        SentTo(old(calls), calls, old(challenges)[id].newEmail, a)
      ensures !(id in old(challenges) && Sends(old(challenges)[id], now) && id != "" && u > 0) ==> calls == old(calls)
    {
      if id == "" || u <= 0 || id !in challenges {
        return;
      }
      var c := challenges[id];
      if c.status in {Verified, Expired, Blocked, Sent, DispatchFailed} {
        challenges := challenges[id := c];
        return;
      }
      if c.expiresAt <= now {
        challenges := challenges[id := c.(status := Expired, lastError := Some(OtpExpired))];
        return;
      }
      if c.newEmail == "" {
        challenges := challenges[id := c.(status := DispatchFailed, lastError := Some(MissingNewEmail))];
        return;
      }
      var result := SendWithRetry(c.newEmail, a);
      if result.AcceptedBy? {
        challenges := challenges[id := c.(status := Sent, lastError := None)];
      } else {
        var code := ErrorOf(result);
        challenges := challenges[id := c.(status := DispatchFailed,
                                          lastError := Some(Dispatch(if code == "" then "DISPATCH_FAILED" else code)))];
      }
    }
  }

  /** One to three calls, each but the last refused, the last one accepted unless it is the third. */
  ghost predicate SentTo(before: seq<(string, SendResult)>, after: seq<(string, SendResult)>, to: string, a: Answers) {
    exists n :: 1 <= n <= SEND_MAX_ATTEMPTS && Attempted(before, after, to, a, n)
  }

  ghost predicate Attempted(before: seq<(string, SendResult)>, after: seq<(string, SendResult)>, to: string, a: Answers, n: nat)
    requires 1 <= n <= 3
  {
    && |after| == |before| + n && after[..|before|] == before
    && (forall k :: 0 <= k < n ==> after[|before| + k] == (to, a[k]))
    && (forall k :: 0 <= k < n - 1 ==> !a[k].AcceptedBy?)
    && (n < 3 ==> a[n - 1].AcceptedBy?)
  }

  lemma {:induction false} LatestExists(challenges: Challenges, open: set<string>) returns (id: string)
    requires open != {} && open <= challenges.Keys
    ensures id in open && forall i :: i in open ==> challenges[i].createdAt <= challenges[id].createdAt
    decreases open
  {
    var first :| first in open;
    id := first;
    if open != {first} {
      var last := LatestExists(challenges, open - {first});
      id := if challenges[last].createdAt > challenges[first].createdAt then last else first;
      forall i | i in open ensures challenges[i].createdAt <= challenges[id].createdAt {
        assert i == first || i in open - {first};
      }
    }
  }

  lemma QueryReturns(challenges: Challenges, u: int, now: int) returns (found: Option<string>)
    ensures FoundOpen(challenges, u, now, found)
    ensures found.Some? ==> FoundOpen(challenges, u, now, Some(found.value))
  {
    var open := set i | i in challenges && challenges[i].Open(u, now);
    if open == {} {
      found := None;
      forall i | i in challenges ensures !challenges[i].Open(u, now) {
        assert i !in open;
      }
    } else {
      var id := LatestExists(challenges, open);
      found := Some(id);
      forall i | i in challenges && challenges[i].Open(u, now) ensures challenges[i].createdAt <= challenges[id].createdAt {
        assert i in open;
      }
    }
  }
}
