/** Which requests are accepted, which are told to wait, and how far apart the challenges of a user come. */
module OtpRequests {
  import opened Options
  import opened OtpChallenge
  import opened OtpRuns

  /** The checks that come before the query for an open challenge. */
  ghost predicate Admissible(users: Users, u: int, newEmail: string) {
    && newEmail != "" && u in users && users[u].active && users[u].email != newEmail
    && forall v :: v in users && v != u && users[v].active ==> users[v].email != newEmail
  }

  /**
   A request is accepted exactly when the address is given and free, the user is active with another one, the id is new, and
   the open challenge that was found, if any, is at least 60 seconds old and for another address.
   */
  lemma RequestAcceptedIff(db: Db, u: int, newEmail: string, now: int, id: string, otp: int, found: Option<string>)
    requires FoundOpen(db.challenges, u, now, found)
    ensures Request(db, u, newEmail, now, id, otp, found).1.Accepted? <==>
      && Admissible(db.users, u, newEmail) && id !in db.challenges
      && (found.Some? ==> now - db.challenges[found.value].createdAt >= 60 && db.challenges[found.value].newEmail != newEmail)
  {
  }

  /** The same over all challenges, where at most one is open. */
  lemma AcceptedIffNoneRecent(s: World, u: int, newEmail: string, id: string, otp: int, found: Option<string>)
    requires OneOpen(s) && FoundOpen(s.db.challenges, u, s.now, found)
    ensures Request(s.db, u, newEmail, s.now, id, otp, found).1.Accepted? <==>
      && Admissible(s.db.users, u, newEmail) && id !in s.db.challenges
      && forall i :: OpenAt(s, i, u) ==> s.now - s.db.challenges[i].createdAt >= 60 && s.db.challenges[i].newEmail != newEmail
  {
    RequestAcceptedIff(s.db, u, newEmail, s.now, id, otp, found);
    if found.Some? {
      assert OpenAt(s, found.value, u);
    }
    hide Request, Admissible;
  }

  /**
   A request is told to wait `n` seconds exactly when an admissible one finds an open challenge whose age falls short of a
   minute by `n`, and is given the running challenge exactly when that is old enough and for the same address. Whatever is not
   accepted changes nothing.
   */
  lemma RequestRefusedIff(db: Db, u: int, newEmail: string, now: int, id: string, otp: int, found: Option<string>, n: int, i: string)
    requires FoundOpen(db.challenges, u, now, found)
    ensures var (db', reply) := Request(db, u, newEmail, now, id, otp, found);
      && (reply == RetryAfter(n, i) <==>
            Admissible(db.users, u, newEmail) && found == Some(i) && n == 60 - (now - db.challenges[i].createdAt) && n > 0)
      && (reply == AlreadyActive(i, n) <==>
            && Admissible(db.users, u, newEmail) && found == Some(i) && now - db.challenges[i].createdAt >= 60
            && db.challenges[i].newEmail == newEmail && n == db.challenges[i].expiresAt - now)
      && (!reply.Accepted? ==> db' == db)
  {
  }

  /** The refusals before the query, in the order of the code. */
  lemma RequestIsRefusedFor(db: Db, u: int, newEmail: string, now: int, id: string, otp: int, found: Option<string>)
    requires FoundOpen(db.challenges, u, now, found)
    ensures var reply := Request(db, u, newEmail, now, id, otp, found).1;
      var (known, same) := (u in db.users && db.users[u].active, u in db.users && db.users[u].email == newEmail);
      && (reply == Refused(EmailRequired) <==> newEmail == "")
      && (reply == Refused(UserNotFound) <==> newEmail != "" && !known)
      && (reply == Refused(SameEmail) <==> newEmail != "" && known && same)
      && (reply == Refused(EmailInUse) <==>
            newEmail != "" && known && !same && exists v :: v in db.users && v != u && db.users[v].active && db.users[v].email == newEmail)
      && (reply == Refused(DatabaseError) ==> id in db.challenges)
  {
  }

  /** An accepted request stores one fresh challenge, closes the one it found, and leaves one message. */
  lemma AcceptedStores(db: Db, u: int, newEmail: string, now: int, id: string, otp: int, found: Option<string>)
    requires FoundOpen(db.challenges, u, now, found) && Request(db, u, newEmail, now, id, otp, found).1.Accepted?
    ensures var db' := Request(db, u, newEmail, now, id, otp, found).0;
      && db'.users == db.users && db'.outbox == db.outbox + [id] && db'.challenges.Keys == db.challenges.Keys + {id}
      && var c := db'.challenges[id];
      && c.Open(u, now) && !c.Open(u, now + 300) && c.Open(u, now + 299) && c.createdAt == now && c.attempts == 0 && c.maxAttempts == 5
      && c.oldEmail == db.users[u].email && c.newEmail == newEmail && c.otp == otp
      && (found.Some? ==> !db'.challenges[found.value].Open(u, now))
      && forall i :: i in db.challenges && found != Some(i) ==> db'.challenges[i] == db.challenges[i]
  {
  }

  /* ---- confirmations ---- */

  /**
   What a confirmation of an own challenge is refused for before the code counts, and what it leaves: a late one is EXPIRED, one
   without attempts left BLOCKED, a wrong code uses up one attempt and blocks with the last.
   */
  lemma ConfirmationRefusedIff(db: Db, u: int, id: string, guess: int, now: int)
    requires id in db.challenges && db.challenges[id].user == u
    ensures var (db', reply, c) := (Confirm(db, u, id, guess, now).0, Confirm(db, u, id, guess, now).1, db.challenges[id]);
      && (reply == Refused(AlreadyUsed) <==> c.status == Verified)
      && (reply == Refused(Late) <==> c.status != Verified && c.expiresAt <= now)
      && (reply == Refused(TooManyAttempts) <==> c.status != Verified && now < c.expiresAt && c.attempts >= c.maxAttempts)
      && (reply == Refused(WrongOtp) <==> c.status != Verified && now < c.expiresAt && c.attempts < c.maxAttempts && guess != c.otp)
      && (reply == Refused(Late) ==> db'.challenges[id] == c.(status := Expired, lastError := Some(OtpExpired)))
      && (reply == Refused(TooManyAttempts) ==> db'.challenges[id] == c.(status := Blocked, lastError := Some(AttemptsExceeded)))
      && (reply == Refused(WrongOtp) ==>
            && db'.challenges[id].lastError == Some(OtpInvalid)
            && db'.challenges[id].attempts == c.attempts + 1
            && db'.challenges[id].status == if c.attempts + 1 == c.maxAttempts then Blocked else c.status)
  {
  }

  /** What the right code in time is still refused for, and that this refusal leaves everything as it was. */
  lemma RightCodeIsRefusedFor(db: Db, u: int, id: string, now: int)
    requires id in db.challenges && db.challenges[id].user == u
    requires var c := db.challenges[id]; c.status != Verified && now < c.expiresAt && c.attempts < c.maxAttempts
    ensures var (db', reply) := Confirm(db, u, id, db.challenges[id].otp, now);
      var (c, users) := (db.challenges[id], db.users);
      var known := u in users && users[u].active;
      var valid := c.oldEmail == "" || (u in users && users[u].email == c.oldEmail);
      var used := exists v :: v in users && v != u && users[v].active && users[v].email == c.newEmail;
      var taken := exists v :: v in users && v != u && users[v].email == c.newEmail;
      && (reply == Refused(InvalidMetadata) <==> c.newEmail == "")
      && (reply == Refused(UserNotFound) <==> c.newEmail != "" && !known)
      && (reply == Refused(NoLongerValid) <==> c.newEmail != "" && known && !valid)
      && (reply == Refused(EmailInUse) <==> c.newEmail != "" && known && valid && used)
      && (reply == Refused(DatabaseError) <==> c.newEmail != "" && known && valid && !used && taken)
      && (reply.Changed? <==> c.newEmail != "" && known && valid && !taken)
      && (reply.Changed? || (reply.Refused? && db' == db))
  {
  }

  /** It changes this challenge and, when it succeeds, this user, who then has the new address as a verified one. */
  lemma ConfirmationChanges(db: Db, u: int, id: string, guess: int, now: int)
    ensures var (db', reply) := Confirm(db, u, id, guess, now);
      && db'.outbox == db.outbox && db'.challenges.Keys == db.challenges.Keys
      && (forall i :: i in db.challenges && i != id ==> db'.challenges[i] == db.challenges[i])
      && (!reply.Changed? ==> db'.users == db.users)
      && (reply.Changed? ==>
            && u in db.users && id in db.challenges && db'.challenges[id].status == Verified && db'.challenges[id].lastError == None
            && db'.challenges[id].attempts == db.challenges[id].attempts + 1
            && reply.email == db.challenges[id].newEmail && db'.users.Keys == db.users.Keys
            && db'.users[u] == User(db.challenges[id].newEmail, true, true)
            && forall v :: v in db.users && v != u ==> db'.users[v] == db.users[v])
      && (id !in db.challenges || db.challenges[id].user != u ==> reply == Refused(InvalidChallenge) && db' == db)
  {
  }

  /* ---- how far apart ---- */

  /** A challenge that supersedes another was asked for at least a minute after it. */
  ghost predicate PlanSpaced(s: World, p: Plan) {
    p.found.Some? ==> p.found.value in s.db.challenges && p.c.createdAt - s.db.challenges[p.found.value].createdAt >= COOLDOWN
  }

  ghost predicate PlansSpaced(s: World) {
    forall h :: h in s.plans ==> PlanSpaced(s, s.plans[h])
  }

  lemma CreationStays(s: World, t: Step, i: string)
    requires Enabled(s, t) && i in s.db.challenges
    ensures i in Next(s, t).db.challenges && Next(s, t).db.challenges[i].createdAt == s.db.challenges[i].createdAt
  {
    hide InUse, Taken, FoundOpen;
  }

  lemma StepKeepsSpaced(s: World, t: Step)
    requires PlansSpaced(s) && Enabled(s, t)
    ensures PlansSpaced(Next(s, t))
  {
    if t.Look? {
      RequestAcceptedIff(s.db, t.user, t.newEmail, s.now, t.id, t.otp, t.found);
    }
    hide Request, Confirm, Dispatched, Admissible, FoundOpen;
    forall h | h in Next(s, t).plans ensures PlanSpaced(Next(s, t), Next(s, t).plans[h]) {
      if h in s.plans && Next(s, t).plans[h] == s.plans[h] {
        assert PlanSpaced(s, s.plans[h]);
        if s.plans[h].found.Some? {
          CreationStays(s, t, s.plans[h].found.value);
        }
      }
    }
  }

  /** A store comes at least a minute after every older challenge of its user that is still open. */
  ghost predicate Spaced(s: World, t: Step) {
    t.Store? && t.h in s.plans && s.plans[t.h].id !in s.db.challenges ==>
      var c := s.plans[t.h].c;
      forall i :: OpenAt(s, i, c.user) && s.db.challenges[i].createdAt <= c.createdAt
        ==> c.createdAt - s.db.challenges[i].createdAt >= COOLDOWN
  }

  lemma TimelyStoreIsSpaced(s: World, t: Step)
    requires Inv(s) && PlansSpaced(s) && Enabled(s, t) && Timely(s, t)
    ensures Spaced(s, t)
  {
    hide OneOpen, UniqueEmails;
    if t.Store? && s.plans[t.h].id !in s.db.challenges {
      var p := s.plans[t.h];
      assert PlanSound(s, p) && PlanSpaced(s, p);
      forall i | OpenAt(s, i, p.c.user) && s.db.challenges[i].createdAt <= p.c.createdAt
        ensures p.c.createdAt - s.db.challenges[i].createdAt >= COOLDOWN {
        assert Counted(s, i);
      }
    }
  }

  ghost predicate AlwaysSpaced(s: World, steps: seq<Step>)
    decreases |steps|
  {
    steps != [] ==> Enabled(s, steps[0]) && Spaced(s, steps[0]) && AlwaysSpaced(Next(s, steps[0]), steps[1..])
  }

  /** In every timely run a challenge that is stored while an older one of its user is open comes at least a minute after it. */
  lemma {:induction false} TimelyRunIsSpaced(s: World, steps: seq<Step>, end: World)
    requires Inv(s) && PlansSpaced(s) && IsRun(s, steps, end) && TimelyRun(s, steps)
    ensures AlwaysSpaced(s, steps)
    decreases |steps|
  {
    hide Inv, PlansSpaced, Next, Timely, Enabled, Spaced;
    if steps != [] {
      TimelyStoreIsSpaced(s, steps[0]);
      StepKeepsInvIff(s, steps[0]);
      StepKeepsSpaced(s, steps[0]);
      TimelyRunIsSpaced(Next(s, steps[0]), steps[1..], end);
    }
  }

  /* ---- what became of the emails ---- */

  /**
   One delivery settles a REQUESTED challenge: SENT exactly when it is in its time and one of the attempts was accepted,
   EXPIRED exactly when it is late, DISPATCH_FAILED otherwise; what the user has to prove stays as it was.
   */
  lemma DeliverySettles(db: Db, u: int, id: string, now: int, a: Answers)
    requires id != "" && u > 0 && id in db.challenges && db.challenges[id].status == Requested
    ensures var (db', c) := (Dispatched(db, u, id, now, a), db.challenges[id]);
      && db'.challenges.Keys == db.challenges.Keys && db'.users == db.users
      && (forall i :: i in db.challenges && i != id ==> db'.challenges[i] == db.challenges[i])
      && var c' := db'.challenges[id];
      && c' == c.(status := c'.status, lastError := c'.lastError)
      && (c'.status == Expired <==> c.expiresAt <= now)
      && (c'.status == Sent <==> now < c.expiresAt && c.newEmail != "" && exists k :: 0 <= k < 3 && a[k].AcceptedBy?)
      && (c'.status in {Expired, Sent, DispatchFailed})
      && (c'.lastError.None? <==> c'.status == Sent)
      && (c'.status == DispatchFailed && c.newEmail != "" ==>
            c'.lastError == Some(Dispatch(match a[2]
                                          case Rejection(error) => if error == "" then "DISPATCH_FAILED" else error
                                          case Timeout => "PROVIDER_TIMEOUT"
                                          case _ => "PROVIDER_EXCEPTION")))
  {
  }

  /** A redelivery changes nothing and calls nobody. */
  lemma RedeliveryIsHarmless(db: Db, u: int, id: string, now: int, later: int, a: Answers, b: Answers)
    ensures var db' := Dispatched(db, u, id, now, a);
      && Dispatched(db', u, id, later, b) == db'
      && (id != "" && u > 0 && id in db'.challenges ==> !Sends(db'.challenges[id], later))
  {
  }

  /** Over every timely run: SENT means that the provider took exactly one email, DISPATCH_FAILED and REQUESTED that it took none. */
  lemma StatusTellsDispatch(s: World, steps: seq<Step>, end: World, i: string)
    requires Initial(s) && IsRun(s, steps, end) && TimelyRun(s, steps) && i in end.db.challenges
    ensures i in end.accepted && end.accepted[i] <= 1
    ensures end.db.challenges[i].status == Sent ==> end.accepted[i] == 1
    ensures end.db.challenges[i].status in {Requested, DispatchFailed} ==> end.accepted[i] == 0
  {
    EveryRunIsSound(s, steps, end);
    assert Counted(end, i);
  }
}
