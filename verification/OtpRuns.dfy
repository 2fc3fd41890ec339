/**
 Every run of requests, confirmations, delivered and redelivered dispatches, and passing time. A request looks for an
 open challenge in one step and stores its own in another, as the query takes no lock.
 */
module OtpRuns {
  import opened Options
  import opened OtpChallenge

  /** What a request has decided to write when it has looked. */
  datatype Plan = Plan(id: string, found: Option<string>, c: Challenge)

  /** `wrong` counts failed comparisons and `accepted` the emails the provider took; the program keeps neither. */
  datatype World = World(db: Db, now: int, plans: map<int, Plan>, wrong: map<string, nat>, accepted: map<string, nat>)

  datatype Step =
    | Look(h: int, user: int, newEmail: string, id: string, otp: int, found: Option<string>)
    | Store(h: int)
    | Answer(user: int, id: string, guess: int)
    | Deliver(user: int, id: string, answers: Answers)
    | Wait(seconds: nat)
    | Activate(user: int, active: bool)

  ghost predicate Enabled(s: World, t: Step) {
    match t
    case Look(h, user, _, _, _, found) => h !in s.plans && FoundOpen(s.db.challenges, user, s.now, found)
    case Store(h) => h in s.plans && (s.plans[h].found.Some? ==> s.plans[h].found.value in s.db.challenges)
    case _ => true
  }

  function Bumped(m: map<string, nat>, id: string): map<string, nat> {
    m[id := (if id in m then m[id] else 0) + 1]
  }

  ghost function Next(s: World, t: Step): World
    requires Enabled(s, t)
  {
    match t
    case Look(h, u, newEmail, id, otp, found) =>
      if Request(s.db, u, newEmail, s.now, id, otp, found).1.Accepted?
      then s.(plans := s.plans[h := Plan(id, found, Fresh(u, s.db.users[u].email, newEmail, otp, s.now))])
      else s
    case Store(h) =>
      var p := s.plans[h];
      var done := s.(plans := s.plans - {h});
      if p.id in s.db.challenges then done
      else done.(db := Stored(s.db, p.found, p.id, p.c), wrong := s.wrong[p.id := 0], accepted := s.accepted[p.id := 0])
    case Answer(u, id, guess) =>
      var (db', reply) := Confirm(s.db, u, id, guess, s.now);
      s.(db := db', wrong := if reply == Refused(WrongOtp) then Bumped(s.wrong, id) else s.wrong)
    case Deliver(u, id, answers) =>
      var sent := id != "" && u > 0 && id in s.db.challenges && Sends(s.db.challenges[id], s.now) && AnyAccepted(answers);
      s.(db := Dispatched(s.db, u, id, s.now, answers), accepted := if sent then Bumped(s.accepted, id) else s.accepted)
    case Wait(seconds) => s.(now := s.now + seconds)
    case Activate(u, active) =>
      if u in s.db.users then s.(db := s.db.(users := s.db.users[u := s.db.users[u].(active := active)])) else s
  }

  ghost predicate OpenAt(s: World, i: string, u: int) {
    i in s.db.challenges && s.db.challenges[i].Open(u, s.now)
  }

  /** At most one open challenge per user. */
  ghost predicate OneOpen(s: World) {
    forall i, j, u :: OpenAt(s, i, u) && OpenAt(s, j, u) ==> i == j
  }

  /**
   Every comparison is counted, and none is made beyond the limit; a challenge whose attempts are used up is closed. SENT means
   that the provider took one email, DISPATCH_FAILED that it took none.
   */
  ghost predicate Counted(s: World, i: string)
    requires i in s.db.challenges
  {
    var c := s.db.challenges[i];
    && i in s.wrong && i in s.accepted
    && s.wrong[i] + (if c.status == Verified then 1 else 0) == c.attempts <= c.maxAttempts == MAX_ATTEMPTS
    && c.expiresAt == c.createdAt + TTL && c.newEmail != "" && c.newEmail != c.oldEmail
    && s.accepted[i] <= 1 && (c.status == Requested ==> s.accepted[i] == 0)
    && (c.status == Sent ==> s.accepted[i] == 1) && (c.status == DispatchFailed ==> s.accepted[i] == 0)
    && (c.attempts == MAX_ATTEMPTS ==> c.status in {Blocked, Verified, Expired}) && (c.status == Blocked ==> c.attempts == MAX_ATTEMPTS)
  }

  ghost predicate AllCounted(s: World) {
    forall i :: i in s.db.challenges ==> Counted(s, i)
  }

  ghost predicate UniqueEmails(users: Users) {
    forall u, v :: u in users && v in users && u != v ==> users[u].email != users[v].email
  }

  /** What a request looked at is still there, and what it will store is a fresh challenge. */
  ghost predicate PlanSound(s: World, p: Plan) {
    && (p.found.Some? ==> p.found.value in s.db.challenges)
    && p.c == Fresh(p.c.user, p.c.oldEmail, p.c.newEmail, p.c.otp, p.c.createdAt)
    && p.c.newEmail != "" && p.c.newEmail != p.c.oldEmail
  }

  ghost predicate PlansSound(s: World) {
    forall h :: h in s.plans ==> PlanSound(s, s.plans[h])
  }

  ghost predicate Inv(s: World) {
    OneOpen(s) && AllCounted(s) && UniqueEmails(s.db.users) && PlansSound(s)
  }

  ghost predicate Initial(s: World) {
    s.db.challenges == map[] && s.plans == map[] && UniqueEmails(s.db.users)
  }

  /* ---- storing on a stale look ---- */

  /**
   The condition a caller could check before the write: the challenge it supersedes was not verified meanwhile, and, unless
   its own has expired already, the open challenge of the user, if there is one, is the one it found.
   */
  ghost predicate StillAsSeen(s: World, p: Plan) {
    && (p.found.Some? && p.found.value in s.db.challenges ==> s.db.challenges[p.found.value].status != Verified)
    && (s.now < p.c.expiresAt ==> forall i :: OpenAt(s, i, p.c.user) ==> p.found == Some(i))
  }

  ghost predicate Timely(s: World, t: Step) {
    t.Store? && t.h in s.plans && s.plans[t.h].id !in s.db.challenges ==> StillAsSeen(s, s.plans[t.h])
  }

  lemma StoredCounted(s: World, h: int, i: string)
    requires Inv(s) && Enabled(s, Store(h)) && Timely(s, Store(h)) && i in Next(s, Store(h)).db.challenges
    ensures Counted(Next(s, Store(h)), i)
  {
    hide OneOpen, UniqueEmails, OpenAt;
    assert PlanSound(s, s.plans[h]);
    assert i in s.db.challenges ==> Counted(s, i);
  }

  /** A store keeps one open challenge per user exactly when it supersedes the one that is open. */
  lemma StoreKeepsOneOpenIff(s: World, found: Option<string>, id: string, c: Challenge)
    requires OneOpen(s) && id !in s.db.challenges && (found.Some? ==> found.value in s.db.challenges)
    requires c.status == Requested
    ensures OneOpen(s.(db := Stored(s.db, found, id, c)))
      <==> (s.now < c.expiresAt ==> forall i :: OpenAt(s, i, c.user) ==> found == Some(i))
  {
    var s' := s.(db := Stored(s.db, found, id, c));
    forall i, u | OpenAt(s', i, u) ensures i == id || (OpenAt(s, i, u) && found != Some(i)) {}
    forall i, u | OpenAt(s, i, u) && found != Some(i) ensures OpenAt(s', i, u) {}
    if s.now < c.expiresAt {
      assert OpenAt(s', id, c.user);
    }
  }

  lemma StoreKeepsPlans(s: World, h: int)
    requires PlansSound(s) && Enabled(s, Store(h))
    ensures PlansSound(Next(s, Store(h)))
  {
    forall g | g in Next(s, Store(h)).plans ensures PlanSound(Next(s, Store(h)), s.plans[g]) {
      assert PlanSound(s, s.plans[g]);
    }
  }

  /** The store of a request keeps everything exactly when what it saw still holds. */
  lemma StoreIsSafeIff(s: World, h: int)
    requires Inv(s) && Enabled(s, Store(h))
    ensures Inv(Next(s, Store(h))) <==> Timely(s, Store(h))
  {
    hide OneOpen, UniqueEmails, OpenAt, Counted;
    var p := s.plans[h];
    var s' := Next(s, Store(h));
    assert PlanSound(s, p);
    StoreKeepsPlans(s, h);
    if p.id in s.db.challenges {
      SameData(s, s');
    } else {
      StoreKeepsOneOpenIff(s, p.found, p.id, p.c);
      SameOpen(s.(db := Stored(s.db, p.found, p.id, p.c)), s');
      if Timely(s, Store(h)) {
        forall i | i in s'.db.challenges ensures Counted(s', i) {
          StoredCounted(s, h, i);
        }
      } else if p.found.Some? && s.db.challenges[p.found.value].status == Verified {
        VerifiedLosesCount(s, s', p);
      }
    }
  }

  lemma SameOpen(s: World, s': World)
    requires s'.db.challenges == s.db.challenges && s'.now == s.now
    ensures OneOpen(s) <==> OneOpen(s')
  {
    forall i, u ensures OpenAt(s, i, u) <==> OpenAt(s', i, u) {}
  }

  lemma SameData(s: World, s': World)
    requires s' == s.(plans := s'.plans)
    ensures OneOpen(s) <==> OneOpen(s')
    ensures AllCounted(s) <==> AllCounted(s')
  {
    SameOpen(s, s');
    forall i | i in s.db.challenges ensures Counted(s, i) <==> Counted(s', i) {}
  }

  /** Superseding a verified challenge makes the successful comparison disappear from the accounts. */
  lemma VerifiedLosesCount(s: World, s': World, p: Plan)
    requires AllCounted(s) && p.found.Some? && p.found.value in s.db.challenges && p.id !in s.db.challenges
    requires s.db.challenges[p.found.value].status == Verified
    requires s'.db == Stored(s.db, p.found, p.id, p.c) && s'.wrong == s.wrong[p.id := 0]
    ensures !AllCounted(s')
  {
    assert Counted(s, p.found.value);
    assert !Counted(s', p.found.value);
  }

  lemma LookKeepsInv(s: World, t: Step)
    requires Inv(s) && t.Look? && Enabled(s, t)
    ensures Inv(Next(s, t))
  {
    hide OneOpen, AllCounted, InUse;
    var s' := Next(s, t);
    SameData(s, s');
    forall h | h in s'.plans ensures PlanSound(s', s'.plans[h]) {
      assert h in s.plans ==> PlanSound(s, s.plans[h]);
    }
  }

  lemma KeepsPlans(s: World, t: Step)
    requires PlansSound(s) && Enabled(s, t) && !t.Look? && !t.Store?
    ensures PlansSound(Next(s, t))
  {
    forall h | h in s.plans ensures PlanSound(Next(s, t), s.plans[h]) {
      assert PlanSound(s, s.plans[h]);
    }
  }

  lemma AnswerCounted(s: World, t: Step, i: string)
    requires t.Answer? && i in s.db.challenges && Counted(s, i)
    ensures i in Next(s, t).db.challenges && Counted(Next(s, t), i)
  {
    hide InUse, Taken;
  }

  lemma AnswerKeepsInv(s: World, t: Step)
    requires Inv(s) && t.Answer?
    ensures Inv(Next(s, t))
  {
    KeepsPlans(s, t);
    hide PlansSound, Counted;
    var s' := Next(s, t);
    forall i, u | OpenAt(s', i, u) ensures OpenAt(s, i, u) {}
    forall i | i in s'.db.challenges ensures Counted(s', i) {
      AnswerCounted(s, t, i);
    }
  }

  lemma DeliverKeepsInv(s: World, t: Step)
    requires Inv(s) && t.Deliver?
    ensures Inv(Next(s, t))
  {
    KeepsPlans(s, t);
    hide PlansSound;
    var s' := Next(s, t);
    forall i, u | OpenAt(s', i, u) ensures OpenAt(s, i, u) {}
    forall i | i in s'.db.challenges ensures Counted(s', i) {
      assert Counted(s, i);
    }
  }

  lemma OtherKeepsInv(s: World, t: Step)
    requires Inv(s) && (t.Wait? || t.Activate?)
    ensures Inv(Next(s, t))
  {
    KeepsPlans(s, t);
    hide PlansSound;
    var s' := Next(s, t);
    forall i, u | OpenAt(s', i, u) ensures OpenAt(s, i, u) {}
    forall i | i in s'.db.challenges ensures Counted(s', i) {
      assert Counted(s, i);
    }
  }

  /** A step keeps the invariant exactly when it is not a store on a look that no longer holds. */
  lemma StepKeepsInvIff(s: World, t: Step)
    requires Inv(s) && Enabled(s, t)
    ensures Inv(Next(s, t)) <==> Timely(s, t)
  {
    hide Inv, Next;
    match t
    case Look(_, _, _, _, _, _) => LookKeepsInv(s, t);
    case Store(h) => StoreIsSafeIff(s, h);
    case Answer(_, _, _) => AnswerKeepsInv(s, t);
    case Deliver(_, _, _) => DeliverKeepsInv(s, t);
    case Wait(_) => OtherKeepsInv(s, t);
    case Activate(_, _) => OtherKeepsInv(s, t);
  }

  /** A verified challenge changes only when a request supersedes it that had found it open. */
  lemma VerifiedIsFinalIff(s: World, t: Step, i: string)
    requires Enabled(s, t) && i in s.db.challenges && s.db.challenges[i].status == Verified
    ensures i in Next(s, t).db.challenges
    ensures Next(s, t).db.challenges[i] == s.db.challenges[i]
      <==> !(t.Store? && s.plans[t.h].id !in s.db.challenges && s.plans[t.h].found == Some(i))
  {
  }

  /* ---- whole runs ---- */

  ghost predicate IsRun(s: World, steps: seq<Step>, end: World)
    decreases |steps|
  {
    if steps == [] then end == s else Enabled(s, steps[0]) && IsRun(Next(s, steps[0]), steps[1..], end)
  }

  /** Every store of the run finds what its look saw. */
  ghost predicate TimelyRun(s: World, steps: seq<Step>)
    decreases |steps|
  {
    steps != [] ==> Enabled(s, steps[0]) && Timely(s, steps[0]) && TimelyRun(Next(s, steps[0]), steps[1..])
  }

  ghost predicate AlwaysInv(s: World, steps: seq<Step>)
    decreases |steps|
  {
    Inv(s) && (steps != [] ==> Enabled(s, steps[0]) && AlwaysInv(Next(s, steps[0]), steps[1..]))
  }

  /** A run is sound in every state it visits exactly when all its stores are timely. */
  lemma {:induction false} RunIsSoundIff(s: World, steps: seq<Step>, end: World)
    requires Inv(s) && IsRun(s, steps, end)
    ensures AlwaysInv(s, steps) <==> TimelyRun(s, steps)
    ensures AlwaysInv(s, steps) ==> Inv(end)
    decreases |steps|
  {
    hide Inv, Next, Timely, Enabled;
    if steps != [] {
      StepKeepsInvIff(s, steps[0]);
      if Inv(Next(s, steps[0])) {
        RunIsSoundIff(Next(s, steps[0]), steps[1..], end);
      }
    }
  }

  /** From no challenges: one open challenge per user, every comparison counted, at most one accepted email each. */
  lemma EveryRunIsSound(s: World, steps: seq<Step>, end: World)
    requires Initial(s) && IsRun(s, steps, end) && TimelyRun(s, steps)
    ensures OneOpen(end) && AllCounted(end) && UniqueEmails(end.db.users)
  {
    RunIsSoundIff(s, steps, end);
  }

  lemma {:induction false} VerifiedStaysVerified(s: World, steps: seq<Step>, end: World, i: string)
    requires IsRun(s, steps, end) && TimelyRun(s, steps) && i in s.db.challenges && s.db.challenges[i].status == Verified
    ensures i in end.db.challenges && end.db.challenges[i] == s.db.challenges[i]
    decreases |steps|
  {
    hide Next;
    if steps != [] {
      VerifiedIsFinalIff(s, steps[0], i);
      VerifiedStaysVerified(Next(s, steps[0]), steps[1..], end, i);
    }
  }

  /* ---- which confirmations succeed ---- */

  /**
   The status matters only when it is VERIFIED: the code is accepted exactly when it is right, in time, under the
   limit, the user is active and still has the old address, and nobody has the new one.
   */
  lemma ConfirmSucceedsIff(s: World, u: int, id: string, guess: int)
    requires Inv(s) && id in s.db.challenges
    ensures var c := s.db.challenges[id];
      Confirm(s.db, u, id, guess, s.now).1.Changed? <==>
        && c.user == u && c.status != Verified && s.now < c.expiresAt && c.attempts < MAX_ATTEMPTS && guess == c.otp
        && ActiveUser(s.db.users, u) && (c.oldEmail == "" || s.db.users[u].email == c.oldEmail)
        && forall v :: v in s.db.users && v != u ==> s.db.users[v].email != c.newEmail
  {
    assert Counted(s, id);
  }

  /** A superseded challenge whose code is used in time is still verified: the status EXPIRED is not looked at. */
  lemma SupersededCanBeVerified(s: World, u: int, h: int, guess: int)
    requires Inv(s) && Enabled(s, Store(h)) && Timely(s, Store(h)) && s.plans[h].found.Some? && s.plans[h].id !in s.db.challenges
    requires Confirm(s.db, u, s.plans[h].found.value, guess, s.now).1.Changed?
    ensures var (s', first) := (Next(s, Store(h)), s.plans[h].found.value);
      && s'.db.challenges[first].status == Expired && s'.db.challenges[first].lastError == Some(Superseded)
      && Confirm(s'.db, u, first, guess, s'.now).1 == Changed(s.db.challenges[first].newEmail)
  {
    StoreIsSafeIff(s, h);
    hide Inv;
    ConfirmSucceedsIff(s, u, s.plans[h].found.value, guess);
    ConfirmSucceedsIff(Next(s, Store(h)), u, s.plans[h].found.value, guess);
  }

  /** In no state of the run does the user have this address. */
  ghost predicate Away(s: World, steps: seq<Step>, u: int, email: string)
    decreases |steps|
  {
    && (u in s.db.users ==> s.db.users[u].email != email)
    && (steps != [] ==> Enabled(s, steps[0]) && Away(Next(s, steps[0]), steps[1..], u, email))
  }

  ghost predicate Unused(s: World, i: string, u: int, email: string) {
    i in s.db.challenges && s.db.challenges[i].user == u && s.db.challenges[i].oldEmail == email && s.db.challenges[i].status != Verified
  }

  lemma UnusedStep(s: World, t: Step, i: string, u: int, email: string)
    requires Enabled(s, t) && Unused(s, i, u, email) && email != "" && (u in s.db.users ==> s.db.users[u].email != email)
    ensures Unused(Next(s, t), i, u, email)
  {
    hide InUse, Taken, FoundOpen;
  }

  lemma {:induction false} StaysUnused(s: World, steps: seq<Step>, end: World, i: string, u: int, email: string)
    requires IsRun(s, steps, end) && Away(s, steps, u, email) && Unused(s, i, u, email) && email != ""
    ensures Unused(end, i, u, email)
    decreases |steps|
  {
    hide Next, Enabled, Unused;
    if steps != [] {
      UnusedStep(s, steps[0], i, u, email);
      StaysUnused(Next(s, steps[0]), steps[1..], end, i, u, email);
    }
  }

  /**
   But once one of them has changed the address, no other challenge opened under the old address is ever used, until the
   user has the old address again.
   */
  lemma OnlyOneChallengeWins(s: World, u: int, winner: string, guess: int, loser: string, steps: seq<Step>, end: World)
    requires Inv(s) && Confirm(s.db, u, winner, guess, s.now).1.Changed? && loser != winner
    requires Unused(s, loser, u, s.db.challenges[winner].oldEmail) && s.db.challenges[winner].oldEmail != ""
    requires var s' := Next(s, Answer(u, winner, guess));
      IsRun(s', steps, end) && Away(s', steps, u, s.db.challenges[winner].oldEmail)
    ensures Unused(end, loser, u, s.db.challenges[winner].oldEmail)
  {
    StaysUnused(Next(s, Answer(u, winner, guess)), steps, end, loser, u, s.db.challenges[winner].oldEmail);
  }

  /** The winner does give the user another address, so the run starts away from the old one. */
  lemma WinnerChangesAddress(s: World, u: int, winner: string, guess: int)
    requires Inv(s) && Confirm(s.db, u, winner, guess, s.now).1.Changed? && s.db.challenges[winner].oldEmail != ""
    ensures Away(Next(s, Answer(u, winner, guess)), [], u, s.db.challenges[winner].oldEmail)
  {
    assert Counted(s, winner);
  }

  /* ---- races ---- */

  /** Two requests that found the same, or both nothing, before either wrote leave two open challenges. */
  lemma RacingRequestsBothStay(s: World, g: int, h: int, wait: nat)
    requires Inv(s) && g in s.plans && h in s.plans && g != h
    requires var (p, q) := (s.plans[g], s.plans[h]);
      && p.c.user == q.c.user && p.found == q.found && p.id != q.id && p.id !in s.db.challenges && q.id !in s.db.challenges
      && s.now + wait < p.c.expiresAt && s.now + wait < q.c.expiresAt
    requires Timely(s, Store(g))
    ensures Enabled(s, Store(g)) && Enabled(Next(Next(s, Store(g)), Wait(wait)), Store(h))
    ensures !OneOpen(Next(Next(Next(s, Store(g)), Wait(wait)), Store(h)))
  {
    PlanIsSound(s, g);
    PlanIsSound(s, h);
    FirstStays(s, g, h, wait);
    hide Inv, OneOpen, Timely;
    var s2 := Next(Next(s, Store(g)), Wait(wait));
    InvMeansOneOpen(s2);
    StoreKeepsOneOpenIff(s2, s.plans[h].found, s.plans[h].id, s.plans[h].c);
    SameOpen(s2.(db := Stored(s2.db, s.plans[h].found, s.plans[h].id, s.plans[h].c)), Next(s2, Store(h)));
  }

  lemma PlanIsSound(s: World, h: int)
    requires Inv(s) && h in s.plans
    ensures PlanSound(s, s.plans[h])
  {
    hide OneOpen, AllCounted, UniqueEmails, PlanSound;
  }

  /** The first of the two is open, and the second plan still waits. */
  lemma FirstStays(s: World, g: int, h: int, wait: nat)
    requires Inv(s) && g in s.plans && h in s.plans && g != h && Timely(s, Store(g))
    requires s.plans[g].id !in s.db.challenges && s.plans[h].id !in s.db.challenges && s.plans[g].id != s.plans[h].id
    requires s.now + wait < s.plans[g].c.expiresAt
    ensures var p := s.plans[g];
      var s2 := Next(Next(s, Store(g)), Wait(wait));
      && Inv(s2) && s2.now == s.now + wait && OpenAt(s2, p.id, p.c.user) && h in s2.plans && s2.plans[h] == s.plans[h]
      && s2.plans[h].id !in s2.db.challenges && s.db.challenges.Keys <= s2.db.challenges.Keys
  {
    PlanIsSound(s, g);
    StepKeepsInvIff(s, Store(g));
    StepKeepsInvIff(Next(s, Store(g)), Wait(wait));
    hide Inv, OneOpen;
  }

  /** Such a pair is a run away from every state in which both requests would be accepted. */
  lemma RequestsCanRace(s: World, u: int, found: Option<string>, g: int, h: int, b: string, c: string, i: string, j: string, x: int, y: int)
      returns (end: World)
    requires Inv(s) && FoundOpen(s.db.challenges, u, s.now, found) && g != h && g !in s.plans && h !in s.plans && i != j
    requires Request(s.db, u, b, s.now, i, x, found).1.Accepted? && Request(s.db, u, c, s.now, j, y, found).1.Accepted?
    ensures IsRun(s, [Look(g, u, b, i, x, found), Look(h, u, c, j, y, found), Store(g), Wait(0), Store(h)], end) && !OneOpen(end)
  {
    var steps := [Look(g, u, b, i, x, found), Look(h, u, c, j, y, found), Store(g), Wait(0), Store(h)];
    var s1 := Next(s, steps[0]);
    var s2 := Next(s1, steps[1]);
    LookKeepsInv(s, steps[0]);
    LookKeepsInv(s1, steps[1]);
    FoundIsTimely(s2, steps[2].h, found, u);
    RacingRequestsBothStay(s2, g, h, 0);
    end := Next(Next(Next(s2, steps[2]), steps[3]), steps[4]);
    FiveSteps(s, steps, s2, end);
  }

  lemma FoundIsTimely(s: World, h: int, found: Option<string>, u: int)
    requires OneOpen(s) && FoundOpen(s.db.challenges, u, s.now, found) && h in s.plans && s.plans[h].found == found && s.plans[h].c.user == u
    ensures Timely(s, Store(h))
  {
    forall i | OpenAt(s, i, u) ensures found == Some(i) {
      if found.Some? {
        assert OpenAt(s, found.value, u);
      }
    }
  }

  lemma FiveSteps(s: World, steps: seq<Step>, s2: World, end: World)
    requires |steps| == 5 && Enabled(s, steps[0]) && Enabled(Next(s, steps[0]), steps[1]) && s2 == Next(Next(s, steps[0]), steps[1])
    requires Enabled(s2, steps[2]) && Enabled(Next(s2, steps[2]), steps[3])
    requires var s4 := Next(Next(s2, steps[2]), steps[3]); Enabled(s4, steps[4]) && end == Next(s4, steps[4])
    ensures IsRun(s, steps, end)
  {
    hide Next, Enabled;
    assert IsRun(end, [], end);
    var s4 := Next(Next(s2, steps[2]), steps[3]);
    assert steps[4..] == [steps[4]] && steps[3..][1..] == steps[4..] && steps[2..][1..] == steps[3..] && steps[1..][1..] == steps[2..];
    assert IsRun(s4, steps[4..], end) by { assert steps[4..][1..] == []; }
    assert IsRun(Next(s2, steps[2]), steps[3..], end) by { assert steps[3..][0] == steps[3]; }
    assert IsRun(s2, steps[2..], end) by { assert steps[2..][0] == steps[2]; }
    assert IsRun(Next(s, steps[0]), steps[1..], end) by { assert steps[1..][0] == steps[1]; }
  }

  lemma InvMeansOneOpen(s: World)
    requires Inv(s)
    ensures OneOpen(s)
  {
  }

  /** A request that found a challenge open and stores after it was verified turns it back to EXPIRED. */
  lemma VerifiedCanBeOverwritten(s: World, h: int, u: int, guess: int)
    requires Enabled(s, Store(h)) && s.plans[h].found.Some? && s.plans[h].id !in s.db.challenges
    requires Confirm(s.db, u, s.plans[h].found.value, guess, s.now).1.Changed?
    ensures var (i, s') := (s.plans[h].found.value, Next(s, Answer(u, s.plans[h].found.value, guess)));
      && s'.db.challenges[i].status == Verified && Enabled(s', Store(h)) && !Timely(s', Store(h))
      && Next(s', Store(h)).db.challenges[i].status == Expired
  {
  }
}
