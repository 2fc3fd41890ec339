/**
 Claims by compare-and-set, in every run: at most one handler wins with one version of a booking, as long as no stale cancel
 writes an older version back.
 */
module SagaVersions {
  import opened BookingSaga
  import opened SagaMoney
  import opened SagaRuns
  import opened SagaTheorems

  /** A cancel that counts up a version older than the one the booking has by now. */
  predicate Lowers(w: World, t: Step, id: int)
    requires Enabled(w, t) && id in w.s.bookings
  {
    t.DropStep? && w.drops[t.h].booking == id && w.drops[t.h].version + 1 < w.s.bookings[id].version
  }

  /** The version of a booking falls exactly in such a step: no late payment, hold or compensation write lowers it. */
  lemma VersionFallsIff(w: World, t: Step, id: int)
    requires Enabled(w, t) && w.s.nextBooking !in w.s.bookings && id in w.s.bookings
    ensures id in Next(w, t).s.bookings
    ensures Next(w, t).s.bookings[id].version < w.s.bookings[id].version <==> Lowers(w, t, id)
  {
    hide Begin, Hold, RequestPayment, Claimed, ConfirmFaults, Dropped, HoldSucceeds, VerifyPayment, Interested;
    match t
    case Start(r, token) => StartKeepsOthers(w.s, r, token);
    case HoldStep(c, lost, gateway) => HoldChanges(w.s, c, lost, gateway);
    case PaymentStep(c, order, lost, gateway) => PaymentChanges(w.s, c, order, lost, gateway);
    case VerifyStep(o, payment, signatureOk) => VerifyKeepsBookings(w.s, o, payment, signatureOk);
    case Claim(h, refreshed, gateway) => ClaimSettles(w.s, w.seen[h], refreshed, gateway);
    case CompensateStep(h, gateway) => ConfirmFaultsSettles(w.s, w.rolled[h].booking, gateway);
    case DropStep(h) => DropChanges(w.s, w.drops[h]);
    case _ =>
  }

  lemma StartKeepsOthers(s: System, r: Request, token: int)
    requires s.nextBooking !in s.bookings
    ensures forall id :: id in s.bookings ==> id in Begin(s, r, token).bookings && Begin(s, r, token).bookings[id] == s.bookings[id]
  {
    hide Begin;
    if Begin(s, r, token).nextBooking != s.nextBooking {
      BeginParts(s, r, token);
    } else {
      FailedBeginParts(s, r, token);
    }
  }

  lemma VerifyKeepsBookings(s: System, o: int, payment: string, signatureOk: bool)
    ensures VerifyPayment(s, o, payment, signatureOk).bookings == s.bookings
  {
  }

  /** A run in which no cancel writes an older version of this booking back. */
  ghost predicate NeverLowered(w: World, steps: seq<Step>, id: int)
    decreases |steps|
  {
    steps != [] ==> Enabled(w, steps[0]) && id in w.s.bookings && !Lowers(w, steps[0], id) && NeverLowered(Next(w, steps[0]), steps[1..], id)
  }

  /** From one state of the run to the next the version never falls. */
  ghost predicate AlwaysUp(w: World, steps: seq<Step>, id: int)
    decreases |steps|
  {
    && id in w.s.bookings
    && (steps != [] ==>
          && Enabled(w, steps[0]) && id in Next(w, steps[0]).s.bookings
          && w.s.bookings[id].version <= Next(w, steps[0]).s.bookings[id].version && AlwaysUp(Next(w, steps[0]), steps[1..], id))
  }

  lemma {:induction false} VersionsNeverDecreaseIff(w: World, steps: seq<Step>, end: World, id: int)
    requires Numbered(w.s) && IsRun(w, steps, end) && id in w.s.bookings
    ensures AlwaysUp(w, steps, id) <==> NeverLowered(w, steps, id)
    ensures NeverLowered(w, steps, id) ==> id in end.s.bookings && w.s.bookings[id].version <= end.s.bookings[id].version
    decreases |steps|
  {
    hide Next, Enabled, Lowers;
    if steps != [] {
      VersionFallsIff(w, steps[0], id);
      StepKeepsNumbers(w, steps[0]);
      VersionsNeverDecreaseIff(Next(w, steps[0]), steps[1..], end, id);
    }
  }

  /**
   Of all handlers that read one version of a booking, duplicates included, at most one ever wins its claim, in every run
   without a lowered version; the claims of the others change no booking, no row, no key and no order.
   */
  lemma AtMostOneClaimWins(w: World, t: Step, steps: seq<Step>, end: World, other: Step)
    requires Numbered(w.s) && t.Claim? && Enabled(w, t) && Wins(w, t.h) && IsRun(Next(w, t), steps, end)
    requires NeverLowered(Next(w, t), steps, w.seen[t.h].booking)
    requires other.Claim? && Enabled(end, other)
    requires end.seen[other.h].booking == w.seen[t.h].booking && end.seen[other.h].version == w.seen[t.h].version
    ensures !Wins(end, other.h) && Next(end, other).s == end.s
  {
    WinnerBumps(w, t);
    StepKeepsNumbers(w, t);
    VersionsNeverDecreaseIff(Next(w, t), steps, end, w.seen[t.h].booking);
    hide Claimed, NeverLowered, AlwaysUp, IsRun;
  }

  lemma WinnerBumps(w: World, t: Step)
    requires t.Claim? && Enabled(w, t) && Wins(w, t.h)
    ensures var id := w.seen[t.h].booking; id in Next(w, t).s.bookings && Next(w, t).s.bookings[id].version > w.seen[t.h].version
  {
    ClaimSettles(w.s, w.seen[t.h], t.refreshed, t.gateway);
    hide Claimed;
  }

  /** A cancel that comes in time writes the first version a booking can be counted up to. */
  lemma {:induction false} OnTimeNeverLowers(w: World, steps: seq<Step>, end: World, id: int)
    requires Sound(w) && OnTimeRun(w, steps, end) && id in w.s.bookings
    ensures NeverLowered(w, steps, id)
    decreases |steps|
  {
    hide Next, MoneyInv, Numbered;
    if steps != [] {
      OnTimeLowersNothing(w, steps[0], id);
      StepKeepsSound(w, steps[0]);
      VersionFallsIff(w, steps[0], id) by { NewIsNew(w); }
      OnTimeNeverLowers(Next(w, steps[0]), steps[1..], end, id);
    }
  }

  lemma NewIsNew(w: World)
    requires Sound(w)
    ensures w.s.nextBooking !in w.s.bookings
  {
  }

  lemma OnTimeLowersNothing(w: World, t: Step, id: int)
    requires Sound(w) && Enabled(w, t) && OnTime(w, t) && id in w.s.bookings
    ensures !Lowers(w, t, id)
  {
    hide MoneyInv;
    if t.DropStep? {
      assert DropSound(w.s, w.drops[t.h]);
    }
  }
}
