/**
 Webhook delivery: one attempt follows redirects, stores its outcome and either settles the job or
 throws to be retried. Attempts of one delivery do not overlap. What the network answers, and
 what the database reports of each write, is given for every attempt.
 */
module Webhook {
  import opened Commands
  import opened Options

  const MAX_REDIRECTS := 3
  const ATTEMPTS := 5

  datatype Status = Success | Failed | Retrying

  /**
   What becomes of one hop: the address is refused before anything is sent, the request fails, or
   there is a response, with or without a Location that can be followed, whose body may fail to arrive.
   */
  datatype Hop = Blocked | Broken | Response(code: nat, location: bool, readable: bool)

  predicate IsRedirect(code: nat) {
    code == 301 || code == 302 || code == 303 || code == 307 || code == 308
  }

  /** Whether the secret decrypts, the hops of one attempt, and the answers to its settling write and to its catch's. */
  datatype Weather = Weather(decrypts: bool, hops: nat -> Hop, settle: Answer, caught: Answer)

  datatype Reply = Refused | Final(code: nat) | NoReply

  /** What an attempt leaves: the delivery's status, the requests it sent, and whether it threw. */
  datatype Outcome = Outcome(delivery: Option<Status>, requests: nat, threw: bool)

  // ---- one attempt ----

  function Follow(hops: nat -> Hop, i: nat): (r: (Reply, nat))
    decreases MAX_REDIRECTS + 1 - i
  {
    if i > MAX_REDIRECTS then (NoReply, 0)
    else
      match hops(i)
      case Blocked => (Refused, 0)
      case Broken => (NoReply, 1)
      case Response(code, location, readable) =>
        if !IsRedirect(code) then (if readable then Final(code) else NoReply, 1)
        else if location then var (reply, n) := Follow(hops, i + 1); (reply, n + 1)
        else (NoReply, 1)
  }

  predicate IsOk(code: nat) {
    200 <= code < 300
  }

  predicate IsPermanent(code: nat) {
    400 <= code < 500 && code != 429
  }

  /** The status a reply settles the delivery with; None if it is to be retried. */
  function Settles(reply: Reply): Option<Status> {
    match reply
    case Refused => Some(Failed)
    case Final(code) => if IsOk(code) then Some(Success) else if IsPermanent(code) then Some(Failed) else None
    case NoReply => None
  }

  function Caught(delivery: Option<Status>, made: nat, attempts: nat, answer: Answer): Option<Status> {
    if HasEffect(answer) then Some(if made + 1 >= attempts then Failed else Retrying) else delivery
  }

  /** Attempt number `made + 1` of a job. A settling write that reports an error ends in the catch, stored or not. */
  function Attempt(delivery: Option<Status>, made: nat, attempts: nat, w: Weather): Outcome {
    if delivery == Some(Success) then Outcome(delivery, 0, false)
    else if !w.decrypts then Outcome(delivery, 0, true)
    else
      var (reply, n) := Follow(w.hops, 0);
      var settled := Settles(reply);
      if settled.Some? && w.settle.Done? then Outcome(settled, n, false)
      else
        var written := if settled.Some? && HasEffect(w.settle) then settled else delivery;
        Outcome(Caught(written, made, attempts, w.caught), n, true)
  }

  /** The worker's function: the redirect loop, and a catch that stores what is left. */
  method ProcessWebhookDelivery(delivery: Option<Status>, made: nat, attempts: nat, w: Weather) returns (o: Outcome)
    ensures o == Attempt(delivery, made, attempts, w)
  {
    if delivery == Some(Success) {
      return Outcome(delivery, 0, false);
    }
    if !w.decrypts {
      return Outcome(delivery, 0, true);
    }
    var hops := 0;
    var requests := 0;
    var threw := false;
    var final: Option<nat> := None;
    var stored := delivery;
    while hops <= MAX_REDIRECTS && final.None? && !threw
      invariant 0 <= hops <= MAX_REDIRECTS + 1
      invariant final.None? && !threw ==>
                  requests == hops && Follow(w.hops, 0) == (Follow(w.hops, hops).0, Follow(w.hops, hops).1 + requests)
      invariant threw ==> Follow(w.hops, 0) == (NoReply, requests)
      invariant final.Some? && !threw ==> Follow(w.hops, 0) == (Final(final.value), requests)
      decreases MAX_REDIRECTS + 1 - hops, final.None? && !threw
    {
      match w.hops(hops)
      case Blocked =>
        stored := if HasEffect(w.settle) then Some(Failed) else stored;
        if w.settle.Done? {
          return Outcome(stored, requests, false);
        }
        return Outcome(Caught(stored, made, attempts, w.caught), requests, true);
      case Broken =>
        requests := requests + 1;
        threw := true;
      case Response(code, location, readable) =>
        requests := requests + 1;
        if !IsRedirect(code) {
          final, threw := Some(code), !readable;
        } else if location {
          hops := hops + 1;
        } else {
          threw := true;
        }
    }
    if !threw && final.Some? {
      var code := final.value;
      if 200 <= code < 300 {
        stored := if HasEffect(w.settle) then Some(Success) else stored;
        if w.settle.Done? {
          return Outcome(stored, requests, false);
        }
      } else if code >= 400 && code < 500 && code != 429 {
        stored := if HasEffect(w.settle) then Some(Failed) else stored;
        if w.settle.Done? {
          return Outcome(stored, requests, false);
        }
      }
    }
    if HasEffect(w.caught) {
      stored := if made + 1 >= attempts then Some(Failed) else Some(Retrying);
    }
    o := Outcome(stored, requests, true);
  }

  lemma {:induction false} FollowSendsFew(hops: nat -> Hop, i: nat)
    requires i <= MAX_REDIRECTS + 1
    ensures Follow(hops, i).1 <= MAX_REDIRECTS + 1 - i
    decreases MAX_REDIRECTS + 1 - i
  {
    if i <= MAX_REDIRECTS {
      FollowSendsFew(hops, i + 1);
    }
  }

  /** The receiver answers the attempt with success. */
  predicate IsAccepted(w: Weather) {
    w.decrypts && Settles(Follow(w.hops, 0).0) == Some(Success)
  }

  lemma AttemptFacts(delivery: Option<Status>, made: nat, attempts: nat, w: Weather)
    ensures var o := Attempt(delivery, made, attempts, w);
            && o.requests <= MAX_REDIRECTS + 1
            && (delivery == Some(Success) ==> o == Outcome(delivery, 0, false))
            && (!o.threw ==> o.delivery == Some(Success) || o.delivery == Some(Failed))
            && (delivery != Some(Success) && o.delivery == Some(Success) ==> IsAccepted(w))
  {
    hide Follow;
    FollowSendsFew(w.hops, 0);
  }

  /** An attempt whose first hop answers outright, and whose write is stored, settles by the answer's code. */
  lemma CodesSettle(delivery: Option<Status>, made: nat, attempts: nat, w: Weather, code: nat, location: bool)
    requires delivery != Some(Success) && w.decrypts && w.settle.Done? && w.caught.Done? && made < attempts
    requires w.hops(0) == Response(code, location, true)
    requires code !in {301, 302, 303, 307, 308}
    ensures var o := Attempt(delivery, made, attempts, w);
            var accepted, refused := 200 <= code <= 299, 400 <= code <= 499 && code != 429;
            && o.requests == 1 && (o.threw <==> !accepted && !refused)
            && (o.delivery == Some(Success) <==> accepted)
            && (o.delivery == Some(Failed) <==> refused || (!accepted && made + 1 == attempts))
            && (o.delivery == Some(Retrying) <==> !accepted && !refused && made + 1 < attempts)
  {
  }

  /** A redirect that can be followed is followed by one more request, and is never settled by itself. */
  lemma RedirectsAreFollowed(hops: nat -> Hop, i: nat, code: nat, location: bool, readable: bool)
    requires hops(i) == Response(code, location, readable) && code in {301, 302, 303, 307, 308}
    ensures i < 3 && location ==> Follow(hops, i) == (Follow(hops, i + 1).0, Follow(hops, i + 1).1 + 1)
    ensures i == 3 || (i < 3 && !location) ==> Follow(hops, i) == (NoReply, 1)
  {
  }

  /** An address that must not be called is settled as failed, and nothing is sent to it. */
  lemma BlockedIsNotCalled(delivery: Option<Status>, made: nat, attempts: nat, w: Weather)
    requires delivery != Some(Success) && w.decrypts && w.settle.Done? && w.hops(0) == Blocked
    ensures Attempt(delivery, made, attempts, w) == Outcome(Some(Failed), 0, false)
  {
  }

  // ---- a job ----

  /** BullMQ runs attempts until one returns or their number is used up. */
  function Job(delivery: Option<Status>, made: nat, attempts: nat, ws: seq<Weather>): Outcome
    requires made + |ws| == attempts
    decreases |ws|
  {
    if ws == [] then Outcome(delivery, 0, true)
    else
      var o := Attempt(delivery, made, attempts, ws[0]);
      if !o.threw then o
      else
        var rest := Job(o.delivery, made + 1, attempts, ws[1..]);
        rest.(requests := o.requests + rest.requests)
  }

  /** A job of five attempts sends at most twenty requests; one of n attempts at most four times n. */
  lemma {:induction false} JobSendsFew(delivery: Option<Status>, made: nat, attempts: nat, ws: seq<Weather>)
    requires made + |ws| == attempts
    ensures Job(delivery, made, attempts, ws).requests <= (MAX_REDIRECTS + 1) * |ws|
    ensures |ws| == ATTEMPTS ==> Job(delivery, made, attempts, ws).requests <= 20
    decreases |ws|
  {
    hide Attempt;
    if ws != [] {
      var o := Attempt(delivery, made, attempts, ws[0]);
      AttemptFacts(delivery, made, attempts, ws[0]);
      if o.threw {
        JobSendsFew(o.delivery, made + 1, attempts, ws[1..]);
      }
    }
  }

  predicate IsDecided(delivery: Option<Status>) {
    delivery == Some(Success) || delivery == Some(Failed)
  }

  /** The attempt can decrypt its secret, and one of the writes that its outcome comes to takes effect. */
  predicate Records(w: Weather) {
    w.decrypts && ((Settles(Follow(w.hops, 0).0).Some? && HasEffect(w.settle)) || HasEffect(w.caught))
  }

  /**
   The last attempt leaves the delivery decided exactly if it records its outcome, or the delivery
   was decided already.
   */
  lemma LastAttemptDecides(delivery: Option<Status>, made: nat, w: Weather)
    ensures IsDecided(Attempt(delivery, made, made + 1, w).delivery) <==> IsDecided(delivery) || Records(w)
  {
    hide Follow;
  }

  /** The attempt in which a job ends: the first that returns or is stored as a success, or the last. */
  function LastRun(delivery: Option<Status>, made: nat, attempts: nat, ws: seq<Weather>): (i: nat)
    requires made + |ws| == attempts && ws != []
    ensures i < |ws|
    decreases |ws|
  {
    var o := Attempt(delivery, made, attempts, ws[0]);
    if !o.threw || o.delivery == Some(Success) || |ws| == 1 then 0
    else 1 + LastRun(o.delivery, made + 1, attempts, ws[1..])
  }

  /** The attempt's last write that takes effect makes the delivery a success or a failure. */
  predicate Decides(w: Weather, isLast: bool) {
    && Records(w)
    && (isLast || (Settles(Follow(w.hops, 0).0).Some? && (w.settle.Done? || !HasEffect(w.caught))))
  }

  lemma AttemptDecides(delivery: Option<Status>, made: nat, attempts: nat, w: Weather)
    requires made < attempts && delivery != Some(Success)
    ensures IsDecided(Attempt(delivery, made, attempts, w).delivery) <==>
              Decides(w, made + 1 == attempts) || (!Records(w) && IsDecided(delivery))
  {
    hide Follow;
  }

  /** Attempt `i` decides, and no attempt after it up to the one in which the job ends records anything. */
  predicate DecidesLast(ws: seq<Weather>, i: nat, end: nat) {
    && i <= end < |ws| && Decides(ws[i], i == |ws| - 1)
    && forall j :: i < j <= end ==> !Records(ws[j])
  }

  lemma DecidesLastTail(ws: seq<Weather>, i: nat, end: nat)
    requires 0 < end < |ws| && i > 0
    ensures DecidesLast(ws, i, end) <==> DecidesLast(ws[1..], i - 1, end - 1)
  {
    hide Decides, Records;
    if DecidesLast(ws[1..], i - 1, end - 1) {
      forall j | i < j <= end
        ensures !Records(ws[j])
      {
        assert !Records(ws[1..][j - 1]);
      }
    }
  }

  predicate SilentUpTo(ws: seq<Weather>, end: nat) {
    end < |ws| && forall j :: 0 <= j <= end ==> !Records(ws[j])
  }

  lemma SilentTail(ws: seq<Weather>, end: nat)
    requires 0 < end < |ws|
    ensures SilentUpTo(ws, end) <==> !Records(ws[0]) && SilentUpTo(ws[1..], end - 1)
    ensures DecidesLast(ws, 0, end) <==> Decides(ws[0], false) && SilentUpTo(ws[1..], end - 1)
  {
    hide Decides, Records;
    assert forall j :: 0 < j <= end ==> ws[j] == ws[1..][j - 1];
    assert forall j :: 0 <= j <= end - 1 ==> ws[1..][j] == ws[j + 1];
  }

  /** Some attempt decides, and none after it writes over that. */
  ghost predicate IsDecidedBy(ws: seq<Weather>, end: nat) {
    exists i: nat :: DecidesLast(ws, i, end)
  }

  /** What the job's later attempts make of the delivery, seen from its first attempt. */
  lemma EndsLater(ws: seq<Weather>, end: nat, decided: bool)
    requires 0 < end < |ws|
    ensures IsDecidedBy(ws, end) || (decided && SilentUpTo(ws, end)) <==>
              || IsDecidedBy(ws[1..], end - 1)
              || ((Decides(ws[0], false) || (!Records(ws[0]) && decided)) && SilentUpTo(ws[1..], end - 1))
  {
    hide Decides, Records, DecidesLast, SilentUpTo;
    SilentTail(ws, end);
    if IsDecidedBy(ws, end) {
      var i: nat :| DecidesLast(ws, i, end);
      if i > 0 {
        DecidesLastTail(ws, i, end);
      }
    }
    if IsDecidedBy(ws[1..], end - 1) {
      var i: nat :| DecidesLast(ws[1..], i, end - 1);
      DecidesLastTail(ws, i + 1, end);
    }
  }

  /** A job that ends with its first attempt leaves what that attempt leaves. */
  lemma EndsAtOnce(delivery: Option<Status>, made: nat, attempts: nat, ws: seq<Weather>)
    requires made + |ws| == attempts && ws != [] && LastRun(delivery, made, attempts, ws) == 0
    ensures Job(delivery, made, attempts, ws).delivery == Attempt(delivery, made, attempts, ws[0]).delivery
  {
    hide Follow;
  }

  lemma DecidesLastOnly(ws: seq<Weather>)
    requires ws != []
    ensures IsDecidedBy(ws, 0) <==> Decides(ws[0], |ws| == 1)
    ensures SilentUpTo(ws, 0) <==> !Records(ws[0])
  {
    hide Decides, Records;
    assert DecidesLast(ws, 0, 0) <==> Decides(ws[0], |ws| == 1);
  }

  /**
   A finished job's delivery is a success or a failure exactly if one of its attempts decided it and
   no later one wrote over that, or it was decided before and no attempt wrote at all.
   */
  lemma {:induction false} FinishedJobsAreDecided(delivery: Option<Status>, made: nat, attempts: nat, ws: seq<Weather>)
    requires made + |ws| == attempts && ws != [] && delivery != Some(Success)
    ensures var end := LastRun(delivery, made, attempts, ws);
            IsDecided(Job(delivery, made, attempts, ws).delivery) <==>
              || IsDecidedBy(ws, end)
              || (IsDecided(delivery) && SilentUpTo(ws, end))
    decreases |ws|
  {
    var o := Attempt(delivery, made, attempts, ws[0]);
    var end := LastRun(delivery, made, attempts, ws);
    AttemptDecides(delivery, made, attempts, ws[0]);
    hide Attempt, Records, IsDecided, Decides, IsDecidedBy, SilentUpTo;
    if end == 0 {
      EndsAtOnce(delivery, made, attempts, ws);
      DecidesLastOnly(ws);
    } else {
      FinishedJobsAreDecided(o.delivery, made + 1, attempts, ws[1..]);
      assert end == 1 + LastRun(o.delivery, made + 1, attempts, ws[1..]);
      EndsLater(ws, end, IsDecided(delivery));
      assert Job(delivery, made, attempts, ws).delivery == Job(o.delivery, made + 1, attempts, ws[1..]).delivery;
    }
  }

  /** So a write lost at the very end leaves it to be retried forever. */
  lemma LostWriteLeavesRetrying(w: Weather, last: Weather)
    requires w.decrypts && w.hops(0) == Broken && HasEffect(w.caught)
    requires last == w.(caught := Error(false))
    ensures Job(None, 0, 5, [w, w, w, w, last]).delivery == Some(Retrying)
  {
    var a := Some(Retrying);
    forall d: Option<Status> | d != Some(Success)
      ensures Attempt(d, 4, 5, last) == Outcome(d, 1, true)
      ensures forall made: nat :: made < 4 ==> Attempt(d, made, 5, w) == Outcome(a, 1, true)
    {
    }
    assert Job(a, 5, 5, []).delivery == a;
    assert [last][1..] == [] && Job(a, 4, 5, [last]).delivery == a;
    assert [w, last][1..] == [last] && Job(a, 3, 5, [w, last]).delivery == a;
    assert [w, w, last][1..] == [w, last] && Job(a, 2, 5, [w, w, last]).delivery == a;
    assert [w, w, w, last][1..] == [w, w, last] && Job(a, 1, 5, [w, w, w, last]).delivery == a;
    assert [w, w, w, w, last][1..] == [w, w, w, last];
  }

  // ---- any number of jobs for one delivery ----

  /** One attempt of one of the jobs that carry the delivery's identifier. */
  datatype Try = Try(made: nat, attempts: nat, weather: Weather)

  function Tries(delivery: Option<Status>, tries: seq<Try>): (r: (Option<Status>, nat))
    decreases |tries|
  {
    if tries == [] then (delivery, 0)
    else
      var o := Attempt(delivery, tries[0].made, tries[0].attempts, tries[0].weather);
      var (d, n) := Tries(o.delivery, tries[1..]);
      (d, o.requests + n)
  }

  /**
   Once a success is recorded, no attempt of whatever job for the delivery sends a request any
   more, and the delivery stays a success.
   */
  lemma {:induction false} SuccessIsFinal(tries: seq<Try>)
    ensures Tries(Some(Success), tries) == (Some(Success), 0)
    decreases |tries|
  {
    if tries != [] {
      AttemptFacts(Some(Success), tries[0].made, tries[0].attempts, tries[0].weather);
      hide Attempt;
      SuccessIsFinal(tries[1..]);
    }
  }

  /** The number of requests that the receiver has answered with success. */
  function Accepted(delivery: Option<Status>, tries: seq<Try>): nat
    decreases |tries|
  {
    if tries == [] then 0
    else
      var t := tries[0];
      var o := Attempt(delivery, t.made, t.attempts, t.weather);
      (if o.requests > 0 && Settles(Follow(t.weather.hops, 0).0) == Some(Success) then 1 else 0)
      + Accepted(o.delivery, tries[1..])
  }

  /** A success that is stored stays stored: its write reports no error, or the catch's has no effect. */
  predicate Sticks(w: Weather) {
    w.settle.Done? || (w.settle.landed && !HasEffect(w.caught))
  }

  /** If every success sticks, the receiver accepts the delivery at most once. */
  lemma {:induction false} AcceptedAtMostOnce(delivery: Option<Status>, tries: seq<Try>)
    requires forall i :: 0 <= i < |tries| && IsAccepted(tries[i].weather) ==> Sticks(tries[i].weather)
    ensures Accepted(delivery, tries) <= 1
    ensures delivery == Some(Success) ==> Accepted(delivery, tries) == 0
    decreases |tries|
  {
    if tries != [] {
      var t := tries[0];
      var o := Attempt(delivery, t.made, t.attempts, t.weather);
      hide Follow;
      AcceptedAtMostOnce(o.delivery, tries[1..]);
    }
  }

  lemma LostSuccessIsSentAgain(w: Weather)
    requires IsAccepted(w) && !Sticks(w)
    ensures Accepted(None, [Try(0, ATTEMPTS, w), Try(1, ATTEMPTS, w)]) == 2
  {
    var t, u := Try(0, ATTEMPTS, w), Try(1, ATTEMPTS, w);
    var o := Attempt(None, 0, ATTEMPTS, w);
    hide Follow;
    assert Accepted(o.delivery, [u]) == 1;
    assert [t, u][1..] == [u];
  }

  /** The receiver accepts a delivery at most once, in every run of the attempts that may happen, exactly if every success sticks. */
  lemma AcceptedAtMostOnceIff(happens: Weather -> bool)
    ensures (forall tries: seq<Try> :: (forall i :: 0 <= i < |tries| ==> happens(tries[i].weather)) ==> Accepted(None, tries) <= 1)
            <==> forall w :: happens(w) && IsAccepted(w) ==> Sticks(w)
  {
    hide Accepted, IsAccepted, Sticks;
    if forall w :: happens(w) && IsAccepted(w) ==> Sticks(w) {
      forall tries: seq<Try> | forall i :: 0 <= i < |tries| ==> happens(tries[i].weather)
        ensures Accepted(None, tries) <= 1
      {
        AcceptedAtMostOnce(None, tries);
      }
    } else {
      var w :| happens(w) && IsAccepted(w) && !Sticks(w);
      LostSuccessIsSentAgain(w);
    }
  }
}
