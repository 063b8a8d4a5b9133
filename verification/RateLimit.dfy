/** The sliding-window limiter: a pruned, expiring sorted set that must decide as the full
    history of admissions would. Times are in milliseconds. */
module RateLimit {

  // ---- The full history -------------------------------------------------------------------

  /** Admissions in the interval (lo, hi]. */
  function CountIn(history: seq<int>, lo: int, hi: int): nat {
    if history == [] then 0
    else
      var last := history[|history| - 1];
      CountIn(history[..|history| - 1], lo, hi) + if lo < last <= hi then 1 else 0
  }

  /** The rule: fewer than `limit` admissions in the window that ends now. */
  predicate Admits(history: seq<int>, now: int, window: nat, limit: nat) {
    CountIn(history, now - window, now) < limit
  }

  /** The admissions after requests at these times. */
  function Admissions(requests: seq<int>, window: nat, limit: nat): seq<int> {
    if requests == [] then []
    else
      var before, now := Admissions(requests[..|requests| - 1], window, limit), requests[|requests| - 1];
      if Admits(before, now, window, limit) then before + [now] else before
  }

  predicate Ascending(s: seq<int>) {
    forall i, j | 0 <= i < j < |s| :: s[i] <= s[j]
  }

  /** Every admission was within the rule when it was made. */
  ghost predicate Lawful(history: seq<int>, window: nat, limit: nat) {
    forall i | 0 <= i < |history| :: Admits(history[..i], history[i], window, limit)
  }

  lemma {:induction false} CountMonotone(history: seq<int>, lo: int, hi: int, low: int, high: int)
    requires forall i | 0 <= i < |history| && lo < history[i] <= hi :: low < history[i] <= high
    ensures CountIn(history, lo, hi) <= CountIn(history, low, high)
  {
    if history == [] {
    } else {
      var n := |history| - 1;
      CountMonotone(history[..n], lo, hi, low, high);
    }
  }

  lemma LawfulBefore(history: seq<int>, window: nat, limit: nat)
    requires Lawful(history, window, limit) && history != []
    ensures Lawful(history[..|history| - 1], window, limit)
    ensures Admits(history[..|history| - 1], history[|history| - 1], window, limit)
  {
    var before := history[..|history| - 1];
    forall i | 0 <= i < |before| ensures Admits(before[..i], before[i], window, limit) {
      assert before[..i] == history[..i] && before[i] == history[i];
    }
  }

  /** No interval as long as the window, wherever it lies, holds more than `limit` admissions. */
  lemma {:induction false} NoBurst(history: seq<int>, window: nat, limit: nat, x: int)
    requires Ascending(history) && Lawful(history, window, limit)
    ensures CountIn(history, x, x + window) <= limit
  {
    if history == [] {
    } else {
      var n := |history| - 1;
      var before, last := history[..n], history[n];
      LawfulBefore(history, window, limit);
      if x < last <= x + window {
        assert forall i | 0 <= i < n :: before[i] <= last;
        CountMonotone(before, x, x + window, last - window, last);
      } else {
        NoBurst(before, window, limit, x);
      }
    }
  }

  lemma AscendingExtends(s: seq<int>, now: int)
    requires Ascending(s) && (forall i | 0 <= i < |s| :: s[i] <= now)
    ensures Ascending(s + [now])
  {
  }

  lemma LawfulExtends(history: seq<int>, now: int, window: nat, limit: nat)
    requires Lawful(history, window, limit) && Admits(history, now, window, limit)
    ensures Lawful(history + [now], window, limit)
  {
    var longer := history + [now];
    forall i | 0 <= i < |longer| ensures Admits(longer[..i], longer[i], window, limit) {
      assert longer[..i] == history[..i];
      if i == |history| { assert history[..i] == history; }
    }
  }

  lemma {:induction false} AdmissionsAreLawful(requests: seq<int>, window: nat, limit: nat)
    requires Ascending(requests)
    ensures var h := Admissions(requests, window, limit);
            && Ascending(h) && Lawful(h, window, limit)
            && forall i | 0 <= i < |h| :: requests != [] && h[i] <= requests[|requests| - 1]
  {
    if requests == [] {
    } else {
      var n := |requests| - 1;
      var before := Admissions(requests[..n], window, limit);
      AdmissionsAreLawful(requests[..n], window, limit);
      forall i | 0 <= i < |before| ensures before[i] <= requests[n] {
        assert requests[..n][n - 1] <= requests[n];
      }
      if Admits(before, requests[n], window, limit) {
        AscendingExtends(before, requests[n]);
        LawfulExtends(before, requests[n], window, limit);
      }
    }
  }

  /** For any clock that never runs backwards. */
  lemma RequestsNeverBurst(requests: seq<int>, window: nat, limit: nat, x: int)
    requires Ascending(requests)
    ensures CountIn(Admissions(requests, window, limit), x, x + window) <= limit
  {
    AdmissionsAreLawful(requests, window, limit);
    NoBurst(Admissions(requests, window, limit), window, limit, x);
  }

  // ---- The retained suffix ----------------------------------------------------------------

  lemma {:induction false} CountSplit(dropped: seq<int>, kept: seq<int>, lo: int, hi: int)
    ensures CountIn(dropped + kept, lo, hi) == CountIn(dropped, lo, hi) + CountIn(kept, lo, hi)
  {
    if kept == [] {
      assert dropped + kept == dropped;
    } else {
      var n := |kept| - 1;
      assert (dropped + kept)[..|dropped + kept| - 1] == dropped + kept[..n];
      CountSplit(dropped, kept[..n], lo, hi);
    }
  }

  lemma {:induction false} CountNone(s: seq<int>, lo: int, hi: int)
    requires forall i | 0 <= i < |s| :: s[i] <= lo
    ensures CountIn(s, lo, hi) == 0
  {
    if s == [] {
    } else {
      CountNone(s[..|s| - 1], lo, hi);
    }
  }

  lemma {:induction false} CountAll(s: seq<int>, lo: int, hi: int)
    requires forall i | 0 <= i < |s| :: lo < s[i] <= hi
    ensures CountIn(s, lo, hi) == |s|
  {
    if s == [] {
    } else {
      CountAll(s[..|s| - 1], lo, hi);
    }
  }

  /** If everything forgotten is out of the window and everything kept is in it, counting what
      is kept is counting the history. */
  lemma KeptIsWindow(forgotten: seq<int>, kept: seq<int>, now: int, window: nat)
    requires forall i | 0 <= i < |forgotten| :: forgotten[i] <= now - window
    requires forall i | 0 <= i < |kept| :: now - window < kept[i] <= now
    ensures CountIn(forgotten + kept, now - window, now) == |kept|
  {
    CountSplit(forgotten, kept, now - window, now);
    CountNone(forgotten, now - window, now);
    CountAll(kept, now - window, now);
  }

  // ---- The retry hint ---------------------------------------------------------------------

  /** Whole seconds in the Retry-After header, at least one. */
  function RetrySeconds(retryAfterMs: int): int {
    var ceiling := if retryAfterMs <= 0 then -((-retryAfterMs) / 1000) else (retryAfterMs + 999) / 1000;
    if ceiling < 1 then 1 else ceiling
  }

  lemma SecondsCoverTheHint(ms: int)
    ensures RetrySeconds(ms) >= 1 && 1000 * RetrySeconds(ms) >= ms
    ensures ms > 1000 ==> 1000 * RetrySeconds(ms) < ms + 1000
  {
  }

  /** Once the oldest admission of a full window has left it, a request is admitted. */
  lemma RetryIsAdmitted(forgotten: seq<int>, kept: seq<int>, now: int, later: int, window: nat, limit: nat)
    requires Ascending(forgotten + kept) && Lawful(forgotten + kept, window, limit)
    requires forall i | 0 <= i < |forgotten| :: forgotten[i] <= now - window
    requires forall i | 0 <= i < |kept| :: now - window < kept[i] <= now
    requires kept != [] && limit >= 1
    requires later >= now + 1000 * RetrySeconds(kept[0] + window - now)
    ensures Admits(forgotten + kept, later, window, limit)
  {
    SecondsCoverTheHint(kept[0] + window - now);
    FullWindow(forgotten, kept, now, window, limit);
    assert forgotten + kept == (forgotten + [kept[0]]) + kept[1..];
    CountAfter(forgotten + [kept[0]], kept[1..], later - window, later);
  }

  lemma FullWindow(forgotten: seq<int>, kept: seq<int>, now: int, window: nat, limit: nat)
    requires Ascending(forgotten + kept) && Lawful(forgotten + kept, window, limit)
    requires forall i | 0 <= i < |forgotten| :: forgotten[i] <= now - window
    requires forall i | 0 <= i < |kept| :: now - window < kept[i] <= now
    ensures |kept| <= limit
  {
    NoBurst(forgotten + kept, window, limit, now - window);
    KeptIsWindow(forgotten, kept, now, window);
  }

  lemma CountAfter(gone: seq<int>, rest: seq<int>, lo: int, hi: int)
    requires forall i | 0 <= i < |gone| :: gone[i] <= lo
    ensures CountIn(gone + rest, lo, hi) <= |rest|
  {
    CountSplit(gone, rest, lo, hi);
    CountNone(gone, lo, hi);
    CountAtMost(rest, lo, hi);
  }

  ghost predicate AdmitsFrom(history: seq<int>, time: int, window: nat, limit: nat) {
    forall later: int | later >= time :: Admits(history, later, window, limit)
  }

  /** A full window stays full until its oldest admission leaves it, and has room from then on. */
  lemma HintIsExact(forgotten: seq<int>, kept: seq<int>, now: int, window: nat, limit: nat)
    requires Ascending(forgotten + kept) && Lawful(forgotten + kept, window, limit)
    requires forall i | 0 <= i < |forgotten| :: forgotten[i] <= now - window
    requires forall i | 0 <= i < |kept| :: now - window < kept[i] <= now
    requires |kept| >= limit >= 1
    ensures forall later: int | later >= now ::
              Admits(forgotten + kept, later, window, limit) <==> later >= kept[0] + window
  {
    hide Lawful, CountIn;
    var h := forgotten + kept;
    SuffixAscends(forgotten, kept);
    FullWindow(forgotten, kept, now, window, limit);
    forall later: int | later >= now ensures Admits(h, later, window, limit) <==> later >= kept[0] + window {
      if later < kept[0] + window {
        StillFull(forgotten, kept, later, window);
      } else {
        OldestHasLeft(forgotten, kept, later, window);
      }
    }
  }

  lemma OldestHasLeft(forgotten: seq<int>, kept: seq<int>, later: int, window: nat)
    requires kept != [] && kept[0] <= later - window
    requires forall i | 0 <= i < |forgotten| :: forgotten[i] <= later - window
    ensures CountIn(forgotten + kept, later - window, later) < |kept|
  {
    assert forgotten + kept == (forgotten + [kept[0]]) + kept[1..];
    CountAfter(forgotten + [kept[0]], kept[1..], later - window, later);
  }

  lemma StillFull(forgotten: seq<int>, kept: seq<int>, later: int, window: nat)
    requires forall i | 0 <= i < |kept| :: later - window < kept[i] <= later
    ensures CountIn(forgotten + kept, later - window, later) >= |kept|
  {
    CountSplit(forgotten, kept, later - window, later);
    CountAll(kept, later - window, later);
  }

  lemma RetriesAreAdmitted(forgotten: seq<int>, kept: seq<int>, now: int, window: nat, limit: nat)
    requires Ascending(forgotten + kept) && Lawful(forgotten + kept, window, limit)
    requires forall i | 0 <= i < |forgotten| :: forgotten[i] <= now - window
    requires forall i | 0 <= i < |kept| :: now - window < kept[i] <= now
    requires kept != [] && limit >= 1
    ensures AdmitsFrom(forgotten + kept, now + 1000 * RetrySeconds(kept[0] + window - now), window, limit)
  {
    forall later: int | later >= now + 1000 * RetrySeconds(kept[0] + window - now)
      ensures Admits(forgotten + kept, later, window, limit)
    {
      RetryIsAdmitted(forgotten, kept, now, later, window, limit);
    }
  }

  lemma {:induction false} CountAtMost(s: seq<int>, lo: int, hi: int)
    ensures CountIn(s, lo, hi) <= |s|
  {
    if s == [] {
    } else {
      CountAtMost(s[..|s| - 1], lo, hi);
    }
  }

  // ---- The script -------------------------------------------------------------------------

  class SlidingWindow {
    const window: nat
    const limit: nat
    var scores: seq<int>         // the sorted set under the key, ascending
    var expiresAt: int           // when the key expires
    ghost var forgotten: seq<int>
    ghost var clock: int

    ghost function History(): seq<int>
      reads this
    {
      forgotten + scores
    }

    /** What has left the set had left the window; the key outlives the window of its last score. */
    ghost predicate Valid()
      reads this
    {
      && Ascending(History()) && Lawful(History(), window, limit)
      && (forall i | 0 <= i < |forgotten| :: forgotten[i] <= clock - window)
      && (forall i | 0 <= i < |scores| :: 0 <= scores[i] <= clock)
      && (scores != [] ==> expiresAt == scores[|scores| - 1] + window)
    }

    constructor (window: nat, limit: nat)
      ensures Valid() && History() == [] && this.window == window && this.limit == limit
      ensures clock == 0
    {
      this.window, this.limit := window, limit;
      scores, expiresAt, forgotten, clock := [], 0, [], 0;
    }

    /** The key expires: the whole set goes at once, and none of it was in the window. */
    method Expire(now: int)
      requires Valid() && clock <= now
      modifies this`scores, this`clock, this`forgotten
      ensures Valid() && clock == now && History() == old(History())
      ensures scores == [] || scores == old(scores)
    {
      clock := now;
      if now > expiresAt {
        ghost var h := History();
        if scores != [] { SuffixAscends(forgotten, scores); }
        forgotten := forgotten + scores;
        scores := [];
        assert History() == h;
      }
    }

    /** ZREMRANGEBYSCORE key 0 (now - window). */
    method Prune(now: int)
      requires Valid() && clock == now
      modifies this`scores, this`forgotten
      ensures Valid() && History() == old(History())
      ensures forall i | 0 <= i < |scores| :: now - window < scores[i] <= now
    {
      while scores != [] && 0 <= scores[0] <= now - window
        invariant Valid() && History() == old(History())
        decreases |scores|
      {
        assert forgotten + scores == (forgotten + [scores[0]]) + scores[1..];
        assert scores == [scores[0]] + scores[1..];
        forgotten := forgotten + [scores[0]];
        scores := scores[1..];
      }
      SuffixAscends(forgotten, scores);
    }

    /** The script up to its ZCARD: what the set holds is the window of the full history. */
    method Trim(now: int)
      requires Valid() && clock <= now
      modifies this`scores, this`clock, this`forgotten
      ensures Valid() && clock == now && History() == old(History())
      ensures |scores| == CountIn(History(), now - window, now)
      ensures forall i | 0 <= i < |scores| :: now - window < scores[i] <= now
    {
      Expire(now);
      Prune(now);
      KeptIsWindow(forgotten, scores, now, window);
    }

    /** The rejecting branch: how long the oldest admission still counts. If no other request was
        admitted, a retry is admitted exactly from then on; so one after that many whole seconds is. */
    method Hint(now: int) returns (retryAfter: int)
      requires Valid() && clock == now
      requires forall i | 0 <= i < |scores| :: now - window < scores[i] <= now
      requires |scores| >= limit
      ensures limit >= 1 ==> 0 < retryAfter <= window
      ensures limit >= 1 ==> forall later: int | later >= now ::
                Admits(History(), later, window, limit) <==> later >= now + retryAfter
      ensures limit >= 1 ==> AdmitsFrom(History(), now + 1000 * RetrySeconds(retryAfter), window, limit)
    {
      retryAfter := window;
      if scores != [] { retryAfter := scores[0] + window - now; }
      if limit >= 1 {
        HintIsExact(forgotten, scores, now, window, limit);
        RetriesAreAdmitted(forgotten, scores, now, window, limit);
      }
    }

    /** One evaluation of the script. It decides as the full history would, whatever has been
        pruned or has expired. */
    method Evaluate(now: int) returns (allowed: bool, retryAfter: int)
      requires Valid() && clock <= now && 0 <= now
      modifies this
      ensures Valid() && clock == now
      ensures allowed == Admits(old(History()), now, window, limit)
      ensures History() == if allowed then old(History()) + [now] else old(History())
      ensures !allowed && limit >= 1 ==> 0 < retryAfter <= window
      ensures !allowed && limit >= 1 ==> forall later: int | later >= now ::
                Admits(History(), later, window, limit) <==> later >= now + retryAfter
      ensures !allowed && limit >= 1 ==> AdmitsFrom(History(), now + 1000 * RetrySeconds(retryAfter), window, limit)
    {
      Trim(now);
      if |scores| >= limit {
        retryAfter := Hint(now);
        allowed := false;
      } else {
        Admit(now);
        allowed, retryAfter := true, 0;
      }
    }

    /** ZADD and PEXPIRE. */
    method Admit(now: int)
      requires Valid() && clock == now && 0 <= now && Admits(History(), now, window, limit)
      modifies this`scores, this`expiresAt
      ensures Valid() && History() == old(History()) + [now]
    {
      AscendingExtends(History(), now);
      LawfulExtends(History(), now, window, limit);
      assert forgotten + (scores + [now]) == (forgotten + scores) + [now];
      scores := scores + [now];
      expiresAt := now + window;
    }
  }

  lemma SuffixAscends(before: seq<int>, s: seq<int>)
    requires Ascending(before + s)
    ensures Ascending(s)
  {
    forall i, j | 0 <= i < j < |s| ensures s[i] <= s[j] {
      assert (before + s)[|before| + i] <= (before + s)[|before| + j];
    }
  }
}
