/** The fixed-window limiter: a bounded table of quotas with lazy cleanup. Instants
    are nanoseconds. */
module Limiter {
  import opened Common

  const MAX_RATE_WINDOWS: nat := 10000
  const SECOND: int := 1_000_000_000

  datatype Window = Window(expiresAt: int, count: int)

  type Windows = map<string, Window>

  datatype Decision = Decision(windows: Windows, wait: int, ok: bool)

  /** What is left of the table when the expired quotas are dropped. */
  function Running(windows: Windows, now: int): Windows
  {
    map k | k in windows && now < windows[k].expiresAt :: windows[k]
  }

  function Swept(windows: Windows, key: string, now: int): Windows
  {
    if key !in windows && |windows| >= MAX_RATE_WINDOWS then Running(windows, now) else windows
  }

  /** The quota a request counts against: the running one, or a new one. */
  function Quota(windows: Windows, key: string, window: int, now: int): Window
  {
    if key in windows && now < windows[key].expiresAt then windows[key] else Window(now + window, 0)
  }

  function Decide(windows: Windows, key: string, limit: int, window: int, now: int): Decision
  {
    var table := Swept(windows, key, now);
    var v := Quota(table, key, window, now);
    if key !in table && |table| >= MAX_RATE_WINDOWS then Decision(table, SECOND, false)
    else if v.count >= limit then Decision(table, v.expiresAt - now, false)
    else Decision(table[key := v.(count := v.count + 1)], 0, true)
  }

  /** The keys whose quota has not expired. */
  function Unexpired(windows: Windows, now: int): set<string>
  {
    set k | k in windows && now < windows[k].expiresAt
  }

  /** Why a request is turned away, and for how long: its quota is used up; it has none
      and the table is full of others that run; or the limit lets nothing through. */
  ghost predicate Judged(windows: Windows, key: string, limit: int, window: int, now: int, wait: int, ok: bool)
  {
    var runs := key in Unexpired(windows, now);
    var usedUp := runs && windows[key].count >= limit;
    var crowded := key !in windows && |Unexpired(windows, now)| >= 10000;
    && (ok <==> !usedUp && !crowded && (runs || limit > 0))
    && (usedUp ==> wait == windows[key].expiresAt - now)
    && (crowded ==> wait == 1_000_000_000)
    && (!ok && !usedUp && !crowded ==> wait == window)
    && (ok ==> wait == 0)
  }

  /** What becomes of the quotas: an admitted request is counted against the one that
      runs or starts a new one, and every other that runs stays as it is. */
  ghost predicate Kept(windows: Windows, key: string, window: int, now: int, ok: bool, after: Windows)
  {
    && (forall k :: k in Unexpired(windows, now) && (k != key || !ok) ==> k in after && after[k] == windows[k])
    && (forall k :: k in after && (k != key || !ok) ==> k in windows && after[k] == windows[k])
    && (ok ==> key in after)
    && (ok && key in Unexpired(windows, now) ==> after[key] == windows[key].(count := windows[key].count + 1))
    && (ok && key !in Unexpired(windows, now) ==> after[key] == Window(now + window, 1))
  }

  /** Both, of every decision. */
  lemma {:induction false} DecisionIsJudged(windows: Windows, key: string, limit: int, window: int, now: int)
    ensures var d := Decide(windows, key, limit, window, now);
            && Judged(windows, key, limit, window, now, d.wait, d.ok)
            && Kept(windows, key, window, now, d.ok, d.windows)
  {
    var running := Running(windows, now);
    assert running.Keys == Unexpired(windows, now);
    SubsetSize(Unexpired(windows, now), windows.Keys);
  }

  class RateLimiter {
    var windows: Windows

    constructor ()
      ensures windows == map[]
    {
      windows := map[];
    }

    method Allow(key: string, limit: int, window: int, now: int) returns (wait: int, ok: bool)
      modifies this
      ensures Decision(windows, wait, ok) == Decide(old(windows), key, limit, window, now)
      ensures Judged(old(windows), key, limit, window, now, wait, ok)
      ensures Kept(old(windows), key, window, now, ok, windows)
    {
      DecisionIsJudged(windows, key, limit, window, now);
      if key !in windows && |windows| >= MAX_RATE_WINDOWS {
        var left := windows.Keys;
        while left != {}
          invariant left <= windows.Keys
          invariant windows.Keys <= old(windows).Keys
          invariant forall k :: k in windows ==> windows[k] == old(windows)[k]
          invariant forall k :: k in old(windows) ==> (k in windows <==> k in left || now < old(windows)[k].expiresAt)
          decreases |left|
        {
          var k :| k in left;
          left := left - {k};
          if !(now < windows[k].expiresAt) { windows := windows - {k}; }
        }
        assert windows == Running(old(windows), now);
        if |windows| >= MAX_RATE_WINDOWS { return SECOND, false; }
      }
      var v := Quota(windows, key, window, now);
      if v.count >= limit { return v.expiresAt - now, false; }
      windows := windows[key := v.(count := v.count + 1)];
      return 0, true;
    }
  }

  // -------------------------------------------------------------- one decision

  lemma {:induction false} SweptIsSmaller(windows: Windows, key: string, now: int)
    ensures |Swept(windows, key, now)| <= |windows|
  {
    var table := Swept(windows, key, now);
    assert table.Keys <= windows.Keys;
    SubsetSize(table.Keys, windows.Keys);
  }

  lemma {:induction false} SubsetSize<T>(a: set<T>, b: set<T>)
    requires a <= b
    ensures |a| <= |b|
    decreases |b|
  {
    if a != b {
      var x :| x in b && x !in a;
      SubsetSize(a, b - {x});
    }
  }

  /** The table never outgrows its bound. */
  lemma {:induction false} TableIsBounded(windows: Windows, key: string, limit: int, window: int, now: int)
    requires |windows| <= MAX_RATE_WINDOWS
    ensures |Decide(windows, key, limit, window, now).windows| <= MAX_RATE_WINDOWS
  {
    SweptIsSmaller(windows, key, now);
    var table, after := Swept(windows, key, now), Decide(windows, key, limit, window, now).windows;
    if after != table {
      assert after.Keys == table.Keys + {key};
    }
  }

  /** A key in the table is judged by its own quota alone, never for want of room. */
  lemma {:induction false} PresentKeyIsJudgedAlone(windows: Windows, other: Windows, key: string, limit: int,
                                                   window: int, now: int)
    requires key in windows && key in other && windows[key] == other[key]
    ensures var d, d' := Decide(windows, key, limit, window, now), Decide(other, key, limit, window, now);
            d.ok == d'.ok && d.wait == d'.wait && (d.ok <==> Quota(windows, key, window, now).count < limit)
  {}

  /** Whatever one request does to the table, the running quota of another key stays as
      it is, so every later decision on that key is the one it would have got before. */
  lemma {:induction false} OthersKeepTheirQuota(windows: Windows, key: string, limit: int, window: int, now: int,
                                                other: string, limit': int, window': int, now': int)
    requires other != key && other in windows && now < windows[other].expiresAt
    ensures var after := Decide(windows, key, limit, window, now).windows;
            && other in after && after[other] == windows[other]
            && Decide(after, other, limit', window', now').ok == Decide(windows, other, limit', window', now').ok
            && Decide(after, other, limit', window', now').wait == Decide(windows, other, limit', window', now').wait
  {
    var after := Decide(windows, key, limit, window, now).windows;
    assert other in Swept(windows, key, now);
    PresentKeyIsJudgedAlone(after, windows, other, limit', window', now');
  }

  // ------------------------------------------------------------------ many calls

  datatype Call = Call(key: string, limit: int, window: int, now: int)

  function Made(windows: Windows, c: Call): Decision
  {
    Decide(windows, c.key, c.limit, c.window, c.now)
  }

  /** The table after a series of calls on an empty one. */
  function Table(calls: seq<Call>): Windows
  {
    if calls == [] then map[] else Made(Table(calls[..|calls| - 1]), Last(calls)).windows
  }

  lemma {:induction false} CountsArePositive(calls: seq<Call>)
    ensures forall k :: k in Table(calls) ==> Table(calls)[k].count > 0
  {
    if calls != [] {
      var init, c := calls[..|calls| - 1], Last(calls);
      CountsArePositive(init);
      DecisionIsJudged(Table(init), c.key, c.limit, c.window, c.now);
    }
  }

  /** After any calls, a request is refused exactly when the limit lets nothing through,
      its running quota is used up, or it has none and the table is full of running ones. */
  lemma {:induction false} AdmittedExactlyWhen(calls: seq<Call>)
    requires calls != []
    ensures var before, c := Table(calls[..|calls| - 1]), Last(calls);
            Admitted(calls) <==>
              && c.limit > 0
              && !(c.key in before && c.now < before[c.key].expiresAt && before[c.key].count >= c.limit)
              && !(c.key !in before && |Unexpired(before, c.now)| >= 10000)
  {
    var init, c := calls[..|calls| - 1], Last(calls);
    CountsArePositive(init);
    DecisionIsJudged(Table(init), c.key, c.limit, c.window, c.now);
  }

  function Admitted(calls: seq<Call>): bool
    requires calls != []
  {
    Made(Table(calls[..|calls| - 1]), Last(calls)).ok
  }

  /** How many requests of a key were let through in a closed interval of time. */
  function AdmittedIn(calls: seq<Call>, key: string, from: int, to: int): nat
  {
    if calls == [] then 0
    else AdmittedIn(calls[..|calls| - 1], key, from, to) + if Last(calls).key == key && from <= Last(calls).now <= to
        && Admitted(calls) then 1 else 0
  }

  /** The window that the key's last admitted request counted against. */
  function LastWindow(calls: seq<Call>, key: string): Option<Window>
  {
    if calls == [] then None
    else if Last(calls).key == key && Admitted(calls) then Some(Table(calls)[key])
    else LastWindow(calls[..|calls| - 1], key)
  }

  ghost predicate InOrder(calls: seq<Call>)
  {
    forall i :: 0 < i < |calls| ==> calls[i - 1].now <= calls[i].now
  }

  ghost predicate OneQuota(calls: seq<Call>, key: string, limit: int, window: int)
  {
    forall i :: 0 <= i < |calls| && calls[i].key == key ==> calls[i].limit == limit && calls[i].window == window
  }

  /** The table holds the last window of a key, or it has expired. */
  ghost predicate Remembers(calls: seq<Call>, key: string)
  {
    var last, table := LastWindow(calls, key), Table(calls);
    && (key in table ==> last == Some(table[key]))
    && (key !in table && last.Some? ==> calls != [] && last.value.expiresAt <= Last(calls).now)
  }

  /** All requests counted fall into the last window, or into it and one before it
      with the last one starting inside the interval, or the interval is over. */
  ghost predicate TwoWindowsAtMost(last: Option<Window>, admitted: nat, limit: int, window: int, from: int, at: int)
  {
    match last
    case None => admitted == 0
    case Some(w) =>
      && 0 < w.count <= limit && (admitted > 0 ==> from <= at)
      && (|| (admitted <= w.count && (admitted > 0 ==> w.expiresAt > from))
          || (admitted <= limit + w.count && w.expiresAt - window > from)
          || (admitted <= 2 * limit && at > from + window))
  }

  lemma {:induction false} RemembersOn(calls: seq<Call>, key: string)
    requires calls != [] && Remembers(calls[..|calls| - 1], key) && InOrder(calls)
    ensures Remembers(calls, key)
  {
    var init := calls[..|calls| - 1];
    if init != [] { assert Last(init) == calls[|calls| - 2]; }
  }

  /** What one call of the key does to its last window. */
  lemma {:induction false} WindowMoves(calls: seq<Call>, key: string, limit: int, window: int)
    requires
      && calls != []
      && Remembers(calls[..|calls| - 1], key)
      && InOrder(calls)
      && OneQuota(calls, key, limit, window)
    ensures var init, c := calls[..|calls| - 1], Last(calls);
            var last, next := LastWindow(init, key), LastWindow(calls, key);
            if c.key != key || !Admitted(calls) then next == last
            else
                || (next == Some(Window(c.now + window, 1)) && limit > 0
                    && (last.Some? ==> last.value.expiresAt <= c.now))
                 || (last.Some? && c.now < last.value.expiresAt && last.value.count < limit
                     && next == Some(last.value.(count := last.value.count + 1)))
  {
    var init, c := calls[..|calls| - 1], Last(calls);
    assert c == calls[|calls| - 1];
    if init != [] { assert Last(init) == calls[|calls| - 2]; }
  }

  lemma {:induction false} CountMoves(last: Option<Window>, next: Option<Window>, admitted: nat, limit: int,
                                      window: int, from: int, at: int, now: int)
    requires TwoWindowsAtMost(last, admitted, limit, window, from, at) && at <= now && window > 0
    requires || (next == Some(Window(now + window, 1)) && limit > 0 && (last.Some? ==> last.value.expiresAt <= now))
             || (last.Some? && now < last.value.expiresAt && last.value.count < limit
                 && next == Some(last.value.(count := last.value.count + 1)))
    ensures TwoWindowsAtMost(next, admitted + if from <= now <= from + window then 1 else 0, limit, window, from, now)
  {}

  lemma {:induction false} CallsKeep(calls: seq<Call>, key: string, limit: int, window: int, from: int)
    requires InOrder(calls) && OneQuota(calls, key, limit, window) && window > 0
    ensures Remembers(calls, key)
    ensures calls != [] ==>
              TwoWindowsAtMost(LastWindow(calls, key), AdmittedIn(calls, key, from, from + window), limit, window,
                               from, Last(calls).now)
  {
    if calls != [] {
      var init, c := calls[..|calls| - 1], Last(calls);
      CallsKeep(init, key, limit, window, from);
      RemembersOn(calls, key);
      WindowMoves(calls, key, limit, window);
      var at := if init == [] then c.now else Last(init).now;
      assert init != [] ==> Last(init) == calls[|calls| - 2];
      if c.key == key && Admitted(calls) {
        CountMoves(LastWindow(init, key), LastWindow(calls, key), AdmittedIn(init, key, from, from + window), limit,
                   window, from, at, c.now);
      }
    }
  }

  /** Any closed interval as long as the window lets at most twice the limit through,
      whatever other keys do to the table in between. */
  lemma {:induction false} AtMostTwiceTheLimit(calls: seq<Call>, key: string, limit: nat, window: int, from: int)
    requires InOrder(calls) && OneQuota(calls, key, limit, window) && window > 0
    ensures AdmittedIn(calls, key, from, from + window) <= 2 * limit
  {
    CallsKeep(calls, key, limit, window, from);
  }

  lemma {:induction false} TableStaysBounded(calls: seq<Call>)
    ensures |Table(calls)| <= MAX_RATE_WINDOWS
  {
    if calls != [] {
      var c := Last(calls);
      TableStaysBounded(calls[..|calls| - 1]);
      TableIsBounded(Table(calls[..|calls| - 1]), c.key, c.limit, c.window, c.now);
    }
  }
}
