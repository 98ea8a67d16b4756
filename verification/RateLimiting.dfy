/** The in-memory sliding-window rate limiter. */
module RateLimiting {

  datatype Limits = Limits(maxRequests: int, windowSeconds: int)

  /** One request: who made it and what the clock said. */
  datatype Call = Call(key: string, at: real)

  function Cutoff(limits: Limits, now: real): real {
    now - limits.windowSeconds as real
  }

  /** The times later than `cutoff`, in order. */
  function After(times: seq<real>, cutoff: real): (kept: seq<real>)
    ensures |kept| <= |times|
  {
    if times == [] then []
    else
      var last := |times| - 1;
      After(times[..last], cutoff) + if times[last] > cutoff then [times[last]] else []
  }

  lemma AfterAppend(times: seq<real>, t: real, cutoff: real)
    ensures After(times + [t], cutoff) == After(times, cutoff) + if t > cutoff then [t] else []
  {
    assert (times + [t])[..|times|] == times;
  }

  // ---- What the limiter stores, and what it granted ----

  /** The stored list of `key` after the given calls: pruned on every call, appended to when granted. */
  ghost function Stored(limits: Limits, calls: seq<Call>, key: string): seq<real> {
    if calls == [] then []
    else
      var last := |calls| - 1;
      var before := Stored(limits, calls[..last], key);
      if calls[last].key != key then before
      else
        var kept := After(before, Cutoff(limits, calls[last].at));
        if |kept| >= limits.maxRequests then kept else kept + [calls[last].at]
  }

  /** Every time at which `key` was let through, nothing forgotten. */
  ghost function Granted(limits: Limits, calls: seq<Call>, key: string): seq<real> {
    if calls == [] then []
    else
      var last := |calls| - 1;
      var before := Granted(limits, calls[..last], key);
      if calls[last].key == key && |After(Stored(limits, calls[..last], key), Cutoff(limits, calls[last].at))| < limits.maxRequests
      then before + [calls[last].at] else before
  }

  /** One more call. */
  lemma CallAdded(limits: Limits, calls: seq<Call>, call: Call, key: string)
    ensures var kept := After(Stored(limits, calls, key), Cutoff(limits, call.at));
            var granted := |kept| < limits.maxRequests;
            && Stored(limits, calls + [call], key) ==
                 (if call.key != key then Stored(limits, calls, key) else if granted then kept + [call.at] else kept)
            && Granted(limits, calls + [call], key) ==
                 Granted(limits, calls, key) + (if call.key == key && granted then [call.at] else [])
  {
    assert (calls + [call])[..|calls|] == calls;
  }

  /** The clock did not run backwards between two calls of this key. */
  ghost predicate Ordered(calls: seq<Call>, key: string) {
    forall i, j :: 0 <= i < j < |calls| && calls[i].key == key && calls[j].key == key ==> calls[i].at <= calls[j].at
  }

  /** `now` is no earlier than any call of this key. */
  ghost predicate Latest(calls: seq<Call>, key: string, now: real) {
    forall i :: 0 <= i < |calls| && calls[i].key == key ==> calls[i].at <= now
  }

  /** No call of this key has pruned a stored time later than `cutoff`. */
  ghost predicate NothingLost(limits: Limits, calls: seq<Call>, key: string, cutoff: real) {
    forall b :: 0 <= b < |calls| && calls[b].key == key ==> PrunesOnly(Stored(limits, calls[..b], key), Cutoff(limits, calls[b].at), cutoff)
  }

  /** Pruning these times at `pruned` drops none later than `cutoff`. */
  predicate PrunesOnly(times: seq<real>, pruned: real, cutoff: real) {
    forall k :: 0 <= k < |times| && times[k] <= pruned ==> times[k] <= cutoff
  }

  /** Pruning first shortens what a cutoff leaves exactly when it drops a time the cutoff keeps. */
  lemma {:induction false} PruningShortensIff(times: seq<real>, pruned: real, cutoff: real)
    ensures |After(After(times, pruned), cutoff)| <= |After(times, cutoff)|
    ensures PrunesOnly(times, pruned, cutoff) ==> After(After(times, pruned), cutoff) == After(times, cutoff)
    ensures !PrunesOnly(times, pruned, cutoff) ==> |After(After(times, pruned), cutoff)| < |After(times, cutoff)|
  {
    if times != [] {
      var front, last := times[..|times| - 1], times[|times| - 1];
      PruningShortensIff(front, pruned, cutoff);
      assert PrunesOnly(times, pruned, cutoff) <==> PrunesOnly(front, pruned, cutoff) && (last <= pruned ==> last <= cutoff) by {
        assert forall k :: 0 <= k < |front| ==> times[k] == front[k];
      }
      if last > pruned {
        AfterAppend(After(front, pruned), last, cutoff);
      } else {
        assert After(times, pruned) == After(front, pruned);
      }
    }
  }

  lemma NothingLostStep(limits: Limits, calls: seq<Call>, call: Call, cutoff: real)
    ensures NothingLost(limits, calls + [call], call.key, cutoff) <==>
      NothingLost(limits, calls, call.key, cutoff) && PrunesOnly(Stored(limits, calls, call.key), Cutoff(limits, call.at), cutoff)
  {
    var all := calls + [call];
    assert all[..|calls|] == calls && all[|calls|] == call;
    assert forall b :: 0 <= b < |calls| ==> all[b] == calls[b] && all[..b] == calls[..b];
  }

  lemma NothingLostElsewhere(limits: Limits, calls: seq<Call>, call: Call, key: string, cutoff: real)
    requires call.key != key
    ensures NothingLost(limits, calls + [call], key, cutoff) <==> NothingLost(limits, calls, key, cutoff)
  {
    var all := calls + [call];
    assert all[|calls|] == call;
    assert forall b :: 0 <= b < |calls| ==> all[b] == calls[b] && all[..b] == calls[..b];
  }

  /** What the stored list still counts and what it has lost, for any clock. */
  lemma {:induction false} StoredAgainstGranted(limits: Limits, calls: seq<Call>, key: string, cutoff: real)
    ensures |After(Stored(limits, calls, key), cutoff)| <= |After(Granted(limits, calls, key), cutoff)|
    ensures if NothingLost(limits, calls, key, cutoff)
            then After(Stored(limits, calls, key), cutoff) == After(Granted(limits, calls, key), cutoff)
            else |After(Stored(limits, calls, key), cutoff)| < |After(Granted(limits, calls, key), cutoff)|
  {
    if calls != [] {
      var before, call := calls[..|calls| - 1], calls[|calls| - 1];
      assert calls == before + [call];
      StoredAgainstGranted(limits, before, key, cutoff);
      CallAdded(limits, before, call, key);
      if call.key == key {
        var stored := Stored(limits, before, key);
        NothingLostStep(limits, before, call, cutoff);
        PruningShortensIff(stored, Cutoff(limits, call.at), cutoff);
        AfterAppend(After(stored, Cutoff(limits, call.at)), call.at, cutoff);
        AfterAppend(Granted(limits, before, key), call.at, cutoff);
      } else {
        NothingLostElsewhere(limits, before, call, key, cutoff);
      }
    }
  }

  /** The stored list counts what the full list of grants would exactly when no earlier call has
    * pruned a time that still counts. */
  lemma PruningIsInvisibleIff(limits: Limits, calls: seq<Call>, key: string, now: real)
    ensures After(Stored(limits, calls, key), Cutoff(limits, now)) == After(Granted(limits, calls, key), Cutoff(limits, now))
            <==> NothingLost(limits, calls, key, Cutoff(limits, now))
  {
    StoredAgainstGranted(limits, calls, key, Cutoff(limits, now));
  }

  /** So whenever the clock now reads no earlier than at any call of the key. */
  lemma PruningIsInvisible(limits: Limits, calls: seq<Call>, key: string, now: real)
    requires Latest(calls, key, now)
    ensures NothingLost(limits, calls, key, Cutoff(limits, now))
    ensures After(Stored(limits, calls, key), Cutoff(limits, now)) == After(Granted(limits, calls, key), Cutoff(limits, now))
  {
    PruningIsInvisibleIff(limits, calls, key, now);
  }

  /** No call of the key was judged on a list that had lost a time it should have counted. */
  ghost predicate Remembering(limits: Limits, calls: seq<Call>, key: string) {
    forall b :: 0 <= b < |calls| && calls[b].key == key ==> NothingLost(limits, calls[..b], key, Cutoff(limits, calls[b].at))
  }

  /** A clock that never runs back between calls of a key is enough. */
  lemma OrderedRemembers(limits: Limits, calls: seq<Call>, key: string)
    requires Ordered(calls, key)
    ensures Remembering(limits, calls, key)
  {
    forall b | 0 <= b < |calls| && calls[b].key == key
      ensures NothingLost(limits, calls[..b], key, Cutoff(limits, calls[b].at))
    {
      PruningIsInvisible(limits, calls[..b], key, calls[b].at);
    }
  }

  /** The grants grow by the call when it is let through, and the verdict is the one the complete
    * history of grants calls for whenever nothing that still counts has been pruned. */
  ghost predicate RightVerdict(limits: Limits, calls: seq<Call>, call: Call, allowed: bool) {
    var granted, cutoff := Granted(limits, calls, call.key), Cutoff(limits, call.at);
    && Granted(limits, calls + [call], call.key) == granted + (if allowed then [call.at] else [])
    && (Latest(calls, call.key, call.at) ==> NothingLost(limits, calls, call.key, cutoff))
    && (NothingLost(limits, calls, call.key, cutoff) ==> (allowed <==> |After(granted, cutoff)| < limits.maxRequests))
    && (|After(granted, cutoff)| < limits.maxRequests ==> allowed)
  }

  lemma VerdictIsRight(limits: Limits, calls: seq<Call>, call: Call)
    ensures RightVerdict(limits, calls, call, |After(Stored(limits, calls, call.key), Cutoff(limits, call.at))| < limits.maxRequests)
  {
    CallAdded(limits, calls, call, call.key);
    StoredAgainstGranted(limits, calls, call.key, Cutoff(limits, call.at));
    if Latest(calls, call.key, call.at) {
      PruningIsInvisible(limits, calls, call.key, call.at);
    }
  }

  // ---- What a window may hold ----

  /** How many of the times fall in the half-open window (lo, hi]. */
  ghost function CountIn(times: seq<real>, lo: real, hi: real): nat {
    if times == [] then 0
    else CountIn(times[..|times| - 1], lo, hi) + if lo < times[|times| - 1] <= hi then 1 else 0
  }

  lemma CountAppend(times: seq<real>, t: real, lo: real, hi: real)
    ensures CountIn(times + [t], lo, hi) == CountIn(times, lo, hi) + if lo < t <= hi then 1 else 0
  {
    assert (times + [t])[..|times|] == times;
  }

  lemma {:induction false} CountIsBelowAfter(times: seq<real>, lo: real, hi: real, cutoff: real)
    requires cutoff <= lo
    ensures CountIn(times, lo, hi) <= |After(times, cutoff)|
  {
    if times != [] {
      CountIsBelowAfter(times[..|times| - 1], lo, hi, cutoff);
    }
  }

  lemma {:induction false} CountIsAfter(times: seq<real>, lo: real, hi: real)
    requires forall t :: t in times ==> t <= hi
    ensures CountIn(times, lo, hi) == |After(times, lo)|
  {
    if times != [] {
      var last := |times| - 1;
      assert times[last] in times;
      assert forall t :: t in times[..last] ==> t in times;
      CountIsAfter(times[..last], lo, hi);
    }
  }

  lemma {:induction false} GrantedAreCalls(limits: Limits, calls: seq<Call>, key: string, now: real)
    requires Latest(calls, key, now)
    ensures forall t :: t in Granted(limits, calls, key) ==> t <= now
  {
    if calls != [] {
      GrantedAreCalls(limits, calls[..|calls| - 1], key, now);
    }
  }

  lemma RememberingPrefix(limits: Limits, calls: seq<Call>, call: Call, key: string)
    requires Remembering(limits, calls + [call], key)
    ensures Remembering(limits, calls, key)
    ensures call.key == key ==> NothingLost(limits, calls, key, Cutoff(limits, call.at))
  {
    var all := calls + [call];
    assert all[..|calls|] == calls && all[|calls|] == call;
    assert forall b :: 0 <= b < |calls| ==> all[b] == calls[b] && all[..b] == calls[..b];
  }

  /** However the calls fall, no window of the configured length, wherever it starts, holds more
    * grants of one key than the limit, as long as no call was judged on a list that had lost a
    * time. */
  lemma {:induction false} WindowsAreBounded(limits: Limits, calls: seq<Call>, key: string, start: real)
    requires Remembering(limits, calls, key)
    ensures CountIn(Granted(limits, calls, key), start, start + limits.windowSeconds as real)
            <= if limits.maxRequests > 0 then limits.maxRequests else 0
  {
    if calls != [] {
      var last, end := |calls| - 1, start + limits.windowSeconds as real;
      var before, call := calls[..last], calls[last];
      var granted := Granted(limits, before, key);
      assert calls == before + [call];
      RememberingPrefix(limits, before, call, key);
      WindowsAreBounded(limits, before, key, start);
      CallAdded(limits, before, call, key);
      if call.key == key {
        PruningIsInvisibleIff(limits, before, key, call.at);
        CountAppend(granted, call.at, start, end);
        if call.at <= end {
          CountIsBelowAfter(granted, start, end, Cutoff(limits, call.at));
        }
      }
    }
  }

  lemma WindowEndingNow(limits: Limits, calls: seq<Call>, key: string, now: real)
    requires Remembering(limits, calls, key) && Latest(calls, key, now)
    ensures CountIn(Granted(limits, calls, key), Cutoff(limits, now), now) == |After(Granted(limits, calls, key), Cutoff(limits, now))|
    ensures CountIn(Granted(limits, calls, key), Cutoff(limits, now), now) <= if limits.maxRequests > 0 then limits.maxRequests else 0
  {
    GrantedAreCalls(limits, calls, key, now);
    CountIsAfter(Granted(limits, calls, key), Cutoff(limits, now), now);
    WindowsAreBounded(limits, calls, key, Cutoff(limits, now));
    assert Cutoff(limits, now) + limits.windowSeconds as real == now;
  }

  /** A request is turned away exactly when the window ending now already holds the full quota. */
  lemma DeniedIffWindowIsFull(limits: Limits, calls: seq<Call>, key: string, now: real)
    requires Remembering(limits, calls, key) && Latest(calls, key, now) && limits.maxRequests >= 0
    ensures |After(Stored(limits, calls, key), Cutoff(limits, now))| >= limits.maxRequests
            <==> CountIn(Granted(limits, calls, key), Cutoff(limits, now), now) == limits.maxRequests
  {
    PruningIsInvisible(limits, calls, key, now);
    WindowEndingNow(limits, calls, key, now);
  }

  ghost function Only(calls: seq<Call>, key: string): seq<Call> {
    if calls == [] then []
    else Only(calls[..|calls| - 1], key) + if calls[|calls| - 1].key == key then [calls[|calls| - 1]] else []
  }

  /** What a key stores and is granted depends on its own calls alone. */
  lemma {:induction false} KeysAreIndependent(limits: Limits, calls: seq<Call>, key: string)
    ensures Stored(limits, calls, key) == Stored(limits, Only(calls, key), key)
    ensures Granted(limits, calls, key) == Granted(limits, Only(calls, key), key)
  {
    if calls != [] {
      var last := |calls| - 1;
      KeysAreIndependent(limits, calls[..last], key);
      var own := Only(calls[..last], key);
      if calls[last].key == key {
        assert Only(calls, key) == own + [calls[last]];
        assert (own + [calls[last]])[..|own|] == own;
      } else {
        assert Only(calls, key) == own;
      }
    }
  }

  /** A call granted because fewer than the limit are left after pruning. */
  lemma GrantFrom(limits: Limits, calls: seq<Call>, call: Call, stored: seq<real>, kept: seq<real>)
    requires Stored(limits, calls, call.key) == stored && |stored| <= 2 && |kept| < limits.maxRequests
    requires kept == if |stored| > 0 && stored[0] > Cutoff(limits, call.at) then stored else []
    requires |stored| == 2 ==> (stored[0] > Cutoff(limits, call.at) <==> stored[1] > Cutoff(limits, call.at))
    ensures Stored(limits, calls + [call], call.key) == kept + [call.at]
    ensures Granted(limits, calls + [call], call.key) == Granted(limits, calls, call.key) + [call.at]
  {
    var cutoff := Cutoff(limits, call.at);
    if |stored| == 2 {
      AfterAppend([], stored[0], cutoff);
      AfterAppend([stored[0]], stored[1], cutoff);
      assert stored == [stored[0]] + [stored[1]] && [stored[0]] == [] + [stored[0]];
    } else if |stored| == 1 {
      AfterAppend([], stored[0], cutoff);
      assert stored == [] + [stored[0]];
    }
    assert After(stored, cutoff) == kept;
    CallAdded(limits, calls, call, call.key);
  }

  /** A clock that steps back past a pruned window, so that a window is overfilled: with a limit of
    * two per ten seconds, three grants land between 99 and 109. */
  lemma BackwardsClockOverfills()
    ensures exists calls: seq<Call> ::
      CountIn(Granted(Limits(2, 10), calls, "k"), 99.0, 109.0) > 2
  {
    var limits := Limits(2, 10);
    var c1, c2, c3, c4 := Call("k", 100.0), Call("k", 101.0), Call("k", 115.0), Call("k", 102.0);
    GrantFrom(limits, [], c1, [], []);
    GrantFrom(limits, [] + [c1], c2, [100.0], [100.0]);
    GrantFrom(limits, [] + [c1] + [c2], c3, [100.0] + [101.0], []);
    GrantFrom(limits, [] + [c1] + [c2] + [c3], c4, [115.0], [115.0]);
    CountAppend([], 100.0, 99.0, 109.0);
    CountAppend([] + [100.0], 101.0, 99.0, 109.0);
    CountAppend([] + [100.0] + [101.0], 115.0, 99.0, 109.0);
    CountAppend([] + [100.0] + [101.0] + [115.0], 102.0, 99.0, 109.0);
    assert CountIn(Granted(limits, [] + [c1] + [c2] + [c3] + [c4], "k"), 99.0, 109.0) == 3;
  }

  // ---- The limiter object ----

  function Entry(requests: map<string, seq<real>>, key: string): seq<real> {
    if key in requests then requests[key] else []
  }

  /** The stored lists are those the calls so far lead to. */
  ghost predicate Matches(requests: map<string, seq<real>>, limits: Limits, calls: seq<Call>) {
    forall key :: Entry(requests, key) == Stored(limits, calls, key)
  }

  lemma CallKeepsMatching(requests: map<string, seq<real>>, limits: Limits, calls: seq<Call>, call: Call, list: seq<real>)
    requires Matches(requests, limits, calls)
    requires var kept := After(Entry(requests, call.key), Cutoff(limits, call.at));
             list == if |kept| < limits.maxRequests then kept + [call.at] else kept
    ensures Matches(requests[call.key := list], limits, calls + [call])
  {
    forall key ensures Entry(requests[call.key := list], key) == Stored(limits, calls + [call], key) {
      CallAdded(limits, calls, call, key);
      assert Entry(requests, key) == Stored(limits, calls, key);
    }
  }

  /** What a call leaves of the stored lists, and that its verdict is right. */
  lemma CallIsServed(requests: map<string, seq<real>>, limits: Limits, calls: seq<Call>, call: Call, kept: seq<real>)
    requires Matches(requests, limits, calls) && kept == After(Entry(requests, call.key), Cutoff(limits, call.at))
    ensures var list := if |kept| < limits.maxRequests then kept + [call.at] else kept;
            && Matches(requests[call.key := list], limits, calls + [call])
            && list == Stored(limits, calls + [call], call.key)
            && RightVerdict(limits, calls, call, |kept| < limits.maxRequests)
  {
    var list := if |kept| < limits.maxRequests then kept + [call.at] else kept;
    assert Entry(requests, call.key) == Stored(limits, calls, call.key);
    VerdictIsRight(limits, calls, call);
    CallKeepsMatching(requests, limits, calls, call, list);
    CallAdded(limits, calls, call, call.key);
  }

  method Prune(times: seq<real>, windowStart: real) returns (kept: seq<real>)
    ensures kept == After(times, windowStart)
  {
    kept := [];
    for n := 0 to |times|
      invariant kept == After(times[..n], windowStart)
    {
      assert times[..n + 1][..n] == times[..n];
      if times[n] > windowStart {
        kept := kept + [times[n]];
      }
    }
    assert times[..|times|] == times;
  }

  class RateLimiter {
    const limits: Limits
    var requests: map<string, seq<real>>
    /** Every call made so far. */
    ghost var calls: seq<Call>

    ghost predicate Valid()
      reads this
    {
      Matches(requests, limits, calls)
    }

    constructor (maxRequests: int, windowSeconds: int)
      ensures Valid() && calls == [] && limits == Limits(maxRequests, windowSeconds)
    {
      limits := Limits(maxRequests, windowSeconds);
      requests, calls := map[], [];
    }

    /** Prunes the key's list, lets the request through unless it is full, and remembers it if so. */
    method Admit(key: string, now: real) returns (allowed: bool, ghost kept: seq<real>)
      modifies this`requests
      ensures kept == After(Entry(old(requests), key), Cutoff(limits, now))
      ensures allowed <==> |kept| < limits.maxRequests
      ensures requests == old(requests)[key := if allowed then kept + [now] else kept]
    {
      var recent := Prune(Entry(requests, key), now - limits.windowSeconds as real);
      kept := recent;
      requests := requests[key := recent];
      if |requests[key]| >= limits.maxRequests {
        return false, kept;
      }
      requests := requests[key := requests[key] + [now]];
      return true, kept;
    }

    method IsAllowed(key: string, now: real) returns (allowed: bool)
      requires Valid()
      modifies this
      ensures Valid() && calls == old(calls) + [Call(key, now)]
      ensures requests == old(requests)[key := Stored(limits, calls, key)]
      ensures RightVerdict(limits, old(calls), Call(key, now), allowed)
    {
      ghost var before, kept := requests, [];
      allowed, kept := Admit(key, now);
      CallIsServed(before, limits, calls, Call(key, now), kept);
      calls := calls + [Call(key, now)];
    }
  }
}
