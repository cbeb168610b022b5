/** The sliding-window rate limiter for start and end requests, per player and action. */
module RateLimiter {
  import opened Basics

  type Player = string
  type Time = int

  datatype Action = Start | End

  datatype Limit = Limit(maximum: nat, window: nat)

  /** The limits a limiter can be built with; construction refuses any other. */
  predicate ValidLimit(limit: Limit) { limit.maximum > 0 && limit.window > 0 }

  datatype Limits = Limits(start: Limit, end: Limit)

  function LimitOf(limits: Limits, action: Action): Limit {
    if action == Start then limits.start else limits.end
  }

  /** Request times still remembered, oldest first. */
  datatype History = History(starts: seq<Time>, ends: seq<Time>)

  type Histories = map<Player, History>

  function HistoryOf(histories: Histories, player: Player): History {
    if player in histories then histories[player] else History([], [])
  }

  function Requests(histories: Histories, player: Player, action: Action): seq<Time> {
    var history := HistoryOf(histories, player);
    if action == Start then history.starts else history.ends
  }

  function Discard(requests: seq<Time>, oldest: Time): seq<Time> {
    if requests != [] && requests[0] <= oldest then Discard(requests[1..], oldest) else requests
  }

  /** Discarding cuts off a front of old times and stops at the first that is not. */
  lemma {:induction false} DiscardCutsOld(requests: seq<Time>, oldest: Time)
    ensures var kept := Discard(requests, oldest);
      && |kept| <= |requests| && kept == requests[|requests| - |kept|..]
      && (forall i :: 0 <= i < |requests| - |kept| ==> requests[i] <= oldest)
      && (kept != [] ==> kept[0] > oldest)
  {
    if requests != [] && requests[0] <= oldest { DiscardCutsOld(requests[1..], oldest); }
  }

  datatype Call = Call(player: Player, action: Action, now: Time)

  function Remember(histories: Histories, call: Call, requests: seq<Time>): Histories {
    var history := HistoryOf(histories, call.player);
    histories[call.player := if call.action == Start then history.(starts := requests) else history.(ends := requests)]
  }

  /** Whether a call is allowed, and what is remembered afterwards. */
  function Allow(histories: Histories, limits: Limits, call: Call): (Histories, bool) {
    var limit := LimitOf(limits, call.action);
    var recent := Discard(Requests(histories, call.player, call.action), call.now - limit.window);
    if |recent| >= limit.maximum then (Remember(histories, call, recent), false)
    else (Remember(histories, call, recent + [call.now]), true)
  }

  /** The limiter as an object. */
  class Limiter {
    const limits: Limits
    var histories: Histories

    constructor (limits: Limits)
      requires ValidLimit(limits.start) && ValidLimit(limits.end)
      ensures this.limits == limits && histories == map[]
    {
      this.limits := limits;
      histories := map[];
    }

    method AllowRequest(player: Player, action: Action, now: Time) returns (allowed: bool)
      modifies this
      ensures (histories, allowed) == Allow(old(histories), limits, Call(player, action, now))
    {
      var limit := if action == Start then limits.start else limits.end;
      var requests := Requests(histories, player, action);
      var oldest := now - limit.window;
      while requests != [] && requests[0] <= oldest
        invariant Discard(requests, oldest) == Discard(Requests(histories, player, action), oldest)
        decreases |requests|
      {
        requests := requests[1..];
      }
      allowed := |requests| < limit.maximum;
      if allowed {
        requests := requests + [now];
      }
      histories := Remember(histories, Call(player, action, now), requests);
    }
  }

  // ---------------------------------------------------------------- every window of every run

  /** The calls of a run that are allowed, in order. */
  function Granted(histories: Histories, limits: Limits, calls: seq<Call>): seq<Call>
    decreases |calls|
  {
    if calls == [] then []
    else
      var (next, allowed) := Allow(histories, limits, calls[0]);
      (if allowed then [calls[0]] else []) + Granted(next, limits, calls[1..])
  }

  function HistoriesAfter(histories: Histories, limits: Limits, calls: seq<Call>): Histories
    decreases |calls|
  {
    if calls == [] then histories
    else HistoriesAfter(Allow(histories, limits, calls[0]).0, limits, calls[1..])
  }

  /** The times of one player's calls for one action. */
  function Times(calls: seq<Call>, player: Player, action: Action): seq<Time> {
    if calls == [] then []
    else
      var last := calls[|calls| - 1];
      Times(calls[..|calls| - 1], player, action)
      + if last.player == player && last.action == action then [last.now] else []
  }

  ghost predicate Nondecreasing(times: seq<Time>) {
    forall i, j :: 0 <= i < j < |times| ==> times[i] <= times[j]
  }

  ghost predicate InOrder(calls: seq<Call>) {
    forall i, j :: 0 <= i < j < |calls| ==> calls[i].now <= calls[j].now
  }

  /** How many times fall into the half-open window ending at `t`. */
  function CountIn(times: seq<Time>, window: nat, t: Time): nat {
    if times == [] then 0
    else CountIn(times[1..], window, t) + if t - window < times[0] <= t then 1 else 0
  }

  /** Times with `maximum` places between them are at least the window apart. */
  ghost predicate Spaced(times: seq<Time>, limit: Limit) {
    forall i, j :: 0 <= i <= j < |times| && i + limit.maximum <= j ==> times[i] <= times[j] - limit.window
  }

  /** The end part of a sequence of times. */
  predicate Suffix(part: seq<Time>, times: seq<Time>)
    decreases |times|
  {
    part == times || (times != [] && Suffix(part, times[1..]))
  }

  lemma {:induction false} SuffixIsSlice(part: seq<Time>, times: seq<Time>)
    ensures Suffix(part, times) <==> |part| <= |times| && part == times[|times| - |part|..]
    decreases |times|
  {
    if part != times && times != [] { SuffixIsSlice(part, times[1..]); }
  }

  /** What is remembered is the newest part of what was allowed; the rest has left every later window. */
  ghost predicate Remembers(requests: seq<Time>, times: seq<Time>, limit: Limit, now: Time) {
    && Suffix(requests, times) && |requests| <= limit.maximum
    && (forall i :: 0 <= i < |times| - |requests| ==> times[i] <= now - limit.window)
    && (forall i :: 0 <= i < |times| ==> times[i] <= now)
    && Nondecreasing(times)
    && Spaced(times, limit)
  }

  ghost predicate Tracks(histories: Histories, limits: Limits, past: seq<Call>, now: Time, player: Player, action: Action) {
    Remembers(Requests(histories, player, action), Times(past, player, action), LimitOf(limits, action), now)
  }

  lemma RemembersLater(requests: seq<Time>, times: seq<Time>, limit: Limit, now: Time, later: Time)
    requires Remembers(requests, times, limit, now) && now <= later
    ensures Remembers(requests, times, limit, later)
  {}

  lemma DiscardRemembers(requests: seq<Time>, times: seq<Time>, limit: Limit, now: Time)
    requires Remembers(requests, times, limit, now)
    ensures Remembers(Discard(requests, now - limit.window), times, limit, now)
  {
    DiscardCutsOld(requests, now - limit.window);
    SuffixIsSlice(requests, times);
    SuffixIsSlice(Discard(requests, now - limit.window), times);
    OldBeforeKept(requests, times, |Discard(requests, now - limit.window)|, now - limit.window);
  }

  lemma OldBeforeKept(requests: seq<Time>, times: seq<Time>, kept: nat, oldest: Time)
    requires kept <= |requests| <= |times| && requests == times[|times| - |requests|..]
    requires forall i :: 0 <= i < |times| - |requests| ==> times[i] <= oldest
    requires forall i :: 0 <= i < |requests| - kept ==> requests[i] <= oldest
    ensures forall i :: 0 <= i < |times| - kept ==> times[i] <= oldest
  {
    var gone := |times| - |requests|;
    forall i | gone <= i < |times| - kept ensures times[i] <= oldest {
      assert times[i] == requests[i - gone];
    }
  }

  lemma AllowedRemembers(recent: seq<Time>, times: seq<Time>, limit: Limit, now: Time)
    requires Remembers(recent, times, limit, now) && |recent| < limit.maximum
    ensures Remembers(recent + [now], times + [now], limit, now)
  {
    SuffixGrows(recent, times, now);
    assert forall i :: 0 <= i < |times| ==> (times + [now])[i] == times[i];
  }

  lemma {:induction false} SuffixGrows(part: seq<Time>, times: seq<Time>, now: Time)
    requires Suffix(part, times)
    ensures Suffix(part + [now], times + [now])
    ensures |part| <= |times|
    decreases |times|
  {
    if part != times {
      SuffixGrows(part, times[1..], now);
      assert (times + [now])[1..] == times[1..] + [now];
    }
  }

  /** A call touches its own player's requests for its own action, and no others. */
  lemma AllowTouches(histories: Histories, limits: Limits, call: Call, player: Player, action: Action)
    ensures var (next, allowed) := Allow(histories, limits, call);
      var limit, requests := LimitOf(limits, action), Requests(histories, player, action);
      if player == call.player && action == call.action then
        var recent := Discard(requests, call.now - limit.window);
        && allowed == (|recent| < limit.maximum)
        && Requests(next, player, action) == if allowed then recent + [call.now] else recent
      else Requests(next, player, action) == requests
  {}

  lemma TimesGrow(past: seq<Call>, call: Call, player: Player, action: Action)
    ensures Times(past + [call], player, action) ==
      if player == call.player && action == call.action then Times(past, player, action) + [call.now]
      else Times(past, player, action)
  {
    assert (past + [call])[..|past|] == past;
  }

  /** The allowed calls with one more call, if it is allowed. */
  function Grown(histories: Histories, limits: Limits, past: seq<Call>, call: Call): seq<Call> {
    if Allow(histories, limits, call).1 then past + [call] else past
  }

  lemma StepTracks(histories: Histories, limits: Limits, past: seq<Call>, call: Call, before: Time, player: Player, action: Action)
    requires Tracks(histories, limits, past, before, player, action) && before <= call.now
    ensures Tracks(Allow(histories, limits, call).0, limits, Grown(histories, limits, past, call), call.now, player, action)
  {
    RemembersLater(Requests(histories, player, action), Times(past, player, action), LimitOf(limits, action), before, call.now);
    AllowTouches(histories, limits, call, player, action);
    if player == call.player && action == call.action {
      OwnStepTracks(histories, limits, past, call);
    } else {
      TimesGrow(past, call, player, action);
    }
  }

  lemma OwnStep(histories: Histories, limits: Limits, past: seq<Call>, call: Call)
    ensures var limit := LimitOf(limits, call.action);
      var recent := Discard(Requests(histories, call.player, call.action), call.now - limit.window);
      var times := Times(past, call.player, call.action);
      && Requests(Allow(histories, limits, call).0, call.player, call.action)
         == (if |recent| < limit.maximum then recent + [call.now] else recent)
      && Times(Grown(histories, limits, past, call), call.player, call.action)
         == (if |recent| < limit.maximum then times + [call.now] else times)
  {
    AllowTouches(histories, limits, call, call.player, call.action);
    TimesGrow(past, call, call.player, call.action);
  }

  lemma OwnStepTracks(histories: Histories, limits: Limits, past: seq<Call>, call: Call)
    requires Tracks(histories, limits, past, call.now, call.player, call.action)
    ensures Tracks(Allow(histories, limits, call).0, limits, Grown(histories, limits, past, call), call.now, call.player, call.action)
  {
    OwnStep(histories, limits, past, call);
    StepRemembers(Requests(histories, call.player, call.action), Times(past, call.player, call.action),
                  LimitOf(limits, call.action), call.now);
  }

  lemma StepRemembers(requests: seq<Time>, times: seq<Time>, limit: Limit, now: Time)
    requires Remembers(requests, times, limit, now)
    ensures var recent := Discard(requests, now - limit.window);
      if |recent| < limit.maximum then Remembers(recent + [now], times + [now], limit, now)
      else Remembers(recent, times, limit, now)
  {
    DiscardRemembers(requests, times, limit, now);
    if |Discard(requests, now - limit.window)| < limit.maximum {
      AllowedRemembers(Discard(requests, now - limit.window), times, limit, now);
    }
  }

  lemma TailInOrder(calls: seq<Call>)
    requires InOrder(calls) && calls != []
    ensures InOrder(calls[1..]) && (calls[1..] != [] ==> calls[0].now <= calls[1..][0].now)
  {}

  lemma GrantedGrows(histories: Histories, limits: Limits, past: seq<Call>, calls: seq<Call>)
    requires calls != []
    ensures past + Granted(histories, limits, calls) ==
      Grown(histories, limits, past, calls[0]) + Granted(Allow(histories, limits, calls[0]).0, limits, calls[1..])
  {}

  function EndOf(calls: seq<Call>, before: Time): Time { if calls == [] then before else calls[|calls| - 1].now }

  lemma {:induction false} RunTracks(histories: Histories, limits: Limits, past: seq<Call>, calls: seq<Call>, before: Time,
                                     all: seq<Call>, player: Player, action: Action)
    requires Tracks(histories, limits, past, before, player, action) && all == past + Granted(histories, limits, calls)
    requires InOrder(calls) && (calls != [] ==> before <= calls[0].now)
    ensures Tracks(HistoriesAfter(histories, limits, calls), limits, all, EndOf(calls, before), player, action)
    decreases |calls|
  {
    if calls == [] {
      assert all == past;
    } else {
      var next, grown := Allow(histories, limits, calls[0]).0, Grown(histories, limits, past, calls[0]);
      StepTracks(histories, limits, past, calls[0], before, player, action);
      TailInOrder(calls);
      GrantedGrows(histories, limits, past, calls);
      RunTracks(next, limits, grown, calls[1..], calls[0].now, all, player, action);
    }
  }

  /** From the start, a whole run is tracked. */
  lemma StartTracks(limits: Limits, calls: seq<Call>, player: Player, action: Action) returns (now: Time)
    requires InOrder(calls)
    ensures Tracks(HistoriesAfter(map[], limits, calls), limits, Granted(map[], limits, calls), now, player, action)
    ensures calls != [] ==> now == calls[|calls| - 1].now
    ensures calls == [] ==> HistoriesAfter(map[], limits, calls) == map[]
  {
    var start := if calls == [] then 0 else calls[0].now;
    var all := Granted(map[], limits, calls);
    assert [] + all == all;
    RunTracks(map[], limits, [], calls, start, all, player, action);
    now := EndOf(calls, start);
  }

  /** Spaced times put at most the limit into any window. */
  lemma {:induction false} SpacedWindow(times: seq<Time>, limit: Limit, t: Time)
    requires Nondecreasing(times) && Spaced(times, limit)
    ensures CountIn(times, limit.window, t) <= limit.maximum
  {
    if times != [] {
      var rest := times[1..];
      assert forall i :: 0 <= i < |rest| ==> rest[i] == times[i + 1];
      SpacedWindow(rest, limit, t);
      if t - limit.window < times[0] <= t {
        FirstCounts(times, limit, t);
      }
    }
  }

  /** When the first time is in the window, only the next few can be. */
  lemma FirstCounts(times: seq<Time>, limit: Limit, t: Time)
    requires Nondecreasing(times) && Spaced(times, limit) && times != [] && t - limit.window < times[0]
    ensures CountIn(times, limit.window, t) <= limit.maximum
  {
    if |times| <= limit.maximum {
      CountAtMostLength(times, limit.window, t);
    } else {
      var head, tail := times[..limit.maximum], times[limit.maximum..];
      assert times == head + tail;
      CountConcat(head, tail, limit.window, t);
      CountAtMostLength(head, limit.window, t);
      assert times[0] <= times[0 + limit.maximum] - limit.window;
      CountLater(tail, limit.window, t);
    }
  }

  lemma CountAtMostLength(times: seq<Time>, window: nat, t: Time)
    ensures CountIn(times, window, t) <= |times|
  {}

  lemma {:induction false} CountConcat(a: seq<Time>, b: seq<Time>, window: nat, t: Time)
    ensures CountIn(a + b, window, t) == CountIn(a, window, t) + CountIn(b, window, t)
  {
    if a == [] {
      assert a + b == b;
    } else {
      assert (a + b)[1..] == a[1..] + b;
      CountConcat(a[1..], b, window, t);
    }
  }

  lemma {:induction false} CountLater(times: seq<Time>, window: nat, t: Time)
    requires forall i :: 0 <= i < |times| ==> times[i] > t
    ensures CountIn(times, window, t) == 0
  {
    if times != [] { CountLater(times[1..], window, t); }
  }

  /** In every run with nondecreasing times, every window holds at most the limit, for each player and action. */
  lemma NoWindowExceedsLimit(limits: Limits, calls: seq<Call>, player: Player, action: Action, t: Time)
    requires InOrder(calls)
    ensures var limit := if action == Start then limits.start else limits.end;
      CountIn(Times(Granted(map[], limits, calls), player, action), limit.window, t) <= limit.maximum
  {
    var now := StartTracks(limits, calls, player, action);
    SpacedWindow(Times(Granted(map[], limits, calls), player, action), LimitOf(limits, action), t);
  }

  /** A sequence that is old up to some point and recent from there on has as many times in the window as are recent. */
  lemma RecentPartCounts(times: seq<Time>, cut: nat, window: nat, now: Time)
    requires cut <= |times| && (forall i :: 0 <= i < cut ==> times[i] <= now - window)
    requires forall i :: cut <= i < |times| ==> now - window < times[i] <= now
    ensures CountIn(times, window, now) == |times| - cut
  {
    var left, recent := times[..cut], times[cut..];
    assert times == left + recent;
    CountConcat(left, recent, window, now);
    CountNone(left, window, now);
    CountAll(recent, window, now);
  }

  /** Recent times, once the old ones are discarded, are exactly those of the window ending now. */
  lemma RecentAreCounted(requests: seq<Time>, times: seq<Time>, limit: Limit, now: Time)
    requires Remembers(requests, times, limit, now)
    ensures |Discard(requests, now - limit.window)| == CountIn(times, limit.window, now)
  {
    DiscardRemembers(requests, times, limit, now);
    DiscardCutsOld(requests, now - limit.window);
    KeptAreCounted(Discard(requests, now - limit.window), times, limit, now);
  }

  lemma KeptAreCounted(kept: seq<Time>, times: seq<Time>, limit: Limit, now: Time)
    requires Remembers(kept, times, limit, now) && (kept != [] ==> kept[0] > now - limit.window)
    ensures |kept| == CountIn(times, limit.window, now)
  {
    SuffixIsSlice(kept, times);
    RestIsRecent(kept, times, now - limit.window);
    RecentPartCounts(times, |times| - |kept|, limit.window, now);
  }

  lemma RestIsRecent(kept: seq<Time>, times: seq<Time>, oldest: Time)
    requires |kept| <= |times| && kept == times[|times| - |kept|..] && (kept != [] ==> kept[0] > oldest) && Nondecreasing(times)
    ensures forall i :: |times| - |kept| <= i < |times| ==> times[i] > oldest
  {
    if kept != [] { assert kept[0] == times[|times| - |kept|]; }
  }

  lemma NothingIsTracked(limits: Limits, player: Player, action: Action, now: Time)
    ensures Tracks(map[], limits, [], now, player, action)
  {}

  lemma RefusedWhenFull(histories: Histories, limits: Limits, past: seq<Call>, before: Time, call: Call)
    requires Tracks(histories, limits, past, before, call.player, call.action) && before <= call.now
    ensures var limit := LimitOf(limits, call.action);
      !Allow(histories, limits, call).1 <==>
        CountIn(Times(past, call.player, call.action), limit.window, call.now) >= limit.maximum
  {
    var limit := LimitOf(limits, call.action);
    var times, requests := Times(past, call.player, call.action), Requests(histories, call.player, call.action);
    RemembersLater(requests, times, limit, before, call.now);
    RecentAreCounted(requests, times, limit, call.now);
    AllowTouches(histories, limits, call, call.player, call.action);
  }

  /** A call is refused exactly when the window ending with it already holds the limit. */
  lemma RefusedExactlyWhenFull(limits: Limits, calls: seq<Call>, call: Call)
    requires InOrder(calls) && (calls != [] ==> calls[|calls| - 1].now <= call.now)
    ensures var limit := if call.action == Start then limits.start else limits.end;
      var granted := Times(Granted(map[], limits, calls), call.player, call.action);
      !Allow(HistoriesAfter(map[], limits, calls), limits, call).1 <==> CountIn(granted, limit.window, call.now) >= limit.maximum
  {
    if calls == [] {
      NothingIsTracked(limits, call.player, call.action, call.now);
      RefusedWhenFull(map[], limits, [], call.now, call);
    } else {
      var now := StartTracks(limits, calls, call.player, call.action);
      RefusedWhenFull(HistoriesAfter(map[], limits, calls), limits, Granted(map[], limits, calls), now, call);
    }
  }

  lemma {:induction false} CountNone(times: seq<Time>, window: nat, t: Time)
    requires forall i :: 0 <= i < |times| ==> times[i] <= t - window
    ensures CountIn(times, window, t) == 0
  {
    if times != [] { CountNone(times[1..], window, t); }
  }

  lemma {:induction false} CountAll(times: seq<Time>, window: nat, t: Time)
    requires forall i :: 0 <= i < |times| ==> t - window < times[i] <= t
    ensures CountIn(times, window, t) == |times|
  {
    if times != [] { CountAll(times[1..], window, t); }
  }

  // ---------------------------------------------------------------- clocks that go back

  lemma FirstCall(histories: Histories, limits: Limits, first: Call, rest: seq<Call>)
    ensures var (next, allowed) := Allow(histories, limits, first);
      && HistoriesAfter(histories, limits, [first] + rest) == HistoriesAfter(next, limits, rest)
      && Granted(histories, limits, [first] + rest) == (if allowed then [first] else []) + Granted(next, limits, rest)
  {
    assert ([first] + rest)[1..] == rest;
  }

  lemma FirstOfMore(histories: Histories, limits: Limits, first: Call, rest: seq<Call>, call: Call)
    ensures var (next, allowed) := Allow(histories, limits, first); var run := [first] + rest + [call];
      && HistoriesAfter(histories, limits, run) == HistoriesAfter(next, limits, rest + [call])
      && Granted(histories, limits, run) == (if allowed then [first] else []) + Granted(next, limits, rest + [call])
      && HistoriesAfter(histories, limits, [first] + rest) == HistoriesAfter(next, limits, rest)
      && Granted(histories, limits, [first] + rest) == (if allowed then [first] else []) + Granted(next, limits, rest)
  {
    FirstCall(histories, limits, first, rest);
    FirstCall(histories, limits, first, rest + [call]);
    assert [first] + rest + [call] == [first] + (rest + [call]);
  }

  /** One more call at the end of a run. */
  lemma {:induction false} OneMoreCall(histories: Histories, limits: Limits, calls: seq<Call>, call: Call)
    ensures HistoriesAfter(histories, limits, calls + [call]) == Allow(HistoriesAfter(histories, limits, calls), limits, call).0
    ensures Granted(histories, limits, calls + [call]) ==
      Grown(HistoriesAfter(histories, limits, calls), limits, Granted(histories, limits, calls), call)
    decreases |calls|
  {
    if calls == [] {
      FirstCall(histories, limits, call, []);
      assert calls + [call] == [call] + [];
    } else {
      var first, rest := calls[0], calls[1..];
      OneMoreCall(Allow(histories, limits, first).0, limits, rest, call);
      FirstOfMore(histories, limits, first, rest, call);
      assert calls + [call] == [first] + rest + [call] && calls == [first] + rest;
    }
  }

  ghost predicate WindowsBounded(limits: Limits, calls: seq<Call>, player: Player, action: Action) {
    var limit := LimitOf(limits, action);
    forall t :: CountIn(Times(Granted(map[], limits, calls), player, action), limit.window, t) <= limit.maximum
  }

  /** With a limit of one, just the last allowed request is remembered, and the next one must be a window later. */
  ghost predicate KeepsLast(requests: seq<Time>, times: seq<Time>, limit: Limit) {
    && Nondecreasing(times) && Spaced(times, limit)
    && requests == if times == [] then [] else [times[|times| - 1]]
  }

  lemma KeepsNext(requests: seq<Time>, times: seq<Time>, limit: Limit, now: Time)
    requires KeepsLast(requests, times, limit) && limit.maximum == 1
    ensures var recent := Discard(requests, now - limit.window);
      if |recent| < limit.maximum then KeepsLast(recent + [now], times + [now], limit)
      else KeepsLast(recent, times, limit)
  {
    var recent := Discard(requests, now - limit.window);
    if requests != [] { assert requests[1..] == []; }
    if recent == [] {
      assert recent + [now] == [now];
      AppendKeeps(times, limit, now);
    }
  }

  lemma AppendKeeps(times: seq<Time>, limit: Limit, now: Time)
    requires Nondecreasing(times) && Spaced(times, limit) && limit.maximum == 1
    requires times != [] ==> times[|times| - 1] <= now - limit.window
    ensures KeepsLast([now], times + [now], limit)
  {}

  lemma SingleStep(histories: Histories, limits: Limits, past: seq<Call>, call: Call, player: Player, action: Action)
    requires LimitOf(limits, action).maximum == 1
    requires KeepsLast(Requests(histories, player, action), Times(past, player, action), LimitOf(limits, action))
    ensures KeepsLast(Requests(Allow(histories, limits, call).0, player, action),
                      Times(Grown(histories, limits, past, call), player, action), LimitOf(limits, action))
  {
    if player == call.player && action == call.action {
      OwnSingleStep(histories, limits, past, call);
    } else {
      AllowTouches(histories, limits, call, player, action);
      TimesGrow(past, call, player, action);
    }
  }

  lemma OwnSingleStep(histories: Histories, limits: Limits, past: seq<Call>, call: Call)
    requires LimitOf(limits, call.action).maximum == 1
    requires KeepsLast(Requests(histories, call.player, call.action), Times(past, call.player, call.action), LimitOf(limits, call.action))
    ensures KeepsLast(Requests(Allow(histories, limits, call).0, call.player, call.action),
                      Times(Grown(histories, limits, past, call), call.player, call.action), LimitOf(limits, call.action))
  {
    OwnStep(histories, limits, past, call);
    KeepsNext(Requests(histories, call.player, call.action), Times(past, call.player, call.action),
              LimitOf(limits, call.action), call.now);
  }

  lemma {:induction false} SingleIsKept(limits: Limits, calls: seq<Call>, player: Player, action: Action)
    requires LimitOf(limits, action).maximum == 1
    ensures KeepsLast(Requests(HistoriesAfter(map[], limits, calls), player, action),
                      Times(Granted(map[], limits, calls), player, action), LimitOf(limits, action))
    decreases |calls|
  {
    if calls != [] {
      var before, call := calls[..|calls| - 1], calls[|calls| - 1];
      var histories, granted := HistoriesAfter(map[], limits, before), Granted(map[], limits, before);
      assert calls == before + [call];
      OneMoreCall(map[], limits, before, call);
      SingleIsKept(limits, before, player, action);
      SingleStep(histories, limits, granted, call, player, action);
    }
  }

  /** A limit of one request per window is kept whatever the clock does. */
  lemma SingleNeedsNoClock(limits: Limits, calls: seq<Call>, player: Player, action: Action)
    requires LimitOf(limits, action).maximum == 1
    ensures WindowsBounded(limits, calls, player, action)
  {
    SingleIsKept(limits, calls, player, action);
    forall t { SpacedWindow(Times(Granted(map[], limits, calls), player, action), LimitOf(limits, action), t); }
  }

  function Zeros(count: nat): seq<Time> { seq(count, _ => 0) }

  lemma ZerosStay(count: nat, oldest: Time)
    requires count > 0 > oldest
    ensures Discard(Zeros(count - 1), oldest) == Zeros(count - 1) && Zeros(count - 1) + [0] == Zeros(count)
  {}

  /** As many requests as the limit allows, all at time zero. */
  function Burst(player: Player, action: Action, count: nat): (calls: seq<Call>)
    ensures |calls| == count
  {
    if count == 0 then [] else Burst(player, action, count - 1) + [Call(player, action, 0)]
  }

  /** Late enough that the burst is forgotten, and that going back by `step` returns to its window. */
  function Later(limit: Limit, step: nat): Time { if step < limit.window then limit.window else step }

  /** A burst, a request that makes it forgotten, and one after the clock has gone back by `step`. */
  function BackwardRun(limit: Limit, player: Player, action: Action, step: nat): (run: seq<Call>)
    ensures |run| == limit.maximum + 2
  {
    Burst(player, action, limit.maximum)
    + [Call(player, action, Later(limit, step))] + [Call(player, action, Later(limit, step) - step)]
  }

  /** A call that is allowed, given what is still recent. */
  lemma AllowedCall(limits: Limits, calls: seq<Call>, call: Call, recent: seq<Time>)
    requires Granted(map[], limits, calls) == calls
    requires Discard(Requests(HistoriesAfter(map[], limits, calls), call.player, call.action),
                     call.now - LimitOf(limits, call.action).window) == recent
    requires |recent| < LimitOf(limits, call.action).maximum
    ensures Granted(map[], limits, calls + [call]) == calls + [call]
    ensures Requests(HistoriesAfter(map[], limits, calls + [call]), call.player, call.action) == recent + [call.now]
    ensures Times(calls + [call], call.player, call.action) == Times(calls, call.player, call.action) + [call.now]
  {
    OneMoreCall(map[], limits, calls, call);
    TimesGrow(calls, call, call.player, call.action);
  }

  lemma {:induction false} BurstIsAllowed(limits: Limits, player: Player, action: Action, count: nat)
    requires ValidLimit(LimitOf(limits, action)) && count <= LimitOf(limits, action).maximum
    ensures var calls := Burst(player, action, count);
      && Granted(map[], limits, calls) == calls && Times(calls, player, action) == Zeros(count)
      && Requests(HistoriesAfter(map[], limits, calls), player, action) == Zeros(count)
  {
    if count > 0 {
      BurstIsAllowed(limits, player, action, count - 1);
      ZerosStay(count, 0 - LimitOf(limits, action).window);
      AllowedCall(limits, Burst(player, action, count - 1), Call(player, action, 0), Zeros(count - 1));
    }
  }

  lemma {:induction false} ZerosAreDiscarded(count: nat, oldest: Time)
    requires oldest >= 0
    ensures Discard(Zeros(count), oldest) == []
  {
    if count > 0 {
      ZerosAreDiscarded(count - 1, oldest);
      assert Zeros(count)[1..] == Zeros(count - 1);
    }
  }

  lemma BackwardRunIsAllowed(limits: Limits, player: Player, action: Action, step: nat)
    requires ValidLimit(LimitOf(limits, action)) && LimitOf(limits, action).maximum >= 2
    ensures var limit := LimitOf(limits, action); var run := BackwardRun(limit, player, action, step);
      && Granted(map[], limits, run) == run
      && Times(run, player, action) == Zeros(limit.maximum) + [Later(limit, step)] + [Later(limit, step) - step]
  {
    var limit := LimitOf(limits, action);
    var late := Later(limit, step);
    LateIsAllowed(limits, player, action, late);
    AllowedCall(limits, Burst(player, action, limit.maximum) + [Call(player, action, late)], Call(player, action, late - step), [late]);
  }

  /** Once the burst has left the window, nothing of it is remembered. */
  lemma LateIsAllowed(limits: Limits, player: Player, action: Action, late: Time)
    requires ValidLimit(LimitOf(limits, action)) && late >= LimitOf(limits, action).window
    ensures var run := Burst(player, action, LimitOf(limits, action).maximum) + [Call(player, action, late)];
      && Granted(map[], limits, run) == run && Times(run, player, action) == Zeros(LimitOf(limits, action).maximum) + [late]
      && Requests(HistoriesAfter(map[], limits, run), player, action) == [late]
  {
    var limit := LimitOf(limits, action);
    BurstIsAllowed(limits, player, action, limit.maximum);
    ZerosAreDiscarded(limit.maximum, late - limit.window);
    AllowedCall(limits, Burst(player, action, limit.maximum), Call(player, action, late), []);
    assert [] + [late] == [late];
  }

  /** For every limit above one and every step back there is a run, in order but for that step, that exceeds the limit. */
  lemma BackwardClockExceedsLimit(limits: Limits, player: Player, action: Action, step: nat)
    requires ValidLimit(LimitOf(limits, action)) && LimitOf(limits, action).maximum >= 2 && step > 0
    ensures var limit := LimitOf(limits, action); var run := BackwardRun(limit, player, action, step);
      && InOrder(run[..limit.maximum + 1]) && run[limit.maximum + 1].now == run[limit.maximum].now - step
      && CountIn(Times(Granted(map[], limits, run), player, action), limit.window, Later(limit, step) - step) == limit.maximum + 1
  {
    var limit := LimitOf(limits, action);
    var late, back := Later(limit, step), Later(limit, step) - step;
    BackwardRunIsAllowed(limits, player, action, step);
    BurstIsAtZero(player, action, limit.maximum);
    CountConcat(Zeros(limit.maximum) + [late], [back], limit.window, back);
    CountConcat(Zeros(limit.maximum), [late], limit.window, back);
    CountAll(Zeros(limit.maximum), limit.window, back);
    CountLater([late], limit.window, back);
    CountAll([back], limit.window, back);
  }

  lemma {:induction false} BurstIsAtZero(player: Player, action: Action, count: nat)
    ensures forall i :: 0 <= i < count ==> Burst(player, action, count)[i].now == 0
  {
    if count > 0 { BurstIsAtZero(player, action, count - 1); }
  }

  /** Exactly a limit of one survives every clock; any other needs times that do not decrease. */
  lemma AnyClockIsBoundedExactly(limits: Limits, player: Player, action: Action)
    requires ValidLimit(LimitOf(limits, action))
    ensures (forall calls :: WindowsBounded(limits, calls, player, action)) <==> (if action == Start then limits.start else limits.end).maximum == 1
  {
    var limit := LimitOf(limits, action);
    if limit.maximum == 1 {
      forall calls { SingleNeedsNoClock(limits, calls, player, action); }
    } else {
      BackwardClockExceedsLimit(limits, player, action, 1);
      assert !WindowsBounded(limits, BackwardRun(limit, player, action, 1), player, action);
    }
  }
}
