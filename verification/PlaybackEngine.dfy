/** The playback engine: available remote streams, updated in place whenever something about them changes. */
module PlaybackEngine {
  import opened Basics
  import opened Playback
  import Text

  // ---------------------------------------------------------------- the priority order of the stored streams

  /** Arrival numbers are never reused. */
  ghost predicate DistinctOrders(streams: seq<Stream>) {
    forall i, j :: 0 <= i < j < |streams| ==> streams[i].order != streams[j].order
  }

  lemma BeforeIsTotal(a: Stream, b: Stream)
    requires a.order != b.order
    ensures Before(a, b) != Before(b, a)
  {}

  lemma BeforeIsTransitive(a: Stream, b: Stream, c: Stream)
    requires Before(a, b) && Before(b, c) && a.order != b.order && b.order != c.order && a.order != c.order
    ensures Before(a, c)
  {}

  predicate Within(positions: seq<nat>, n: nat) { forall i :: 0 <= i < |positions| ==> positions[i] < n }

  /** The streams at these positions. */
  function Pick(streams: seq<Stream>, positions: seq<nat>): seq<Stream>
    requires Within(positions, |streams|)
  {
    if positions == [] then [] else [streams[positions[0]]] + Pick(streams, positions[1..])
  }

  /** A position put where it belongs in a sorted list of positions. */
  function Place(streams: seq<Stream>, p: nat, sorted: seq<nat>): (r: seq<nat>)
    requires p < |streams| && Within(sorted, |streams|)
    ensures Within(r, |streams|) && |r| == |sorted| + 1
  {
    if sorted == [] || Before(streams[p], streams[sorted[0]]) then [p] + sorted
    else [sorted[0]] + Place(streams, p, sorted[1..])
  }

  /** The positions of the first `n` streams in priority order. */
  function Positions(streams: seq<Stream>, n: nat): (r: seq<nat>)
    requires n <= |streams|
    ensures Within(r, |streams|) && |r| == n
  {
    if n == 0 then [] else Place(streams, n - 1, Positions(streams, n - 1))
  }

  /** Placing a position adds its stream and loses none. */
  lemma {:induction false} PlaceKeeps(streams: seq<Stream>, p: nat, sorted: seq<nat>, s: Stream)
    requires p < |streams| && Within(sorted, |streams|)
    ensures s in Pick(streams, Place(streams, p, sorted)) <==> s == streams[p] || s in Pick(streams, sorted)
  {
    if sorted == [] || Before(streams[p], streams[sorted[0]]) {
      assert ([p] + sorted)[1..] == sorted;
    } else {
      PlaceKeeps(streams, p, sorted[1..], s);
      assert ([sorted[0]] + Place(streams, p, sorted[1..]))[1..] == Place(streams, p, sorted[1..]);
    }
  }

  /** The order holds exactly the streams that are stored. */
  lemma {:induction false} PositionsKeep(streams: seq<Stream>, n: nat, s: Stream)
    requires n <= |streams|
    ensures s in Pick(streams, Positions(streams, n)) <==> s in streams[..n]
  {
    if n > 0 {
      PositionsKeep(streams, n - 1, s);
      PlaceKeeps(streams, n - 1, Positions(streams, n - 1), s);
      assert streams[..n] == streams[..n - 1] + [streams[n - 1]];
    }
  }

  lemma PositionsDiffer(streams: seq<Stream>, i: nat, j: nat)
    requires i < j < |streams| && DistinctOrders(streams)
    ensures Positions(streams, |streams|)[i] != Positions(streams, |streams|)[j]
  {
    var positions := Positions(streams, |streams|);
    PositionsOrder(streams, |streams|);
    PickIndex(streams, positions, i);
    PickIndex(streams, positions, j);
    DifferAt(Pick(streams, positions), i, j);
  }

  lemma {:induction false} DifferAt(ordered: seq<Stream>, i: nat, j: nat)
    requires i < j < |ordered| && AllDiffer(ordered)
    ensures ordered[i].order != ordered[j].order
  {
    if i > 0 { DifferAt(ordered[1..], i - 1, j - 1); } else { assert ordered[1..][j - 1] == ordered[j]; }
  }

  // ---------------------------------------------------------------- the order does not depend on the storage

  predicate Ordered(streams: seq<Stream>) {
    streams == [] || ((forall i :: 0 < i < |streams| ==> Before(streams[0], streams[i])) && Ordered(streams[1..]))
  }

  predicate OrdersDiffer(a: Stream, rest: seq<Stream>) { forall i :: 0 <= i < |rest| ==> rest[i].order != a.order }

  ghost predicate AllDiffer(streams: seq<Stream>) {
    streams == [] || (OrdersDiffer(streams[0], streams[1..]) && AllDiffer(streams[1..]))
  }

  lemma {:induction false} PickIndex(streams: seq<Stream>, positions: seq<nat>, i: nat)
    requires Within(positions, |streams|) && i < |positions|
    ensures |Pick(streams, positions)| == |positions| && Pick(streams, positions)[i] == streams[positions[i]]
  {
    if i > 0 { PickIndex(streams, positions[1..], i - 1); }
    if positions[1..] != [] { PickIndex(streams, positions[1..], 0); }
  }

  lemma OrderedFront(first: Stream, rest: seq<Stream>)
    requires Ordered(rest) && AllDiffer(rest) && OrdersDiffer(first, rest)
    requires forall i :: 0 <= i < |rest| ==> Before(first, rest[i])
    ensures Ordered([first] + rest) && AllDiffer([first] + rest)
  {
    assert ([first] + rest)[1..] == rest;
  }

  lemma BeforeAll(first: Stream, rest: seq<Stream>)
    requires rest != [] && Ordered(rest) && AllDiffer(rest) && OrdersDiffer(first, rest) && Before(first, rest[0])
    ensures forall i :: 0 <= i < |rest| ==> Before(first, rest[i])
  {
    forall i | 0 < i < |rest| ensures Before(first, rest[i]) {
      assert rest[1..][i - 1] == rest[i];
      BeforeIsTransitive(first, rest[0], rest[i]);
    }
  }

  lemma {:induction false} PlaceOrders(streams: seq<Stream>, p: nat, sorted: seq<nat>)
    requires p < |streams| && Within(sorted, |streams|)
    requires Ordered(Pick(streams, sorted)) && AllDiffer(Pick(streams, sorted)) && OrdersDiffer(streams[p], Pick(streams, sorted))
    ensures Ordered(Pick(streams, Place(streams, p, sorted)))
    ensures AllDiffer(Pick(streams, Place(streams, p, sorted)))
  {
    var values := Pick(streams, sorted);
    if sorted == [] || Before(streams[p], streams[sorted[0]]) {
      assert ([p] + sorted)[1..] == sorted;
      if sorted != [] { BeforeAll(streams[p], values); }
      OrderedFront(streams[p], values);
    } else {
      RestDiffers(streams[p], values);
      PlaceOrders(streams, p, sorted[1..]);
      PlaceLater(streams, p, sorted);
    }
  }

  lemma RestDiffers(s: Stream, values: seq<Stream>)
    requires values != [] && OrdersDiffer(s, values)
    ensures OrdersDiffer(s, values[1..])
  {}

  lemma PlaceLater(streams: seq<Stream>, p: nat, sorted: seq<nat>)
    requires sorted != [] && p < |streams| && Within(sorted, |streams|) && !Before(streams[p], streams[sorted[0]])
    requires Ordered(Pick(streams, sorted)) && AllDiffer(Pick(streams, sorted)) && streams[p].order != streams[sorted[0]].order
    requires Ordered(Pick(streams, Place(streams, p, sorted[1..]))) && AllDiffer(Pick(streams, Place(streams, p, sorted[1..])))
    ensures Ordered(Pick(streams, Place(streams, p, sorted))) && AllDiffer(Pick(streams, Place(streams, p, sorted)))
  {
    var rest, later := Place(streams, p, sorted[1..]), Pick(streams, sorted[1..]);
    var first := streams[sorted[0]];
    BeforeIsTotal(streams[p], first);
    HeadFacts(first, later);
    forall i | 0 <= i < |Pick(streams, rest)|
      ensures Pick(streams, rest)[i].order != first.order && Before(first, Pick(streams, rest)[i])
    {
      PlaceKeeps(streams, p, sorted[1..], Pick(streams, rest)[i]);
    }
    assert ([sorted[0]] + rest)[1..] == rest;
    OrderedFront(first, Pick(streams, rest));
  }

  lemma HeadFacts(first: Stream, later: seq<Stream>)
    requires Ordered([first] + later) && AllDiffer([first] + later)
    ensures OrdersDiffer(first, later) && forall i :: 0 <= i < |later| ==> Before(first, later[i])
  {
    var all := [first] + later;
    assert all[1..] == later;
    forall i | 0 <= i < |later| ensures Before(first, later[i]) { assert all[i + 1] == later[i]; }
  }

  lemma {:induction false} PositionsOrder(streams: seq<Stream>, n: nat)
    requires n <= |streams| && DistinctOrders(streams)
    ensures Ordered(Pick(streams, Positions(streams, n))) && AllDiffer(Pick(streams, Positions(streams, n)))
  {
    if n > 0 {
      PositionsOrder(streams, n - 1);
      var picked := Pick(streams, Positions(streams, n - 1));
      forall i | 0 <= i < |picked| ensures picked[i].order != streams[n - 1].order {
        PositionsKeep(streams, n - 1, picked[i]);
        assert picked[i] in streams[..n - 1];
      }
      PlaceOrders(streams, n - 1, Positions(streams, n - 1));
    }
  }

  ghost predicate SameStreams(a: seq<Stream>, b: seq<Stream>) { forall s :: s in a <==> s in b }

  lemma FirstIsFirst(a: seq<Stream>, b: seq<Stream>)
    requires a != [] && b != [] && SameStreams(a, b) && Ordered(a) && Ordered(b) && AllDiffer(a)
    ensures a[0] == b[0]
  {
    assert a[0] in b && b[0] in a;
    var i :| 0 <= i < |b| && b[i] == a[0];
    var j :| 0 <= j < |a| && a[j] == b[0];
    if i > 0 && j > 0 {
      Asymmetric(a[0], b[0]);
      DifferAt(a, 0, j);
    }
  }

  lemma BothEmpty(a: seq<Stream>, b: seq<Stream>)
    requires SameStreams(a, b)
    ensures a == [] <==> b == []
  {
    if a != [] { assert a[0] in b; }
    if b != [] { assert b[0] in a; }
  }

  lemma RestIsSame(a: seq<Stream>, b: seq<Stream>)
    requires a != [] && b != [] && a[0] == b[0] && SameStreams(a, b) && AllDiffer(a) && AllDiffer(b)
    ensures SameStreams(a[1..], b[1..])
  {
    forall s ensures s in a[1..] <==> s in b[1..] {
      assert a == [a[0]] + a[1..] && b == [b[0]] + b[1..];
      assert s in a <==> s in b;
    }
  }

  /** There is only one way to order the same streams. */
  lemma {:induction false} OrderIsUnique(a: seq<Stream>, b: seq<Stream>)
    requires SameStreams(a, b) && Ordered(a) && Ordered(b) && AllDiffer(a) && AllDiffer(b)
    ensures a == b
    decreases |a|
  {
    BothEmpty(a, b);
    if a != [] {
      FirstIsFirst(a, b);
      RestIsSame(a, b);
      OrderIsUnique(a[1..], b[1..]);
      assert a == [a[0]] + a[1..] && b == [b[0]] + b[1..];
    }
  }

  lemma Asymmetric(a: Stream, b: Stream)
    requires Before(a, b) && Before(b, a)
    ensures a.order == b.order
  {}

  // ---------------------------------------------------------------- what is decided

  function InOrder(streams: seq<Stream>): seq<Stream> { Pick(streams, Positions(streams, |streams|)) }

  function ScopesOf(ordered: seq<Stream>): seq<VoiceScope> {
    seq(|ordered|, i requires 0 <= i < |ordered| => ordered[i].scope)
  }

  function SuppressedOf(ordered: seq<Stream>, silenced: set<string>): seq<bool> {
    seq(|ordered|, i requires 0 <= i < |ordered| => ordered[i].participant in silenced)
  }

  function AdmittedOf(ordered: seq<Stream>, silenced: set<string>, c: Config): seq<bool> {
    Admit(ScopesOf(ordered), SuppressedOf(ordered, silenced), c)
  }

  function SituationOf(ordered: seq<Stream>, admitted: seq<bool>): Situation
    requires |ordered| == |admitted|
  {
    Situation(InScope(ScopesOf(ordered), admitted, Group) != 0, InScope(ScopesOf(ordered), admitted, Specialization) != 0)
  }

  /** A stream with what is decided for it. */
  function DecidedAt(ordered: seq<Stream>, silenced: set<string>, volumes: map<string, real>, c: Config, k: nat): Stream
    requires k < |ordered|
  {
    var admitted := AdmittedOf(ordered, silenced, c);
    ordered[k].(admitted := admitted[k], gain := GainOf(c, volumes, SituationOf(ordered, admitted), ordered[k], admitted[k]))
  }

  /** The decisions depend on which streams there are, not on how they are stored. */
  lemma DecisionsIgnoreStorage(a: seq<Stream>, b: seq<Stream>)
    requires multiset(a) == multiset(b) && DistinctOrders(a) && DistinctOrders(b)
    ensures InOrder(a) == InOrder(b)
  {
    assert a[..|a|] == a && b[..|b|] == b;
    forall s ensures s in InOrder(a) <==> s in InOrder(b) {
      PositionsKeep(a, |a|, s);
      PositionsKeep(b, |b|, s);
      assert s in a <==> s in multiset(a);
      assert s in b <==> s in multiset(b);
    }
    PositionsOrder(a, |a|);
    PositionsOrder(b, |b|);
    OrderIsUnique(InOrder(a), InOrder(b));
  }

  /** The decisions are stored with each stream, wherever it is stored. */
  ghost predicate Decides(before: seq<Stream>, after: seq<Stream>, silenced: set<string>, volumes: map<string, real>, c: Config) {
    var ordered, positions := InOrder(before), Positions(before, |before|);
    && |after| == |before| == |ordered|
    && forall k :: 0 <= k < |positions| ==> after[positions[k]] == DecidedAt(ordered, silenced, volumes, c, k)
  }

  class Engine {
    var streams: seq<Stream>
    var config: Config
    var muted: set<string>
    var blocked: set<string>
    var volumes: map<string, real>
    var nextOrder: nat

    constructor ()
      ensures Valid() && streams == [] && config == Config(8, 5, 4, 2, 0.5, 0.25, 0.5)
    {
      streams, muted, blocked, volumes, nextOrder := [], {}, {}, map[], 0;
      config := Config(8, 5, 4, 2, 0.5, 0.25, 0.5);
    }

    ghost predicate Valid()
      reads this
    {
      ValidConfig(config) && ValidVolumes(volumes) && WellStored(streams, nextOrder) && Settled()
    }

    /** What is stored with the streams is what would be decided now. */
    ghost predicate Settled()
      reads this
    {
      Decides(streams, streams, muted + blocked, volumes, config)
    }

    /** Sorts, admits and sets volumes, updating the stored streams; the changes come in priority order. */
    method Recompute() returns (changes: seq<Change>)
      requires DistinctOrders(streams)
      modifies this`streams
      ensures Decides(old(streams), streams, muted + blocked, volumes, config)
      ensures |changes| == |streams|
      ensures forall k :: 0 <= k < |changes| ==>
        changes[k] == ChangeFor(DecidedAt(InOrder(old(streams)), muted + blocked, volumes, config, k))
      ensures forall k :: 0 <= k < |changes| ==> Reports(changes[k], streams)
    {
      var positions := Positions(streams, |streams|);
      var ordered := Pick(streams, positions);
      PickLength(streams, positions);
      var admitted, now := AdmitAll(ordered);
      changes := Store(positions, ordered, admitted, now);
      forall k | 0 <= k < |changes| ensures Reports(changes[k], streams) { assert ReportsAt(changes[k], streams, positions[k]); }
    }

    method AudioAvailable(scope: VoiceScope, participant: string) returns (taken: bool, changes: seq<Change>)
      requires Valid()
      modifies this
      ensures Valid() && (config, muted, blocked, volumes) == (old(config), old(muted), old(blocked), old(volumes))
      ensures taken <==> participant != "" && forall s <- old(streams) :: s.scope != scope || s.participant != participant
      ensures if taken
        then Decides(old(streams) + [Stream(scope, participant, old(nextOrder), false, 0.0)], streams, muted + blocked, volumes, config)
        else streams == old(streams) && changes == []
    {
      if participant == "" || IsAvailable(streams, scope, participant) { return false, []; }
      JoiningKeeps(streams, Stream(scope, participant, nextOrder, false, 0.0));
      streams := streams + [Stream(scope, participant, nextOrder, false, 0.0)];
      nextOrder := nextOrder + 1;
      ghost var stored := streams;
      changes := Recompute();
      DecidesKeepsOrders(stored, streams, muted + blocked, volumes, config, nextOrder);
      return true, changes;
    }

    /** The stream goes; everybody else who was admitted stays admitted. */
    method AudioUnavailable(scope: VoiceScope, participant: string) returns (changes: seq<Change>)
      requires Valid()
      modifies this
      ensures Valid() && (config, muted, blocked, volumes) == (old(config), old(muted), old(blocked), old(volumes))
      ensures Decides(Without(old(streams), scope, participant), streams, muted + blocked, volumes, config)
      ensures StayAdmitted(Without(old(streams), scope, participant), streams)
    {
      WithoutKeeps(streams, scope, participant, nextOrder);
      streams := Without(streams, scope, participant);
      ghost var stored := streams;
      changes := Recompute();
      DecidesKeepsOrders(stored, streams, muted + blocked, volumes, config, nextOrder);
      WithoutKeepsStreams(old(streams), scope, participant, streams, muted + blocked, volumes, config);
    }

    method SetMuted(participant: string, mute: bool) returns (taken: bool, changes: seq<Change>)
      requires Valid()
      modifies this
      ensures Valid() && taken == (participant != "") && (config, blocked, volumes) == (old(config), old(blocked), old(volumes))
      ensures if taken
        then muted == (if mute then old(muted) + {participant} else old(muted) - {participant})
          && Decides(old(streams), streams, muted + blocked, volumes, config)
        else muted == old(muted) && streams == old(streams)
      ensures mute ==> |streams| == |old(streams)| && forall p :: 0 <= p < |streams| ==>
        old(streams)[p].admitted && old(streams)[p].participant != participant ==> streams[p].admitted
    {
      if participant == "" { return false, []; }
      muted := if mute then muted + {participant} else muted - {participant};
      changes := Recompute();
      DecidesKeepsOrders(old(streams), streams, muted + blocked, volumes, config, nextOrder);
      if mute {
        assert muted + blocked == old(muted) + old(blocked) + {participant};
        SilencingKeepsStreams(old(streams), streams, old(muted) + old(blocked), {participant}, volumes, config);
      }
      return true, changes;
    }

    method SetBlocked(participant: string, block: bool) returns (taken: bool, changes: seq<Change>)
      requires Valid()
      modifies this
      ensures Valid() && taken == (participant != "") && (config, muted, volumes) == (old(config), old(muted), old(volumes))
      ensures if taken
        then blocked == (if block then old(blocked) + {participant} else old(blocked) - {participant})
          && Decides(old(streams), streams, muted + blocked, volumes, config)
        else blocked == old(blocked) && streams == old(streams)
      ensures block ==> |streams| == |old(streams)| && forall p :: 0 <= p < |streams| ==>
        old(streams)[p].admitted && old(streams)[p].participant != participant ==> streams[p].admitted
    {
      if participant == "" { return false, []; }
      blocked := if block then blocked + {participant} else blocked - {participant};
      changes := Recompute();
      DecidesKeepsOrders(old(streams), streams, muted + blocked, volumes, config, nextOrder);
      if block {
        assert muted + blocked == old(muted) + old(blocked) + {participant};
        SilencingKeepsStreams(old(streams), streams, old(muted) + old(blocked), {participant}, volumes, config);
      }
      return true, changes;
    }

    method SetVolume(participant: string, volume: real) returns (taken: bool, changes: seq<Change>)
      requires Valid()
      modifies this
      ensures Valid() && taken == (participant != "" && IsGain(volume))
      ensures (config, muted, blocked) == (old(config), old(muted), old(blocked))
      ensures if taken
        then volumes == (if volume == 1.0 then old(volumes) - {participant} else old(volumes)[participant := volume])
          && VolumeOf(volumes, participant) == volume && Decides(old(streams), streams, muted + blocked, volumes, config)
        else volumes == old(volumes) && streams == old(streams)
    {
      if participant == "" || !IsGain(volume) { return false, []; }
      volumes := if volume == 1.0 then volumes - {participant} else volumes[participant := volume];
      changes := Recompute();
      DecidesKeepsOrders(old(streams), streams, muted + blocked, volumes, config, nextOrder);
      return true, changes;
    }

    method SetConfig(c: Config) returns (taken: bool, changes: seq<Change>)
      requires Valid()
      modifies this
      ensures Valid() && taken == ValidConfig(c) && (muted, blocked, volumes) == (old(muted), old(blocked), old(volumes))
      ensures if taken then config == c && Decides(old(streams), streams, muted + blocked, volumes, config)
        else config == old(config) && streams == old(streams)
    {
      if !ValidConfig(c) { return false, []; }
      config := c;
      changes := Recompute();
      DecidesKeepsOrders(old(streams), streams, muted + blocked, volumes, config, nextOrder);
      return true, changes;
    }

    /** Leaving the connected state forgets every remote stream. */
    method Disconnected()
      requires Valid()
      modifies this`streams
      ensures Valid() && streams == []
    {
      streams := [];
    }

    method AdmitAll(ordered: seq<Stream>) returns (admitted: seq<bool>, now: Situation)
      ensures admitted == AdmittedOf(ordered, muted + blocked, config) && now == SituationOf(ordered, admitted)
    {
      ghost var scopes, suppressed := ScopesOf(ordered), SuppressedOf(ordered, muted + blocked);
      admitted := [];
      var counts: map<VoiceScope, nat> := map[Team := 0, Specialization := 0, Group := 0];
      var total := 0;
      forall scope: VoiceScope ensures scope in counts && counts[scope] == 0 {
        match scope case Team => case Specialization => case Group =>
      }
      for k := 0 to |ordered|
        invariant admitted == Admit(scopes[..k], suppressed[..k], config)
        invariant Counted(scopes[..k], admitted, counts, total)
      {
        var scope := ordered[k].scope;
        var silent := ordered[k].participant in muted || ordered[k].participant in blocked;
        var mark := !silent && counts[scope] < MaximumOf(config, scope) && total < config.maximum;
        PrefixStep(ordered, muted + blocked, k, config);
        CountedMore(scopes[..k], admitted, counts, total, scope, mark);
        admitted := admitted + [mark];
        counts := counts[scope := counts[scope] + if mark then 1 else 0];
        total := total + if mark then 1 else 0;
      }
      WholePrefix(ordered, muted + blocked);
      now := Situation(counts[Group] != 0, counts[Specialization] != 0);
    }

    method Store(positions: seq<nat>, ordered: seq<Stream>, admitted: seq<bool>, now: Situation) returns (changes: seq<Change>)
      requires DistinctOrders(streams) && positions == Positions(streams, |streams|) && ordered == Pick(streams, positions) && |ordered| == |streams|
      requires admitted == AdmittedOf(ordered, muted + blocked, config) && now == SituationOf(ordered, admitted)
      modifies this`streams
      ensures |streams| == old(|streams|) == |changes|
      ensures forall k :: 0 <= k < |ordered| ==> streams[positions[k]] == DecidedAt(ordered, muted + blocked, volumes, config, k)
      ensures forall k :: 0 <= k < |ordered| ==> changes[k] == ChangeFor(DecidedAt(ordered, muted + blocked, volumes, config, k))
    {
      ghost var before := streams;
      changes := [];
      for k := 0 to |positions|
        invariant |streams| == |before| && |changes| == k
        invariant forall i :: 0 <= i < k ==> streams[positions[i]] == DecidedAt(ordered, muted + blocked, volumes, config, i)
        invariant forall i :: 0 <= i < k ==> changes[i] == ChangeFor(DecidedAt(ordered, muted + blocked, volumes, config, i))
        invariant forall i :: k <= i < |positions| ==> streams[positions[i]] == before[positions[i]]
      {
        forall i | 0 <= i < |positions| && i != k ensures positions[i] != positions[k] {
          PositionsDiffer(before, if i < k then i else k, if i < k then k else i);
        }
        PickIndex(before, positions, k);
        var stream := streams[positions[k]];
        var decided := stream.(admitted := admitted[k], gain := GainOf(config, volumes, now, stream, admitted[k]));
        streams := streams[positions[k] := decided];
        changes := changes + [ChangeFor(decided)];
      }
    }
  }

  /** A participant has at most one stream at a scope. */
  ghost predicate OneEach(streams: seq<Stream>) {
    forall i, j :: 0 <= i < j < |streams| ==> streams[i].scope != streams[j].scope || streams[i].participant != streams[j].participant
  }

  /** Streams as they are stored: arrival numbers are handed out once, and streams are distinct. */
  ghost predicate WellStored(streams: seq<Stream>, next: nat) {
    DistinctOrders(streams) && OneEach(streams) && forall i :: 0 <= i < |streams| ==> streams[i].order < next
  }

  lemma JoiningKeeps(streams: seq<Stream>, s: Stream)
    requires WellStored(streams, s.order) && !IsAvailable(streams, s.scope, s.participant)
    ensures WellStored(streams + [s], s.order + 1)
  {
    assert forall i :: 0 <= i < |streams| ==> streams[i] in streams;
  }

  predicate IsAvailable(streams: seq<Stream>, scope: VoiceScope, participant: string) {
    exists s <- streams :: s.scope == scope && s.participant == participant
  }

  function Without(streams: seq<Stream>, scope: VoiceScope, participant: string): seq<Stream> {
    if streams == [] then []
    else if streams[0].scope == scope && streams[0].participant == participant then Without(streams[1..], scope, participant)
    else [streams[0]] + Without(streams[1..], scope, participant)
  }

  lemma {:induction false} WithoutHas(streams: seq<Stream>, scope: VoiceScope, participant: string, s: Stream)
    ensures s in Without(streams, scope, participant) <==> s in streams && !(s.scope == scope && s.participant == participant)
  {
    if streams != [] {
      WithoutHas(streams[1..], scope, participant, s);
      assert streams == [streams[0]] + streams[1..];
    }
  }

  lemma {:induction false} WithoutKeeps(streams: seq<Stream>, scope: VoiceScope, participant: string, next: nat)
    requires WellStored(streams, next)
    ensures WellStored(Without(streams, scope, participant), next)
  {
    if streams != [] {
      var rest := Without(streams[1..], scope, participant);
      WithoutKeeps(streams[1..], scope, participant, next);
      forall i | 0 <= i < |rest| ensures DiffersFrom(streams[0], rest[i]) {
        WithoutHas(streams[1..], scope, participant, rest[i]);
        assert rest[i] in rest;
        var k :| 0 <= k < |streams[1..]| && streams[1..][k] == rest[i];
        assert streams[k + 1] == rest[i];
      }
      FrontKeeps(streams[0], rest, next);
    }
  }

  predicate DiffersFrom(a: Stream, b: Stream) { a.order != b.order && (a.scope != b.scope || a.participant != b.participant) }

  lemma FrontKeeps(first: Stream, rest: seq<Stream>, next: nat)
    requires WellStored(rest, next) && first.order < next && forall i :: 0 <= i < |rest| ==> DiffersFrom(first, rest[i])
    ensures WellStored([first] + rest, next)
  {}

  /** One stream goes at most, and nobody else is evicted by that. */
  lemma WithoutKeepsStreams(streams: seq<Stream>, scope: VoiceScope, participant: string, after: seq<Stream>,
                            silenced: set<string>, volumes: map<string, real>, c: Config)
    requires Decides(streams, streams, silenced, volumes, c) && DistinctOrders(streams) && OneEach(streams)
    requires Decides(Without(streams, scope, participant), after, silenced, volumes, c)
    requires DistinctOrders(Without(streams, scope, participant))
    ensures StayAdmitted(Without(streams, scope, participant), after)
  {
    if i :| 0 <= i < |streams| && streams[i].scope == scope && streams[i].participant == participant {
      var j := SettledAt(streams, streams[i], silenced, volumes, c);
      JustOneGoes(streams, scope, participant, i);
      RemovalKeepsStreams(streams, Without(streams, scope, participant), after, j, silenced, volumes, c);
    } else {
      NothingRemoved(streams, scope, participant);
      assert silenced + {} == silenced;
      SilencingKeepsStreams(streams, after, silenced, {}, volumes, c);
      AllStay(streams, after, silenced, volumes, c);
    }
  }

  lemma JustOneGoes(streams: seq<Stream>, scope: VoiceScope, participant: string, i: nat)
    requires OneEach(streams) && i < |streams| && streams[i].scope == scope && streams[i].participant == participant
    ensures forall s :: s in Without(streams, scope, participant) <==> s in streams && s != streams[i]
  {
    forall s: Stream ensures s in Without(streams, scope, participant) <==> s in streams && s != streams[i] {
      WithoutHas(streams, scope, participant, s);
      if s in streams && s.scope == scope && s.participant == participant {
        var k :| 0 <= k < |streams| && streams[k] == s;
        assert k == i;
      }
    }
  }

  /** Whoever is admitted among these streams is still admitted afterwards. */
  ghost predicate StayAdmitted(streams: seq<Stream>, after: seq<Stream>) {
    forall s :: s in streams && s.admitted ==> IsAdmitted(after, s.order)
  }

  ghost predicate IsAdmitted(streams: seq<Stream>, order: nat) { exists t :: t in streams && t.order == order && t.admitted }

  lemma {:induction false} NothingRemoved(streams: seq<Stream>, scope: VoiceScope, participant: string)
    requires forall i :: 0 <= i < |streams| ==> !(streams[i].scope == scope && streams[i].participant == participant)
    ensures Without(streams, scope, participant) == streams
  {
    if streams != [] { NothingRemoved(streams[1..], scope, participant); }
  }

  lemma AllStay(streams: seq<Stream>, after: seq<Stream>, silenced: set<string>, volumes: map<string, real>, c: Config)
    requires Decides(streams, after, silenced, volumes, c) && |after| == |streams|
    requires forall p :: 0 <= p < |streams| && streams[p].admitted ==> after[p].admitted
    ensures StayAdmitted(streams, after)
  {
    DecidedIsSettled(streams, after, silenced, volumes, c);
    forall s | s in streams && s.admitted ensures IsAdmitted(after, s.order) {
      var p :| 0 <= p < |streams| && streams[p] == s;
      assert SameStream(streams[p], after[p]);
      assert after[p] in after;
    }
  }

  /** Every stored position is one of the sorted ones. */
  lemma {:induction false} PositionIsThere(streams: seq<Stream>, n: nat, p: nat)
    requires p < n <= |streams|
    ensures exists k :: 0 <= k < n && Positions(streams, n)[k] == p
  {
    if p < n - 1 {
      PositionIsThere(streams, n - 1, p);
      var k :| 0 <= k < n - 1 && Positions(streams, n - 1)[k] == p;
    }
    PlaceHas(streams, n - 1, Positions(streams, n - 1), p);
    var k :| 0 <= k < n && Place(streams, n - 1, Positions(streams, n - 1))[k] == p;
    assert Positions(streams, n)[k] == p;
  }

  lemma {:induction false} PlaceHas(streams: seq<Stream>, q: nat, sorted: seq<nat>, p: nat)
    requires q < |streams| && Within(sorted, |streams|) && (p == q || exists k :: 0 <= k < |sorted| && sorted[k] == p)
    ensures exists k :: 0 <= k < |sorted| + 1 && Place(streams, q, sorted)[k] == p
  {
    var placed := Place(streams, q, sorted);
    if sorted == [] || Before(streams[q], streams[sorted[0]]) {
      assert placed[0] == q;
      if p != q {
        var k :| 0 <= k < |sorted| && sorted[k] == p;
        assert placed[k + 1] == p;
      }
    } else if sorted[0] == p {
      assert placed[0] == p;
    } else {
      if p != q {
        var k :| 0 <= k < |sorted| && sorted[k] == p;
        assert sorted[1..][k - 1] == p;
      }
      PlaceHas(streams, q, sorted[1..], p);
      var k :| 0 <= k < |sorted| && Place(streams, q, sorted[1..])[k] == p;
      assert placed[k + 1] == p;
    }
  }

  /** Two streams that differ at most in what is decided for them. */
  predicate SameStream(a: Stream, b: Stream) { a.scope == b.scope && a.participant == b.participant && a.order == b.order }

  predicate AllSame(a: seq<Stream>, b: seq<Stream>) { |a| == |b| && forall i :: 0 <= i < |a| ==> SameStream(a[i], b[i]) }

  lemma {:induction false} SamePlace(a: seq<Stream>, b: seq<Stream>, p: nat, sorted: seq<nat>)
    requires AllSame(a, b) && p < |a| && Within(sorted, |a|)
    ensures Place(a, p, sorted) == Place(b, p, sorted)
  {
    if sorted != [] && !Before(a[p], a[sorted[0]]) { SamePlace(a, b, p, sorted[1..]); }
  }

  lemma {:induction false} SamePositions(a: seq<Stream>, b: seq<Stream>, n: nat)
    requires AllSame(a, b) && n <= |a|
    ensures Positions(a, n) == Positions(b, n)
  {
    if n > 0 {
      SamePositions(a, b, n - 1);
      SamePlace(a, b, n - 1, Positions(a, n - 1));
    }
  }

  lemma SameOrder(a: seq<Stream>, b: seq<Stream>)
    requires AllSame(a, b)
    ensures AllSame(InOrder(a), InOrder(b)) && ScopesOf(InOrder(a)) == ScopesOf(InOrder(b))
  {
    var positions := Positions(a, |a|);
    SamePositions(a, b, |a|);
    PickLength(a, positions);
    PickLength(b, positions);
    forall i | 0 <= i < |positions| ensures SameStream(InOrder(a)[i], InOrder(b)[i]) {
      PickIndex(a, positions, i);
      PickIndex(b, positions, i);
    }
  }

  /** Same streams get the same decisions. */
  lemma SameDecisions(ordered: seq<Stream>, again: seq<Stream>, silenced: set<string>, volumes: map<string, real>, c: Config, k: nat)
    requires AllSame(ordered, again) && ScopesOf(ordered) == ScopesOf(again) && k < |ordered|
    ensures DecidedAt(ordered, silenced, volumes, c, k) == DecidedAt(again, silenced, volumes, c, k)
  {
    assert SuppressedOf(ordered, silenced) == SuppressedOf(again, silenced);
  }

  /** Deciding again what has just been decided changes nothing. */
  lemma DecidedIsSettled(before: seq<Stream>, after: seq<Stream>, silenced: set<string>, volumes: map<string, real>, c: Config)
    requires Decides(before, after, silenced, volumes, c)
    ensures AllSame(before, after) && Decides(after, after, silenced, volumes, c)
  {
    forall p | 0 <= p < |before| ensures SameStream(before[p], after[p]) {
      PositionIsThere(before, |before|, p);
      var k :| 0 <= k < |before| && Positions(before, |before|)[k] == p;
      PickIndex(before, Positions(before, |before|), k);
    }
    SamePositions(before, after, |before|);
    SameOrder(before, after);
    forall k | 0 <= k < |before| ensures after[Positions(after, |after|)[k]] == DecidedAt(InOrder(after), silenced, volumes, c, k) {
      SameDecisions(InOrder(before), InOrder(after), silenced, volumes, c, k);
    }
  }

  /** Decisions change nothing about which streams are stored where. */
  lemma DecidesKeepsOrders(before: seq<Stream>, after: seq<Stream>, silenced: set<string>, volumes: map<string, real>, c: Config, next: nat)
    requires Decides(before, after, silenced, volumes, c) && WellStored(before, next)
    ensures WellStored(after, next) && Decides(after, after, silenced, volumes, c)
  {
    DecidedIsSettled(before, after, silenced, volumes, c);
    SameAreWellStored(before, after, next);
  }

  lemma SameAreWellStored(before: seq<Stream>, after: seq<Stream>, next: nat)
    requires AllSame(before, after) && WellStored(before, next)
    ensures WellStored(after, next)
  {
    assert forall i :: 0 <= i < |after| ==> SameStream(before[i], after[i]);
  }

  // ---------------------------------------------------------------- one stream more or less

  /** Silencing participants, with all their streams, evicts nobody else and newly admits at most as many streams as it puts out. */
  lemma SilencingEvictsNobody(ordered: seq<Stream>, silenced: set<string>, more: set<string>, c: Config)
    ensures var before := AdmittedOf(ordered, silenced, c); var after := AdmittedOf(ordered, silenced + more, c);
      && (forall i :: 0 <= i < |ordered| && before[i] && ordered[i].participant !in more ==> after[i])
      && Total(New(before, after)) <= Total(New(after, before))
  {
    var less, also := SuppressedOf(ordered, silenced), SuppressedOf(ordered, silenced + more);
    SuppressionsEvictNobody(ScopesOf(ordered), less, also, c);
    AdmitIsFeasible(ScopesOf(ordered), less, c);
  }

  /** In the storage: whoever was admitted and is not silenced stays admitted. */
  lemma SilencingKeepsStreams(before: seq<Stream>, after: seq<Stream>, silenced: set<string>, more: set<string>,
                              volumes: map<string, real>, c: Config)
    requires Decides(before, before, silenced, volumes, c) && Decides(before, after, silenced + more, volumes, c)
    ensures |after| == |before|
    ensures forall p :: 0 <= p < |before| && before[p].admitted && before[p].participant !in more ==> after[p].admitted
  {
    var ordered := InOrder(before);
    SilencingEvictsNobody(ordered, silenced, more, c);
    forall p | 0 <= p < |before| && before[p].admitted && before[p].participant !in more ensures after[p].admitted {
      PositionIsThere(before, |before|, p);
      var k :| 0 <= k < |before| && Positions(before, |before|)[k] == p;
      PickIndex(before, Positions(before, |before|), k);
    }
  }

  /** In the storage: whoever was admitted and is not removed stays admitted. */
  lemma RemovalKeepsStreams(streams: seq<Stream>, fewer: seq<Stream>, after: seq<Stream>, j: nat, silenced: set<string>,
                            volumes: map<string, real>, c: Config)
    requires Decides(streams, streams, silenced, volumes, c) && Decides(fewer, after, silenced, volumes, c)
    requires DistinctOrders(streams) && DistinctOrders(fewer) && j < |InOrder(streams)|
    requires forall s :: s in fewer <==> s in streams && s != InOrder(streams)[j]
    ensures StayAdmitted(fewer, after)
  {
    var ordered, admitted := InOrder(streams), AdmittedOf(InOrder(streams), silenced, c);
    PickLength(streams, Positions(streams, |streams|));
    RemovalKeepsOrder(streams, fewer, j);
    RemovalEvictsNobody(ordered, silenced, c, j);
    var kept: seq<bool> :| |kept| == |ordered| && AdmittedOf(Drop(ordered, j), silenced, c) == Drop(kept, j)
      && (forall i :: 0 <= i < |ordered| && i != j && admitted[i] ==> kept[i]);
    forall s | s in fewer && s.admitted ensures IsAdmitted(after, s.order) {
      var i := SettledAt(streams, s, silenced, volumes, c);
      assert ordered[i] != ordered[j];
      StaysAdmitted(fewer, after, ordered, kept, i, j, silenced, volumes, c);
    }
  }

  /** A settled stream is admitted as decided. */
  lemma SettledAt(streams: seq<Stream>, s: Stream, silenced: set<string>, volumes: map<string, real>, c: Config) returns (i: nat)
    requires Decides(streams, streams, silenced, volumes, c) && s in streams
    ensures i < |InOrder(streams)| && InOrder(streams)[i] == s && AdmittedOf(InOrder(streams), silenced, c)[i] == s.admitted
  {
    var p :| 0 <= p < |streams| && streams[p] == s;
    PositionIsThere(streams, |streams|, p);
    i :| 0 <= i < |streams| && Positions(streams, |streams|)[i] == p;
    PickIndex(streams, Positions(streams, |streams|), i);
  }

  lemma StaysAdmitted(fewer: seq<Stream>, after: seq<Stream>, ordered: seq<Stream>, kept: seq<bool>, i: nat, j: nat,
                      silenced: set<string>, volumes: map<string, real>, c: Config)
    requires Decides(fewer, after, silenced, volumes, c) && i < |ordered| && j < |ordered| && i != j
    requires InOrder(fewer) == Drop(ordered, j) && |kept| == |ordered| && kept[i]
    requires AdmittedOf(Drop(ordered, j), silenced, c) == Drop(kept, j)
    ensures IsAdmitted(after, ordered[i].order)
  {
    var k := if i < j then i else i - 1;
    assert Drop(ordered, j)[k] == ordered[i] && Drop(kept, j)[k] == kept[i];
    var p := Positions(fewer, |fewer|)[k];
    assert after[p] == DecidedAt(InOrder(fewer), silenced, volumes, c, k);
    assert after[p] in after;
  }

  /** Removing one stream decides for the others as if it had been silenced: nobody is evicted, at most one is admitted. */
  lemma RemovalEvictsNobody(ordered: seq<Stream>, silenced: set<string>, c: Config, j: nat)
    requires j < |ordered|
    ensures var before := AdmittedOf(ordered, silenced, c); var after := AdmittedOf(Drop(ordered, j), silenced, c);
      exists kept: seq<bool> :: |kept| == |ordered| && after == Drop(kept, j)
        && (forall i :: 0 <= i < |ordered| && i != j && before[i] ==> kept[i]) && Total(New(before, kept)) <= 1
  {
    var scopes, suppressed := ScopesOf(ordered), SuppressedOf(ordered, silenced);
    assert ScopesOf(Drop(ordered, j)) == Drop(scopes, j) && SuppressedOf(Drop(ordered, j), silenced) == Drop(suppressed, j);
    RemovalIsSuppression(scopes, suppressed, c, j);
    SuppressionEvictsNobody(scopes, suppressed, c, j);
  }

  /** Taking one stream out of the storage takes just that one out of the priority order. */
  lemma RemovalKeepsOrder(streams: seq<Stream>, fewer: seq<Stream>, j: nat)
    requires DistinctOrders(streams) && DistinctOrders(fewer) && j < |InOrder(streams)|
    requires forall s :: s in fewer <==> s in streams && s != InOrder(streams)[j]
    ensures InOrder(fewer) == Drop(InOrder(streams), j)
  {
    var ordered := InOrder(streams);
    PositionsOrder(streams, |streams|);
    PositionsOrder(fewer, |fewer|);
    DropOrders(ordered, j);
    assert streams[..|streams|] == streams && fewer[..|fewer|] == fewer;
    forall s ensures s in InOrder(fewer) <==> s in Drop(ordered, j) {
      PositionsKeep(streams, |streams|, s);
      PositionsKeep(fewer, |fewer|, s);
      DropHas(ordered, j, s);
    }
    OrderIsUnique(InOrder(fewer), Drop(ordered, j));
  }

  lemma {:induction false} DropOrders(ordered: seq<Stream>, j: nat)
    requires j < |ordered| && Ordered(ordered) && AllDiffer(ordered)
    ensures Ordered(Drop(ordered, j)) && AllDiffer(Drop(ordered, j))
  {
    if j == 0 {
      assert Drop(ordered, 0) == ordered[1..];
    } else {
      DropOrders(ordered[1..], j - 1);
      var rest := Drop(ordered[1..], j - 1);
      assert Drop(ordered, j) == [ordered[0]] + rest;
      forall i | 0 <= i < |rest| ensures Before(ordered[0], rest[i]) && rest[i].order != ordered[0].order {
        assert rest[i] == ordered[if i < j - 1 then i + 1 else i + 2];
        assert rest[i] == ordered[1..][if i < j - 1 then i else i + 1];
      }
      OrderedFront(ordered[0], rest);
    }
  }

  lemma DropHas(ordered: seq<Stream>, j: nat, s: Stream)
    requires j < |ordered| && AllDiffer(ordered)
    ensures s in Drop(ordered, j) <==> s in ordered && s != ordered[j]
  {
    if s in Drop(ordered, j) { DroppedWasThere(ordered, j, s); }
    if s in ordered && s != ordered[j] { OthersRemain(ordered, j, s); }
  }

  lemma DroppedWasThere(ordered: seq<Stream>, j: nat, s: Stream)
    requires j < |ordered| && AllDiffer(ordered) && s in Drop(ordered, j)
    ensures s in ordered && s != ordered[j]
  {
    if s in ordered[..j] {
      var i :| 0 <= i < j && ordered[i] == s;
      DifferAt(ordered, i, j);
    } else {
      assert s in ordered[j + 1..];
      var i :| j < i < |ordered| && ordered[i] == s;
      DifferAt(ordered, j, i);
    }
  }

  lemma OthersRemain(ordered: seq<Stream>, j: nat, s: Stream)
    requires j < |ordered| && s in ordered && s != ordered[j]
    ensures s in Drop(ordered, j)
  {
    var k :| 0 <= k < |ordered| && ordered[k] == s;
    assert k < j ==> ordered[..j][k] == s;
    assert k > j ==> ordered[j + 1..][k - j - 1] == s;
  }

  /** The counters stand for what has been admitted. */
  ghost predicate Counted(scopes: seq<VoiceScope>, admitted: seq<bool>, counts: map<VoiceScope, nat>, total: nat) {
    && |scopes| == |admitted| && total == Total(admitted)
    && forall scope: VoiceScope :: scope in counts && counts[scope] == InScope(scopes, admitted, scope)
  }

  lemma CountedMore(scopes: seq<VoiceScope>, admitted: seq<bool>, counts: map<VoiceScope, nat>, total: nat,
                    scope: VoiceScope, mark: bool)
    requires Counted(scopes, admitted, counts, total)
    ensures scope in counts && Counted(scopes + [scope], admitted + [mark],
      counts[scope := counts[scope] + if mark then 1 else 0], total + if mark then 1 else 0)
  {
    Extended(scopes, admitted, scope, mark);
  }

  /** A change tells what is stored with one of the streams. */
  ghost predicate Reports(change: Change, streams: seq<Stream>) { exists p :: ReportsAt(change, streams, p) }

  predicate ReportsAt(change: Change, streams: seq<Stream>, p: int) {
    && 0 <= p < |streams|
    && change.scope == streams[p].scope && change.participant == streams[p].participant
    && change.admitted == streams[p].admitted && change.gain == streams[p].gain
  }

  function ChangeFor(s: Stream): Change { Change(s.scope, s.participant, s.admitted, s.gain) }

  lemma PickLength(streams: seq<Stream>, positions: seq<nat>)
    requires Within(positions, |streams|)
    ensures |Pick(streams, positions)| == |positions|
  {
    if positions != [] { PickIndex(streams, positions, 0); }
  }

  lemma PrefixStep(ordered: seq<Stream>, silenced: set<string>, k: nat, c: Config)
    requires k < |ordered|
    ensures var scopes := ScopesOf(ordered); var suppressed := SuppressedOf(ordered, silenced);
      && scopes[..k + 1] == scopes[..k] + [ordered[k].scope]
      && Admit(scopes[..k + 1], suppressed[..k + 1], c) == Admit(scopes[..k], suppressed[..k], c)
        + [ordered[k].participant !in silenced && Fits(scopes[..k], Admit(scopes[..k], suppressed[..k], c), ordered[k].scope, c)]
  {
    var scopes, suppressed := ScopesOf(ordered), SuppressedOf(ordered, silenced);
    assert suppressed[..k + 1] == suppressed[..k] + [ordered[k].participant in silenced];
    AdmitAppend(scopes[..k], suppressed[..k], ordered[k].scope, ordered[k].participant in silenced, c);
  }

  lemma WholePrefix(ordered: seq<Stream>, silenced: set<string>)
    ensures ScopesOf(ordered)[..|ordered|] == ScopesOf(ordered)
    ensures SuppressedOf(ordered, silenced)[..|ordered|] == SuppressedOf(ordered, silenced)
  {}
}
