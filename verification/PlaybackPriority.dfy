/**
 * What the playback engine's decisions mean for the stored streams, scope by scope: who may be left out, and how loud the
 * others are.
 */
module PlaybackPriority {
  import opened Basics
  import opened Playback
  import opened PlaybackEngine

  // ---------------------------------------------------------------- the statement

  /** The stored positions whose streams of this scope are admitted. */
  function Heard(streams: seq<Stream>, scope: VoiceScope): set<int> {
    set p | 0 <= p < |streams| && streams[p].admitted && streams[p].scope == scope
  }

  /** No limit is exceeded, and no silenced participant is heard. */
  ghost predicate WithinLimits(streams: seq<Stream>, silenced: set<string>, c: Config) {
    && |Heard(streams, Group)| <= c.maximumGroup
    && |Heard(streams, Specialization)| <= c.maximumSpecialization
    && |Heard(streams, Team)| <= c.maximumTeam
    && |Heard(streams, Group)| + |Heard(streams, Specialization)| + |Heard(streams, Team)| <= c.maximum
    && forall p :: 0 <= p < |streams| && streams[p].participant in silenced ==> !streams[p].admitted
  }

  /** The places this scope may take are taken: all of its own, or all there are, by it and the scopes above it. */
  predicate Full(streams: seq<Stream>, scope: VoiceScope, c: Config) {
    match scope
    case Group => |Heard(streams, Group)| == c.maximumGroup || |Heard(streams, Group)| == c.maximum
    case Specialization =>
      || |Heard(streams, Specialization)| == c.maximumSpecialization
      || |Heard(streams, Group)| + |Heard(streams, Specialization)| == c.maximum
    case Team =>
      || |Heard(streams, Team)| == c.maximumTeam
      || |Heard(streams, Group)| + |Heard(streams, Specialization)| + |Heard(streams, Team)| == c.maximum
  }

  /** Nobody is left out who is not silenced, unless the scope is full; and then no later arrival is preferred. */
  ghost predicate Prioritized(streams: seq<Stream>, silenced: set<string>, c: Config) {
    forall p :: 0 <= p < |streams| && streams[p].participant !in silenced && !streams[p].admitted ==>
      && Full(streams, streams[p].scope, c)
      && forall q :: 0 <= q < |streams| && streams[q].scope == streams[p].scope && streams[q].order > streams[p].order ==> !streams[q].admitted
  }

  /** Who is left out is silent; a group stream has its volume, and lower ones are ducked under the higher scopes that are heard. */
  predicate Loudness(streams: seq<Stream>, volumes: map<string, real>, c: Config, s: Stream) {
    var volume := if s.participant in volumes then volumes[s.participant] else 1.0;
    s.gain ==
      if !s.admitted then 0.0
      else if s.scope == Group then volume
      else if s.scope == Specialization then volume * (if Heard(streams, Group) != {} then c.specializationUnderGroup else 1.0)
      else volume * (if Heard(streams, Group) != {} then c.teamUnderGroup
                     else if Heard(streams, Specialization) != {} then c.teamUnderSpecialization else 1.0)
  }

  ghost predicate Balanced(streams: seq<Stream>, volumes: map<string, real>, c: Config) {
    forall p :: 0 <= p < |streams| ==> Loudness(streams, volumes, c, streams[p])
  }

  // ---------------------------------------------------------------- along the priority order

  lemma {:induction false} OrderedAt(ordered: seq<Stream>, i: nat, j: nat)
    requires Ordered(ordered) && i < j < |ordered|
    ensures Before(ordered[i], ordered[j])
  {
    if i > 0 { OrderedAt(ordered[1..], i - 1, j - 1); }
  }

  lemma {:induction false} NoneOfScope(scopes: seq<VoiceScope>, marks: seq<bool>, scope: VoiceScope)
    requires |scopes| == |marks| && forall i :: 0 <= i < |scopes| ==> scopes[i] != scope
    ensures InScope(scopes, marks, scope) == 0
  {
    if marks != [] { NoneOfScope(scopes[..|scopes| - 1], marks[..|marks| - 1], scope); }
  }

  /** What comes before a group stream is a group stream; before a specialization stream no team stream comes. */
  lemma HigherComesFirst(ordered: seq<Stream>, marks: seq<bool>, k: nat)
    requires Ordered(ordered) && |marks| == |ordered| && k < |ordered|
    ensures var scopes := ScopesOf(ordered)[..k];
      && (ordered[k].scope != Team ==> InScope(scopes, marks[..k], Team) == 0)
      && (ordered[k].scope == Group ==> InScope(scopes, marks[..k], Specialization) == 0)
  {
    var scopes := ScopesOf(ordered)[..k];
    forall i | 0 <= i < k
      ensures ordered[k].scope != Team ==> scopes[i] != Team
      ensures ordered[k].scope == Group ==> scopes[i] != Specialization
    {
      OrderedAt(ordered, i, k);
    }
    if ordered[k].scope != Team { NoneOfScope(scopes, marks[..k], Team); }
    if ordered[k].scope == Group { NoneOfScope(scopes, marks[..k], Specialization); }
  }

  /** One position of an admission, after those before it. */
  lemma AdmittedAt(scopes: seq<VoiceScope>, suppressed: seq<bool>, c: Config, k: nat)
    requires |scopes| == |suppressed| && k < |scopes|
    ensures var admitted := Admit(scopes, suppressed, c);
      admitted[k] == (!suppressed[k] && Fits(scopes[..k], admitted[..k], scopes[k], c))
  {
    AdmitPrefix(scopes, suppressed, c, k);
    AdmitPrefix(scopes, suppressed, c, k + 1);
    assert scopes[..k + 1][..k] == scopes[..k] && suppressed[..k + 1][..k] == suppressed[..k];
    assert Admit(scopes, suppressed, c)[k] == Admit(scopes, suppressed, c)[..k + 1][k];
  }

  /** The admitted streams of a scope along the order. */
  function Served(ordered: seq<Stream>, silenced: set<string>, c: Config, scope: VoiceScope): nat {
    InScope(ScopesOf(ordered), AdmittedOf(ordered, silenced, c), scope)
  }

  lemma RefusedOnlyIfFull(ordered: seq<Stream>, silenced: set<string>, c: Config, k: nat)
    requires Ordered(ordered) && k < |ordered| && ordered[k].participant !in silenced && !AdmittedOf(ordered, silenced, c)[k]
    ensures Served(ordered, silenced, c, ordered[k].scope) == MaximumOf(c, ordered[k].scope)
      || (&& Served(ordered, silenced, c, Group) + Served(ordered, silenced, c, Specialization) + Served(ordered, silenced, c, Team) == c.maximum
          && (ordered[k].scope != Team ==> Served(ordered, silenced, c, Team) == 0)
          && (ordered[k].scope == Group ==> Served(ordered, silenced, c, Specialization) == 0))
  {
    var scopes, suppressed, marks := ScopesOf(ordered), SuppressedOf(ordered, silenced), AdmittedOf(ordered, silenced, c);
    AdmittedAt(scopes, suppressed, c, k);
    AdmitIsFeasible(scopes, suppressed, c);
    PrefixCounts(scopes, marks, k, Team);
    PrefixCounts(scopes, marks, k, Specialization);
    PrefixCounts(scopes, marks, k, Group);
    HigherComesFirst(ordered, marks, k);
    ScopesAddUp(scopes, marks);
    ScopesAddUp(scopes[..k], marks[..k]);
  }

  lemma EarlierIsPreferred(ordered: seq<Stream>, silenced: set<string>, c: Config, k: nat, j: nat)
    requires Ordered(ordered) && k < |ordered| && j < |ordered|
    requires ordered[k].scope == ordered[j].scope && ordered[k].order < ordered[j].order
    requires ordered[k].participant !in silenced && AdmittedOf(ordered, silenced, c)[j]
    ensures AdmittedOf(ordered, silenced, c)[k]
  {
    var scopes, suppressed, marks := ScopesOf(ordered), SuppressedOf(ordered, silenced), AdmittedOf(ordered, silenced, c);
    if j < k { OrderedAt(ordered, j, k); }
    AdmittedAt(scopes, suppressed, c, k);
    AdmittedAt(scopes, suppressed, c, j);
    PrefixCounts(scopes[..j], marks[..j], k, scopes[k]);
    assert scopes[..j][..k] == scopes[..k] && marks[..j][..k] == marks[..k];
  }

  // ---------------------------------------------------------------- from the order to the storage

  ghost predicate DistinctPositions(positions: seq<nat>) {
    forall i, j :: 0 <= i < j < |positions| ==> positions[i] != positions[j]
  }

  /** The positions that are marked and of this scope. */
  function Marked(positions: seq<nat>, scopes: seq<VoiceScope>, marks: seq<bool>, scope: VoiceScope): set<int>
    requires |positions| == |scopes| == |marks|
  {
    if marks == [] then {}
    else
      var n := |marks| - 1;
      Marked(positions[..n], scopes[..n], marks[..n], scope) + if marks[n] && scopes[n] == scope then {positions[n]} else {}
  }

  lemma {:induction false} MarkedAt(positions: seq<nat>, scopes: seq<VoiceScope>, marks: seq<bool>, scope: VoiceScope, i: nat)
    requires |positions| == |scopes| == |marks| && i < |marks| && marks[i] && scopes[i] == scope
    ensures positions[i] in Marked(positions, scopes, marks, scope)
    decreases |marks|
  {
    var n := |marks| - 1;
    if i < n { MarkedAt(positions[..n], scopes[..n], marks[..n], scope, i); }
  }

  lemma {:induction false} MarkedFrom(positions: seq<nat>, scopes: seq<VoiceScope>, marks: seq<bool>, scope: VoiceScope, p: int) returns (i: nat)
    requires |positions| == |scopes| == |marks| && p in Marked(positions, scopes, marks, scope)
    ensures i < |marks| && marks[i] && scopes[i] == scope && positions[i] == p
  {
    var n := |marks| - 1;
    if p in Marked(positions[..n], scopes[..n], marks[..n], scope) {
      i := MarkedFrom(positions[..n], scopes[..n], marks[..n], scope, p);
    } else {
      i := n;
    }
  }

  /** As many different positions are marked for a scope as are counted for it. */
  lemma {:induction false} MarkedAreCounted(positions: seq<nat>, scopes: seq<VoiceScope>, marks: seq<bool>, scope: VoiceScope)
    requires |positions| == |scopes| == |marks| && DistinctPositions(positions)
    ensures |Marked(positions, scopes, marks, scope)| == InScope(scopes, marks, scope)
  {
    if marks != [] {
      var n := |marks| - 1;
      var front := Marked(positions[..n], scopes[..n], marks[..n], scope);
      MarkedAreCounted(positions[..n], scopes[..n], marks[..n], scope);
      if positions[n] in front {
        var i := MarkedFrom(positions[..n], scopes[..n], marks[..n], scope, positions[n]);
      }
    }
  }

  /** Where a stored stream stands in the order, and that it is decided as that place is. */
  lemma StoredAt(before: seq<Stream>, after: seq<Stream>, silenced: set<string>, volumes: map<string, real>, c: Config, p: nat) returns (k: nat)
    requires Decides(before, after, silenced, volumes, c) && p < |before|
    ensures k < |before| == |after| == |InOrder(before)| && Positions(before, |before|)[k] == p
    ensures after[p] == DecidedAt(InOrder(before), silenced, volumes, c, k)
  {
    PositionIsThere(before, |before|, p);
    k :| 0 <= k < |before| && Positions(before, |before|)[k] == p;
  }

  lemma OrderIsDistinct(before: seq<Stream>)
    requires DistinctOrders(before)
    ensures DistinctPositions(Positions(before, |before|)) && Ordered(InOrder(before)) && |InOrder(before)| == |before|
  {
    var positions := Positions(before, |before|);
    PositionsOrder(before, |before|);
    PickLength(before, positions);
    forall i, j | 0 <= i < j < |positions| ensures positions[i] != positions[j] { PositionsDiffer(before, i, j); }
  }

  /** As many stored streams of a scope are heard as are served along the order. */
  lemma HeardAreServed(before: seq<Stream>, after: seq<Stream>, silenced: set<string>, volumes: map<string, real>, c: Config, scope: VoiceScope)
    requires Decides(before, after, silenced, volumes, c) && DistinctOrders(before)
    ensures |Heard(after, scope)| == Served(InOrder(before), silenced, c, scope)
  {
    OrderIsDistinct(before);
    var ordered, positions := InOrder(before), Positions(before, |before|);
    var scopes, marks := ScopesOf(ordered), AdmittedOf(ordered, silenced, c);
    var marked := Marked(positions, scopes, marks, scope);
    MarkedAreCounted(positions, scopes, marks, scope);
    forall p ensures p in Heard(after, scope) <==> p in marked {
      if p in Heard(after, scope) {
        var k := StoredAt(before, after, silenced, volumes, c, p);
        MarkedAt(positions, scopes, marks, scope, k);
      }
      if p in marked {
        var i := MarkedFrom(positions, scopes, marks, scope, p);
        assert after[positions[i]] == DecidedAt(ordered, silenced, volumes, c, i);
      }
    }
    assert Heard(after, scope) == marked;
  }

  lemma AllHeardAreServed(before: seq<Stream>, after: seq<Stream>, silenced: set<string>, volumes: map<string, real>, c: Config)
    requires Decides(before, after, silenced, volumes, c) && DistinctOrders(before)
    ensures forall scope :: |Heard(after, scope)| == Served(InOrder(before), silenced, c, scope)
  {
    forall scope: VoiceScope ensures |Heard(after, scope)| == Served(InOrder(before), silenced, c, scope) {
      HeardAreServed(before, after, silenced, volumes, c, scope);
    }
  }

  // ---------------------------------------------------------------- what is decided

  /** After deciding, no limit is exceeded. */
  lemma DecidedWithinLimits(before: seq<Stream>, after: seq<Stream>, silenced: set<string>, volumes: map<string, real>, c: Config)
    requires Decides(before, after, silenced, volumes, c) && DistinctOrders(before)
    ensures WithinLimits(after, silenced, c)
  {
    var ordered := InOrder(before);
    var scopes, suppressed := ScopesOf(ordered), SuppressedOf(ordered, silenced);
    AdmitIsFeasible(scopes, suppressed, c);
    ScopesAddUp(scopes, AdmittedOf(ordered, silenced, c));
    AllHeardAreServed(before, after, silenced, volumes, c);
    forall p | 0 <= p < |after| && after[p].participant in silenced ensures !after[p].admitted {
      var k := StoredAt(before, after, silenced, volumes, c, p);
    }
  }

  /** A stream left out without being silenced has its scope full. */
  lemma LeftOutOnlyIfFull(before: seq<Stream>, after: seq<Stream>, silenced: set<string>, volumes: map<string, real>, c: Config, p: nat)
    requires Decides(before, after, silenced, volumes, c) && DistinctOrders(before)
    requires p < |after| && after[p].participant !in silenced && !after[p].admitted
    ensures Full(after, after[p].scope, c)
  {
    OrderIsDistinct(before);
    var k := StoredAt(before, after, silenced, volumes, c, p);
    RefusedOnlyIfFull(InOrder(before), silenced, c, k);
    AllHeardAreServed(before, after, silenced, volumes, c);
  }

  lemma LaterIsLeftOut(before: seq<Stream>, after: seq<Stream>, silenced: set<string>, volumes: map<string, real>, c: Config, p: nat, q: nat)
    requires Decides(before, after, silenced, volumes, c) && DistinctOrders(before)
    requires p < |after| && q < |after| && after[p].participant !in silenced && !after[p].admitted
    requires after[q].scope == after[p].scope && after[q].order > after[p].order
    ensures !after[q].admitted
  {
    OrderIsDistinct(before);
    var k := StoredAt(before, after, silenced, volumes, c, p);
    var j := StoredAt(before, after, silenced, volumes, c, q);
    if after[q].admitted { EarlierIsPreferred(InOrder(before), silenced, c, k, j); }
  }

  /**
   * After deciding: a group stream is left out only if group streams take all group places or all places; a specialization stream
   * only if its own limit is reached or the two higher scopes take all places; and within a scope earlier arrivals are preferred.
   */
  lemma DecidedByPriority(before: seq<Stream>, after: seq<Stream>, silenced: set<string>, volumes: map<string, real>, c: Config)
    requires Decides(before, after, silenced, volumes, c) && DistinctOrders(before)
    ensures Prioritized(after, silenced, c)
  {
    forall p | 0 <= p < |after| && after[p].participant !in silenced && !after[p].admitted
      ensures Full(after, after[p].scope, c)
      ensures forall q :: 0 <= q < |after| && after[q].scope == after[p].scope && after[q].order > after[p].order ==> !after[q].admitted
    {
      LeftOutOnlyIfFull(before, after, silenced, volumes, c, p);
      forall q | 0 <= q < |after| && after[q].scope == after[p].scope && after[q].order > after[p].order ensures !after[q].admitted {
        LaterIsLeftOut(before, after, silenced, volumes, c, p, q);
      }
    }
  }

  /** After deciding, everybody is as loud as the scopes that are heard let it be. */
  lemma DecidedLoudness(before: seq<Stream>, after: seq<Stream>, silenced: set<string>, volumes: map<string, real>, c: Config)
    requires Decides(before, after, silenced, volumes, c) && DistinctOrders(before)
    ensures Balanced(after, volumes, c)
  {
    AllHeardAreServed(before, after, silenced, volumes, c);
    assert |Heard(after, Group)| == 0 <==> Heard(after, Group) == {};
    assert |Heard(after, Specialization)| == 0 <==> Heard(after, Specialization) == {};
    forall p | 0 <= p < |after| ensures Loudness(after, volumes, c, after[p]) {
      var k := StoredAt(before, after, silenced, volumes, c, p);
      LoudnessOf(InOrder(before), after, silenced, volumes, c, k);
    }
  }

  lemma LoudnessOf(ordered: seq<Stream>, after: seq<Stream>, silenced: set<string>, volumes: map<string, real>, c: Config, k: nat)
    requires k < |ordered|
    requires Served(ordered, silenced, c, Group) == 0 <==> Heard(after, Group) == {}
    requires Served(ordered, silenced, c, Specialization) == 0 <==> Heard(after, Specialization) == {}
    ensures Loudness(after, volumes, c, DecidedAt(ordered, silenced, volumes, c, k))
  {}

  /** Whatever has been done with an engine, its streams are within the limits, served by priority and loud as configured. */
  lemma EngineIsFair(engine: Engine)
    requires engine.Valid()
    ensures var silenced := engine.muted + engine.blocked;
      && WithinLimits(engine.streams, silenced, engine.config)
      && Prioritized(engine.streams, silenced, engine.config)
      && Balanced(engine.streams, engine.volumes, engine.config)
  {
    var streams, silenced := engine.streams, engine.muted + engine.blocked;
    DecidedWithinLimits(streams, streams, silenced, engine.volumes, engine.config);
    DecidedByPriority(streams, streams, silenced, engine.volumes, engine.config);
    DecidedLoudness(streams, streams, silenced, engine.volumes, engine.config);
  }
}
