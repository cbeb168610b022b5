/** Local playback: which remote streams are admitted under the limits, and how loud they are. */
module Playback {
  import opened Basics
  import Text

  datatype Stream = Stream(scope: VoiceScope, participant: string, order: nat, admitted: bool, gain: real)

  datatype Config = Config(
    maximum: nat,
    maximumTeam: nat,
    maximumSpecialization: nat,
    maximumGroup: nat,
    teamUnderSpecialization: real,
    teamUnderGroup: real,
    specializationUnderGroup: real)

  datatype Change = Change(scope: VoiceScope, participant: string, admitted: bool, gain: real)

  predicate IsGain(gain: real) { 0.0 <= gain <= 1.0 }

  predicate ValidConfig(c: Config) {
    && c.maximum > 0 && c.maximumTeam > 0 && c.maximumSpecialization > 0 && c.maximumGroup > 0
    && IsGain(c.teamUnderSpecialization) && IsGain(c.teamUnderGroup) && IsGain(c.specializationUnderGroup)
  }

  function MaximumOf(c: Config, scope: VoiceScope): nat {
    match scope
    case Team => c.maximumTeam
    case Specialization => c.maximumSpecialization
    case Group => c.maximumGroup
  }

  function Rank(scope: VoiceScope): nat {
    match scope
    case Team => 0
    case Specialization => 1
    case Group => 2
  }

  /** The priority order: higher scopes first, then earlier arrivals. */
  predicate Before(a: Stream, b: Stream) {
    || Rank(a.scope) > Rank(b.scope)
    || (a.scope == b.scope && a.order < b.order)
    || (a.scope == b.scope && a.order == b.order && Text.Less(a.participant, b.participant))
  }

  // ---------------------------------------------------------------- admission along the priority order

  /** How many positions are marked. */
  function Total(marks: seq<bool>): nat {
    if marks == [] then 0 else Total(marks[..|marks| - 1]) + if marks[|marks| - 1] then 1 else 0
  }

  /** How many positions of a scope are marked. */
  function InScope(scopes: seq<VoiceScope>, marks: seq<bool>, scope: VoiceScope): nat
    requires |scopes| == |marks|
  {
    if marks == [] then 0
    else
      var n := |marks| - 1;
      InScope(scopes[..n], marks[..n], scope) + if marks[n] && scopes[n] == scope then 1 else 0
  }

  /** Whether a stream of a scope still fits beside those admitted before it. */
  predicate Fits(scopes: seq<VoiceScope>, admitted: seq<bool>, scope: VoiceScope, c: Config)
    requires |scopes| == |admitted|
  {
    InScope(scopes, admitted, scope) < MaximumOf(c, scope) && Total(admitted) < c.maximum
  }

  /** Who is admitted, first come first served in priority order. */
  function Admit(scopes: seq<VoiceScope>, suppressed: seq<bool>, c: Config): (admitted: seq<bool>)
    requires |scopes| == |suppressed|
    ensures |admitted| == |scopes|
  {
    if scopes == [] then []
    else
      var n := |scopes| - 1;
      var front := Admit(scopes[..n], suppressed[..n], c);
      front + [!suppressed[n] && Fits(scopes[..n], front, scopes[n], c)]
  }

  lemma {:induction false} AdmitPrefix(scopes: seq<VoiceScope>, suppressed: seq<bool>, c: Config, k: nat)
    requires |scopes| == |suppressed| && k <= |scopes|
    ensures Admit(scopes, suppressed, c)[..k] == Admit(scopes[..k], suppressed[..k], c)
    decreases |scopes|
  {
    var n := |scopes| - 1;
    if k <= n {
      AdmitPrefix(scopes[..n], suppressed[..n], c, k);
      assert scopes[..n][..k] == scopes[..k] && suppressed[..n][..k] == suppressed[..k];
      assert Admit(scopes, suppressed, c)[..n][..k] == Admit(scopes, suppressed, c)[..k];
    } else {
      assert scopes[..k] == scopes && suppressed[..k] == suppressed;
    }
  }

  /** A choice of unsuppressed streams within all limits. */
  ghost predicate Feasible(scopes: seq<VoiceScope>, suppressed: seq<bool>, marks: seq<bool>, c: Config)
    requires |scopes| == |suppressed|
  {
    && |marks| == |scopes|
    && (forall i :: 0 <= i < |marks| ==> marks[i] ==> !suppressed[i])
    && (forall scope :: InScope(scopes, marks, scope) <= MaximumOf(c, scope))
    && Total(marks) <= c.maximum
  }

  lemma {:induction false} ScopesAddUp(scopes: seq<VoiceScope>, marks: seq<bool>)
    requires |scopes| == |marks|
    ensures Total(marks) == InScope(scopes, marks, Team) + InScope(scopes, marks, Specialization) + InScope(scopes, marks, Group)
  {
    if marks != [] { ScopesAddUp(scopes[..|scopes| - 1], marks[..|marks| - 1]); }
  }

  lemma {:induction false} AdmitIsFeasible(scopes: seq<VoiceScope>, suppressed: seq<bool>, c: Config)
    requires |scopes| == |suppressed|
    ensures Feasible(scopes, suppressed, Admit(scopes, suppressed, c), c)
  {
    if scopes != [] {
      var n := |scopes| - 1;
      var admitted := Admit(scopes, suppressed, c);
      AdmitIsFeasible(scopes[..n], suppressed[..n], c);
      assert admitted[..n] == Admit(scopes[..n], suppressed[..n], c);
    }
  }

  function Smaller(a: nat, b: nat): nat { if a < b then a else b }

  /** The positions of a scope that are not suppressed. */
  function Open(scopes: seq<VoiceScope>, suppressed: seq<bool>, scope: VoiceScope): nat
    requires |scopes| == |suppressed|
  {
    InScope(scopes, Unsuppressed(suppressed), scope)
  }

  function Unsuppressed(suppressed: seq<bool>): seq<bool> {
    seq(|suppressed|, i requires 0 <= i < |suppressed| => !suppressed[i])
  }

  /** Either the total limit is used up, or every scope is served as far as its own limit allows. */
  lemma {:induction false} AdmitServes(scopes: seq<VoiceScope>, suppressed: seq<bool>, c: Config)
    requires |scopes| == |suppressed|
    ensures var admitted := Admit(scopes, suppressed, c);
      || Total(admitted) == c.maximum
      || forall scope :: InScope(scopes, admitted, scope) == Smaller(MaximumOf(c, scope), Open(scopes, suppressed, scope))
  {
    if scopes != [] {
      var n := |scopes| - 1;
      var admitted := Admit(scopes, suppressed, c);
      AdmitServes(scopes[..n], suppressed[..n], c);
      AdmitIsFeasible(scopes[..n], suppressed[..n], c);
      assert admitted[..n] == Admit(scopes[..n], suppressed[..n], c);
      assert Unsuppressed(suppressed)[..n] == Unsuppressed(suppressed[..n]);
    }
  }

  lemma {:induction false} MarksAreOpen(scopes: seq<VoiceScope>, suppressed: seq<bool>, marks: seq<bool>, scope: VoiceScope)
    requires |scopes| == |suppressed| == |marks| && forall i :: 0 <= i < |marks| ==> marks[i] ==> !suppressed[i]
    ensures InScope(scopes, marks, scope) <= Open(scopes, suppressed, scope)
  {
    if marks != [] {
      var n := |marks| - 1;
      MarksAreOpen(scopes[..n], suppressed[..n], marks[..n], scope);
      assert Unsuppressed(suppressed)[..n] == Unsuppressed(suppressed[..n]);
    }
  }

  lemma {:induction false} PrefixCounts(scopes: seq<VoiceScope>, marks: seq<bool>, k: nat, scope: VoiceScope)
    requires |scopes| == |marks| && k <= |marks|
    ensures InScope(scopes[..k], marks[..k], scope) <= InScope(scopes, marks, scope) && Total(marks[..k]) <= Total(marks)
    decreases |marks|
  {
    var n := |marks| - 1;
    if k <= n {
      PrefixCounts(scopes[..n], marks[..n], k, scope);
      assert scopes[..n][..k] == scopes[..k] && marks[..n][..k] == marks[..k];
    } else {
      assert scopes[..k] == scopes && marks[..k] == marks;
    }
  }

  /**
   * Admission is optimal for every prefix of the priority order: no choice of unsuppressed streams within the limits
   * has more of the prefix than is admitted of it.
   */
  lemma AdmissionIsOptimal(scopes: seq<VoiceScope>, suppressed: seq<bool>, c: Config, marks: seq<bool>, k: nat)
    requires |scopes| == |suppressed| && k <= |scopes| && Feasible(scopes, suppressed, marks, c)
    ensures Total(marks[..k]) <= Total(Admit(scopes, suppressed, c)[..k])
    ensures Feasible(scopes, suppressed, Admit(scopes, suppressed, c), c)
  {
    var part, open, chosen := scopes[..k], suppressed[..k], marks[..k];
    AdmitIsFeasible(scopes, suppressed, c);
    AdmitPrefix(scopes, suppressed, c, k);
    AdmitServes(part, open, c);
    ScopesAddUp(part, chosen);
    ScopesAddUp(part, Admit(part, open, c));
    forall scope: VoiceScope
      ensures InScope(part, chosen, scope) <= Smaller(MaximumOf(c, scope), Open(part, open, scope))
    {
      PrefixCounts(scopes, marks, k, scope);
      MarksAreOpen(part, open, chosen, scope);
    }
    PrefixCounts(scopes, marks, k, Team);
  }

  // ---------------------------------------------------------------- suppressing one stream

  /** Marks that are new in `after`. */
  function New(before: seq<bool>, after: seq<bool>): seq<bool>
    requires |before| == |after|
  {
    seq(|before|, i requires 0 <= i < |before| => after[i] && !before[i])
  }

  /**
   * How two admissions differ that were the same until one of them left out stream `j` of scope `x`: they have the same
   * room again, or one place in that scope is free, or the total was used up and the free place has been taken.
   */
  predicate Apart(scopes: seq<VoiceScope>, before: seq<bool>, after: seq<bool>, x: VoiceScope, c: Config)
    requires |scopes| == |before| == |after|
  {
    var added := Total(New(before, after));
    || (added <= 1 && Total(after) == Total(before) && forall scope :: InScope(scopes, after, scope) == InScope(scopes, before, scope))
    || (added == 0 && Total(after) + 1 == Total(before) &&
        forall scope :: InScope(scopes, after, scope) + (if scope == x then 1 else 0) == InScope(scopes, before, scope))
    || (added <= 1 && Total(after) == Total(before) == c.maximum)
  }

  predicate Keeps(before: seq<bool>, after: seq<bool>, j: nat)
    requires |before| == |after|
  {
    forall i :: 0 <= i < |before| && i != j && before[i] ==> after[i]
  }

  lemma StepApart(scopes: seq<VoiceScope>, before: seq<bool>, after: seq<bool>, x: VoiceScope, c: Config, j: nat,
                  scope: VoiceScope, suppressed: bool)
    requires |scopes| == |before| == |after| && j < |scopes|
    requires Apart(scopes, before, after, x, c) && Keeps(before, after, j)
    requires Total(before) <= c.maximum && forall s :: InScope(scopes, before, s) <= MaximumOf(c, s)
    ensures var b := before + [!suppressed && Fits(scopes, before, scope, c)];
      var a := after + [!suppressed && Fits(scopes, after, scope, c)];
      Apart(scopes + [scope], b, a, x, c) && Keeps(b, a, j)
  {
    var mark, also := !suppressed && Fits(scopes, before, scope, c), !suppressed && Fits(scopes, after, scope, c);
    var more := scopes + [scope];
    Extended(scopes, before, scope, mark);
    Extended(scopes, after, scope, also);
    NewExtended(before, after, mark, also);
  }

  lemma Extended(scopes: seq<VoiceScope>, marks: seq<bool>, scope: VoiceScope, mark: bool)
    requires |scopes| == |marks|
    ensures Total(marks + [mark]) == Total(marks) + if mark then 1 else 0
    ensures forall s ::
      InScope(scopes + [scope], marks + [mark], s) == InScope(scopes, marks, s) + if mark && scope == s then 1 else 0
  {
    assert (scopes + [scope])[..|scopes|] == scopes && (marks + [mark])[..|marks|] == marks;
  }

  lemma NewExtended(before: seq<bool>, after: seq<bool>, mark: bool, also: bool)
    requires |before| == |after|
    ensures Total(New(before + [mark], after + [also])) == Total(New(before, after)) + if also && !mark then 1 else 0
  {
    var longer := New(before + [mark], after + [also]);
    assert longer[..|before|] == New(before, after);
  }

  lemma {:induction false} SuppressionApart(scopes: seq<VoiceScope>, suppressed: seq<bool>, c: Config, j: nat)
    requires |scopes| == |suppressed| && j < |scopes|
    ensures var before := Admit(scopes, suppressed, c); var after := Admit(scopes, suppressed[j := true], c);
      Apart(scopes, before, after, scopes[j], c) && Keeps(before, after, j)
    decreases |scopes|
  {
    var n := |scopes| - 1;
    var fewer := suppressed[j := true];
    var before, after := Admit(scopes[..n], suppressed[..n], c), Admit(scopes[..n], fewer[..n], c);
    assert scopes[..n] + [scopes[n]] == scopes;
    if j == n {
      assert fewer[..n] == suppressed[..n];
      LeftOutApart(scopes[..n], before, scopes[n], !suppressed[n] && Fits(scopes[..n], before, scopes[n], c), c);
    } else {
      assert fewer[..n] == suppressed[..n][j := true];
      SuppressionApart(scopes[..n], suppressed[..n], c, j);
      AdmitIsFeasible(scopes[..n], suppressed[..n], c);
      StepApart(scopes[..n], before, after, scopes[j], c, j, scopes[n], suppressed[n]);
    }
  }

  /** Leaving out the last stream frees its place, if it had one. */
  lemma LeftOutApart(scopes: seq<VoiceScope>, before: seq<bool>, scope: VoiceScope, mark: bool, c: Config)
    requires |scopes| == |before|
    ensures Apart(scopes + [scope], before + [mark], before + [false], scope, c) && Keeps(before + [mark], before + [false], |scopes|)
  {
    Extended(scopes, before, scope, mark);
    Extended(scopes, before, scope, false);
    NewExtended(before, before, mark, false);
    NothingNew(before);
  }

  lemma {:induction false} NothingNew(marks: seq<bool>)
    ensures Total(New(marks, marks)) == 0
  {
    if marks != [] {
      NothingNew(marks[..|marks| - 1]);
      assert New(marks, marks)[..|marks| - 1] == New(marks[..|marks| - 1], marks[..|marks| - 1]);
    }
  }

  /** Suppressing one stream evicts no other and newly admits at most one, so that no more are admitted than before. */
  lemma SuppressionEvictsNobody(scopes: seq<VoiceScope>, suppressed: seq<bool>, c: Config, j: nat)
    requires |scopes| == |suppressed| && j < |scopes|
    ensures var before := Admit(scopes, suppressed, c); var after := Admit(scopes, suppressed[j := true], c);
      && (forall i :: 0 <= i < |scopes| && i != j && before[i] ==> after[i])
      && Total(New(before, after)) <= 1 && Total(after) <= Total(before)
  {
    SuppressionApart(scopes, suppressed, c, j);
  }

  /** The first positions as in one sequence, the others as in another. */
  function Mixed(less: seq<bool>, more: seq<bool>, k: nat): seq<bool>
    requires |less| == |more| && k <= |more|
  {
    more[..k] + less[k..]
  }

  lemma MixedStep(less: seq<bool>, more: seq<bool>, k: nat)
    requires |less| == |more| && 0 < k <= |more| && (less[k - 1] ==> more[k - 1])
    ensures Mixed(less, more, k) == if more[k - 1] then Mixed(less, more, k - 1)[k - 1 := true] else Mixed(less, more, k - 1)
  {}

  /** An admission under fewer suppressions against one under more: no more in all, and nobody else put out. */
  predicate NotMore(before: seq<bool>, after: seq<bool>, suppressed: seq<bool>) {
    |before| == |after| == |suppressed| && Total(after) <= Total(before) && KeepsUnsuppressed(before, after, suppressed)
  }

  lemma {:induction false} SuppressionsUpTo(scopes: seq<VoiceScope>, less: seq<bool>, more: seq<bool>, c: Config, k: nat)
    requires |scopes| == |less| == |more| && k <= |more| && forall i :: 0 <= i < |less| ==> less[i] ==> more[i]
    ensures NotMore(Admit(scopes, less, c), Admit(scopes, Mixed(less, more, k), c), more)
  {
    if k == 0 {
      assert Mixed(less, more, 0) == less;
    } else {
      SuppressionsUpTo(scopes, less, more, c, k - 1);
      MixedStep(less, more, k);
      if more[k - 1] { OneMoreSuppressed(scopes, less, Mixed(less, more, k - 1), more, c, k - 1); }
    }
  }

  lemma OneMoreSuppressed(scopes: seq<VoiceScope>, less: seq<bool>, mid: seq<bool>, more: seq<bool>, c: Config, j: nat)
    requires |scopes| == |less| == |mid| == |more| && j < |more| && more[j]
    requires NotMore(Admit(scopes, less, c), Admit(scopes, mid, c), more)
    ensures NotMore(Admit(scopes, less, c), Admit(scopes, mid[j := true], c), more)
  {
    SuppressionEvictsNobody(scopes, mid, c, j);
    StillKept(Admit(scopes, less, c), Admit(scopes, mid, c), Admit(scopes, mid[j := true], c), more, j);
  }

  lemma StillKept(before: seq<bool>, mid: seq<bool>, after: seq<bool>, suppressed: seq<bool>, j: nat)
    requires |before| == |mid| == |after| == |suppressed| && j < |suppressed| && suppressed[j]
    requires KeepsUnsuppressed(before, mid, suppressed) && Keeps(mid, after, j)
    ensures KeepsUnsuppressed(before, after, suppressed)
  {}

  /** Whoever was admitted and is not suppressed stays admitted. */
  predicate KeepsUnsuppressed(before: seq<bool>, after: seq<bool>, suppressed: seq<bool>)
    requires |before| == |after| == |suppressed|
  {
    forall i :: 0 <= i < |before| && before[i] && !suppressed[i] ==> after[i]
  }

  lemma {:induction false} NewAgainstLost(before: seq<bool>, after: seq<bool>)
    requires |before| == |after|
    ensures Total(after) + Total(New(after, before)) == Total(before) + Total(New(before, after))
  {
    if before != [] {
      var n := |before| - 1;
      NewAgainstLost(before[..n], after[..n]);
      assert New(after, before)[..n] == New(after[..n], before[..n]) && New(before, after)[..n] == New(before[..n], after[..n]);
    }
  }

  /** Suppressing any number of streams evicts no other, and newly admits at most as many as it puts out. */
  lemma SuppressionsEvictNobody(scopes: seq<VoiceScope>, less: seq<bool>, more: seq<bool>, c: Config)
    requires |scopes| == |less| == |more| && forall i :: 0 <= i < |less| ==> less[i] ==> more[i]
    ensures var before := Admit(scopes, less, c); var after := Admit(scopes, more, c);
      KeepsUnsuppressed(before, after, more) && Total(New(before, after)) <= Total(New(after, before))
  {
    SuppressionsUpTo(scopes, less, more, c, |more|);
    assert Mixed(less, more, |more|) == more;
    NewAgainstLost(Admit(scopes, less, c), Admit(scopes, more, c));
  }

  /** A sequence without one of its positions. */
  function Drop<T>(s: seq<T>, j: nat): seq<T>
    requires j < |s|
  {
    s[..j] + s[j + 1..]
  }

  /** A stream that is gone is to the others as if it were suppressed. */
  lemma {:induction false} RemovalIsSuppression(scopes: seq<VoiceScope>, suppressed: seq<bool>, c: Config, j: nat)
    requires |scopes| == |suppressed| && j < |scopes|
    ensures Admit(Drop(scopes, j), Drop(suppressed, j), c) == Drop(Admit(scopes, suppressed[j := true], c), j)
    decreases |scopes|
  {
    var n := |scopes| - 1;
    var fewer := suppressed[j := true];
    if j == n {
      assert fewer[..n] == suppressed[..n];
      assert Drop(scopes, j) == scopes[..n] && Drop(suppressed, j) == suppressed[..n];
    } else {
      assert fewer[..n] == suppressed[..n][j := true];
      RemovalIsSuppression(scopes[..n], suppressed[..n], c, j);
      RemovalStep(scopes, suppressed, c, j);
    }
  }

  lemma RemovalStep(scopes: seq<VoiceScope>, suppressed: seq<bool>, c: Config, j: nat)
    requires |scopes| == |suppressed| && j < |scopes| - 1
    requires var n := |scopes| - 1;
      Admit(Drop(scopes[..n], j), Drop(suppressed[..n], j), c) == Drop(Admit(scopes[..n], suppressed[j := true][..n], c), j)
    ensures Admit(Drop(scopes, j), Drop(suppressed, j), c) == Drop(Admit(scopes, suppressed[j := true], c), j)
  {
    var n := |scopes| - 1;
    var fewer := suppressed[j := true];
    var front := Admit(scopes[..n], fewer[..n], c);
    calc {
      Admit(Drop(scopes, j), Drop(suppressed, j), c);
      { RemainingSplits(scopes, suppressed, c, j); }
      Drop(front, j) + [!suppressed[n] && Fits(Drop(scopes[..n], j), Drop(front, j), scopes[n], c)];
      { UnmarkedAt(scopes[..n], fewer[..n], c, j); FitsWithout(scopes[..n], front, j, scopes[n], c); }
      Drop(front, j) + [!fewer[n] && Fits(scopes[..n], front, scopes[n], c)];
      { AdmittedSplits(scopes, fewer, c, j); }
      Drop(Admit(scopes, fewer, c), j);
    }
  }

  lemma RemainingSplits(scopes: seq<VoiceScope>, suppressed: seq<bool>, c: Config, j: nat)
    requires |scopes| == |suppressed| && j < |scopes| - 1
    ensures var n := |scopes| - 1; var others, silent := Drop(scopes[..n], j), Drop(suppressed[..n], j);
      Admit(Drop(scopes, j), Drop(suppressed, j), c)
        == Admit(others, silent, c) + [!suppressed[n] && Fits(others, Admit(others, silent, c), scopes[n], c)]
  {
    var n := |scopes| - 1;
    DropSplits(scopes, j);
    DropSplits(suppressed, j);
    AdmitAppend(Drop(scopes[..n], j), Drop(suppressed[..n], j), scopes[n], suppressed[n], c);
  }

  lemma AdmittedSplits(scopes: seq<VoiceScope>, suppressed: seq<bool>, c: Config, j: nat)
    requires |scopes| == |suppressed| && j < |scopes| - 1
    ensures var n := |scopes| - 1; var front := Admit(scopes[..n], suppressed[..n], c);
      Drop(Admit(scopes, suppressed, c), j) == Drop(front, j) + [!suppressed[n] && Fits(scopes[..n], front, scopes[n], c)]
  {
    DropSplits(Admit(scopes, suppressed, c), j);
    assert Admit(scopes, suppressed, c)[..|scopes| - 1] == Admit(scopes[..|scopes| - 1], suppressed[..|scopes| - 1], c);
  }

  lemma FitsWithout(scopes: seq<VoiceScope>, marks: seq<bool>, j: nat, scope: VoiceScope, c: Config)
    requires |scopes| == |marks| && j < |marks| && !marks[j]
    ensures Fits(Drop(scopes, j), Drop(marks, j), scope, c) == Fits(scopes, marks, scope, c)
  {
    DropCounts(scopes, marks, j);
  }

  lemma AdmitAppend(scopes: seq<VoiceScope>, suppressed: seq<bool>, scope: VoiceScope, mute: bool, c: Config)
    requires |scopes| == |suppressed|
    ensures Admit(scopes + [scope], suppressed + [mute], c) ==
      Admit(scopes, suppressed, c) + [!mute && Fits(scopes, Admit(scopes, suppressed, c), scope, c)]
  {
    assert (scopes + [scope])[..|scopes|] == scopes && (suppressed + [mute])[..|scopes|] == suppressed;
  }

  lemma DropSplits<T>(s: seq<T>, j: nat)
    requires j < |s| - 1
    ensures |Drop(s, j)| == |s| - 1
    ensures Drop(s, j) == Drop(s[..|s| - 1], j) + [s[|s| - 1]]
    ensures Drop(s, j)[..|s| - 2] == Drop(s[..|s| - 1], j) && Drop(s, j)[|s| - 2] == s[|s| - 1]
  {}

  lemma UnmarkedAt(scopes: seq<VoiceScope>, suppressed: seq<bool>, c: Config, j: nat)
    requires |scopes| == |suppressed| && j < |scopes| && suppressed[j]
    ensures !Admit(scopes, suppressed, c)[j]
  {
    AdmitIsFeasible(scopes, suppressed, c);
  }

  /** Dropping an unmarked position changes no count. */
  lemma {:induction false} DropCounts(scopes: seq<VoiceScope>, marks: seq<bool>, j: nat)
    requires |scopes| == |marks| && j < |marks|
    ensures !marks[j] ==> Total(Drop(marks, j)) == Total(marks)
    ensures !marks[j] ==> forall scope :: InScope(Drop(scopes, j), Drop(marks, j), scope) == InScope(scopes, marks, scope)
    decreases |marks|
  {
    var n := |marks| - 1;
    if j == n {
      assert Drop(marks, j) == marks[..n] && Drop(scopes, j) == scopes[..n];
    } else {
      DropCounts(scopes[..n], marks[..n], j);
      assert Drop(marks, j)[..n - 1] == Drop(marks[..n], j) && Drop(scopes, j)[..n - 1] == Drop(scopes[..n], j);
    }
  }

  // ---------------------------------------------------------------- loudness

  datatype Situation = Situation(groupActive: bool, specializationActive: bool)

  function VolumeOf(volumes: map<string, real>, participant: string): real {
    if participant in volumes then volumes[participant] else 1.0
  }

  /** How far a scope is ducked under the higher scopes that are being heard. */
  function Ducking(c: Config, now: Situation, scope: VoiceScope): real {
    match scope
    case Team => if now.groupActive then c.teamUnderGroup
                 else if now.specializationActive then c.teamUnderSpecialization else 1.0
    case Specialization => if now.groupActive then c.specializationUnderGroup else 1.0
    case Group => 1.0
  }

  function GainOf(c: Config, volumes: map<string, real>, now: Situation, s: Stream, admitted: bool): real {
    if !admitted then 0.0 else VolumeOf(volumes, s.participant) * Ducking(c, now, s.scope)
  }

  predicate ValidVolumes(volumes: map<string, real>) { forall p <- volumes :: IsGain(volumes[p]) }

  lemma Product(a: real, b: real)
    requires IsGain(a) && IsGain(b)
    ensures IsGain(a * b) && a * b <= a
  {}

  /** Gains stay between silence and the participant's own volume; ducking never makes a stream louder. */
  lemma GainsAreGains(c: Config, volumes: map<string, real>, now: Situation, s: Stream, admitted: bool)
    requires ValidConfig(c) && ValidVolumes(volumes)
    ensures IsGain(GainOf(c, volumes, now, s, admitted))
    ensures GainOf(c, volumes, now, s, admitted) <= VolumeOf(volumes, s.participant)
    ensures s.scope == Group && admitted ==> GainOf(c, volumes, now, s, admitted) == VolumeOf(volumes, s.participant)
  {
    var volume := VolumeOf(volumes, s.participant);
    assert IsGain(volume);
    Product(volume, Ducking(c, now, s.scope));
  }
}
