/** Versioned presence of one visible group: bounded revision history, snapshots and deltas. */
module Presence {
  import opened Basics
  import Domain

  type Id = Domain.Id

  datatype Status = Offline | Online
  type States = map<Id, Status>

  datatype Revision = Revision(version: nat, entries: States)
  datatype View = View(initialized: bool, version: nat, states: States, revisions: seq<Revision>)

  datatype Response =
    | Snapshot(version: nat, entries: States)
    | Delta(version: nat, entries: States)
    | SnapshotRequired
    | VersionsExhausted

  const MAXIMUM_REVISIONS: nat := 128
  const MAXIMUM_PARTICIPANTS: nat := 200

  // ---------------------------------------------------------------- what a read observes

  function StatusOf(online: set<Id>, player: Id): Status { if player in online then Online else Offline }

  predicate Visible(memberships: seq<Domain.Membership>, group: Id, player: Id) {
    exists m <- memberships :: m.groupId == group && m.player == player
  }

  /** The transport presence of every visible member, unless there are too many of them. */
  method CollectStates(memberships: seq<Domain.Membership>, group: Id, online: set<Id>) returns (r: Option<States>)
    requires Domain.Sorted(memberships)
    ensures r.Some? ==> forall player :: player in r.value <==> exists m :: m in memberships && m.groupId == group && m.player == player
    ensures r.Some? ==> |r.value| <= 200 && forall player <- r.value :: (r.value[player] == Online <==> player in online)
    ensures r.None? ==> exists players: set<Id> ::
      |players| == 201 && forall player <- players :: Visible(memberships, group, player)
  {
    var states: States := map[];
    for i := 0 to |memberships|
      invariant |states| <= MAXIMUM_PARTICIPANTS
      invariant forall player :: player in states <==> Visible(memberships[..i], group, player)
      invariant forall player <- states :: states[player] == StatusOf(online, player)
    {
      var m := memberships[i];
      VisibleMore(memberships, group, i);
      if m.groupId != group { continue; }
      NotBefore(memberships, group, i);
      if |states| == MAXIMUM_PARTICIPANTS {
        TooMany(memberships, group, i, states.Keys);
        return None;
      }
      states := states[m.player := StatusOf(online, m.player)];
    }
    assert memberships[..|memberships|] == memberships;
    return Some(states);
  }

  lemma VisibleMore(memberships: seq<Domain.Membership>, group: Id, i: nat)
    requires i < |memberships|
    ensures forall player :: Visible(memberships[..i + 1], group, player) <==>
      Visible(memberships[..i], group, player) || (memberships[i].groupId == group && memberships[i].player == player)
  {
    var before, m := memberships[..i], memberships[i];
    assert memberships[..i + 1] == before + [m];
    forall player
      ensures Visible(before + [m], group, player) <==> Visible(before, group, player) || (m.groupId == group && m.player == player)
    {
      assert m in before + [m];
      assert forall other :: other in before + [m] <==> other in before || other == m;
    }
  }

  lemma TooMany(memberships: seq<Domain.Membership>, group: Id, i: nat, players: set<Id>)
    requires i < |memberships| && memberships[i].groupId == group && memberships[i].player !in players
    requires forall player <- players :: Visible(memberships[..i], group, player)
    ensures exists more: set<Id> ::
      |more| == |players| + 1 && forall player <- more :: Visible(memberships, group, player)
  {
    var more := players + {memberships[i].player};
    forall player <- more ensures Visible(memberships, group, player) {
      assert memberships[i] in memberships;
      if player in players {
        var m :| m in memberships[..i] && m.groupId == group && m.player == player;
        assert m in memberships;
      }
    }
    assert |more| == |players| + 1;
  }

  lemma NotBefore(memberships: seq<Domain.Membership>, group: Id, i: nat)
    requires Domain.Sorted(memberships) && i < |memberships|
    ensures !Visible(memberships[..i], group, memberships[i].player)
  {
    if Visible(memberships[..i], group, memberships[i].player) {
      var m :| m in memberships[..i] && m.player == memberships[i].player;
      var j :| 0 <= j < i && memberships[j] == m;
      Domain.SortedAt(memberships, j, i);
      Domain.Text.LessIsStrict(m.player, m.player);
    }
  }

  // ---------------------------------------------------------------- the specification of a read

  function Changes(previous: States, current: States): States {
    map player | player in current && (player !in previous || previous[player] != current[player]) :: current[player]
  }

  function Keep(revisions: seq<Revision>): seq<Revision> {
    if |revisions| > MAXIMUM_REVISIONS then revisions[1..] else revisions
  }

  /** The view after a read that finds these states; none when the version numbers run out. */
  function Observe(v: View, current: States): Option<View> {
    if !v.initialized then Some(v.(initialized := true, version := 1, states := current))
    else if v.states == current then Some(v)
    else if v.version == UINT64_SIZE - 1 then None
    else Some(View(true, v.version + 1, current,
                   Keep(v.revisions + [Revision(v.version + 1, Changes(v.states, current))])))
  }

  function Restrict(entries: States, states: States): States {
    map player | player in entries && player in states :: entries[player]
  }

  /** The last entry of every visible player in the revisions after a version. */
  function Latest(revisions: seq<Revision>, states: States, after: nat): States {
    if revisions == [] then map[]
    else
      var last := revisions[|revisions| - 1];
      Latest(revisions[..|revisions| - 1], states, after)
      + if last.version <= after then map[] else Restrict(last.entries, states)
  }

  predicate NeedsSnapshot(v: View, after: nat) {
    after == 0 || after > v.version || (v.revisions != [] && after < v.revisions[0].version - 1)
  }

  function Answer(v: View, after: Option<nat>): Response {
    match after
    case None => Snapshot(v.version, v.states)
    case Some(version) =>
      if NeedsSnapshot(v, version) then SnapshotRequired else Delta(v.version, Latest(v.revisions, v.states, version))
  }

  // ---------------------------------------------------------------- the record itself

  class VersionedPresence {
    var version: nat
    var initialized: bool
    var states: States
    var revisions: seq<Revision>

    constructor ()
      ensures Current() == View(false, 0, map[], [])
    {
      version, initialized, states, revisions := 0, false, map[], [];
    }

    function Current(): View
      reads this
    {
      View(initialized, version, states, revisions)
    }

    method Read(current: States, after: Option<nat>) returns (r: Response)
      modifies this
      ensures match Observe(old(Current()), current)
        case None => Current() == old(Current()) && r == VersionsExhausted
        case Some(v) => Current() == v && r == Answer(v, after)
    {
      if !initialized {
        version := 1;
        initialized := true;
        states := current;
      } else if states != current {
        if version == UINT64_SIZE - 1 { return VersionsExhausted; }
        version := version + 1;
        var entries := CollectChanges(states, current);
        states := current;
        revisions := revisions + [Revision(version, entries)];
        if |revisions| > MAXIMUM_REVISIONS { revisions := revisions[1..]; }
      }
      if after.Some? && (after.value == 0 || after.value > version || (revisions != [] && after.value < revisions[0].version - 1)) {
        return SnapshotRequired;
      }
      if after.None? { return Snapshot(version, states); }
      var latest := CollectLatest(revisions, states, after.value);
      return Delta(version, latest);
    }
  }

  method CollectLatest(revisions: seq<Revision>, states: States, after: nat) returns (latest: States)
    ensures latest == Latest(revisions, states, after)
  {
    latest := map[];
    for i := 0 to |revisions|
      invariant latest == Latest(revisions[..i], states, after)
    {
      assert revisions[..i + 1][..i] == revisions[..i];
      if revisions[i].version <= after { continue; }
      latest := Apply(latest, revisions[i].entries, states);
    }
    assert revisions[..|revisions|] == revisions;
  }

  method CollectChanges(previous: States, current: States) returns (entries: States)
    ensures entries == Changes(previous, current)
  {
    entries := map[];
    var left := current.Keys;
    while left != {}
      invariant left <= current.Keys
      invariant forall player :: player in entries <==> player in Changes(previous, current) && player !in left
      invariant forall player <- entries :: entries[player] == current[player]
      decreases |left|
    {
      var player :| player in left;
      left := left - {player};
      if player !in previous || previous[player] != current[player] {
        entries := entries[player := current[player]];
      }
    }
  }

  method Apply(latest: States, entries: States, states: States) returns (r: States)
    ensures r == latest + Restrict(entries, states)
  {
    r := latest;
    var left := entries.Keys;
    while left != {}
      invariant left <= entries.Keys
      invariant r == latest + Restrict(map player | player in entries && player !in left :: entries[player], states)
      decreases |left|
    {
      var player :| player in left;
      left := left - {player};
      if player in states { r := r[player := entries[player]]; }
    }
    assert (map player | player in entries && player !in left :: entries[player]) == entries;
  }

  // ---------------------------------------------------------------- histories

  /** The retained revisions are the changes between the last versions of a history, without a gap. */
  ghost predicate Recorded(v: View, history: seq<States>) {
    && v.initialized && v.version == |history| && |history| > 0
    && v.states == history[|history| - 1]
    && |v.revisions| == (if v.version - 1 < MAXIMUM_REVISIONS then v.version - 1 else MAXIMUM_REVISIONS)
    && forall i {:trigger v.revisions[i]} :: 0 <= i < |v.revisions| ==> RevisionFits(v.revisions[i], v.version - |v.revisions| + 1 + i, history)
  }

  predicate RevisionFits(revision: Revision, version: int, history: seq<States>) {
    && 2 <= version <= |history|
    && revision == Revision(version, Changes(history[version - 2], history[version - 1]))
  }

  /** A read extends the history by what it finds, unless that is what was there. */
  function Extend(v: View, history: seq<States>, current: States): seq<States> {
    if v.initialized && v.states == current then history else history + [current]
  }

  lemma ObserveRecords(v: View, history: seq<States>, current: States)
    requires if v.initialized then Recorded(v, history) else history == [] && v.revisions == []
    requires Observe(v, current).Some?
    ensures Recorded(Observe(v, current).value, Extend(v, history, current))
  {
    if v.initialized && v.states != current { ChangeRecords(v, history, current); }
  }

  lemma RevisionStillFits(revision: Revision, version: int, history: seq<States>, current: States)
    requires RevisionFits(revision, version, history)
    ensures RevisionFits(revision, version, history + [current])
  {}

  lemma ChangeRecords(v: View, history: seq<States>, current: States)
    requires Recorded(v, history) && v.states != current && Observe(v, current).Some?
    ensures Recorded(Observe(v, current).value, history + [current])
  {
    var v', longer := Observe(v, current).value, history + [current];
    var added := Revision(v.version + 1, Changes(v.states, current));
    var cut := if |v.revisions| == MAXIMUM_REVISIONS then 1 else 0;
    assert RevisionFits(added, v.version + 1, longer);
    forall i | 0 <= i < |v'.revisions|
      ensures RevisionFits(v'.revisions[i], v'.version - |v'.revisions| + 1 + i, longer)
    {
      assert v'.revisions[i] == (v.revisions + [added])[i + cut];
      if i + cut < |v.revisions| {
        RevisionStillFits(v.revisions[i + cut], v.version - |v.revisions| + 1 + i + cut, history, current);
      }
    }
  }

  /** Which bases a delta is served from: exactly the versions the retained revisions reach back to. */
  lemma ServedBases(v: View, history: seq<States>, after: nat)
    requires Recorded(v, history)
    ensures !NeedsSnapshot(v, after) <==> v.version - |v.revisions| <= after <= v.version && after >= 1
  {
    if v.revisions != [] { assert RevisionFits(v.revisions[0], v.version - |v.revisions| + 1, history); }
  }

  /** Overlaying the entries on the older states gives the newer state of a player that is visible in both sets. */
  predicate Overlays(entries: States, base: States, states: States, player: Id) {
    player in states ==>
      if player in entries then entries[player] == states[player] else player in base && base[player] == states[player]
  }

  lemma {:induction false} LatestOverlays(v: View, history: seq<States>, after: nat, count: nat, player: Id)
    requires Recorded(v, history) && count <= |v.revisions| && 1 <= after <= v.version && v.version - |v.revisions| <= after
    requires player in v.states
    ensures var reached := v.version - |v.revisions| + count;
      Overlays(Latest(v.revisions[..count], v.states, after), history[after - 1],
               history[(if reached < after then after else reached) - 1], player)
  {
    if count > 0 {
      LatestOverlays(v, history, after, count - 1, player);
      assert v.revisions[..count][..count - 1] == v.revisions[..count - 1];
      assert RevisionFits(v.revisions[count - 1], v.version - |v.revisions| + count, history);
    }
  }

  /**
   * A delta is exact: whenever one is served, overlaying it on the states at its base version gives every currently
   * visible player its current state, and it names no one else.
   */
  lemma DeltaIsExact(v: View, history: seq<States>, after: nat)
    requires Recorded(v, history) && !NeedsSnapshot(v, after)
    ensures var delta := Answer(v, Some(after));
      && delta.Delta? && delta.version == |history| && delta.entries.Keys <= v.states.Keys
      && Restrict(history[after - 1] + delta.entries, v.states) == v.states
  {
    ServedBases(v, history, after);
    var entries := Latest(v.revisions, v.states, after);
    assert v.revisions[..|v.revisions|] == v.revisions;
    LatestIsVisible(v.revisions, v.states, after);
    forall player | player in v.states ensures Overlays(entries, history[after - 1], v.states, player) {
      LatestOverlays(v, history, after, |v.revisions|, player);
    }
  }

  lemma {:induction false} LatestIsVisible(revisions: seq<Revision>, states: States, after: nat)
    ensures Latest(revisions, states, after).Keys <= states.Keys
  {
    if revisions != [] { LatestIsVisible(revisions[..|revisions| - 1], states, after); }
  }

  // ---------------------------------------------------------------- chains of polls

  /** What a polling client holds: the version it knows and the states it has put together. */
  datatype Client = Client(version: nat, known: States)

  /** The server's record with the states at all its versions, and one client polling it. */
  datatype World = World(view: View, history: seq<States>, client: Option<Client>)

  /** A read by somebody else, or the client's own poll, each finding the states of that moment. */
  datatype Event = Other(current: States) | Poll(current: States)

  function Base(client: Option<Client>): Option<nat> {
    match client
    case None => None
    case Some(c) => Some(c.version)
  }

  /** A client takes a snapshot as it is and overlays a delta; told to, it starts over. */
  function Receive(client: Option<Client>, response: Response): Option<Client> {
    match response
    case Snapshot(version, entries) => Some(Client(version, entries))
    case Delta(version, entries) => if client.Some? then Some(Client(version, client.value.known + entries)) else None
    case SnapshotRequired => None
    case VersionsExhausted => client
  }

  function Next(w: World, e: Event): World {
    match Observe(w.view, e.current)
    case None => w
    case Some(view) =>
      var history := Extend(w.view, w.history, e.current);
      World(view, history, if e.Poll? then Receive(w.client, Answer(view, Base(w.client))) else w.client)
  }

  function Run(w: World, events: seq<Event>): World
    decreases |events|
  {
    if events == [] then w else Run(Next(w, events[0]), events[1..])
  }

  const START: World := World(View(false, 0, map[], []), [], None)

  /** On every player visible at the client's version, the client is right. */
  ghost predicate Agrees(c: Client, history: seq<States>) {
    1 <= c.version <= |history| && Restrict(c.known, history[c.version - 1]) == history[c.version - 1]
  }

  ghost predicate Inv(w: World) {
    && (if w.view.initialized then Recorded(w.view, w.history) else w.history == [] && w.view.revisions == [] && w.client.None?)
    && (w.client.Some? ==> Agrees(w.client.value, w.history))
  }

  lemma NextInv(w: World, e: Event)
    requires Inv(w)
    ensures Inv(Next(w, e))
    ensures e.Poll? && Next(w, e).client.Some? && Observe(w.view, e.current).Some? ==>
      Next(w, e).client.value.version == |Next(w, e).history|
  {
    if Observe(w.view, e.current).Some? {
      var view, history := Observe(w.view, e.current).value, Extend(w.view, w.history, e.current);
      ObserveRecords(w.view, w.history, e.current);
      if w.client.Some? {
        var c := w.client.value;
        assert history[c.version - 1] == w.history[c.version - 1];
        if e.Poll? && !NeedsSnapshot(view, c.version) { OverlayAgrees(view, history, c); }
      } else {
        assert Restrict(view.states, view.states) == view.states;
      }
    }
  }

  lemma OverlayAgrees(v: View, history: seq<States>, c: Client)
    requires Recorded(v, history) && !NeedsSnapshot(v, c.version) && Agrees(c, history)
    ensures Agrees(Client(v.version, c.known + Answer(v, Some(c.version)).entries), history)
  {
    var base, delta := history[c.version - 1], Answer(v, Some(c.version)).entries;
    DeltaIsExact(v, history, c.version);
    forall player | player in v.states ensures player in c.known + delta && (c.known + delta)[player] == v.states[player] {
      assert player in Restrict(base + delta, v.states) && Restrict(base + delta, v.states)[player] == v.states[player];
      if player !in delta {
        assert player in base && player in Restrict(c.known, base) && Restrict(c.known, base)[player] == base[player];
      }
    }
  }

  lemma {:induction false} RunInv(w: World, events: seq<Event>)
    requires Inv(w)
    ensures Inv(Run(w, events))
    decreases |events|
  {
    if events != [] {
      NextInv(w, events[0]);
      RunInv(Next(w, events[0]), events[1..]);
    }
  }

  /** However reads interleave, a client whose poll is answered knows the current state of every visible player. */
  lemma PollingAgrees(events: seq<Event>, current: States)
    ensures var w := Next(Run(START, events), Poll(current));
      Observe(Run(START, events).view, current).Some? && w.client.Some? ==>
        w.client.value.version == w.view.version && Restrict(w.client.value.known, current) == current
  {
    RunInv(START, events);
    NextInv(Run(START, events), Poll(current));
  }

  /** A client that polls without missing more than the retained revisions is never told to start over. */
  lemma PollIsServed(events: seq<Event>, current: States)
    requires Observe(Run(START, events).view, current).Some?
    ensures var w := Run(START, events); var view := Observe(w.view, current).value;
      w.client.Some? ==> (Answer(view, Base(w.client)).Delta? <==> view.version - w.client.value.version <= 128)
  {
    var w := Run(START, events);
    RunInv(START, events);
    if w.client.Some? {
      ObserveRecords(w.view, w.history, current);
      ServedBases(Observe(w.view, current).value, Extend(w.view, w.history, current), w.client.value.version);
    }
  }
}
