/** What accepted push-to-talk bindings are, whatever order their chords are written in. */
module PttChords {
  import opened PttInput
  import Text

  // ---------------------------------------------------------------- the order of controls

  lemma ControlOrder(a: Control, b: Control)
    ensures a == b || ControlLess(a, b) || ControlLess(b, a)
    ensures !(ControlLess(a, b) && ControlLess(b, a)) && !ControlLess(a, a)
  {
    Text.LessIsTotal(a.device, b.device);
    Text.LessIsStrict(a.device, b.device);
  }

  lemma ControlLessIsTransitive(a: Control, b: Control, c: Control)
    requires ControlLess(a, b) && ControlLess(b, c)
    ensures ControlLess(a, c)
  {
    if a.device != b.device && b.device != c.device && Text.Less(a.device, b.device) && Text.Less(b.device, c.device) {
      Text.LessIsTransitive(a.device, b.device, c.device);
    }
    Text.LessIsStrict(a.device, b.device);
    Text.LessIsStrict(b.device, c.device);
  }

  ghost predicate Sorted(chord: seq<Control>) { forall i, j :: 0 <= i < j < |chord| ==> !ControlLess(chord[j], chord[i]) }

  lemma NotLessIsTransitive(a: Control, b: Control, c: Control)
    requires !ControlLess(b, a) && !ControlLess(c, b)
    ensures !ControlLess(c, a)
  {
    if ControlLess(c, a) {
      ControlOrder(a, b);
      ControlOrder(b, c);
      if a != b { ControlLessIsTransitive(c, a, b); }
    }
  }

  lemma {:induction false} InsertKeeps(c: Control, sorted: seq<Control>)
    ensures multiset(Insert(c, sorted)) == multiset{c} + multiset(sorted)
  {
    if sorted == [] || !ControlLess(sorted[0], c) {
    } else {
      InsertKeeps(c, sorted[1..]);
      assert sorted == [sorted[0]] + sorted[1..];
    }
  }

  lemma {:induction false} InsertSorts(c: Control, sorted: seq<Control>)
    requires Sorted(sorted)
    ensures Sorted(Insert(c, sorted))
  {
    if sorted == [] {
    } else if !ControlLess(sorted[0], c) {
      forall i | 0 <= i < |sorted| ensures !ControlLess(sorted[i], c) {
        ControlOrder(sorted[0], sorted[0]);
        if i > 0 { NotLessIsTransitive(c, sorted[0], sorted[i]); }
      }
    } else {
      var rest := Insert(c, sorted[1..]);
      InsertSorts(c, sorted[1..]);
      InsertKeeps(c, sorted[1..]);
      forall i | 0 <= i < |rest| ensures !ControlLess(rest[i], sorted[0]) {
        assert rest[i] in multiset(rest);
        assert rest[i] == c || rest[i] in sorted[1..];
        ControlOrder(sorted[0], c);
      }
    }
  }

  /** Normalising puts the same controls into order. */
  lemma {:induction false} NormalizedSorts(chord: seq<Control>)
    ensures Sorted(Normalized(chord)) && multiset(Normalized(chord)) == multiset(chord)
  {
    if chord != [] {
      NormalizedSorts(chord[1..]);
      InsertSorts(chord[0], Normalized(chord[1..]));
      InsertKeeps(chord[0], Normalized(chord[1..]));
      assert chord == [chord[0]] + chord[1..];
    }
  }

  lemma SameMembers(a: seq<Control>, b: seq<Control>)
    requires multiset(a) == multiset(b)
    ensures |a| == |b| && forall c :: c in a <==> c in b
  {
    assert |a| == |multiset(a)| == |multiset(b)| == |b|;
    forall c ensures c in a <==> c in b { assert c in multiset(a) <==> c in multiset(b); }
  }

  lemma SameRest(a: seq<Control>, b: seq<Control>)
    requires a != [] && b != [] && a[0] == b[0] && multiset(a) == multiset(b)
    ensures multiset(a[1..]) == multiset(b[1..])
  {
    assert a == [a[0]] + a[1..] && b == [b[0]] + b[1..];
    calc {
      multiset(a[1..]);
      multiset(a) - multiset{a[0]};
      multiset(b) - multiset{b[0]};
      multiset(b[1..]);
    }
  }

  lemma SameFirst(a: seq<Control>, b: seq<Control>)
    requires a != [] && b != [] && Sorted(a) && Sorted(b) && multiset(a) == multiset(b)
    ensures a[0] == b[0]
  {
    SameMembers(a, b);
    assert a[0] in b && b[0] in a;
    ControlOrder(a[0], b[0]);
  }

  /** And there is only one order. */
  lemma {:induction false} SortedOnce(a: seq<Control>, b: seq<Control>)
    requires Sorted(a) && Sorted(b) && multiset(a) == multiset(b)
    ensures a == b
  {
    SameMembers(a, b);
    if a != [] {
      SameFirst(a, b);
      SameRest(a, b);
      SortedOnce(a[1..], b[1..]);
      assert a == [a[0]] + a[1..] && b == [b[0]] + b[1..];
    }
  }

  lemma SameControlsSameChord(a: seq<Control>, b: seq<Control>)
    ensures Normalized(a) == Normalized(b) <==> multiset(a) == multiset(b)
  {
    NormalizedSorts(a);
    NormalizedSorts(b);
    if multiset(a) == multiset(b) { SortedOnce(Normalized(a), Normalized(b)); }
  }

  // ---------------------------------------------------------------- accepted chords

  /** A key, a mouse button up to the fifth, or a control of a game controller. */
  predicate IsControl(c: Control) {
    || (c.kind == Keyboard && c.code > 0 && c.usagePage == 0)
    || (c.kind == Mouse && 1 <= c.code <= 5 && c.usagePage == 0 && !c.extended)
    || (c.kind == GameController && c.code > 0 && c.usagePage > 0 && !c.extended)
  }

  lemma {:induction false} NoTwinsNoRepeats(chord: seq<Control>, i: nat, j: nat)
    requires Sorted(chord) && !HasAdjacentTwins(chord) && i < j < |chord|
    ensures ControlLess(chord[i], chord[j])
    decreases j
  {
    assert chord[j - 1] != chord[j];
    ControlOrder(chord[j - 1], chord[j]);
    if i < j - 1 {
      NoTwinsNoRepeats(chord, i, j - 1);
      ControlLessIsTransitive(chord[i], chord[j - 1], chord[j]);
    }
  }

  lemma {:induction false} CountAtMostOne(chord: seq<Control>, c: Control)
    requires forall i, j :: 0 <= i < j < |chord| ==> chord[i] != chord[j]
    ensures multiset(chord)[c] <= 1
  {
    if chord != [] {
      CountAtMostOne(chord[1..], c);
      assert chord == [chord[0]] + chord[1..];
      assert chord[0] !in chord[1..];
    }
  }

  lemma TwinsRepeat(chord: seq<Control>, i: nat)
    requires i + 1 < |chord| && chord[i] == chord[i + 1]
    ensures multiset(chord)[chord[i]] >= 2
  {
    var front, rest := chord[..i], chord[i + 1..];
    assert chord == front + ([chord[i]] + rest);
    assert chord[i] == rest[0] && rest[0] in multiset(rest);
    assert multiset(chord) == multiset(front) + (multiset{chord[i]} + multiset(rest));
  }

  lemma NoTwinsIsSet(sorted: seq<Control>)
    requires Sorted(sorted)
    ensures !HasAdjacentTwins(sorted) <==> forall c :: multiset(sorted)[c] <= 1
  {
    if HasAdjacentTwins(sorted) {
      var i :| 0 <= i < |sorted| - 1 && sorted[i] == sorted[i + 1];
      TwinsRepeat(sorted, i);
    } else {
      forall i, j | 0 <= i < j < |sorted| ensures sorted[i] != sorted[j] {
        NoTwinsNoRepeats(sorted, i, j);
        ControlOrder(sorted[i], sorted[j]);
      }
      forall c ensures multiset(sorted)[c] <= 1 { CountAtMostOne(sorted, c); }
    }
  }

  /** A chord by itself is in order exactly if it is a nonempty set of controls. */
  lemma ChordIsSet(chord: seq<Control>)
    ensures ChordError(Normalized(chord)).None? <==>
      chord != [] && (forall c <- chord :: IsControl(c)) && forall c :: multiset(chord)[c] <= 1
  {
    NormalizedSorts(chord);
    SameMembers(Normalized(chord), chord);
    NoTwinsIsSet(Normalized(chord));
    assert forall c :: ValidControl(c) <==> IsControl(c);
  }

  /** Accepted bindings have proper chords, and no two of them the same controls, in whatever order these are written. */
  lemma AcceptedChordsDiffer(bindings: seq<Binding>, i: nat, j: nat)
    requires Acceptable(bindings) && i < |bindings| && j < |bindings|
    ensures bindings[i].chord != [] && (forall c <- bindings[i].chord :: IsControl(c)) && forall c :: multiset(bindings[i].chord)[c] <= 1
    ensures i != j ==> multiset(bindings[i].chord) != multiset(bindings[j].chord)
  {
    ChordIsSet(bindings[i].chord);
    SameControlsSameChord(bindings[i].chord, bindings[j].chord);
    if i < j { assert !Clash(bindings[j], bindings[i]); } else if j < i { assert !Clash(bindings[i], bindings[j]); }
  }

  /** Two controls that one press can satisfy: the same but for the device, which one of them leaves open or both share. */
  predicate MeetIn(a: Control, b: Control) {
    a.(device := "") == b.(device := "") && (a.device == b.device || "" in [a.device, b.device])
  }

  /** Two bindings clash exactly if they have the same controls, or belong to different actions and meet control by control. */
  lemma ClashExactly(a: Binding, b: Binding)
    ensures Clash(a, b) <==>
      || multiset(a.chord) == multiset(b.chord)
      || (a.action != b.action && |a.chord| == |b.chord|
          && forall i :: 0 <= i < |Normalized(a.chord)| && i < |Normalized(b.chord)| ==> MeetIn(Normalized(a.chord)[i], Normalized(b.chord)[i]))
  {
    SameControlsSameChord(a.chord, b.chord);
    NormalizedSorts(a.chord);
    NormalizedSorts(b.chord);
    SameMembers(Normalized(a.chord), a.chord);
    SameMembers(Normalized(b.chord), b.chord);
    assert forall c, d :: Overlap(c, d) <==> MeetIn(c, d);
  }

  /** What an error says of its binding is so. */
  lemma ErrorsNameTheirFault(bindings: seq<Binding>, e: BindingError)
    requires e.index < |bindings| && AtFault(bindings, e)
    ensures var binding := bindings[e.index];
      match e.code
      case EmptyChord => binding.chord == []
      case InvalidControl => exists c :: c in binding.chord && !IsControl(c)
      case DuplicateControl => exists c :: multiset(binding.chord)[c] > 1
      case DuplicateBinding => exists j :: 0 <= j < e.index && Clash(binding, bindings[j]) && binding.action == bindings[j].action
      case ConflictingBinding => exists j :: 0 <= j < e.index && Clash(binding, bindings[j]) && binding.action != bindings[j].action
  {
    var chord := bindings[e.index].chord;
    NormalizedSorts(chord);
    SameMembers(Normalized(chord), chord);
    NoTwinsIsSet(Normalized(chord));
    assert forall c :: ValidControl(c) <==> IsControl(c);
  }
}
