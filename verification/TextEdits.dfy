/** What Monaco content changes and Yjs deltas mean, independently of the loops that apply them. */
module TextEdits {

  /** One Monaco change; offsets refer to the text before any change of the same event. */
  datatype Change = Change(offset: nat, length: nat, text: string)

  datatype DeltaOp = Retain(n: nat) | Insert(text: string) | Delete(n: nat)

  /** `delete(offset, length)` followed by `insert(offset, text)`. */
  function Splice(s: string, c: Change): string {
    if c.offset + c.length <= |s| then s[..c.offset] + c.text + s[c.offset + c.length..] else s
  }

  // ---- Simultaneous replacement ----

  /** Disjoint ranges with distinct offsets, in ascending order, from `from` on. */
  predicate AscendingFrom(s: string, changes: seq<Change>, from: nat) {
    if changes == [] then from <= |s|
    else
      && from <= changes[0].offset
      && changes[0].offset + changes[0].length <= |s|
      && (forall i :: 0 < i < |changes| ==> changes[0].offset < changes[i].offset)
      && AscendingFrom(s, changes[1..], changes[0].offset + changes[0].length)
  }

  /** The text from `from` on with every range replaced at once: nothing is shifted by an earlier replacement. */
  function ReplaceFrom(s: string, changes: seq<Change>, from: nat): string
    requires AscendingFrom(s, changes, from)
  {
    if changes == [] then s[from..]
    else s[from..changes[0].offset] + changes[0].text +
         ReplaceFrom(s, changes[1..], changes[0].offset + changes[0].length)
  }

  /** Insert by descending offset, behind those with the same offset: the stable sort of the handler. */
  function InsertDescending(sorted: seq<Change>, c: Change): seq<Change> {
    if sorted == [] then [c]
    else if c.offset > sorted[0].offset then [c] + sorted
    else [sorted[0]] + InsertDescending(sorted[1..], c)
  }

  function SortDescending(changes: seq<Change>): seq<Change> {
    if changes == [] then []
    else InsertDescending(SortDescending(changes[..|changes| - 1]), changes[|changes| - 1])
  }

  function Reverse(changes: seq<Change>): seq<Change> {
    if changes == [] then [] else Reverse(changes[1..]) + [changes[0]]
  }

  /** Sorted by the handler and read backwards, the changes are in ascending order. */
  predicate ValidEvent(s: string, changes: seq<Change>) {
    AscendingFrom(s, Reverse(SortDescending(changes)), 0)
  }

  /** What an event did to the text. */
  function Replaced(s: string, changes: seq<Change>): string
    requires Separate(s, changes)
  {
    ValidEventIff(s, changes);
    ReplaceFrom(s, Reverse(SortDescending(changes)), 0)
  }

  /** Changes applied one after the other to the text as it is then. */
  function ApplyEach(s: string, changes: seq<Change>): string
    decreases |changes|
  {
    if changes == [] then s else ApplyEach(Splice(s, changes[0]), changes[1..])
  }

  lemma {:induction false} InsertKeepsChanges(sorted: seq<Change>, c: Change)
    ensures multiset(InsertDescending(sorted, c)) == multiset(sorted) + multiset{c}
  {
    if sorted != [] {
      InsertKeepsChanges(sorted[1..], c);
      assert sorted == [sorted[0]] + sorted[1..];
    }
  }

  lemma {:induction false} SortKeepsChanges(changes: seq<Change>)
    ensures multiset(SortDescending(changes)) == multiset(changes)
  {
    if changes != [] {
      SortKeepsChanges(changes[..|changes| - 1]);
      InsertKeepsChanges(SortDescending(changes[..|changes| - 1]), changes[|changes| - 1]);
      assert changes == changes[..|changes| - 1] + [changes[|changes| - 1]];
    }
  }

  lemma {:induction false} ReverseKeepsChanges(changes: seq<Change>)
    ensures multiset(Reverse(changes)) == multiset(changes)
  {
    if changes != [] {
      ReverseKeepsChanges(changes[1..]);
      assert changes == [changes[0]] + changes[1..];
    }
  }

  lemma HeadIsLeast(s: string, changes: seq<Change>, from: nat, c: Change)
    requires AscendingFrom(s, changes, from) && c in changes
    ensures c == changes[0] || changes[0].offset < c.offset
  {
    var i :| 0 <= i < |changes| && changes[i] == c;
  }

  lemma TailChanges(changes: seq<Change>)
    requires changes != []
    ensures multiset(changes[1..]) == multiset(changes) - multiset{changes[0]}
  {
    assert changes == [changes[0]] + changes[1..];
  }

  lemma SameHead(s: string, a: seq<Change>, b: seq<Change>, from: nat, from': nat)
    requires AscendingFrom(s, a, from) && AscendingFrom(s, b, from') && multiset(a) == multiset(b) && a != []
    ensures b != [] && a[0] == b[0]
  {
    assert a[0] in multiset(b) && a[0] in b;
    assert b[0] in multiset(a) && b[0] in a;
    HeadIsLeast(s, a, from, b[0]);
    HeadIsLeast(s, b, from', a[0]);
  }

  /** Two ascending lists of the same changes are the same list. */
  lemma {:induction false} AscendingIsUnique(s: string, a: seq<Change>, b: seq<Change>, from: nat, from': nat)
    requires AscendingFrom(s, a, from) && AscendingFrom(s, b, from') && multiset(a) == multiset(b)
    ensures a == b
    decreases |a|
  {
    if a == [] {
      assert |multiset(b)| == 0;
    } else {
      SameHead(s, a, b, from, from');
      TailChanges(a);
      TailChanges(b);
      AscendingIsUnique(s, a[1..], b[1..], a[0].offset + a[0].length, b[0].offset + b[0].length);
    }
  }

  /** Whatever order an event lists its changes in, it is an event and means the replacement of its ascending form. */
  lemma EventOrderIsIrrelevant(s: string, changes: seq<Change>, ascending: seq<Change>)
    requires AscendingFrom(s, ascending, 0) && multiset(ascending) == multiset(changes)
    ensures Separate(s, changes)
    ensures Replaced(s, changes) == ReplaceFrom(s, ascending, 0)
  {
    AscendingIff(s, ascending, 0);
    assert Separate(s, ascending);
    SeparatePermutes(s, ascending, changes);
    ValidEventIff(s, changes);
    SortKeepsChanges(changes);
    ReverseKeepsChanges(SortDescending(changes));
    AscendingIsUnique(s, Reverse(SortDescending(changes)), ascending, 0, 0);
  }

  // ---- Which events there are, said of the changes as they come ----

  predicate Apart(a: Change, b: Change) {
    || (a.offset < b.offset && a.offset + a.length <= b.offset)
    || (b.offset < a.offset && b.offset + b.length <= a.offset)
  }

  /** Ranges inside the text that are disjoint and start at different offsets, in any order. */
  predicate Separate(s: string, changes: seq<Change>) {
    && (forall i :: 0 <= i < |changes| ==> changes[i].offset + changes[i].length <= |s|)
    && (forall i, j :: 0 <= i < j < |changes| ==> Apart(changes[i], changes[j]))
  }

  lemma {:induction false} AscendingIff(s: string, changes: seq<Change>, from: nat)
    ensures AscendingFrom(s, changes, from) <==>
              && from <= |s|
              && (forall i :: 0 <= i < |changes| ==>
                    from <= changes[i].offset && changes[i].offset + changes[i].length <= |s|)
              && (forall i, j :: 0 <= i < j < |changes| ==>
                    changes[i].offset < changes[j].offset && changes[i].offset + changes[i].length <= changes[j].offset)
    decreases |changes|
  {
    if changes != [] {
      var rest, next := changes[1..], changes[0].offset + changes[0].length;
      AscendingIff(s, rest, next);
      assert forall i :: 0 < i < |changes| ==> changes[i] == rest[i - 1];
      assert forall i :: 0 <= i < |rest| ==> rest[i] == changes[i + 1];
    }
  }

  lemma {:induction false} SeparateCounts(s: string, changes: seq<Change>, c: Change)
    requires Separate(s, changes)
    ensures multiset(changes)[c] <= 1
  {
    if changes != [] {
      assert changes == [changes[0]] + changes[1..];
      SeparateCounts(s, changes[1..], c);
      forall i | 0 <= i < |changes[1..]| ensures changes[1..][i] != changes[0] {
        assert Apart(changes[0], changes[i + 1]);
      }
    }
  }

  lemma TwiceCounts(changes: seq<Change>, i: nat, j: nat)
    requires i < j < |changes| && changes[i] == changes[j]
    ensures multiset(changes)[changes[i]] >= 2
  {
    assert changes == changes[..j] + [changes[j]] + changes[j + 1..];
    assert changes[..j][i] == changes[i];
  }

  lemma {:induction false} SeparatePermutes(s: string, a: seq<Change>, b: seq<Change>)
    requires Separate(s, a) && multiset(a) == multiset(b)
    ensures Separate(s, b)
  {
    forall i | 0 <= i < |b| ensures b[i].offset + b[i].length <= |s| {
      assert b[i] in multiset(a) && b[i] in a;
    }
    forall i, j | 0 <= i < j < |b| ensures Apart(b[i], b[j]) {
      SeparateCounts(s, a, b[i]);
      if b[i] == b[j] {
        TwiceCounts(b, i, j);
      }
      assert b[i] in multiset(a) && b[j] in multiset(a);
      var k :| 0 <= k < |a| && a[k] == b[i];
      var l :| 0 <= l < |a| && a[l] == b[j];
    }
  }

  predicate Descending(changes: seq<Change>) {
    forall i, j :: 0 <= i < j < |changes| ==> changes[i].offset >= changes[j].offset
  }

  lemma {:induction false} InsertKeepsDescending(sorted: seq<Change>, c: Change)
    requires Descending(sorted)
    ensures Descending(InsertDescending(sorted, c))
  {
    if sorted != [] && c.offset <= sorted[0].offset {
      var rest := InsertDescending(sorted[1..], c);
      InsertKeepsDescending(sorted[1..], c);
      InsertKeepsChanges(sorted[1..], c);
      forall k | 0 <= k < |rest| ensures rest[k].offset <= sorted[0].offset {
        assert rest[k] in multiset(rest);
        assert rest[k] == c || rest[k] in sorted[1..];
      }
    }
  }

  /** The handler's sort puts the largest offset first, which is what lets it apply the changes one by one. */
  lemma {:induction false} SortDescends(changes: seq<Change>)
    ensures Descending(SortDescending(changes))
    ensures multiset(SortDescending(changes)) == multiset(changes)
  {
    SortKeepsChanges(changes);
    if changes != [] {
      SortDescends(changes[..|changes| - 1]);
      InsertKeepsDescending(SortDescending(changes[..|changes| - 1]), changes[|changes| - 1]);
    }
  }

  lemma {:induction false} ReverseAt(changes: seq<Change>, k: nat)
    requires k < |changes|
    ensures |Reverse(changes)| == |changes| && Reverse(changes)[k] == changes[|changes| - 1 - k]
  {
    if |changes| > 1 {
      ReverseAt(changes[1..], if k < |changes| - 1 then k else 0);
    }
  }

  /** The events Monaco can raise are exactly the separate changes, whatever order it lists them in. */
  lemma {:induction false} ValidEventIff(s: string, changes: seq<Change>)
    ensures ValidEvent(s, changes) <==> Separate(s, changes)
  {
    var sorted := SortDescending(changes);
    var ascending := Reverse(sorted);
    SortDescends(changes);
    ReverseKeepsChanges(sorted);
    AscendingIff(s, ascending, 0);
    if Separate(s, changes) {
      SeparatePermutes(s, changes, ascending);
      forall i, j | 0 <= i < j < |ascending| ensures ascending[i].offset <= ascending[j].offset {
        assert |ascending| == |sorted| by {
          assert |multiset(ascending)| == |multiset(sorted)|;
        }
        ReverseAt(sorted, i);
        ReverseAt(sorted, j);
      }
      forall i, j | 0 <= i < j < |ascending|
        ensures ascending[i].offset < ascending[j].offset &&
                ascending[i].offset + ascending[i].length <= ascending[j].offset
      {
        assert Apart(ascending[i], ascending[j]);
      }
    }
    if ValidEvent(s, changes) {
      assert Separate(s, ascending);
      SeparatePermutes(s, ascending, changes);
    }
  }

  lemma OnlyChange(s: string, c: Change, from: nat)
    requires AscendingFrom(s, [c], from)
    ensures from <= c.offset && c.offset + c.length <= |s|
    ensures from <= |Splice(s, c)|
    ensures ReplaceFrom(s, [c], from) == Splice(s, c)[from..]
  {
    assert [c][1..] == [];
    assert ReplaceFrom(s, [c], from) == s[from..c.offset] + c.text + s[c.offset + c.length..];
  }

  /** A change behind `first` leaves the text up to `first` as it was. */
  lemma FrontUntouched(s: string, first: Change, last: Change, from: nat)
    requires from <= first.offset && first.offset + first.length <= last.offset && last.offset + last.length <= |s|
    ensures first.offset + first.length <= |Splice(s, last)|
    ensures Splice(s, last)[from..first.offset] == s[from..first.offset]
  {
  }

  /** Replacing the last range first leaves a text in which the others mean what they did. */
  lemma {:induction false} LastFirst(s: string, changes: seq<Change>, last: Change, from: nat)
    requires AscendingFrom(s, changes + [last], from)
    ensures from <= last.offset && last.offset + last.length <= |s|
    ensures AscendingFrom(Splice(s, last), changes, from)
    ensures ReplaceFrom(s, changes + [last], from) == ReplaceFrom(Splice(s, last), changes, from)
    decreases |changes|
  {
    var all := changes + [last];
    if changes == [] {
      assert all == [last];
      OnlyChange(s, last, from);
    } else {
      var first := changes[0];
      assert all[0] == first && all[1..] == changes[1..] + [last];
      LastFirst(s, changes[1..], last, first.offset + first.length);
      FrontUntouched(s, first, last, from);
      forall i | 0 < i < |changes| ensures first.offset < changes[i].offset {
        assert all[i] == changes[i];
      }
    }
  }

  /**
   Deleting and inserting one change after the other in descending order equals
   replacing all ranges at once: no offset ever needs adjusting.
   */
  lemma {:induction false} DescendingEqualsSimultaneous(s: string, descending: seq<Change>)
    requires AscendingFrom(s, Reverse(descending), 0)
    ensures ApplyEach(s, descending) == ReplaceFrom(s, Reverse(descending), 0)
    decreases |descending|
  {
    if descending != [] {
      LastFirst(s, Reverse(descending[1..]), descending[0], 0);
      DescendingEqualsSimultaneous(Splice(s, descending[0]), descending[1..]);
    } else {
      assert s[0..] == s;
    }
  }

  // ---- Deltas ----

  /** The delta reads no further than the text reaches. */
  predicate Fits(s: string, delta: seq<DeltaOp>, at: nat) {
    if delta == [] then at <= |s|
    else match delta[0]
         case Retain(n) => Fits(s, delta[1..], at + n)
         case Insert(_) => Fits(s, delta[1..], at)
         case Delete(n) => Fits(s, delta[1..], at + n)
  }

  lemma {:induction false} FitsIsInside(s: string, delta: seq<DeltaOp>, at: nat)
    requires Fits(s, delta, at)
    ensures at <= |s|
  {
    if delta != [] {
      FitsIsInside(s, delta[1..], if delta[0].Insert? then at else at + delta[0].n);
    }
  }

  /** How much of the old text a delta retains or deletes. */
  function Reads(delta: seq<DeltaOp>): nat {
    if delta == [] then 0 else (if delta[0].Insert? then 0 else delta[0].n) + Reads(delta[1..])
  }

  /** Every delta applies to every text that is long enough. */
  lemma {:induction false} FitsIff(s: string, delta: seq<DeltaOp>, at: nat)
    ensures Fits(s, delta, at) <==> at + Reads(delta) <= |s|
  {
    if delta != [] {
      FitsIff(s, delta[1..], if delta[0].Insert? then at else at + delta[0].n);
    }
  }

  /** The new text, read off the old one from `at` on: copy what is retained, skip what is deleted. */
  function ApplyDelta(s: string, delta: seq<DeltaOp>, at: nat): string
    requires Fits(s, delta, at)
  {
    FitsIsInside(s, delta, at);
    if delta == [] then s[at..]
    else match delta[0]
         case Retain(n) => FitsIsInside(s, delta[1..], at + n); s[at..at + n] + ApplyDelta(s, delta[1..], at + n)
         case Insert(text) => text + ApplyDelta(s, delta[1..], at)
         case Delete(n) => ApplyDelta(s, delta[1..], at + n)
  }

  /** The delta Yjs reports for a set of replacements. */
  function DeltaOf(changes: seq<Change>, from: nat): seq<DeltaOp> {
    if changes == [] || changes[0].offset < from then []
    else [Retain(changes[0].offset - from), Insert(changes[0].text), Delete(changes[0].length)] +
         DeltaOf(changes[1..], changes[0].offset + changes[0].length)
  }

  lemma {:induction false} DeltaOfOne(s: string, skip: nat, text: string, cut: nat, rest: seq<DeltaOp>, at: nat)
    requires at + skip + cut <= |s| && Fits(s, rest, at + skip + cut)
    ensures var delta := [Retain(skip), Insert(text), Delete(cut)] + rest;
            Fits(s, delta, at) &&
            ApplyDelta(s, delta, at) == s[at..at + skip] + text + ApplyDelta(s, rest, at + skip + cut)
  {
    var delta := [Retain(skip), Insert(text), Delete(cut)] + rest;
    var two, one := [Insert(text), Delete(cut)] + rest, [Delete(cut)] + rest;
    assert one[1..] == rest && two[1..] == one && delta[1..] == two;
    var tail := ApplyDelta(s, rest, at + skip + cut);
    assert Fits(s, one, at + skip) && ApplyDelta(s, one, at + skip) == tail;
    assert Fits(s, two, at + skip) && ApplyDelta(s, two, at + skip) == text + tail;
    assert s[at..at + skip] + (text + tail) == s[at..at + skip] + text + tail;
  }

  lemma {:induction false} DeltaOfFirst(s: string, changes: seq<Change>, from: nat)
    requires changes != [] && AscendingFrom(s, changes, from)
    requires var next := changes[0].offset + changes[0].length;
             Fits(s, DeltaOf(changes[1..], next), next) &&
             ApplyDelta(s, DeltaOf(changes[1..], next), next) == ReplaceFrom(s, changes[1..], next)
    ensures Fits(s, DeltaOf(changes, from), from)
    ensures ApplyDelta(s, DeltaOf(changes, from), from) == ReplaceFrom(s, changes, from)
  {
    var c := changes[0];
    var next := c.offset + c.length;
    AscendingIff(s, changes, from);
    DeltaOfOne(s, c.offset - from, c.text, c.length, DeltaOf(changes[1..], next), from);
    assert DeltaOf(changes, from) ==
           [Retain(c.offset - from), Insert(c.text), Delete(c.length)] + DeltaOf(changes[1..], next);
  }

  /** Sending an edit as a delta means the same as making it: peers end with the author's text. */
  lemma {:induction false} DeltaOfMeansReplacement(s: string, changes: seq<Change>, from: nat)
    requires AscendingFrom(s, changes, from)
    ensures Fits(s, DeltaOf(changes, from), from)
    ensures ApplyDelta(s, DeltaOf(changes, from), from) == ReplaceFrom(s, changes, from)
    decreases |changes|
  {
    if changes != [] {
      var c := changes[0];
      DeltaOfMeansReplacement(s, changes[1..], c.offset + c.length);
      DeltaOfFirst(s, changes, from);
    }
  }
}
