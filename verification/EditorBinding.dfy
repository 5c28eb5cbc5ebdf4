/**
 The Monaco/Yjs binding: two mutable texts, two handlers that call each other
 re-entrantly, and the flag that stops the echo.
 */
module EditorBinding {
  import opened TextEdits

  /** What can happen to an attached editor. */
  datatype Happening = Typed(changes: seq<Change>) | Arrived(delta: seq<DeltaOp>)

  /** The model while a delta is replayed: `done` is rebuilt, the old text from `at` on is still to come. */
  ghost predicate Replaying(s: string, delta: seq<DeltaOp>, at: nat, done: string, model: string, target: string) {
    Fits(s, delta, at) && at <= |s| && model == done + s[at..] && done + ApplyDelta(s, delta, at) == target
  }

  lemma {:induction false} ReplayStep(
    s: string, delta: seq<DeltaOp>, at: nat, done: string, model: string, target: string)
    requires delta != [] && Replaying(s, delta, at, done, model, target)
    ensures match delta[0]
            case Retain(n) => at + n <= |s| && Replaying(s, delta[1..], at + n, done + s[at..at + n], model, target)
            case Insert(text) =>
              Replaying(s, delta[1..], at, done + text, Splice(model, Change(|done|, 0, text)), target)
            case Delete(n) =>
              && |done| + n <= |model|
              && Replaying(s, delta[1..], at + n, done, Splice(model, Change(|done|, n, "")), target)
  {
    FitsIsInside(s, delta[1..], if delta[0].Insert? then at else at + delta[0].n);
    match delta[0] {
      case Retain(n) =>
        var later := ApplyDelta(s, delta[1..], at + n);
        assert done + (s[at..at + n] + later) == done + s[at..at + n] + later;
        assert s[at..] == s[at..at + n] + s[at + n..];
      case Insert(text) =>
        assert done + (text + ApplyDelta(s, delta[1..], at)) == done + text + ApplyDelta(s, delta[1..], at);
      case Delete(n) =>
        assert s[at..][n..] == s[at + n..];
    }
  }

  /** The text after a run, with events that could not have been raised left out. */
  function Outcome(text: string, happenings: seq<Happening>): string {
    if happenings == [] then text
    else
      var before := Outcome(text, happenings[..|happenings| - 1]);
      match happenings[|happenings| - 1]
      case Typed(changes) => if Separate(before, changes) then Replaced(before, changes) else before
      case Arrived(delta) => if Fits(before, delta, 0) then ApplyDelta(before, delta, 0) else before
  }

  function LocalEdits(text: string, happenings: seq<Happening>): nat {
    if happenings == [] then 0
    else
      var before := happenings[..|happenings| - 1];
      var last := happenings[|happenings| - 1];
      LocalEdits(text, before) + (if last.Typed? && Separate(Outcome(text, before), last.changes) then 1 else 0)
  }

  class Binding {
    var ytext: string
    var model: string
    var applying: bool
    /** Local transactions made on the document: each one is sent to the peers. */
    var transactions: nat
    /** Edits the binding made in Monaco. */
    var modelEdits: nat

    constructor (text: string, shown: string)
      ensures ytext == text && model == text && !applying && transactions == 0
    {
      ytext := text;
      model := if shown != text then text else shown;
      applying := false;
      transactions, modelEdits := 0, 0;
    }

    /**
     The content-change handler. Monaco has already changed `model`; outside
     the mutex the document is brought level with it in one transaction, whose
     own event is ignored on re-entry. Inside the mutex it does nothing.
     */
    method OnModelChanged(changes: seq<Change>)
      requires !applying ==> Separate(ytext, changes) && model == Replaced(ytext, changes)
      modifies this
      ensures applying == old(applying) && model == old(model) && modelEdits == old(modelEdits)
      ensures old(applying) ==> ytext == old(ytext) && transactions == old(transactions)
      ensures !old(applying) ==> ytext == model && transactions == old(transactions) + 1
      decreases if applying then 0 else 1, 0
    {
      if applying {
        return;
      }
      applying := true;
      var sorted := SortDescending(changes);
      var i := 0;
      while i < |sorted|
        invariant 0 <= i <= |sorted|
        invariant ApplyEach(ytext, sorted[i..]) == ApplyEach(old(ytext), sorted)
        invariant applying && model == old(model)
        invariant transactions == old(transactions) && modelEdits == old(modelEdits)
      {
        assert sorted[i..][1..] == sorted[i + 1..];
        ytext := Splice(ytext, sorted[i]);
        i := i + 1;
      }
      transactions := transactions + 1;
      ValidEventIff(old(ytext), changes);
      DescendingEqualsSimultaneous(old(ytext), sorted);
      OnTextChanged(DeltaOf(Reverse(sorted), 0));
      applying := false;
    }

    /**
     The document-change handler. The document has already changed; outside the
     mutex its delta is replayed on `model` with a running index, and the
     content event of every edit is ignored on re-entry. Inside the mutex it
     does nothing.
     */
    method OnTextChanged(delta: seq<DeltaOp>)
      requires !applying ==> Fits(model, delta, 0) && ytext == ApplyDelta(model, delta, 0)
      modifies this
      ensures applying == old(applying) && ytext == old(ytext) && transactions == old(transactions)
      ensures old(applying) ==> model == old(model) && modelEdits == old(modelEdits)
      ensures !old(applying) ==> model == ytext
      decreases if applying then 0 else 1, 2
    {
      if applying {
        return;
      }
      applying := true;
      ghost var s, at, done := model, 0, "";
      var index := 0;
      var i := 0;
      assert delta[0..] == delta;
      while i < |delta|
        invariant 0 <= i <= |delta|
        invariant Replaying(s, delta[i..], at, done, model, ytext) && index == |done|
        invariant applying && ytext == old(ytext) && transactions == old(transactions)
      {
        assert delta[i..][1..] == delta[i + 1..];
        index, at, done := Replay(delta[i], index, s, delta[i..], at, done);
        i := i + 1;
      }
      assert delta[i..] == [];
      applying := false;
    }

    /** The body of that loop: one operation at the running index. */
    method Replay(
      op: DeltaOp, index: nat, ghost s: string, ghost delta: seq<DeltaOp>, ghost at: nat, ghost done: string)
      returns (index': nat, ghost at': nat, ghost done': string)
      requires delta != [] && delta[0] == op && applying
      requires Replaying(s, delta, at, done, model, ytext) && index == |done|
      modifies this
      ensures Replaying(s, delta[1..], at', done', model, ytext) && index' == |done'|
      ensures applying && ytext == old(ytext) && transactions == old(transactions)
      decreases 0, 2
    {
      ReplayStep(s, delta, at, done, model, ytext);
      match op {
        case Retain(n) =>
          index', at', done' := index + n, at + n, done + s[at..at + n];
        case Insert(text) =>
          ApplyModelEdit(Change(index, 0, text));
          index', at', done' := index + |text|, at, done + text;
        case Delete(n) =>
          ApplyModelEdit(Change(index, n, ""));
          index', at', done' := index, at + n, done;
      }
    }

    /** `model.applyEdits` with one edit, which raises a content event at once. */
    method ApplyModelEdit(change: Change)
      requires applying && change.offset + change.length <= |model|
      modifies this
      ensures model == Splice(old(model), change) && modelEdits == old(modelEdits) + 1
      ensures applying && ytext == old(ytext) && transactions == old(transactions)
      decreases 0, 1
    {
      model := Splice(model, change);
      modelEdits := modelEdits + 1;
      OnModelChanged([change]);
    }

    /**
     After any run of local edits and remote deltas the two texts agree on the
     outcome of all of them; each local edit made exactly one transaction and
     each remote delta none, so nothing is echoed.
     */
    method Live(happenings: seq<Happening>)
      requires ytext == model && !applying
      modifies this
      ensures ytext == model == Outcome(old(ytext), happenings) && !applying
      ensures transactions == old(transactions) + LocalEdits(old(ytext), happenings)
    {
      for i := 0 to |happenings|
        invariant ytext == model == Outcome(old(ytext), happenings[..i]) && !applying
        invariant transactions == old(transactions) + LocalEdits(old(ytext), happenings[..i])
      {
        assert happenings[..i + 1][..i] == happenings[..i];
        match happenings[i] {
          case Typed(changes) =>
            // Monaco raises only events that are valid for the text it shows.
            if Separate(model, changes) {
              model := Replaced(model, changes);
              OnModelChanged(changes);
            }
          case Arrived(delta) =>
            if Fits(ytext, delta, 0) {
              ytext := ApplyDelta(ytext, delta, 0);
              OnTextChanged(delta);
            }
        }
      }
      assert happenings[..|happenings|] == happenings;
    }
  }
}
