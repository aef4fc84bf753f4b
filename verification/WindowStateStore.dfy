/** The coalescing writer of window states: one write at a time, the newest note waiting behind it. */
module WindowStateStore {
  import opened Option

  /** `attempts` lists the texts handed to the file system, oldest first; `ended` counts the writes that are over. */
  datatype Writer = Writer(inFlight: bool, trailing: Option<string>, attempts: seq<string>, ended: nat)
  datatype Event = Noted(text: string) | WriteEnded(ok: bool)

  const Idle: Writer := Writer(false, None, [], 0)

  function StartWrite(w: Writer, text: string): Writer { w.(inFlight := true, attempts := w.attempts + [text]) }

  function Note(w: Writer, text: string): Writer {
    if w.inFlight then w.(trailing := Some(text)) else StartWrite(w, text)
  }

  /** Some write was started and is not over. */
  predicate Outstanding(w: Writer) { w.ended < |w.attempts| }

  /** A write that failed is reported and ends like any other; without one outstanding nothing can end. */
  function EndWrite(w: Writer): Writer {
    if !Outstanding(w) then w
    else
      var over := Writer(false, None, w.attempts, w.ended + 1);
      if w.trailing.Some? then StartWrite(over, w.trailing.value) else over
  }

  function Step(w: Writer, e: Event): Writer { if e.Noted? then Note(w, e.text) else EndWrite(w) }

  function Run(es: seq<Event>): Writer
    decreases |es|
  {
    if es == [] then Idle else Step(Run(es[..|es| - 1]), es[|es| - 1])
  }

  function Notes(es: seq<Event>): seq<string>
    decreases |es|
  {
    if es == [] then []
    else
      var before := Notes(es[..|es| - 1]);
      if es[|es| - 1].Noted? then before + [es[|es| - 1].text] else before
  }

  class SandWindowStateStore {
    var writeInFlight: bool
    var trailingText: Option<string>
    ghost var attempts: seq<string>
    ghost var ended: nat

    ghost function Abs(): Writer
      reads this
    {
      Writer(writeInFlight, trailingText, attempts, ended)
    }

    /** The flag says whether a write is outstanding, and then it is the only one. */
    ghost predicate Valid()
      reads this
    {
      OneAtATime(Abs())
    }

    constructor ()
      ensures Valid() && Abs() == Idle
    {
      writeInFlight, trailingText, attempts, ended := false, None, [], 0;
    }

    method NoteState(text: string)
      requires Valid()
      modifies this
      ensures Valid() && Abs() == Note(old(Abs()), text)
    {
      if writeInFlight {
        trailingText := Some(text);
        return;
      }
      BeginWrite(text);
    }

    method BeginWrite(text: string)
      modifies this
      ensures Abs() == StartWrite(old(Abs()), text)
    {
      writeInFlight := true;
      attempts := attempts + [text];
    }

    /** The `finally` of a write. */
    method WriteFinished()
      requires Valid() && Outstanding(Abs())
      modifies this
      ensures Valid() && Abs() == EndWrite(old(Abs()))
    {
      ended := ended + 1;
      writeInFlight := false;
      var trailing := trailingText;
      trailingText := None;
      if trailing.Some? {
        BeginWrite(trailing.value);
      }
    }
  }

  // ---------------------------------------------------------------- one write at a time

  /** Of the writes started, all are over but the one in flight. */
  predicate OneAtATime(w: Writer) {
    |w.attempts| == w.ended + (if w.inFlight then 1 else 0) && (w.trailing.Some? ==> w.inFlight)
  }

  /** Whatever is noted and however writes end, at most one write is under way, and the flag tells whether one is. */
  lemma {:induction false} AtMostOneWrite(es: seq<Event>)
    ensures OneAtATime(Run(es))
    decreases |es|
  {
    if es != [] {
      AtMostOneWrite(es[..|es| - 1]);
    }
  }

  // ---------------------------------------------------------------- refinement of writing every note

  /** a is b with some elements left out. */
  predicate Subsequence(a: seq<string>, b: seq<string>)
    decreases |b|
  {
    a == [] ||
    (b != [] && (Subsequence(a, b[..|b| - 1]) || (a[|a| - 1] == b[|b| - 1] && Subsequence(a[..|a| - 1], b[..|b| - 1]))))
  }

  lemma SubsequenceGrows(a: seq<string>, b: seq<string>, x: string)
    requires Subsequence(a, b)
    ensures Subsequence(a, b + [x]) && Subsequence(a + [x], b + [x])
  {
    assert (b + [x])[..|b|] == b && (a + [x])[..|a|] == a;
  }

  lemma {:induction false} SubsequenceShrinks(a: seq<string>, b: seq<string>, x: string)
    requires Subsequence(a + [x], b)
    ensures Subsequence(a, b)
    decreases |b|
  {
    assert (a + [x])[..|a|] == a;
    var rest := b[..|b| - 1];
    assert b == rest + [b[|b| - 1]];
    if Subsequence(a + [x], rest) {
      SubsequenceShrinks(a, rest, x);
    }
  }

  /** Attempts and what still waits, in order, are notes in order; nothing newer than the last of them was noted. */
  predicate Faithful(w: Writer, notes: seq<string>) {
    && (w.trailing.Some? ==> w.inFlight && notes != [] && w.trailing.value == notes[|notes| - 1]
                             && Subsequence(w.attempts + [w.trailing.value], notes))
    && (w.trailing.None? ==>
          && Subsequence(w.attempts, notes)
          && (w.attempts == [] <==> notes == [])
          && (notes != [] ==> w.attempts[|w.attempts| - 1] == notes[|notes| - 1]))
    && (w.inFlight ==> w.attempts != [])
  }

  lemma {:induction false} EveryRunIsFaithful(es: seq<Event>)
    ensures Faithful(Run(es), Notes(es))
    decreases |es|
  {
    if es != [] {
      var before := es[..|es| - 1];
      var w, notes := Run(before), Notes(before);
      EveryRunIsFaithful(before);
      AtMostOneWrite(before);
      if es[|es| - 1].Noted? {
        if w.trailing.Some? {
          SubsequenceShrinks(w.attempts, notes, w.trailing.value);
        }
        SubsequenceGrows(w.attempts, notes, es[|es| - 1].text);
      }
    }
  }

  /** Texts are written in the order noted, and once nothing is in flight the last text attempted is the last note. */
  lemma IdleMeansLatest(es: seq<Event>)
    ensures Subsequence(Run(es).attempts, Notes(es))
    ensures !Run(es).inFlight && Notes(es) != [] ==>
              Run(es).attempts != [] && Run(es).attempts[|Run(es).attempts| - 1] == Notes(es)[|Notes(es)| - 1]
  {
    EveryRunIsFaithful(es);
    var w := Run(es);
    if w.trailing.Some? {
      SubsequenceShrinks(w.attempts, Notes(es), w.trailing.value);
    }
  }

  /** A write that ends starts another only for a text that waited, so writing stops after at most one more. */
  lemma WritingSettles(es: seq<Event>, a: bool, b: bool)
    ensures !Run(es + [WriteEnded(a)] + [WriteEnded(b)]).inFlight
    ensures |Run(es + [WriteEnded(a)] + [WriteEnded(b)]).attempts| <= |Run(es).attempts| + 1
  {
    AtMostOneWrite(es);
    var one := es + [WriteEnded(a)];
    assert one[..|one| - 1] == es;
    assert (one + [WriteEnded(b)])[..|one|] == one;
  }
}
