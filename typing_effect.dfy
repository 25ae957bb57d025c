/**
 * The typewriter hook: one character of the text appears per timer tick;
 * once the whole text is shown, one further (longer) tick marks the
 * animation complete, after which no timer is scheduled any more.
 */
module TypingEffect {
  import opened Numbers

  /** The hook's state: the text shown so far, the next index to type, and the completion flag. */
  datatype Typing = Typing(displayed: string, index: nat, complete: bool)

  /** The state the hook starts in, and returns to on `reset`. */
  const Start := Typing("", 0, false)

  /**
   * What the scheduled timer does when it fires: type the next character
   * while some are left, then set the completion flag; once complete, no
   * timer is pending and nothing changes.
   */
  function Step(text: string, t: Typing): (next: Typing)
    ensures t.displayed <= next.displayed && |next.displayed| <= |t.displayed| + 1
    ensures next == t <==> t.index >= |text| && t.complete
  {
    if t.index < |text| then Typing(t.displayed + [text[t.index]], t.index + 1, t.complete)
    else if !t.complete then Typing(t.displayed, t.index, true)
    else t
  }

  /** The state after n timer ticks from the start. */
  function Run(text: string, n: nat): (t: Typing)
    ensures Consistent(text, t)
  {
    if n == 0 then Start
    else
      var before := Run(text, n - 1);
      StepConsistent(text, before);
      Step(text, before)
  }

  /** A reachable state: what is shown is exactly the first `index` characters, and completion comes only at the end. */
  predicate Consistent(text: string, t: Typing) {
    t.index <= |text| && t.displayed == text[..t.index] && (t.complete ==> t.index == |text|)
  }

  /** Each tick keeps the state consistent and never makes the shown text shorter. */
  lemma StepConsistent(text: string, t: Typing)
    requires Consistent(text, t)
    ensures Consistent(text, Step(text, t))
    ensures t.displayed <= Step(text, t).displayed
    ensures t.index < |text| ==> |Step(text, t).displayed| == |t.displayed| + 1 && Step(text, t).index == t.index + 1
  {
    if t.index < |text| {
      assert text[..t.index + 1] == text[..t.index] + [text[t.index]];
    }
  }

  /**
   * After n ticks the first min(n, |text|) characters are shown, and the
   * animation is complete exactly when more ticks than characters have fired.
   */
  lemma {:induction false} RunShape(text: string, n: nat)
    ensures Run(text, n) == Typing(text[..Min(n, |text|)], Min(n, |text|), n > |text|)
  {
    if n > 0 {
      RunShape(text, n - 1);
      var m := Min(n - 1, |text|);
      if n - 1 < |text| {
        assert text[..m + 1] == text[..m] + [text[m]];
      }
    }
  }

  /** Once complete, the state stays as it is. */
  lemma CompleteIsFinal(text: string, t: Typing)
    requires Consistent(text, t) && t.complete
    ensures Step(text, t) == t
  {
  }

  /** The hook instance, for a fixed text. */
  class TypingHook {
    const text: string
    var displayed: string
    var index: nat
    var complete: bool

    function State(): Typing
      reads this
    {
      Typing(displayed, index, complete)
    }

    predicate Valid()
      reads this
    {
      Consistent(text, State())
    }

    constructor(text: string)
      ensures this.text == text
      ensures State() == Start && Valid()
    {
      this.text := text;
      displayed := "";
      index := 0;
      complete := false;
    }

    /** The pending timer fires (a typing tick, or the final delay). */
    method Tick()
      requires Valid()
      modifies this
      ensures State() == Step(text, old(State()))
      ensures Valid()
    {
      StepConsistent(text, State());
      if index < |text| {
        displayed := displayed + [text[index]];
        index := index + 1;
      } else if !complete {
        complete := true;
      }
    }

    /** `reset`: back to an empty display, ready to type again. */
    method Reset()
      modifies this
      ensures State() == Start && Valid()
    {
      displayed := "";
      index := 0;
      complete := false;
    }
  }
}
