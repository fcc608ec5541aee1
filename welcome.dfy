/** The welcome screen's typewriter: an interval that shows ever longer
    prefixes of a text and stops itself once the whole text is shown. */
module WelcomeScreen {

  /** The shortest of `i` and the text length: the prefix length the display holds after tick `i`. */
  function Shown(i: nat, n: nat): nat
  {
    if i < n then i else n
  }

  /** The effect's state: the local counter, the displayed text and whether the interval still runs. */
  class Typewriter {
    const text: string
    var index: nat
    var displayText: string
    var running: bool

    /** Each displayed value is the prefix that the counter, one tick behind, has reached. */
    ghost predicate Valid()
      reads this
    {
      && index <= |text| + 1
      && displayText == text[..if index == 0 then 0 else index - 1]
      && (!running ==> index == |text| + 1)
    }

    constructor (text: string)
      ensures Valid() && this.text == text
      ensures index == 0 && displayText == "" && running
    {
      this.text := text;
      index, displayText, running := 0, "", true;
    }

    /** One interval callback. */
    method Tick()
      requires Valid()
      modifies this
      ensures Valid()
      ensures old(running) && old(index) <= |text| ==>
                displayText == text[..old(index)] && index == old(index) + 1 && running
      ensures old(index) > |text| ==> displayText == old(displayText) && index == old(index) && !running
      ensures !old(running) ==> !running && displayText == old(displayText)
      ensures |displayText| >= |old(displayText)|
    {
      if index <= |text| {
        displayText := text[..index];
        index := index + 1;
      } else {
        running := false;
      }
    }
  }

  /** The values the display takes, tick after tick, until the interval
      clears itself: `text[..0]`, `text[..1]`, ..., the full text, and the
      full text once more on the tick that stops the interval. */
  method Frames(text: string) returns (frames: seq<string>)
    ensures |frames| == |text| + 2
    ensures forall i :: 0 <= i < |frames| ==> frames[i] == text[..Shown(i, |text|)]
    ensures frames[|text|] == text && frames[|text| + 1] == text
    ensures forall i, j :: 0 <= i <= j < |frames| ==> |frames[i]| <= |frames[j]|
  {
    var t := new Typewriter(text);
    frames := [];
    while t.running
      invariant t.Valid() && t.text == text
      invariant |frames| == t.index + (if t.running then 0 else 1)
      invariant forall i :: 0 <= i < |frames| ==> frames[i] == text[..Shown(i, |text|)]
      decreases |text| + 2 - |frames|
    {
      t.Tick();
      frames := frames + [t.displayText];
    }
  }
}
