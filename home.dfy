/** The hero section's typing effect: a four-field state machine that types
    the current word one character at a time, pauses, erases it one
    character at a time and moves on to the next word of a fixed list.
    The step functions and their lemmas are stated for any word list; the
    component runs them on `WORDS`. */
module Home {

  const TYPING_SPEED: nat := 100
  const ERASING_SPEED: nat := 50
  const PAUSE_DURATION: nat := 2000
  const WORDS: seq<string> :=
    ["CCT Graduate Major in Web Development", "Tech Enthusiast", "UI/UX Designer", "Lifelong Learner"]

  /** The four state variables of the effect. */
  datatype TypingState = TypingState(text: string, charIndex: int, wordIndex: int, isTyping: bool)

  const Initial := TypingState("", 0, 0, true)

  /** The state at which the word `wi` starts being typed. */
  function Start(wi: nat): TypingState
  {
    TypingState("", 0, wi, true)
  }

  /** The indices `handleTyping` may be called with. */
  predicate InRange(words: seq<string>, s: TypingState)
  {
    0 <= s.wordIndex < |words| && 0 <= s.charIndex
  }

  /** The invariant of the effect: the shown text is the prefix of the
      current word that `charIndex` has reached. */
  ghost predicate Inv(words: seq<string>, s: TypingState)
  {
    && 0 <= s.wordIndex < |words|
    && 0 <= s.charIndex <= |words[s.wordIndex]|
    && s.text == words[s.wordIndex][..s.charIndex]
  }

  /** `prev.slice(0, -1)`: everything but the last character. */
  function DropLast(s: string): (r: string)
    ensures s != [] ==> r + [s[|s| - 1]] == s
    ensures s == [] ==> r == []
  {
    if s == [] then [] else s[..|s| - 1]
  }

  /** True when a typing tick finds the word complete: the tick changes
      nothing and only schedules the switch to erasing after the pause. */
  predicate PauseDue(words: seq<string>, s: TypingState)
    requires InRange(words, s)
  {
    s.isTyping && s.charIndex >= |words[s.wordIndex]|
  }

  /** One run of `handleTyping`. */
  function Tick(words: seq<string>, s: TypingState): (r: TypingState)
    requires InRange(words, s)
    ensures InRange(words, r)
    ensures Inv(words, s) ==> Inv(words, r)
    ensures PauseDue(words, s) ==> r == s
  {
    var word := words[s.wordIndex];
    if s.isTyping then
      if s.charIndex < |word| then
        s.(text := s.text + [word[s.charIndex]], charIndex := s.charIndex + 1)
      else
        s
    else if s.charIndex > 0 then
      s.(text := DropLast(s.text), charIndex := s.charIndex - 1)
    else
      s.(wordIndex := (s.wordIndex + 1) % |words|, isTyping := true)
  }

  /** The pause timer firing, `PAUSE_DURATION` milliseconds after it was
      scheduled: `setIsTyping(false)`. */
  function PauseElapsed(s: TypingState): (r: TypingState)
    ensures r.text == s.text && r.charIndex == s.charIndex && r.wordIndex == s.wordIndex
    ensures !r.isTyping
  {
    s.(isTyping := false)
  }

  /** The delay before the next tick: typing ticks are twice as slow as erasing ticks. */
  function TickDelay(isTyping: bool): (ms: nat)
    ensures isTyping ==> ms == TYPING_SPEED
    ensures !isTyping ==> ms == ERASING_SPEED
  {
    if isTyping then TYPING_SPEED else ERASING_SPEED
  }

  /** The events that drive the effect: the tick timer or the pause timer. */
  datatype Event = TickTimer | PauseTimer

  function Step(words: seq<string>, s: TypingState, e: Event): TypingState
    requires InRange(words, s)
  {
    match e
    case TickTimer => Tick(words, s)
    case PauseTimer => PauseElapsed(s)
  }

  /** The state after a sequence of events, the last event applied last. */
  function Run(words: seq<string>, s: TypingState, es: seq<Event>): (r: TypingState)
    requires InRange(words, s)
    ensures InRange(words, r)
  {
    if es == [] then s else Step(words, Run(words, s, es[..|es| - 1]), es[|es| - 1])
  }

  /** Whatever order the timers fire in, every state reached from the
      initial state shows a prefix of the current word. */
  lemma {:induction false} RunPreservesInv(words: seq<string>, es: seq<Event>)
    requires |words| > 0
    ensures Inv(words, Run(words, Initial, es))
  {
    if es != [] {
      RunPreservesInv(words, es[..|es| - 1]);
    }
  }

  /** `n` ticks in a row. */
  function Ticks(words: seq<string>, s: TypingState, n: nat): (r: TypingState)
    requires InRange(words, s)
    ensures InRange(words, r)
  {
    if n == 0 then s else Tick(words, Ticks(words, s, n - 1))
  }

  /** From the start of a word, `k` ticks type its first `k` characters. */
  lemma {:induction false} TypesPrefix(words: seq<string>, wi: nat, k: nat)
    requires wi < |words| && k <= |words[wi]|
    ensures Ticks(words, Start(wi), k) == TypingState(words[wi][..k], k, wi, true)
  {
    if k > 0 {
      var w := words[wi];
      TypesPrefix(words, wi, k - 1);
      assert w[..k - 1] + [w[k - 1]] == w[..k];
    }
  }

  /** While erasing, `k` ticks remove the last `k` characters shown. */
  lemma {:induction false} ErasesSuffix(words: seq<string>, wi: nat, c: nat, k: nat)
    requires wi < |words| && k <= c <= |words[wi]|
    ensures Ticks(words, TypingState(words[wi][..c], c, wi, false), k)
         == TypingState(words[wi][..c - k], c - k, wi, false)
  {
    if k > 0 {
      var w := words[wi];
      ErasesSuffix(words, wi, c, k - 1);
      assert DropLast(w[..c - k + 1]) == w[..c - k];
    }
  }

  /** One full cycle: type the word, reach its end (the pause is scheduled
      and nothing changes), let the pause elapse, erase the word, and wrap
      to the start of the next word. */
  lemma WordCycle(words: seq<string>, wi: nat)
    requires wi < |words|
    ensures var typed := Ticks(words, Start(wi), |words[wi]|);
            && PauseDue(words, typed) && Tick(words, typed) == typed
            && Tick(words, Ticks(words, PauseElapsed(typed), |words[wi]|)) == Start((wi + 1) % |words|)
  {
    var w := words[wi];
    var n := |w|;
    TypesPrefix(words, wi, n);
    assert w[..n] == w;
    var typed := Ticks(words, Start(wi), n);
    ErasesSuffix(words, wi, n, n);
    var erased := Ticks(words, PauseElapsed(typed), n);
    assert erased == TypingState(w[..0], 0, wi, false);
  }

  /** The component's state, updated in place by the timers. */
  class TypingEffect {
    const words: seq<string>
    var text: string
    var charIndex: int
    var wordIndex: int
    var isTyping: bool

    function State(): TypingState
      reads this
    {
      TypingState(text, charIndex, wordIndex, isTyping)
    }

    ghost predicate Valid()
      reads this
    {
      Inv(words, State())
    }

    constructor ()
      ensures words == WORDS
      ensures Valid() && State() == Initial
    {
      words := WORDS;
      text, charIndex, wordIndex, isTyping := "", 0, 0, true;
    }

    /** `handleTyping`. Returns whether the pause timer was scheduled. */
    method HandleTyping() returns (pauseScheduled: bool)
      requires Valid()
      modifies this
      ensures Valid()
      ensures State() == Tick(words, old(State()))
      ensures pauseScheduled == PauseDue(words, old(State()))
      ensures old(isTyping) && old(charIndex) < |words[old(wordIndex)]| ==>
                text == old(text) + [words[old(wordIndex)][old(charIndex)]] && charIndex == old(charIndex) + 1
      ensures !old(isTyping) && old(charIndex) > 0 ==>
                text + [old(text)[|old(text)| - 1]] == old(text) && charIndex == old(charIndex) - 1
      ensures !old(isTyping) && old(charIndex) == 0 ==>
                wordIndex == (old(wordIndex) + 1) % |words| && isTyping
    {
      pauseScheduled := false;
      var word := words[wordIndex];
      if isTyping {
        if charIndex < |word| {
          text := text + [word[charIndex]];
          charIndex := charIndex + 1;
        } else {
          pauseScheduled := true;
        }
      } else {
        if charIndex > 0 {
          text := DropLast(text);
          charIndex := charIndex - 1;
        } else {
          wordIndex := (wordIndex + 1) % |words|;
          isTyping := true;
        }
      }
    }

    /** The scheduled pause elapsing: `setIsTyping(false)`. */
    method EndPause()
      requires Valid()
      modifies this
      ensures Valid()
      ensures State() == PauseElapsed(old(State()))
    {
      isTyping := false;
    }

    /** The delay the effect waits before the next tick. */
    method NextDelay() returns (ms: nat)
      ensures ms == TickDelay(isTyping)
    {
      ms := TickDelay(isTyping);
    }
  }
}
