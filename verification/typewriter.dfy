/** The typing effect of `script.js`: `type()` as a pure step on
    `(wordIndex, charIndex, isDeleting)` over a fixed word list. One step
    yields the text to display, the next state and the delay before the
    next step; `setTimeout` and the DOM writes are not modelled. */
module Typewriter {
  import opened Wrappers

  const Words: seq<string> :=
    ["Android Developer", "Web Developer", "Full Stack Developer", "UI/UX Designer", "Learner"]

  const TypingSpeed: int := 100
  const DeletingSpeed: int := 50
  const DelayBetweenWords: int := 1500
  const WordPause: int := 500

  datatype State = State(wordIndex: int, charIndex: int, isDeleting: bool)

  const Start: State := State(0, 0, false)

  /** The outcome of one call of `type()`: it returns early without
      rescheduling itself, which ends the animation, or it displays `text`
      and schedules the next call after `delay` milliseconds. */
  datatype Tick = Halt | Continue(next: State, text: string, delay: int)

  function Clamp(k: int, lo: int, hi: int): int
    requires lo <= hi
  {
    if k < lo then lo else if k > hi then hi else k
  }

  /** JavaScript's `w.substring(0, end)`: the end is clamped into
      `[0, w.length]`. */
  function Substring(w: string, end: int): (r: string)
    ensures r <= w
    ensures end <= 0 ==> r == ""
    ensures end >= |w| ==> r == w
    ensures 0 <= end <= |w| ==> |r| == end
  {
    w[..Clamp(end, 0, |w|)]
  }

  /** `words[wordIndex]`, which is `undefined` outside the array. */
  function CurrentWord(words: seq<string>, i: int): (r: Option<string>)
    ensures r.Some? <==> 0 <= i < |words|
    ensures r.Some? ==> r.value == words[i]
  {
    if 0 <= i < |words| then Some(words[i]) else None
  }

  predicate IsEndOfWord(st: State, w: string) {
    !st.isDeleting && st.charIndex == |w|
  }

  predicate IsStartOfWord(st: State) {
    st.isDeleting && st.charIndex == 0
  }

  /** One call of `type()`. `hasElement` is whether `.typing-text` exists.
      Both end tests look at the state before `charIndex` moves. */
  function Step(words: seq<string>, hasElement: bool, st: State): (r: Tick)
    ensures r.Halt? <==> !hasElement || CurrentWord(words, st.wordIndex).None? || words[st.wordIndex] == ""
    ensures r.Continue? ==>
      var w := words[st.wordIndex];
      var isEnd := IsEndOfWord(st, w);
      var isStart := IsStartOfWord(st);
      && !(isEnd && isStart)
      && r.text <= w
      && r.text == Substring(w, r.next.charIndex)
      && r.next.charIndex == (if st.isDeleting then st.charIndex - 1 else st.charIndex + 1)
      && (r.next.isDeleting <==> isEnd || (st.isDeleting && !isStart))
      && r.next.wordIndex == (if isStart then (st.wordIndex + 1) % |words| else st.wordIndex)
      && 0 <= r.next.wordIndex < |words|
      && r.delay == (if isEnd then DelayBetweenWords
                     else if isStart then WordPause
                     else if st.isDeleting then DeletingSpeed
                     else TypingSpeed)
  {
    if !hasElement then Halt
    else
      match CurrentWord(words, st.wordIndex)
      case None => Halt
      case Some(w) =>
        // An empty word is falsy in JavaScript, so `!currentWord` holds.
        if w == "" then Halt
        else
          var isEnd := IsEndOfWord(st, w);
          var isStart := IsStartOfWord(st);
          var text := if st.isDeleting then Substring(w, st.charIndex - 1) else Substring(w, st.charIndex + 1);
          var ci := if st.isDeleting then st.charIndex - 1 else st.charIndex + 1;
          var delta := if isEnd then DelayBetweenWords
                        else if st.isDeleting then DeletingSpeed
                        else TypingSpeed;
          // `wordIndex + 1` is positive, so JavaScript's truncating `%`
          // agrees with Dafny's.
          if isStart then Continue(State((st.wordIndex + 1) % |words|, ci, false), text, WordPause)
          else Continue(State(st.wordIndex, ci, st.isDeleting || isEnd), text, delta)
  }

  /** The bounds every reachable state keeps: a valid word index, and a
      character index in `[0, |w|+1]` while deleting and in `[-1, |w|]`
      while typing (the end-of-word step overshoots by one, the
      start-of-word step undershoots by one). */
  predicate InBounds(words: seq<string>, st: State) {
    && 0 <= st.wordIndex < |words|
    && (st.isDeleting ==> 0 <= st.charIndex <= |words[st.wordIndex]| + 1)
    && (!st.isDeleting ==> -1 <= st.charIndex <= |words[st.wordIndex]|)
  }

  lemma StepKeepsBounds(words: seq<string>, hasElement: bool, st: State)
    requires InBounds(words, st)
    ensures Step(words, hasElement, st).Continue? ==> InBounds(words, Step(words, hasElement, st).next)
  {
  }

  /** `n` calls of `type()` on a page that has the element; a halted
      animation stays where it stopped. */
  function Run(words: seq<string>, st: State, n: nat): State
    decreases n
  {
    if n == 0 then st
    else
      match Step(words, true, st)
      case Halt => st
      case Continue(next, _, _) => Run(words, next, n - 1)
  }

  /** From the start state, every state the animation reaches is in bounds. */
  lemma {:induction false} RunKeepsBounds(words: seq<string>, st: State, n: nat)
    requires InBounds(words, st)
    ensures InBounds(words, Run(words, st, n))
    decreases n
  {
    if n > 0 {
      StepKeepsBounds(words, true, st);
      match Step(words, true, st)
      case Halt =>
      case Continue(next, _, _) => RunKeepsBounds(words, next, n - 1);
    }
  }

  lemma StartInBounds()
    ensures InBounds(Words, Start)
    ensures forall n: nat :: InBounds(Words, Run(Words, Start, n))
  {
    forall n: nat
      ensures InBounds(Words, Run(Words, Start, n))
    {
      RunKeepsBounds(Words, Start, n);
    }
  }

  lemma {:induction false} RunAdditive(words: seq<string>, st: State, a: nat, b: nat)
    ensures Run(words, st, a + b) == Run(words, Run(words, st, a), b)
    decreases a
  {
    if a > 0 {
      match Step(words, true, st)
      case Halt =>
        RunHalted(words, st, b);
      case Continue(next, _, _) =>
        RunAdditive(words, next, a - 1, b);
    }
  }

  lemma RunHalted(words: seq<string>, st: State, n: nat)
    requires Step(words, true, st).Halt?
    ensures Run(words, st, n) == st
  {
  }

  /** Typing from character index `ci` reaches the full word, still in
      typing mode, after `|w| - ci` steps. */
  lemma {:induction false} TypingPhase(words: seq<string>, i: int, ci: int)
    requires 0 <= i < |words| && words[i] != ""
    requires -1 <= ci <= |words[i]|
    ensures Run(words, State(i, ci, false), |words[i]| - ci) == State(i, |words[i]|, false)
    decreases |words[i]| - ci
  {
    if ci < |words[i]| {
      assert Step(words, true, State(i, ci, false)).next == State(i, ci + 1, false);
      TypingPhase(words, i, ci + 1);
    }
  }

  /** Deleting from character index `ci` reaches index 0, still in
      deleting mode, after `ci` steps. */
  lemma {:induction false} DeletingPhase(words: seq<string>, i: int, ci: int)
    requires 0 <= i < |words| && words[i] != ""
    requires 0 <= ci <= |words[i]| + 1
    ensures Run(words, State(i, ci, true), ci) == State(i, 0, true)
    decreases ci
  {
    if ci > 0 {
      assert Step(words, true, State(i, ci, true)).next == State(i, ci - 1, true);
      DeletingPhase(words, i, ci - 1);
    }
  }

  /** One full word: typed out, held, deleted, and the next word begun at
      index -1, after `2|w| + 3 - ci` steps from typing position `ci`. */
  lemma WordCycle(words: seq<string>, i: int, ci: int)
    requires 0 <= i < |words| && words[i] != ""
    requires -1 <= ci <= |words[i]|
    ensures Run(words, State(i, ci, false), 2 * |words[i]| + 3 - ci) == State((i + 1) % |words|, -1, false)
  {
    var L := |words[i]|;
    TypingPhase(words, i, ci);
    assert Step(words, true, State(i, L, false)).next == State(i, L + 1, true);
    RunAdditive(words, State(i, ci, false), L - ci, 1);
    DeletingPhase(words, i, L + 1);
    RunAdditive(words, State(i, ci, false), L - ci + 1, L + 1);
    assert Step(words, true, State(i, 0, true)).next == State((i + 1) % |words|, -1, false);
    RunAdditive(words, State(i, ci, false), L - ci + 1 + L + 1, 1);
  }

  /** The page's animation finishes "Android Developer" and begins
      "Web Developer" after 37 steps. The step count is a parameter so the
      solver does not unfold `Run` on literals. */
  lemma FirstWordCycle(n: nat)
    requires n == 2 * |Words[0]| + 3
    ensures n == 37 && Run(Words, Start, n) == State(1, -1, false)
  {
    WordCycle(Words, 0, 0);
  }
}
