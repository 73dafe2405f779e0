/**
 * The typewriter effect of the hero subtitle: a state machine that types a
 * word one character at a time, pauses, deletes it one character at a time
 * and moves on to the next word, cyclically.
 *
 * `Next` is the transition of one call of `type()`; the class `TypeWriter`
 * holds the same state in fields and its `Step` method updates them in place.
 * Each step returns the delay before the next one instead of scheduling it.
 */
module Typing {
  import opened Wrappers

  const DefaultTypeSpeed := 100
  const DefaultDeleteSpeed := 50
  const DefaultPauseDuration := 2000

  /** The options object passed to the constructor; a missing key is `None`. */
  datatype Options = Options(typeSpeed: Option<int>, deleteSpeed: Option<int>, pauseDuration: Option<int>)

  /** The three delays, in milliseconds, fixed at construction. */
  datatype Config = Config(typeSpeed: int, deleteSpeed: int, pauseDuration: int)

  /** The engine's state together with the text the element displays. */
  datatype State = State(wordIndex: nat, charIndex: int, isDeleting: bool, isWaiting: bool, text: string)

  /** The state after one step and the delay before the following step. */
  datatype Transition = Transition(next: State, delay: int)

  /** `option || fallback`: a missing option and the falsy number 0 both give the fallback. */
  function OrDefault(option: Option<int>, fallback: int): (r: int)
    ensures option.None? ==> r == fallback
    ensures option.Some? && option.value == 0 ==> r == fallback
    ensures option.Some? && option.value != 0 ==> r == option.value
    ensures fallback != 0 ==> r != 0
  {
    match option
    case None => fallback
    case Some(v) => if v != 0 then v else fallback
  }

  /** The delays the constructor derives from its options. */
  function Configure(options: Options): (c: Config)
    ensures c.typeSpeed != 0 && c.deleteSpeed != 0 && c.pauseDuration != 0
    ensures options.typeSpeed.None? ==> c.typeSpeed == 100
    ensures options.deleteSpeed.None? ==> c.deleteSpeed == 50
    ensures options.pauseDuration.None? ==> c.pauseDuration == 2000
    ensures options.typeSpeed == Some(0) ==> c.typeSpeed == DefaultTypeSpeed
    ensures options.deleteSpeed == Some(0) ==> c.deleteSpeed == DefaultDeleteSpeed
    ensures options.pauseDuration == Some(0) ==> c.pauseDuration == DefaultPauseDuration
    ensures options.typeSpeed.Some? && options.typeSpeed.value != 0 ==> c.typeSpeed == options.typeSpeed.value
    ensures options.deleteSpeed.Some? && options.deleteSpeed.value != 0 ==> c.deleteSpeed == options.deleteSpeed.value
    ensures options.pauseDuration.Some? && options.pauseDuration.value != 0 ==> c.pauseDuration == options.pauseDuration.value
  {
    Config(OrDefault(options.typeSpeed, DefaultTypeSpeed),
           OrDefault(options.deleteSpeed, DefaultDeleteSpeed),
           OrDefault(options.pauseDuration, DefaultPauseDuration))
  }

  /** JavaScript's `w.substring(0, k)`: the end index is clamped into [0, |w|]. */
  function Substring(w: string, k: int): (r: string)
    ensures r <= w
    ensures 0 <= k <= |w| ==> |r| == k
    ensures k <= 0 ==> r == ""
    ensures |w| <= k ==> r == w
  {
    if k < 0 then "" else if k > |w| then w else w[..k]
  }

  /** The state of a freshly constructed (or reset) engine. */
  function Initial(text: string): State {
    State(0, 0, false, false, text)
  }

  /**
   * One call of `type()`. A waiting step turns into deleting; a deleting step
   * removes one character and, at zero, moves to the next word; a typing step
   * adds one character and, at the full word, starts waiting.
   */
  function Next(words: seq<string>, cfg: Config, s: State): (t: Transition)
    requires s.wordIndex < |words|
    ensures t.next.wordIndex < |words|
    ensures t.next.wordIndex == s.wordIndex || t.next.wordIndex == (s.wordIndex + 1) % |words|
    ensures t.delay == cfg.typeSpeed || t.delay == cfg.deleteSpeed || t.delay == cfg.pauseDuration
    ensures !(t.next.isDeleting && t.next.isWaiting)
  {
    var word := words[s.wordIndex];
    if s.isWaiting then
      Transition(s.(isWaiting := false, isDeleting := true), cfg.deleteSpeed)
    else if s.isDeleting then
      var c := s.charIndex - 1;
      if c == 0 then
        Transition(State((s.wordIndex + 1) % |words|, c, false, false, Substring(word, c)), cfg.deleteSpeed)
      else
        Transition(s.(charIndex := c, text := Substring(word, c)), cfg.deleteSpeed)
    else
      var c := s.charIndex + 1;
      if c == |word| then
        Transition(s.(charIndex := c, text := Substring(word, c), isWaiting := true), cfg.pauseDuration)
      else
        Transition(s.(charIndex := c, text := Substring(word, c)), cfg.typeSpeed)
  }

  /**
   * What a step displays: a typing or deleting step shows the prefix of the
   * (new) current word up to the new character index; a waiting step changes
   * neither the text nor the character index.
   */
  lemma NextDisplays(words: seq<string>, cfg: Config, s: State)
    requires s.wordIndex < |words|
    ensures var t := Next(words, cfg, s);
      !s.isWaiting ==> t.next.text == Substring(words[t.next.wordIndex], t.next.charIndex)
    ensures var t := Next(words, cfg, s);
      s.isWaiting ==> t.next.text == s.text && t.next.charIndex == s.charIndex
  {
  }

  /** Every word has at least one character (the source has no guard for an empty word). */
  ghost predicate NonEmptyWords(words: seq<string>) {
    forall i :: 0 <= i < |words| ==> |words[i]| > 0
  }

  /**
   * The states reachable from the initial state: the indices are in bounds,
   * at most one flag is set, waiting happens at the full word, deleting with
   * at least one character shown, and the text is the typed prefix (the text
   * is only stale before the first character is typed).
   */
  ghost predicate Inv(words: seq<string>, s: State) {
    s.wordIndex < |words| &&
    0 <= s.charIndex <= |words[s.wordIndex]| &&
    !(s.isDeleting && s.isWaiting) &&
    (s.isWaiting ==> s.charIndex == |words[s.wordIndex]|) &&
    (s.isDeleting ==> 0 < s.charIndex) &&
    (!s.isDeleting && !s.isWaiting ==> s.charIndex < |words[s.wordIndex]|) &&
    (0 < s.charIndex ==> s.text == words[s.wordIndex][..s.charIndex])
  }

  lemma InitialInv(words: seq<string>, text: string)
    requires |words| > 0 && NonEmptyWords(words)
    ensures Inv(words, Initial(text))
  {
  }

  /** A step keeps the invariant, and afterwards the display is exactly the typed prefix of the current word. */
  lemma NextKeepsInv(words: seq<string>, cfg: Config, s: State)
    requires NonEmptyWords(words) && Inv(words, s)
    ensures Inv(words, Next(words, cfg, s).next)
    ensures Next(words, cfg, s).next.text == words[Next(words, cfg, s).next.wordIndex][..Next(words, cfg, s).next.charIndex]
  {
  }

  /** The state after k steps. */
  function Run(words: seq<string>, cfg: Config, s: State, k: nat): (r: State)
    requires s.wordIndex < |words|
    ensures r.wordIndex < |words|
    decreases k
  {
    if k == 0 then s else Run(words, cfg, Next(words, cfg, s).next, k - 1)
  }

  /** The time, in milliseconds, that k steps take (the sum of the delays they choose). */
  function Elapsed(words: seq<string>, cfg: Config, s: State, k: nat): int
    requires s.wordIndex < |words|
    decreases k
  {
    if k == 0 then 0 else Next(words, cfg, s).delay + Elapsed(words, cfg, Next(words, cfg, s).next, k - 1)
  }

  /** Running a + b steps is running a steps and then b steps. */
  lemma {:induction false} RunAdd(words: seq<string>, cfg: Config, s: State, a: nat, b: nat)
    requires s.wordIndex < |words|
    ensures Run(words, cfg, s, a + b) == Run(words, cfg, Run(words, cfg, s, a), b)
    ensures Elapsed(words, cfg, s, a + b) == Elapsed(words, cfg, s, a) + Elapsed(words, cfg, Run(words, cfg, s, a), b)
    decreases a
  {
    if a > 0 {
      RunAdd(words, cfg, Next(words, cfg, s).next, a - 1, b);
    }
  }

  /** From c typed characters, |w| - c typing steps show the whole word and start waiting. */
  lemma {:induction false} TypingPhase(words: seq<string>, cfg: Config, s: State)
    requires s.wordIndex < |words|
    requires !s.isDeleting && !s.isWaiting && 0 <= s.charIndex < |words[s.wordIndex]|
    ensures var w := words[s.wordIndex];
      Run(words, cfg, s, |w| - s.charIndex) == State(s.wordIndex, |w|, false, true, w)
    ensures var w := words[s.wordIndex];
      Elapsed(words, cfg, s, |w| - s.charIndex) == (|w| - s.charIndex - 1) * cfg.typeSpeed + cfg.pauseDuration
    decreases |words[s.wordIndex]| - s.charIndex
  {
    var w, c := words[s.wordIndex], s.charIndex;
    var k := |w| - c;
    var t := Next(words, cfg, s);
    assert Run(words, cfg, s, k) == Run(words, cfg, t.next, k - 1);
    assert Elapsed(words, cfg, s, k) == t.delay + Elapsed(words, cfg, t.next, k - 1);
    if c + 1 < |w| {
      assert t == Transition(s.(charIndex := c + 1, text := w[..c + 1]), cfg.typeSpeed);
      TypingPhase(words, cfg, t.next);
      assert (k - 1) * cfg.typeSpeed == (k - 2) * cfg.typeSpeed + cfg.typeSpeed;
    } else {
      assert w[..c + 1] == w;
      assert t == Transition(State(s.wordIndex, |w|, false, true, w), cfg.pauseDuration);
    }
  }

  /** From c shown characters, c deleting steps empty the display and move on to the next word. */
  lemma {:induction false} DeletingPhase(words: seq<string>, cfg: Config, s: State)
    requires s.wordIndex < |words|
    requires s.isDeleting && !s.isWaiting && 0 < s.charIndex
    ensures Run(words, cfg, s, s.charIndex) == State((s.wordIndex + 1) % |words|, 0, false, false, "")
    ensures Elapsed(words, cfg, s, s.charIndex) == s.charIndex * cfg.deleteSpeed
    decreases s.charIndex
  {
    var c := s.charIndex;
    var t := Next(words, cfg, s);
    assert Run(words, cfg, s, c) == Run(words, cfg, t.next, c - 1);
    assert Elapsed(words, cfg, s, c) == t.delay + Elapsed(words, cfg, t.next, c - 1);
    if c > 1 {
      assert t == Transition(s.(charIndex := c - 1, text := Substring(words[s.wordIndex], c - 1)), cfg.deleteSpeed);
      DeletingPhase(words, cfg, t.next);
      assert c * cfg.deleteSpeed == (c - 1) * cfg.deleteSpeed + cfg.deleteSpeed;
    } else {
      assert t == Transition(State((s.wordIndex + 1) % |words|, 0, false, false, ""), cfg.deleteSpeed);
    }
  }

  /** The number of steps one word takes: |w| typing, one waiting, |w| deleting. */
  function CycleLength(words: seq<string>, i: nat): nat
    requires i < |words|
  {
    2 * |words[i]| + 1
  }

  /**
   * One full cycle: from no characters typed, the engine types the word,
   * waits, deletes it and ends with nothing typed on the next word (cyclically),
   * after (|w| - 1) typing delays, one pause and |w| + 1 deleting delays.
   */
  lemma FullCycle(words: seq<string>, cfg: Config, i: nat, text: string)
    requires i < |words| && |words[i]| > 0
    ensures Run(words, cfg, State(i, 0, false, false, text), CycleLength(words, i))
         == State((i + 1) % |words|, 0, false, false, "")
    ensures Elapsed(words, cfg, State(i, 0, false, false, text), CycleLength(words, i))
         == (|words[i]| - 1) * cfg.typeSpeed + cfg.pauseDuration + (|words[i]| + 1) * cfg.deleteSpeed
  {
    var w := words[i];
    var s0 := State(i, 0, false, false, text);
    TypingPhase(words, cfg, s0);
    var s1 := Run(words, cfg, s0, |w|);
    assert s1 == State(i, |w|, false, true, w);
    var s2 := Next(words, cfg, s1).next;
    assert Run(words, cfg, s1, 1) == s2;
    assert Elapsed(words, cfg, s1, 1) == cfg.deleteSpeed;
    DeletingPhase(words, cfg, s2);
    RunAdd(words, cfg, s0, |w|, 1);
    RunAdd(words, cfg, s0, |w| + 1, |w|);
  }

  /** k full cycles from state s. */
  function Cycles(words: seq<string>, cfg: Config, s: State, k: nat): (r: State)
    requires s.wordIndex < |words|
    ensures r.wordIndex < |words|
    decreases k
  {
    if k == 0 then s
    else
      var before := Cycles(words, cfg, s, k - 1);
      Run(words, cfg, before, CycleLength(words, before.wordIndex))
  }

  /** A positive multiple of n is at least n. */
  lemma {:induction false} MulAtLeast(x: nat, n: nat)
    requires x >= 1
    ensures x * n >= n
    decreases x
  {
    if x > 1 {
      MulAtLeast(x - 1, n);
      assert x * n == (x - 1) * n + n;
    }
  }

  /** Euclidean division is unique: a quotient and remainder in range are the ones `/` and `%` give. */
  lemma DivModUnique(a: int, n: int, q: int, r: int)
    requires n > 0 && 0 <= r < n && a == q * n + r
    ensures a % n == r
  {
    var q', r' := a / n, a % n;
    assert a == q' * n + r';
    assert (q - q') * n == r' - r by {
      assert (q - q') * n == q * n - q' * n;
    }
    if q > q' {
      MulAtLeast(q - q', n);
    } else if q < q' {
      MulAtLeast(q' - q, n);
    }
  }

  /** Moving on from word (k - 1) mod n gives word k mod n. */
  lemma ModSucc(k: nat, n: nat)
    requires n > 0 && k > 0
    ensures ((k - 1) % n + 1) % n == k % n
  {
    var q, r := (k - 1) / n, (k - 1) % n;
    assert k - 1 == q * n + r;
    if r + 1 < n {
      DivModUnique(k, n, q, r + 1);
      DivModUnique(r + 1, n, 0, r + 1);
    } else {
      DivModUnique(k, n, q + 1, 0);
      DivModUnique(r + 1, n, 1, 0);
    }
  }

  /**
   * Cyclic liveness: starting from the initial state, after k full cycles the
   * engine is about to type word k mod |words| with an empty display.
   */
  lemma {:induction false} VisitsWordsInOrder(words: seq<string>, cfg: Config, text: string, k: nat)
    requires |words| > 0 && NonEmptyWords(words)
    ensures Cycles(words, cfg, Initial(text), k) == State(k % |words|, 0, false, false, if k == 0 then text else "")
  {
    if k > 0 {
      ModSucc(k, |words|);
      VisitsWordsInOrder(words, cfg, text, k - 1);
      NextCycle(words, cfg, Initial(text), k, (k - 1) % |words|, if k - 1 == 0 then text else "");
    }
  }

  /** One more cycle after the (k-1)-th ends on word i moves on to word i + 1 (cyclically). */
  lemma NextCycle(words: seq<string>, cfg: Config, s: State, k: nat, i: nat, text: string)
    requires s.wordIndex < |words| && 0 < k && i < |words| && |words[i]| > 0
    requires Cycles(words, cfg, s, k - 1) == State(i, 0, false, false, text)
    ensures Cycles(words, cfg, s, k) == State((i + 1) % |words|, 0, false, false, "")
  {
    FullCycle(words, cfg, i, text);
  }

  /**
   * An empty word is never finished: typing it raises the character index
   * forever and never reaches the waiting state, so the engine is stuck on it.
   */
  lemma {:induction false} EmptyWordTypesForever(words: seq<string>, cfg: Config, s: State, k: nat)
    requires s.wordIndex < |words| && words[s.wordIndex] == ""
    requires !s.isDeleting && !s.isWaiting && 0 <= s.charIndex
    ensures Run(words, cfg, s, k) == s.(charIndex := s.charIndex + k, text := if k == 0 then s.text else "")
    ensures Elapsed(words, cfg, s, k) == k * cfg.typeSpeed
    decreases k
  {
    if k > 0 {
      EmptyWordTypesForever(words, cfg, Next(words, cfg, s).next, k - 1);
    }
  }

  /** The roles the page types, with the delays the page passes in. */
  const Roles: seq<string> := ["Data Engineer.", "ML Researcher.", "Full Stack Developer.", "Problem Solver."]
  const RolesOptions: Options := Options(Some(80), Some(40), Some(2500))

  /** On the page, "Data Engineer." is typed, held and deleted in 4140 ms, after which "ML Researcher." is next. */
  lemma RolesFirstCycle(text: string)
    ensures Configure(RolesOptions) == Config(80, 40, 2500)
    ensures Run(Roles, Configure(RolesOptions), Initial(text), 29) == State(1, 0, false, false, "")
    ensures Elapsed(Roles, Configure(RolesOptions), Initial(text), 29) == 4140
  {
    assert |Roles[0]| == 14;
    FullCycle(Roles, Configure(RolesOptions), 0, text);
  }

  /**
   * The typewriter object. `text` is the element's text content and
   * `hasElement` whether the element exists at all.
   */
  class TypeWriter {
    const hasElement: bool
    const words: seq<string>
    const config: Config
    var currentWordIndex: nat
    var currentCharIndex: int
    var isDeleting: bool
    var isWaiting: bool
    var text: string

    /** The abstract state held in the fields. */
    function Snapshot(): State
      reads this
    {
      State(currentWordIndex, currentCharIndex, isDeleting, isWaiting, text)
    }

    /** The word index is in range whenever there are words at all. */
    ghost predicate Valid()
      reads this
    {
      currentWordIndex == 0 || currentWordIndex < |words|
    }

    constructor (hasElement: bool, words: seq<string>, options: Options, text: string)
      ensures this.hasElement == hasElement && this.words == words
      ensures config == Configure(options)
      ensures Snapshot() == Initial(text)
      ensures Valid()
    {
      this.hasElement := hasElement;
      this.words := words;
      config := Configure(options);
      currentWordIndex := 0;
      currentCharIndex := 0;
      isDeleting := false;
      isWaiting := false;
      this.text := text;
    }

    /** `type()`: one step of the animation; returns the delay before the next step. */
    method Step() returns (delay: int)
      requires Valid() && hasElement && |words| > 0
      modifies this
      ensures Valid()
      ensures Snapshot() == Next(words, config, old(Snapshot())).next
      ensures delay == Next(words, config, old(Snapshot())).delay
      // waiting: switch to deleting, nothing else changes
      ensures old(isWaiting) ==>
        !isWaiting && isDeleting && delay == config.deleteSpeed &&
        currentCharIndex == old(currentCharIndex) && currentWordIndex == old(currentWordIndex) && text == old(text)
      // deleting: one character fewer; at zero, typing starts on the next word
      ensures !old(isWaiting) && old(isDeleting) ==>
        currentCharIndex == old(currentCharIndex) - 1 && delay == config.deleteSpeed &&
        text == Substring(words[old(currentWordIndex)], currentCharIndex) && !isWaiting &&
        (currentCharIndex == 0 ==> !isDeleting && currentWordIndex == (old(currentWordIndex) + 1) % |words|) &&
        (currentCharIndex != 0 ==> isDeleting && currentWordIndex == old(currentWordIndex))
      // typing: one character more; at the full word, waiting starts
      ensures !old(isWaiting) && !old(isDeleting) ==>
        currentCharIndex == old(currentCharIndex) + 1 && currentWordIndex == old(currentWordIndex) &&
        text == Substring(words[currentWordIndex], currentCharIndex) && !isDeleting &&
        (currentCharIndex == |words[currentWordIndex]| ==> isWaiting && delay == config.pauseDuration) &&
        (currentCharIndex != |words[currentWordIndex]| ==> !isWaiting && delay == config.typeSpeed)
      ensures NonEmptyWords(words) && Inv(words, old(Snapshot())) ==> Inv(words, Snapshot())
    {
      ghost var before := Snapshot();
      var currentWord := words[currentWordIndex];
      if isWaiting {
        isWaiting := false;
        isDeleting := true;
        delay := config.deleteSpeed;
      } else if isDeleting {
        currentCharIndex := currentCharIndex - 1;
        text := Substring(currentWord, currentCharIndex);
        if currentCharIndex == 0 {
          isDeleting := false;
          currentWordIndex := (currentWordIndex + 1) % |words|;
        }
        delay := config.deleteSpeed;
      } else {
        currentCharIndex := currentCharIndex + 1;
        text := Substring(currentWord, currentCharIndex);
        if currentCharIndex == |currentWord| {
          isWaiting := true;
          delay := config.pauseDuration;
        } else {
          delay := config.typeSpeed;
        }
      }
      if NonEmptyWords(words) && Inv(words, before) {
        NextKeepsInv(words, config, before);
      }
    }

    /**
     * `start()`: schedules the first step only when the element exists and
     * there are words; the first delay is half the pause duration.
     */
    method Start() returns (firstDelay: Option<real>)
      ensures firstDelay.Some? <==> hasElement && |words| > 0
      ensures firstDelay.Some? ==> 2.0 * firstDelay.value == config.pauseDuration as real
    {
      if hasElement && |words| > 0 {
        firstDelay := Some(config.pauseDuration as real / 2.0);
      } else {
        firstDelay := None;
      }
    }

    /** `reset()`: back to the first word with nothing typed and an empty display; nothing is scheduled. */
    method Reset()
      requires hasElement
      modifies this
      ensures Snapshot() == Initial("")
      ensures Valid()
      ensures |words| > 0 && NonEmptyWords(words) ==> Inv(words, Snapshot())
    {
      currentWordIndex := 0;
      currentCharIndex := 0;
      isDeleting := false;
      isWaiting := false;
      text := "";
    }
  }
}
