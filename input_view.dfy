/** The prompt screen (src/components/InputView.tsx): the proceed gate on the
    trimmed input, and the typing reveal that shows the question one
    character per interval tick and then reveals the input box. */
module InputView {
  import opened Types

  // ---------------------------------------------------------------------------
  // Trimming and the proceed gate
  // ---------------------------------------------------------------------------

  /** What `String.prototype.trim` strips: the ECMAScript WhiteSpace and
      LineTerminator code points (TAB, LF, VT, FF, CR, the space separators of
      category Zs, LS, PS and the byte order mark). */
  predicate IsWhitespace(c: char)
    ensures c == ' ' || c == '\t' || c == '\n' || c == '\r' ==> IsWhitespace(c)
    ensures 0x20 < c as int < 0x7F ==> !IsWhitespace(c)
    ensures IsWhitespace(c) ==> c as int < 0x10000
  {
    var n := c as int;
    (9 <= n <= 13) || n == 0x20 || n == 0xA0 || n == 0x1680
    || (0x2000 <= n <= 0x200A) || n == 0x2028 || n == 0x2029
    || n == 0x202F || n == 0x205F || n == 0x3000 || n == 0xFEFF
  }

  predicate AllWhitespace(s: string) {
    forall i :: 0 <= i < |s| ==> IsWhitespace(s[i])
  }

  /** A string with nothing to trim at either end. */
  predicate Trimmed(s: string) {
    s == [] || (!IsWhitespace(s[0]) && !IsWhitespace(s[|s| - 1]))
  }

  /** The first position from `i` on that does not hold whitespace, or `|s|`. */
  function SkipLeading(s: string, i: nat): (n: nat)
    requires i <= |s|
    ensures i <= n <= |s|
    ensures forall k :: i <= k < n ==> IsWhitespace(s[k])
    ensures n < |s| ==> !IsWhitespace(s[n])
    decreases |s| - i
  {
    if i < |s| && IsWhitespace(s[i]) then SkipLeading(s, i + 1) else i
  }

  /** The position just after the last non-whitespace character of
      `s[lo..j]`, or `lo` when there is none. */
  function SkipTrailing(s: string, lo: nat, j: nat): (m: nat)
    requires lo <= j <= |s|
    ensures lo <= m <= j
    ensures forall k :: m <= k < j ==> IsWhitespace(s[k])
    ensures m > lo ==> !IsWhitespace(s[m - 1])
  {
    if j > lo && IsWhitespace(s[j - 1]) then SkipTrailing(s, lo, j - 1) else j
  }

  /** `s.trim()`: nothing is left to trim at either end. */
  function Trim(s: string): (r: string)
    ensures Trimmed(r) && |r| <= |s|
  {
    var lo := SkipLeading(s, 0);
    s[lo..SkipTrailing(s, lo, |s|)]
  }

  /** `Trim(s)` is the piece `s[lo..hi]`, and everything cut away before and
      after it is whitespace. */
  lemma TrimSplit(s: string) returns (lo: nat, hi: nat)
    ensures lo <= hi <= |s| && Trim(s) == s[lo..hi]
    ensures forall k :: 0 <= k < lo ==> IsWhitespace(s[k])
    ensures forall k :: hi <= k < |s| ==> IsWhitespace(s[k])
    ensures lo < |s| ==> !IsWhitespace(s[lo])
  {
    lo := SkipLeading(s, 0);
    hi := SkipTrailing(s, lo, |s|);
  }

  /** Trimming a padded string gives back exactly the unpadded core: `Trim`
      agrees with the independent description "strip whitespace at both ends". */
  lemma TrimPadded(pre: string, core: string, post: string)
    requires AllWhitespace(pre) && AllWhitespace(post) && Trimmed(core)
    ensures Trim(pre + core + post) == core
  {
    var s := pre + core + post;
    var lo, hi := TrimSplit(s);
    var p := |pre|;
    var q := p + |core|;
    assert forall k :: 0 <= k < p ==> s[k] == pre[k];
    assert forall k :: q <= k < |s| ==> s[k] == post[k - q];
    if core != [] {
      assert s[p] == core[0] && s[q - 1] == core[|core| - 1];
      assert lo == p;
      assert hi == q;
      assert s[p..q] == core;
    }
  }

  lemma WhitespaceConcat(a: string, b: string)
    requires AllWhitespace(a) && AllWhitespace(b)
    ensures AllWhitespace(a + b)
  {
    assert forall i :: |a| <= i < |a + b| ==> (a + b)[i] == b[i - |a|];
  }

  /** Trimming strips whitespace padding laid on in two layers. */
  lemma TrimPaddedTwice(pre: string, left: string, core: string, right: string, post: string)
    requires AllWhitespace(pre) && AllWhitespace(left) && AllWhitespace(right) && AllWhitespace(post)
    requires Trimmed(core)
    ensures Trim(pre + (left + core + right) + post) == core
  {
    WhitespaceConcat(pre, left);
    WhitespaceConcat(right, post);
    assert pre + (left + core + right) + post == (pre + left) + core + (right + post);
    TrimPadded(pre + left, core, right + post);
  }

  /** Padding with whitespace does not change what `trim` returns, so it
      never opens or closes the gate. */
  lemma GateIgnoresPadding(pre: string, text: string, post: string)
    requires AllWhitespace(pre) && AllWhitespace(post)
    ensures Trim(pre + text + post) == Trim(text)
    ensures CanProceed(pre + text + post) <==> CanProceed(text)
  {
    var lo, hi := TrimSplit(text);
    var left, core, right := text[..lo], text[lo..hi], text[hi..];
    assert text == left + core + right;
    assert AllWhitespace(left) && AllWhitespace(right);
    TrimPaddedTwice(pre, left, core, right, post);
  }

  /** The number of UTF-16 code units of a character: two for a character
      above U+FFFF (a surrogate pair), one otherwise. */
  function Utf16Units(c: char): nat {
    if c as int >= 0x10000 then 2 else 1
  }

  /** JavaScript's `s.length`, which counts UTF-16 code units. */
  function Utf16Length(s: string): (n: nat)
    ensures |s| <= n <= 2 * |s|
    ensures (forall i :: 0 <= i < |s| ==> s[i] as int < 0x10000) ==> n == |s|
    ensures (forall i :: 0 <= i < |s| ==> s[i] as int >= 0x10000) ==> n == 2 * |s|
  {
    if s == [] then 0 else Utf16Units(s[0]) + Utf16Length(s[1..])
  }

  /** The gate of the Continue button and of `handleProceed`: the input,
      trimmed, is longer than ten UTF-16 code units. */
  predicate CanProceed(input: string)
    ensures |Trim(input)| > 10 ==> CanProceed(input)
    ensures CanProceed(input) ==> |Trim(input)| > 5
  {
    Utf16Length(Trim(input)) > 10
  }

  /** For text without characters above U+FFFF, the gate is the plain
      character count of the trimmed text. */
  lemma GateOnBasicPlane(input: string)
    requires forall i :: 0 <= i < |input| ==> input[i] as int < 0x10000
    ensures CanProceed(input) <==> |Trim(input)| > 10
  {
    var lo, hi := TrimSplit(input);
    assert forall i :: 0 <= i < |Trim(input)| ==> Trim(input)[i] == input[lo + i];
  }

  /** The gate on a concrete input: a 25-character feeling passes. */
  lemma LongFeelingPasses()
    ensures CanProceed("I feel kind of lost today")
  {
    var t := "I feel kind of lost today";
    assert |t| == 25;
    TrimPadded("", t, "");
    assert "" + t + "" == t;
  }

  /** The gate on a concrete input: a short word padded with spaces fails. */
  lemma PaddedShortWordFails()
    ensures !CanProceed("      sad      ")
  {
    TrimPadded("      ", "sad", "      ");
    assert "      " + "sad" + "      " == "      sad      ";
  }

  /** Six emoji are only six characters but twelve UTF-16 code units, so
      they open the gate. */
  lemma SixEmojiPass()
    ensures CanProceed("\U{1F622}\U{1F622}\U{1F622}\U{1F622}\U{1F622}\U{1F622}")
  {
    var t := "\U{1F622}\U{1F622}\U{1F622}\U{1F622}\U{1F622}\U{1F622}";
    assert |t| == 6;
    TrimPadded("", t, "");
    assert "" + t + "" == t;
  }

  // ---------------------------------------------------------------------------
  // The typing reveal
  // ---------------------------------------------------------------------------

  /** The state the typing effect works on: the closure's `currentIndex`, the
      displayed text, whether the input box is shown, and whether the typing
      interval is still scheduled. */
  datatype Reveal = Reveal(currentIndex: nat, displayed: string, showInput: bool, typing: bool)

  /** The state right after the effect (re)starts for a question. */
  function Start(): (r: Reveal)
    ensures forall q :: RevealValid(q, r)
    ensures r.displayed == [] && !r.showInput && r.typing
  {
    Reveal(0, "", false, true)
  }

  /** One interval tick: while `currentIndex <= |q|` show the prefix of that
      length and advance; the tick after that stops the interval and shows
      the input box. A tick of a stopped interval does nothing. */
  function Tick(q: string, r: Reveal): (t: Reveal)
    ensures RevealValid(q, r) ==> RevealValid(q, t)
    ensures !r.typing ==> t == r
    ensures t.showInput && !r.showInput ==> t.displayed == r.displayed && !t.typing
  {
    if !r.typing then r
    else if r.currentIndex <= |q| then
      r.(displayed := q[..r.currentIndex], currentIndex := r.currentIndex + 1)
    else
      r.(typing := false, showInput := true)
  }

  /** `n` ticks in a row. */
  function Ticks(q: string, r: Reveal, n: nat): Reveal
  {
    if n == 0 then r else Tick(q, Ticks(q, r, n - 1))
  }

  /** The number of characters shown once `i` ticks have advanced the index:
      the first tick shows the empty prefix again. */
  function Shown(i: nat): nat {
    if i == 0 then 0 else i - 1
  }

  /** The reveal invariant: the displayed text is the prefix of the question
      the index says, and the input box is shown exactly when the interval has
      stopped, which happens only after the whole question is displayed. */
  predicate RevealValid(q: string, r: Reveal) {
    r.currentIndex <= |q| + 1
    && r.displayed == q[..Shown(r.currentIndex)]
    && (r.showInput <==> !r.typing)
    && (!r.typing ==> r.currentIndex == |q| + 1)
  }

  /** A tick keeps the invariant, keeps the shown text a prefix of the
      question, only ever extends it, and extends it by exactly one character
      on every tick but the first and the stopping one. */
  lemma TickGrows(q: string, r: Reveal)
    requires RevealValid(q, r)
    ensures RevealValid(q, Tick(q, r))
    ensures r.displayed <= Tick(q, r).displayed <= q
    ensures |Tick(q, r).displayed| ==
            |r.displayed| + (if r.typing && 1 <= r.currentIndex <= |q| then 1 else 0)
  {
  }

  /** Where the reveal is after `n` ticks from the start: for the first
      `|q| + 1` ticks the typing interval runs and shows `q[..n-1]`; from tick
      `|q| + 2` on the interval is stopped, the whole question is shown and so
      is the input box. */
  lemma {:induction false} TicksFromStart(q: string, n: nat)
    ensures Ticks(q, Start(), n) ==
            if n <= |q| + 1 then Reveal(n, q[..Shown(n)], false, true)
            else Reveal(|q| + 1, q, true, false)
  {
    if n > 0 {
      TicksFromStart(q, n - 1);
      if n - 1 <= |q| {
        assert q[..n - 1] == q[..Shown(n)];
      } else {
        assert q[..Shown(|q| + 1)] == q;
      }
    }
  }

  /** The interval stops after exactly `|q| + 2` ticks. */
  lemma TypingStopsAfter(q: string, n: nat)
    ensures Ticks(q, Start(), n).typing <==> n < |q| + 2
    ensures Ticks(q, Start(), n).showInput <==> n >= |q| + 2
  {
    TicksFromStart(q, n);
  }

  /** The displayed text never shrinks while the question stays put. */
  lemma DisplayedMonotone(q: string, m: nat, n: nat)
    requires m <= n
    ensures Ticks(q, Start(), m).displayed <= Ticks(q, Start(), n).displayed <= q
  {
    TicksFromStart(q, m);
    TicksFromStart(q, n);
  }

  /** Every reachable reveal state satisfies the invariant. */
  lemma TicksValid(q: string, n: nat)
    ensures RevealValid(q, Ticks(q, Start(), n))
  {
    TicksFromStart(q, n);
  }

  /** The input box is shown only once the full question is displayed. */
  lemma InputOnlyAfterFullQuestion(q: string, r: Reveal)
    requires RevealValid(q, r) && r.showInput
    ensures r.displayed == q
  {
    assert q[..|q|] == q;
  }

  // ---------------------------------------------------------------------------
  // The component's state
  // ---------------------------------------------------------------------------

  /** The mounted component: its `useState` cells, the typing closure's
      `currentIndex` and whether its interval is scheduled. */
  class InputView {
    var questionText: string
    var displayedQuestion: string
    var showInput: bool
    var userInput: string
    var showProceed: bool
    var currentIndex: nat
    var typing: bool

    function RevealState(): Reveal
      reads this
    {
      Reveal(currentIndex, displayedQuestion, showInput, typing)
    }

    /** The component invariant: the reveal invariant for the current
        question, and the Continue button only when the gate is open. */
    predicate Valid()
      reads this
    {
      RevealValid(questionText, RevealState())
      && (showProceed ==> CanProceed(userInput))
    }

    /** Mounting: the state cells start empty, then both effects run; the
        second one leaves the button hidden because the input is empty. */
    constructor (q: string)
      ensures Valid()
      ensures questionText == q && userInput == ""
      ensures RevealState() == Start() && !showProceed
    {
      questionText := q;
      displayedQuestion := "";
      showInput := false;
      userInput := "";
      showProceed := false;
      currentIndex := 0;
      typing := true;
      assert !CanProceed("");
    }

    /** A new question text: the old interval is cleaned up and the effect
        restarts, clearing the display and hiding the input and the button
        before any tick. The typed input is kept. */
    method QuestionChanged(q: string)
      modifies this
      ensures Valid()
      ensures questionText == q && RevealState() == Start() && !showProceed
      ensures userInput == old(userInput)
    {
      questionText := q;
      displayedQuestion := "";
      showInput := false;
      showProceed := false;
      currentIndex := 0;
      typing := true;
    }

    /** One tick of the typing interval. */
    method TypingTick()
      requires Valid()
      modifies this
      ensures Valid()
      ensures RevealState() == Tick(questionText, old(RevealState()))
      ensures questionText == old(questionText) && userInput == old(userInput)
      ensures showProceed == old(showProceed)
      ensures old(displayedQuestion) <= displayedQuestion <= questionText
    {
      TickGrows(questionText, RevealState());
      if typing {
        if currentIndex <= |questionText| {
          displayedQuestion := questionText[..currentIndex];
          currentIndex := currentIndex + 1;
        } else {
          typing := false;
          showInput := true;
        }
      }
    }

    /** A change of the text area: the input is stored and the gate effect
        sets the button to the gate's verdict. */
    method SetUserInput(s: string)
      requires Valid()
      modifies this
      ensures Valid()
      ensures userInput == s && showProceed == CanProceed(s)
      ensures RevealState() == old(RevealState()) && questionText == old(questionText)
    {
      userInput := s;
      showProceed := CanProceed(s);
    }

    /** `handleProceed`: hands the untrimmed input on to `onProceed` exactly
        when the gate is open; otherwise nothing is handed on. */
    method HandleProceed() returns (proceeded: Option<string>)
      ensures proceeded.Some? <==> CanProceed(userInput)
      ensures proceeded.Some? ==> proceeded.value == userInput
    {
      if CanProceed(userInput) {
        proceeded := Some(userInput);
      } else {
        proceeded := None;
      }
    }
  }
}
