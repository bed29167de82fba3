/**
 * The scramble-text effect: each animation frame shows a revealed prefix
 * of the text followed by random filler characters, the prefix growing
 * with the time elapsed since the first frame, until the whole text shows.
 */
module ScrambleText {
  import opened Vectors

  /**
   * The default filler set. The source file stores its dash as the three
   * characters U+00E2 U+20AC U+201D (a UTF-8 em dash read as Windows-1252),
   * and that is what the component receives.
   */
  const DefaultChars: string := "!<>-_\\/[]{}\U{E2}\U{20AC}\U{201D}=+*^?#________"

  const DefaultRevealDuration: real := 3000.0

  /** A random draw for `Math.random()`: a number in [0, 1). */
  predicate IsDraw(pick: real) {
    0.0 <= pick < 1.0
  }

  /** `Math.floor(pick * n)` is an index into a list of length n. */
  lemma DrawIndex(pick: real, n: nat)
    requires IsDraw(pick) && n > 0
    ensures 0 <= (pick * n as real).Floor < n
  {
    var x := pick * n as real;
    assert 0.0 <= x by {
      assert 0.0 <= n as real;
    }
    assert x < n as real by {
      assert n as real - x == (1.0 - pick) * n as real;
      assert 0.0 < (1.0 - pick) * n as real;
    }
  }

  /**
   * What one filler step appends: `chars[Math.floor(pick * chars.length)]`.
   * For an empty `chars` the index reads `undefined`, which string
   * concatenation spells out.
   */
  function Filler(chars: string, pick: real): (r: string)
    requires IsDraw(pick)
    ensures |chars| > 0 ==> |r| == 1 && r[0] in chars
    ensures |chars| == 0 ==> r == "undefined"
  {
    var k := (pick * |chars| as real).Floor;
    if |chars| == 0 then "undefined"
    else
      assert 0 <= k < |chars| by {
        DrawIndex(pick, |chars|);
      }
      [chars[k]]
  }

  /** Every draw of a list is in [0, 1). */
  predicate AreDraws(picks: seq<real>) {
    forall i :: 0 <= i < |picks| ==> IsDraw(picks[i])
  }

  /** What the loop appends at position i: the text's character, or a filler drawn with `picks[i]`. */
  function Piece(text: string, chars: string, shown: int, picks: seq<real>, i: nat): (r: string)
    requires |picks| == |text| && AreDraws(picks) && i < |text|
    ensures i < shown ==> r == [text[i]]
    ensures |chars| > 0 ==> |r| == 1
    ensures |chars| > 0 && shown <= i ==> r[0] in chars
  {
    if shown <= i then Filler(chars, picks[i]) else [text[i]]
  }

  /**
   * The string the loop has built after its first n iterations. With a
   * non-empty filler set it has n characters: the text's own below `shown`,
   * characters of `chars` from `shown` on.
   */
  function FramePrefix(text: string, chars: string, shown: int, picks: seq<real>, n: nat): (r: string)
    requires |picks| == |text| && AreDraws(picks) && n <= |text|
    ensures |chars| > 0 ==> |r| == n
    ensures |chars| > 0 ==> forall i :: 0 <= i < n && i < shown ==> r[i] == text[i]
    ensures |chars| > 0 ==> forall i :: 0 <= i < n && shown <= i ==> r[i] in chars
    decreases n
  {
    if n == 0 then ""
    else FramePrefix(text, chars, shown, picks, n - 1) + Piece(text, chars, shown, picks, n - 1)
  }

  /**
   * One scrambled frame: the loop run over the whole text. With a non-empty
   * filler set it has the text's length; positions below the shown count
   * show the text, the others a character of `chars`.
   */
  function Frame(text: string, chars: string, shown: int, picks: seq<real>): (r: string)
    requires |picks| == |text| && AreDraws(picks)
    ensures |chars| > 0 ==> |r| == |text|
    ensures |chars| > 0 ==> forall i :: 0 <= i < |text| && i < shown ==> r[i] == text[i]
    ensures |chars| > 0 ==> forall i :: 0 <= i < |text| && shown <= i ==> r[i] in chars
  {
    FramePrefix(text, chars, shown, picks, |text|)
  }

  /**
   * The loop of one frame. `picks[i]` is the random draw made at position i
   * (positions below `shown` make none).
   */
  method BuildFrame(text: string, chars: string, shown: int, picks: seq<real>) returns (scrambled: string)
    requires |picks| == |text| && AreDraws(picks)
    ensures scrambled == Frame(text, chars, shown, picks)
  {
    scrambled := "";
    var i := 0;
    while i < |text|
      invariant 0 <= i <= |text|
      invariant scrambled == FramePrefix(text, chars, shown, picks, i)
    {
      if i < shown {
        scrambled := scrambled + [text[i]];
      } else {
        scrambled := scrambled + Filler(chars, picks[i]);
      }
      i := i + 1;
    }
  }

  /** A shown count that covers the text reproduces the text, whatever the filler set. */
  lemma {:induction false} FramePrefixRevealed(text: string, chars: string, shown: int, picks: seq<real>, n: nat)
    requires |picks| == |text| && AreDraws(picks) && n <= |text| && shown >= |text|
    ensures FramePrefix(text, chars, shown, picks, n) == text[..n]
    decreases n
  {
    if n > 0 {
      FramePrefixRevealed(text, chars, shown, picks, n - 1);
      assert text[..n] == text[..n - 1] + [text[n - 1]];
    }
  }

  lemma FrameFullyRevealed(text: string, chars: string, shown: int, picks: seq<real>)
    requires |picks| == |text| && AreDraws(picks) && shown >= |text|
    ensures Frame(text, chars, shown, picks) == text
  {
    FramePrefixRevealed(text, chars, shown, picks, |text|);
    assert text[..|text|] == text;
  }

  /**
   * With an empty filler set each unrevealed position spells "undefined":
   * the frame is the revealed prefix followed by 9 characters per hidden one.
   */
  lemma {:induction false} FramePrefixEmptyChars(text: string, shown: nat, picks: seq<real>, n: nat)
    requires |picks| == |text| && AreDraws(picks) && shown <= n <= |text|
    ensures |FramePrefix(text, "", shown, picks, n)| == shown + 9 * (n - shown)
    decreases n
  {
    if n > shown {
      FramePrefixEmptyChars(text, shown, picks, n - 1);
    } else {
      FramePrefixShortReveal(text, shown, picks, n);
    }
  }

  /** Below the shown count the prefix is the text's own, even with an empty filler set. */
  lemma {:induction false} FramePrefixShortReveal(text: string, shown: int, picks: seq<real>, n: nat)
    requires |picks| == |text| && AreDraws(picks) && n <= |text| && n <= shown
    ensures FramePrefix(text, "", shown, picks, n) == text[..n]
    decreases n
  {
    if n > 0 {
      FramePrefixShortReveal(text, shown, picks, n - 1);
      assert text[..n] == text[..n - 1] + [text[n - 1]];
    }
  }

  lemma FrameEmptyChars(text: string, shown: nat, picks: seq<real>)
    requires |picks| == |text| && AreDraws(picks) && shown <= |text|
    ensures |Frame(text, "", shown, picks)| == shown + 9 * (|text| - shown)
  {
    FramePrefixEmptyChars(text, shown, picks, |text|);
  }

  /** The elapsed fraction of the reveal: below 1, and of the same sign as the progress. */
  lemma Fraction(progress: real, revealDuration: real)
    requires 0.0 < revealDuration && progress < revealDuration
    ensures progress / revealDuration < 1.0
    ensures 0.0 <= progress ==> 0.0 <= progress / revealDuration
    ensures progress < 0.0 ==> progress / revealDuration < 0.0
  {
    var f := progress / revealDuration;
    assert f * revealDuration == progress;
    if f >= 1.0 {
      ProductSign(revealDuration, f - 1.0);
      assert false;
    }
    if 0.0 <= progress && f < 0.0 {
      ProductSign(revealDuration, -f);
      assert false;
    }
    if progress < 0.0 && f >= 0.0 {
      ProductSign(revealDuration, f);
      assert false;
    }
  }


  lemma ProductSign(a: real, b: real)
    requires 0.0 <= a
    ensures 0.0 <= b ==> 0.0 <= a * b
    ensures 0.0 < a && 0.0 < b ==> 0.0 < a * b
  {
  }

  /**
   * `Math.floor(text.length * (progress / revealDuration))`, computed only
   * while progress < revealDuration. It never reaches the length, and it is
   * not negative once the progress is not.
   */
  function RevealCount(len: nat, progress: real, revealDuration: real): (k: int)
    requires 0.0 < revealDuration && progress < revealDuration
    ensures 0.0 <= progress ==> 0 <= k
    ensures progress < 0.0 ==> k <= 0
    ensures len > 0 ==> k < len
    ensures len == 0 ==> k == 0
  {
    var f := progress / revealDuration;
    var x := len as real * f;
    Fraction(progress, revealDuration);
    assert 0.0 <= progress ==> 0.0 <= x by {
      if 0.0 <= progress {
        ProductSign(len as real, f);
      }
    }
    assert progress < 0.0 ==> x <= 0.0 by {
      if progress < 0.0 {
        ProductSign(len as real, -f);
        assert len as real * (-f) == -x;
      }
    }
    assert len > 0 ==> x < len as real by {
      if len > 0 {
        assert len as real - x == len as real * (1.0 - f);
        ProductSign(len as real, 1.0 - f);
      }
    }
    x.Floor
  }

  /** More elapsed time never reveals fewer characters. */
  lemma RevealCountMonotone(len: nat, p: real, q: real, revealDuration: real)
    requires 0.0 < revealDuration && p <= q < revealDuration
    ensures RevealCount(len, p, revealDuration) <= RevealCount(len, q, revealDuration)
  {
    var fp, fq := p / revealDuration, q / revealDuration;
    assert fp <= fq by {
      assert fq - fp == (q - p) / revealDuration;
      DivNonneg(q - p, revealDuration);
    }
    var x, y := len as real * fp, len as real * fq;
    assert x <= y by {
      assert y - x == len as real * (fq - fp);
      ProductSign(len as real, fq - fp);
    }
    assert RevealCount(len, p, revealDuration) == x.Floor;
    assert RevealCount(len, q, revealDuration) == y.Floor;
  }

  /** `displayedText || (isVisible ? "" : text)`: what the span shows. */
  function Rendered(displayedText: string, isVisible: bool, text: string): (r: string)
    ensures displayedText != "" ==> r == displayedText
    ensures displayedText == "" && !isVisible ==> r == text
    ensures displayedText == "" && isVisible ==> r == ""
  {
    if displayedText != "" then displayedText else if isVisible then "" else text
  }

  /** Once the animation has finished the span shows the text exactly, visible or not. */
  lemma FinishedRendersText(text: string, isVisible: bool)
    ensures Rendered(text, isVisible, text) == text
  {
  }

  /** The span shows the text itself everywhere except on a frame or a visible empty span. */
  lemma RenderedIsTextOrFrame(displayedText: string, isVisible: bool, text: string)
    ensures Rendered(displayedText, isVisible, text) in {displayedText, text, ""}
    ensures Rendered(displayedText, isVisible, text) == "" ==> displayedText == "" && (isVisible || text == "")
  {
  }

  /**
   * One mounted component: its props, its three state cells, and the state
   * of the running scramble animation (`startTime` is 0 until the first
   * frame; a frame that reads 0 is still "not started", as `!startTime` is).
   */
  class Scrambler {
    const text: string
    const chars: string
    const revealDuration: real
    const triggerOnce: bool
    var displayedText: string
    var isVisible: bool
    var hasTriggered: bool
    var startTime: real
    var frameRequested: bool

    constructor (text: string, chars: string, revealDuration: real, triggerOnce: bool)
      requires 0.0 < revealDuration
      ensures this.text == text && this.chars == chars
      ensures this.revealDuration == revealDuration && this.triggerOnce == triggerOnce
      ensures displayedText == "" && !isVisible && !hasTriggered
      ensures startTime == 0.0 && !frameRequested
    {
      this.text := text;
      this.chars := chars;
      this.revealDuration := revealDuration;
      this.triggerOnce := triggerOnce;
      displayedText := "";
      isVisible := false;
      hasTriggered := false;
      startTime := 0.0;
      frameRequested := false;
    }

    /** The component with its default props: the default filler set, 3000 ms and trigger-once. */
    constructor WithDefaults(text: string)
      ensures this.text == text && chars == DefaultChars
      ensures revealDuration == DefaultRevealDuration && triggerOnce
      ensures displayedText == "" && !isVisible && !hasTriggered
      ensures startTime == 0.0 && !frameRequested
    {
      this.text := text;
      chars := DefaultChars;
      revealDuration := DefaultRevealDuration;
      triggerOnce := true;
      displayedText := "";
      isVisible := false;
      hasTriggered := false;
      startTime := 0.0;
      frameRequested := false;
    }

    /** What the span currently shows. */
    function Content(): (r: string)
      reads this
      ensures displayedText != "" ==> r == displayedText
      ensures displayedText == "" && !isVisible ==> r == text
      ensures displayedText == "" && isVisible ==> r == ""
    {
      Rendered(displayedText, isVisible, text)
    }

    /**
     * The intersection observer's callback for one entry, with the 100 ms
     * delay before becoming visible collapsed into the call.
     */
    method Intersect(isIntersecting: bool)
      modifies this
      ensures isIntersecting && (!triggerOnce || !old(hasTriggered)) ==> isVisible && hasTriggered
      ensures !(isIntersecting && (!triggerOnce || !old(hasTriggered))) ==> hasTriggered == old(hasTriggered)
      ensures !isIntersecting && !triggerOnce ==> !isVisible
      ensures isIntersecting && triggerOnce && old(hasTriggered) ==> isVisible == old(isVisible)
      ensures !isIntersecting && triggerOnce ==> isVisible == old(isVisible)
      ensures displayedText == old(displayedText) && startTime == old(startTime) && frameRequested == old(frameRequested)
    {
      if isIntersecting && (!triggerOnce || !hasTriggered) {
        isVisible := true;
        hasTriggered := true;
      } else if !isIntersecting && !triggerOnce {
        isVisible := false;
      }
    }

    /**
     * The animation effect, run whenever visibility (or a prop) changes:
     * the previous frame request is cancelled; when hidden, a re-triggerable
     * component clears its text; when visible, a fresh animation is requested.
     */
    method AnimationEffect()
      modifies this
      ensures !isVisible && !triggerOnce ==> displayedText == ""
      ensures !isVisible && triggerOnce ==> displayedText == old(displayedText)
      ensures isVisible ==> displayedText == old(displayedText)
      ensures frameRequested == isVisible
      ensures isVisible ==> startTime == 0.0
      ensures !isVisible ==> startTime == old(startTime)
      ensures isVisible == old(isVisible) && hasTriggered == old(hasTriggered)
    {
      if !isVisible {
        if !triggerOnce {
          displayedText := "";
        }
        frameRequested := false;
        return;
      }
      startTime := 0.0;
      frameRequested := true;
    }

    /**
     * One animation frame at `timestamp`, with `picks[i]` the random draw for
     * position i. A frame before the shown duration has elapsed shows a
     * scrambled frame and requests the next one; the first frame after it
     * shows the text and stops.
     */
    method Scramble(timestamp: real, picks: seq<real>)
      requires frameRequested && 0.0 < revealDuration
      requires |picks| == |text| && AreDraws(picks)
      modifies this
      ensures startTime == (if old(startTime) == 0.0 then timestamp else old(startTime))
      ensures timestamp - startTime < revealDuration ==>
        displayedText == Frame(text, chars, RevealCount(|text|, timestamp - startTime, revealDuration), picks) &&
        frameRequested
      ensures timestamp - startTime >= revealDuration ==> displayedText == text && !frameRequested
      ensures isVisible == old(isVisible) && hasTriggered == old(hasTriggered)
    {
      if startTime == 0.0 {
        startTime := timestamp;
      }
      var progress := timestamp - startTime;
      if progress < revealDuration {
        var charsToReveal := RevealCount(|text|, progress, revealDuration);
        var scrambled := BuildFrame(text, chars, charsToReveal, picks);
        displayedText := scrambled;
        frameRequested := true;
      } else {
        displayedText := text;
        frameRequested := false;
      }
    }
  }
}
