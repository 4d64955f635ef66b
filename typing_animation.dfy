/**
 * `useTypingAnimation(text, speed)`: an interval that appends one character
 * of `text` per tick to `displayText` and stops itself at the end of the
 * text. Ticks are discrete steps here; `speed` only says when they happen,
 * so it matters to the model only as a dependency of the effect.
 */
module TypingAnimation {

  /**
   * The hook's state together with its effect's closure: the counter `i` and
   * whether the interval is still scheduled.
   */
  datatype Typing = Typing(text: string, speed: int, displayText: string, i: nat, running: bool)

  /** The first render and its effect: nothing shown yet, counter at zero, interval started. */
  function Start(text: string, speed: int): Typing
  {
    Typing(text, speed, "", 0, true)
  }

  /**
   * One interval callback, with the character taken at the counter before it
   * advances: the reading under which the whole text is typed.
   */
  function TickStep(s: Typing): (r: Typing)
    ensures r.text == s.text && r.speed == s.speed
    ensures s.running && s.i < |s.text| ==>
              r.displayText == s.displayText + [s.text[s.i]] && r.i == s.i + 1 && r.running
    ensures s.running && s.i >= |s.text| ==> r == s.(running := false)
    ensures !s.running ==> r == s
  {
    if !s.running then s
    else if s.i < |s.text| then s.(displayText := s.displayText + [s.text[s.i]], i := s.i + 1)
    else s.(running := false)  // clearInterval(timer)
  }

  /** `text.charAt(j)`: the character at `j`, or the empty string past the end. */
  function CharAt(text: string, j: nat): (c: string)
    ensures j < |text| ==> c == [text[j]]
    ensures j >= |text| ==> c == ""
  {
    if j < |text| then [text[j]] else ""
  }

  /**
   * The interval callback as written, with the order in which React runs the
   * updater `prev => prev + text.charAt(i)` as a parameter. Applied eagerly,
   * it reads the counter before the `i++` that follows it; deferred to the
   * next render, it reads the counter after it.
   */
  function TickAsWritten(s: Typing, eager: bool): (r: Typing)
    ensures eager ==> r == TickStep(s)
    ensures !eager && s.running && s.i < |s.text| ==>
              r.displayText == s.displayText + CharAt(s.text, s.i + 1) && r.i == s.i + 1
  {
    if !s.running then s
    else if s.i < |s.text| then
      s.(displayText := s.displayText + CharAt(s.text, if eager then s.i else s.i + 1), i := s.i + 1)
    else s.(running := false)
  }

  /**
   * With only the first update applied eagerly, "abc" is shown as "ac": the
   * second character is skipped and the last tick appends nothing.
   */
  lemma {:induction false} SkippedCharacter()
    ensures var s1 := TickAsWritten(Start("abc", 50), true);
            var s3 := TickAsWritten(TickAsWritten(s1, false), false);
            s3.displayText == "ac" && s3.i == 3 && !TickAsWritten(s3, false).running
            && Ticks(Start("abc", 50), 3).displayText == "abc"
  {
    TicksTypePrefix(Start("abc", 50), 3);
    assert "abc"[0..3] == "abc";
  }

  /** `n` interval callbacks in a row. */
  function Ticks(s: Typing, n: nat): Typing
  {
    if n == 0 then s else TickStep(Ticks(s, n - 1))
  }

  /** While the text lasts, each tick shows one more of its characters, in order. */
  lemma {:induction false} TicksTypePrefix(s: Typing, n: nat)
    requires s.running && s.i + n <= |s.text|
    ensures Ticks(s, n) == s.(displayText := s.displayText + s.text[s.i..s.i + n], i := s.i + n)
  {
    if n == 0 {
      assert s.text[s.i..s.i] == [];
      assert s.displayText + [] == s.displayText;
    } else {
      TicksTypePrefix(s, n - 1);
      assert s.text[s.i..s.i + n] == s.text[s.i..s.i + n - 1] + [s.text[s.i + n - 1]];
    }
  }

  /** A stopped interval never changes anything again. */
  lemma {:induction false} StoppedStays(s: Typing, n: nat)
    requires !s.running
    ensures Ticks(s, n) == s
  {
    if n > 0 {
      StoppedStays(s, n - 1);
    }
  }

  /** Ticks run back to back compose. */
  lemma {:induction false} TicksAdd(s: Typing, m: nat, n: nat)
    ensures Ticks(Ticks(s, m), n) == Ticks(s, m + n)
  {
    if n > 0 {
      TicksAdd(s, m, n - 1);
    }
  }

  /**
   * Once every remaining character is shown, the next tick stops the interval
   * and nothing changes afterwards: the display ends with the rest of the text.
   */
  lemma {:induction false} TicksFinish(s: Typing, n: nat)
    requires s.running && s.i <= |s.text| && n > |s.text| - s.i
    ensures Ticks(s, n) == s.(displayText := s.displayText + s.text[s.i..], i := |s.text|, running := false)
  {
    var m := |s.text| - s.i;
    TicksTypePrefix(s, m);
    var typed := Ticks(s, m);
    assert s.text[s.i..s.i + m] == s.text[s.i..];
    var stopped := TickStep(typed);
    assert Ticks(s, m + 1) == stopped;
    StoppedStays(stopped, n - m - 1);
    TicksAdd(s, m + 1, n - m - 1);
  }

  /**
   * From the first render, `|text|` ticks show exactly `text`; the next tick
   * stops the interval, and the display stays `text` from then on.
   */
  lemma {:induction false} TypesWholeText(text: string, speed: int, n: nat)
    requires n >= |text|
    ensures Ticks(Start(text, speed), n).displayText == text
    ensures Ticks(Start(text, speed), n).running <==> n == |text|
  {
    if n == |text| {
      TicksTypePrefix(Start(text, speed), n);
      assert text[0..n] == text;
    } else {
      TicksFinish(Start(text, speed), n);
      assert text[0..] == text;
    }
  }

  /**
   * A run counting from zero never passes the end of its text, and what it
   * has added to the display is exactly the text up to its counter.
   */
  lemma {:induction false} RunAppendsPrefix(s: Typing, n: nat)
    requires s.running && s.i == 0
    ensures var r := Ticks(s, n);
            r.i <= |s.text| && r.displayText == s.displayText + s.text[..r.i]
  {
    if n <= |s.text| {
      TicksTypePrefix(s, n);
      assert s.text[0..n] == s.text[..n];
    } else {
      TicksFinish(s, n);
      assert s.text[0..] == s.text[..|s.text|];
    }
  }

  /**
   * A new `text` or `speed` runs the effect's cleanup and the effect again: the
   * old interval is cleared and a new one counts from zero. `displayText` is
   * not reset, so the new text is typed after what is already shown.
   */
  function Restart(s: Typing, text: string, speed: int): (r: Typing)
    ensures text == s.text && speed == s.speed ==> r == s
    ensures text != s.text || speed != s.speed ==>
              r == Typing(text, speed, s.displayText, 0, true)
  {
    if text == s.text && speed == s.speed then s else Typing(text, speed, s.displayText, 0, true)
  }

  /** After a change of text, the display becomes what was shown before followed by the whole new text. */
  lemma {:induction false} RestartAppends(s: Typing, text: string, speed: int, n: nat)
    requires text != s.text && n > |text|
    ensures Ticks(Restart(s, text, speed), n).displayText == s.displayText + text
  {
    TicksFinish(Restart(s, text, speed), n);
    assert text[0..] == text;
  }

  class TypingHook {
    var text: string
    var speed: int
    var displayText: string
    var i: nat
    var running: bool

    function State(): Typing
      reads this
    {
      Typing(text, speed, displayText, i, running)
    }

    constructor (text0: string, speed0: int)
      ensures State() == Start(text0, speed0)
    {
      text, speed := text0, speed0;
      displayText := "";
      i, running := 0, true;
    }

    method Tick()
      modifies this
      ensures State() == TickStep(old(State()))
    {
      if running {
        if i < |text| {
          displayText := displayText + [text[i]];
          i := i + 1;
        } else {
          running := false;
        }
      }
    }

    /** The interval firing `n` times. */
    method RunTicks(n: nat)
      modifies this
      ensures State() == Ticks(old(State()), n)
    {
      var k := 0;
      while k < n
        invariant 0 <= k <= n
        invariant State() == Ticks(old(State()), k)
      {
        Tick();
        k := k + 1;
      }
    }

    /** A render with the hook's arguments `text1` and `speed1`. */
    method Rerender(text1: string, speed1: int)
      modifies this
      ensures State() == Restart(old(State()), text1, speed1)
    {
      if text1 != text || speed1 != speed {
        text, speed := text1, speed1;
        i, running := 0, true;
      }
    }
  }
}
