/**
 * The chat message box: the text being written, the "is typing"
 * indicator it raises and lowers, and the messages it sends. The timeout
 * that lowers the indicator after a second without keystrokes is a pending
 * event; what the component calls on its parent is returned as effects.
 *
 * Each keystroke's timeout callback is a closure over the render that
 * handled the keystroke, so it sees `isTyping` as it was before that
 * keystroke. `Step` is the component with the callback reading the current
 * value, `StepAsWritten` with the captured one.
 */
module MessageInput {
  import opened Base

  // ---------------------------------------------------------------------
  // Trimming
  // ---------------------------------------------------------------------

  /** Every character of `s` satisfies `p`. */
  predicate All(p: char -> bool, s: string) {
    forall i :: 0 <= i < |s| ==> p(s[i])
  }

  /** The number of leading characters satisfying `p`. */
  function Leading(p: char -> bool, s: string): (n: nat)
    ensures n <= |s| && All(p, s[..n])
    ensures n < |s| ==> !p(s[n])
  {
    if s == [] || !p(s[0]) then 0
    else
      var n := 1 + Leading(p, s[1..]);
      assert s[..n] == [s[0]] + s[1..][..n - 1];
      n
  }

  /** The number of trailing characters satisfying `p`. */
  function Trailing(p: char -> bool, s: string): (n: nat)
    ensures n <= |s| && All(p, s[|s| - n..])
    ensures n < |s| ==> !p(s[|s| - 1 - n])
  {
    if s == [] || !p(s[|s| - 1]) then 0
    else
      var init := s[..|s| - 1];
      var n := 1 + Trailing(p, init);
      var tail := init[|init| - (n - 1)..];
      AllSnoc(p, tail, s[|s| - 1]);
      assert s[|s| - n..] == tail + [s[|s| - 1]];
      n
  }

  lemma AllSnoc(p: char -> bool, s: string, c: char)
    requires All(p, s) && p(c)
    ensures All(p, s + [c])
  {
    assert forall i :: 0 <= i < |s| ==> (s + [c])[i] == s[i];
  }

  /** `s` without the characters satisfying `p` at either end. */
  function Strip(p: char -> bool, s: string): (r: string)
    ensures |r| <= |s|
    ensures r == [] <==> All(p, s)
    ensures r != [] ==> !p(r[0]) && !p(r[|r| - 1])
    ensures var a := Leading(p, s);
      && a + |r| <= |s| && s[a..a + |r|] == r && All(p, s[a + |r|..])
  {
    var a := Leading(p, s);
    var rest := s[a..];
    var b := Trailing(p, rest);
    TrimmedSlice(p, s, a, b);
    rest[..|rest| - b]
  }

  /** Cutting `a` characters off the front and then `b` off the back leaves a slice of `s`. */
  lemma TrimmedSlice(p: char -> bool, s: string, a: nat, b: nat)
    requires a <= |s| && b <= |s| - a && All(p, s[a..][|s| - a - b..])
    ensures var r := s[a..][..|s| - a - b];
      && a + |r| <= |s| && s[a..a + |r|] == r && All(p, s[a + |r|..])
  {
    assert s[a..][|s| - a - b..] == s[|s| - b..];
  }

  /** The leading run of padded text is the padding. */
  lemma {:induction false} LeadingOfPadded(p: char -> bool, w: string, x: string)
    requires All(p, w) && x != [] && !p(x[0])
    ensures Leading(p, w + x) == |w|
  {
    if w == [] {
      assert w + x == x;
    } else {
      assert (w + x)[1..] == w[1..] + x;
      assert All(p, w[1..]) by {
        forall i | 0 <= i < |w[1..]|
          ensures p(w[1..][i])
        {
          assert w[1..][i] == w[i + 1];
        }
      }
      LeadingOfPadded(p, w[1..], x);
    }
  }

  /** Stripping text padded on both sides gives the text back: `Strip` is determined by its contract. */
  lemma StripPadded(p: char -> bool, w1: string, x: string, w2: string)
    requires All(p, w1) && All(p, w2)
    requires x != [] ==> !p(x[0]) && !p(x[|x| - 1])
    ensures Strip(p, w1 + x + w2) == x
  {
    var s := w1 + x + w2;
    if x == [] {
      assert All(p, s) by {
        forall i | 0 <= i < |s|
          ensures p(s[i])
        {
          if i < |w1| { assert s[i] == w1[i]; } else { assert s[i] == w2[i - |w1|]; }
        }
      }
    } else {
      assert s == w1 + (x + w2);
      LeadingOfPadded(p, w1, x + w2);
      var r := Strip(p, s);
      var a := |w1|;
      var e := |w1| + |x|;
      assert s[a..e] == x;
    }
  }

  /** The characters `String.prototype.trim` removes: white space and line terminators. */
  predicate IsSpace(c: char) {
    var n := c as int;
    || n == 0x0009 || n == 0x000B || n == 0x000C || n == 0x0020 || n == 0x00A0 || n == 0xFEFF
    || n == 0x1680 || (0x2000 <= n <= 0x200A) || n == 0x202F || n == 0x205F || n == 0x3000
    || n == 0x000A || n == 0x000D || n == 0x2028 || n == 0x2029
  }

  predicate AllSpace(s: string) {
    All(IsSpace, s)
  }

  /** `trim`: the text without white space at either end. */
  function Trim(s: string): (r: string)
    ensures |r| <= |s|
    ensures r == [] <==> AllSpace(s)
    ensures r != [] ==> !IsSpace(r[0]) && !IsSpace(r[|r| - 1])
  {
    Strip(IsSpace, s)
  }

  /** Trimming text padded with white space gives the text back. */
  lemma TrimPadded(w1: string, x: string, w2: string)
    requires AllSpace(w1) && AllSpace(w2)
    requires x != [] ==> !IsSpace(x[0]) && !IsSpace(x[|x| - 1])
    ensures Trim(w1 + x + w2) == x
  {
    StripPadded(IsSpace, w1, x, w2);
  }

  lemma TrimIdempotent(s: string)
    ensures Trim(Trim(s)) == Trim(s)
  {
    TrimPadded([], Trim(s), []);
    assert [] + Trim(s) + [] == Trim(s);
  }

  // ---------------------------------------------------------------------
  // The component
  // ---------------------------------------------------------------------

  /**
   * The text, the indicator, and the pending timeout if any, with the
   * `isTyping` its closure captured.
   */
  datatype Box = Box(message: string, isTyping: bool, timeout: Option<bool>)

  const Initial := Box("", false, None)

  /** One second, in milliseconds. */
  const TypingTimeout: nat := 1000

  datatype Event =
    | Changed(value: string)
    | KeyDown(key: string, shiftKey: bool)
    | SendClicked
    | TimeoutFires

  datatype Effect = SendMessage(content: string) | StartTyping | StopTyping

  datatype Transition = Transition(box: Box, effects: seq<Effect>)

  /** The send button is disabled with the box, or while the text is only white space. */
  function SendDisabled(disabled: bool, b: Box): (r: bool)
    ensures r <==> disabled || AllSpace(b.message)
  {
    disabled || Trim(b.message) == ""
  }

  /** `handleSend`: the trimmed text is sent and the box emptied; a raised indicator is lowered. */
  function Send(b: Box): (t: Transition)
    ensures AllSpace(b.message) ==> t == Transition(b, [])
    ensures !AllSpace(b.message) ==>
      && t.box.message == "" && !t.box.isTyping && |t.effects| >= 1
      && t.effects[0] == SendMessage(Trim(b.message)) && t.effects[0].content != ""
      && (StopTyping in t.effects <==> b.isTyping)
      && (b.isTyping ==> t.box.timeout.None?)
  {
    var trimmed := Trim(b.message);
    if trimmed == "" then Transition(b, [])
    else if b.isTyping then Transition(Box("", false, None), [SendMessage(trimmed), StopTyping])
    else Transition(b.(message := ""), [SendMessage(trimmed)])
  }

  /**
   * `handleChange`: a first non-empty value raises the indicator; any
   * pending timeout is cleared; a non-empty value schedules a new one, and
   * an empty value lowers the indicator at once.
   */
  function Change(b: Box, value: string): (t: Transition)
    ensures t.box.message == value
    ensures value != "" ==> t.box.isTyping && t.box.timeout == Some(b.isTyping)
    ensures value != "" ==> (t.effects == [StartTyping] <==> !b.isTyping) && (t.effects == [] <==> b.isTyping)
    ensures value == "" ==> !t.box.isTyping && t.box.timeout.None? && (t.effects == [StopTyping] <==> b.isTyping)
    ensures value == "" && !b.isTyping ==> t.effects == []
  {
    if value != "" then
      Transition(Box(value, true, Some(b.isTyping)), if b.isTyping then [] else [StartTyping])
    else
      Transition(Box(value, false, None), if b.isTyping then [StopTyping] else [])
  }

  /** The timeout as its purpose evidently intends: it lowers the indicator if it is up now. */
  function Timeout(b: Box): (t: Transition)
    ensures t.box.timeout.None? && !t.box.isTyping && t.box.message == b.message
    ensures t.effects == (if b.isTyping then [StopTyping] else [])
  {
    if b.isTyping then Transition(b.(isTyping := false, timeout := None), [StopTyping])
    else Transition(b.(timeout := None), [])
  }

  /** The timeout as written: it lowers the indicator only if it was up when its keystroke came. */
  function TimeoutAsWritten(b: Box): (t: Transition)
    ensures b.timeout.None? ==> t == Transition(b, [])
    ensures b.timeout == Some(false) ==> t == Transition(b.(timeout := None), [])
    ensures b.timeout == Some(true) ==> t == Transition(b.(isTyping := false, timeout := None), [StopTyping])
  {
    if b.timeout.None? then Transition(b, [])
    else if b.timeout.value then Transition(b.(isTyping := false, timeout := None), [StopTyping])
    else Transition(b.(timeout := None), [])
  }

  /**
   * One event: Enter without Shift and the enabled send button send, a new
   * value goes through `handleChange`, and a pending timeout fires. The
   * input and the buttons ignore the user while disabled.
   */
  function Step(disabled: bool, b: Box, e: Event): (t: Transition)
    ensures disabled && !e.TimeoutFires? ==> t == Transition(b, [])
    ensures e.KeyDown? && !(e.key == "Enter" && !e.shiftKey) ==> t == Transition(b, [])
    ensures !disabled && e == KeyDown("Enter", false) ==> t == Send(b)
    ensures e.SendClicked? && !SendDisabled(disabled, b) ==> t == Send(b)
    ensures e.SendClicked? && SendDisabled(disabled, b) ==> t == Transition(b, [])
    ensures !disabled && e.Changed? ==> t == Change(b, e.value)
    ensures e.TimeoutFires? && b.timeout.Some? ==> t == Timeout(b)
    ensures e.TimeoutFires? && b.timeout.None? ==> t == Transition(b, [])
  {
    match e
    case Changed(value) => if disabled then Transition(b, []) else Change(b, value)
    case KeyDown(key, shift) => if disabled || key != "Enter" || shift then Transition(b, []) else Send(b)
    case SendClicked => if SendDisabled(disabled, b) then Transition(b, []) else Send(b)
    case TimeoutFires => if b.timeout.None? then Transition(b, []) else Timeout(b)
  }

  function StepAsWritten(disabled: bool, b: Box, e: Event): (t: Transition)
    ensures !e.TimeoutFires? ==> t == Step(disabled, b, e)
    ensures e.TimeoutFires? ==> t == TimeoutAsWritten(b)
  {
    if e.TimeoutFires? then TimeoutAsWritten(b) else Step(disabled, b, e)
  }

  /** The state after a run of events, and every effect in order. */
  function Run(asWritten: bool, disabled: bool, events: seq<Event>): (t: Transition)
    decreases |events|
  {
    if events == [] then Transition(Initial, [])
    else
      var before := Run(asWritten, disabled, events[..|events| - 1]);
      var e := events[|events| - 1];
      var after := if asWritten then StepAsWritten(disabled, before.box, e) else Step(disabled, before.box, e);
      Transition(after.box, before.effects + after.effects)
  }

  /** Indicator raises minus lowers. */
  function Raised(effects: seq<Effect>): int {
    multiset(effects)[StartTyping] as int - multiset(effects)[StopTyping] as int
  }

  /** A timeout that captured a raised indicator finds it still raised. */
  predicate Coherent(b: Box) {
    b.timeout == Some(true) ==> b.isTyping
  }

  /** The raised count of every effect list a single event emits. */
  lemma RaisedShort(c: string)
    ensures Raised([]) == 0 && Raised([StartTyping]) == 1 && Raised([StopTyping]) == -1
    ensures Raised([SendMessage(c)]) == 0 && Raised([SendMessage(c), StopTyping]) == -1
  {
    assert multiset([SendMessage(c), StopTyping]) == multiset{SendMessage(c), StopTyping};
  }

  /** One event changes the raised count by the change in the indicator. */
  lemma StepBalanced(asWritten: bool, disabled: bool, b: Box, e: Event)
    requires Coherent(b)
    ensures var t := if asWritten then StepAsWritten(disabled, b, e) else Step(disabled, b, e);
      && Coherent(t.box)
      && Raised(t.effects) == (if t.box.isTyping then 1 else 0) - (if b.isTyping then 1 else 0)
  {
    var c := Trim(b.message);
    RaisedShort(c);
    if e.TimeoutFires? {
      if asWritten {
        assert StepAsWritten(disabled, b, e) == TimeoutAsWritten(b);
      } else if b.timeout.Some? {
        assert Step(disabled, b, e) == Timeout(b);
      }
    } else {
      if asWritten {
        assert StepAsWritten(disabled, b, e) == Step(disabled, b, e);
      }
      match e
      case Changed(value) =>
        if !disabled {
          assert Step(disabled, b, e) == Change(b, value);
        }
      case KeyDown(_, _) =>
      case SendClicked =>
    }
  }

  /**
   * Either way the parent hears start and stop alternately: after any run
   * the starts outnumber the stops by one exactly while the indicator is up.
   */
  lemma {:induction false} IndicatorBalanced(asWritten: bool, disabled: bool, events: seq<Event>)
    ensures var t := Run(asWritten, disabled, events);
      Coherent(t.box) && Raised(t.effects) == if t.box.isTyping then 1 else 0
    decreases |events|
  {
    if events != [] {
      var before := Run(asWritten, disabled, events[..|events| - 1]);
      IndicatorBalanced(asWritten, disabled, events[..|events| - 1]);
      var e := events[|events| - 1];
      var after := if asWritten then StepAsWritten(disabled, before.box, e) else Step(disabled, before.box, e);
      StepBalanced(asWritten, disabled, before.box, e);
    }
  }

  /** Typing one character and pausing: the corrected timeout lowers the indicator. */
  lemma PauseLowersIndicator(c: char)
    ensures var t1 := Step(false, Initial, Changed([c]));
      var t2 := Step(false, t1.box, TimeoutFires);
      t1.effects == [StartTyping] && t2.effects == [StopTyping] && !t2.box.isTyping
  {
  }

  /** As written, the first keystroke's timeout saw the indicator down and leaves it up for good. */
  lemma AsWrittenFirstKeystrokeStaysTyping(c: char)
    ensures var t1 := StepAsWritten(false, Initial, Changed([c]));
      var t2 := StepAsWritten(false, t1.box, TimeoutFires);
      t1.effects == [StartTyping] && t2.effects == [] && t2.box.isTyping && t2.box.timeout.None?
  {
  }
}
