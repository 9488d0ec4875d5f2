/**
 The actuator's arithmetic on step-minute cron expressions (backend/control/actuator.py):
 the parse/print pair for expressions of the form "STAR/N * * * *" (STAR being the asterisk)
 and the bounded widening of N.
 */
module ControlActuator {
  import opened Common
  import opened Decimal

  function PrintInt(n: int): string {
    if n < 0 then "-" + PrintNat(-n) else PrintNat(n)
  }

  function TrimLeft(s: string): string {
    if s != "" && IsSpace(s[0]) then TrimLeft(s[1..]) else s
  }

  function TrimRight(s: string): string {
    if s != "" && IsSpace(s[|s| - 1]) then TrimRight(s[..|s| - 1]) else s
  }

  const HEAD := "*/"
  const TAIL := " * * * *"

  /** _parse_step_minutes: N for a step expression, None for any other shape. */
  function ParseStepMinutes(cron: string): Option<nat> {
    var s := TrimRight(TrimLeft(cron));
    if |s| > |HEAD| + |TAIL| && s[..|HEAD|] == HEAD && s[|s| - |TAIL|..] == TAIL
       && AllDigits(s[|HEAD|..|s| - |TAIL|])
    then Some(ParseNat(s[|HEAD|..|s| - |TAIL|]))
    else None
  }

  function PrintStepMinutes(n: int): string {
    HEAD + PrintInt(n) + TAIL
  }

  /** What is printed is read back: no widening makes a step schedule unreadable. */
  lemma ParsePrintRoundTrip(n: nat)
    ensures ParseStepMinutes(PrintStepMinutes(n)) == Some(n)
  {
    var digits, s := PrintNat(n), PrintStepMinutes(n);
    PrintedDigitsParse(n);
    assert s == HEAD + (digits + TAIL);
    assert TrimLeft(s) == s && TrimRight(s) == s;
    assert s[..|HEAD|] == HEAD;
    assert s[|s| - |TAIL|..] == TAIL;
    assert s[|HEAD|..|s| - |TAIL|] == digits;
  }

  // ---------------------------------------------------------------------------
  // Bounded widening
  // ---------------------------------------------------------------------------

  /** Round half to even, as Python's round does. */
  function Round(x: real): int {
    var low := x.Floor;
    var rest := x - low as real;
    if rest < 0.5 then low
    else if rest > 0.5 then low + 1
    else if low % 2 == 0 then low else low + 1
  }

  function Min(a: int, b: int): int { if a < b then a else b }

  function Max(a: int, b: int): int { if a > b then a else b }

  /** The new step of a schedule: min(max(1, round(minutes * factor)), max_minutes). */
  function WidenedMinutes(minutes: nat, factor: real, maxMinutes: int): int {
    Min(Max(1, Round(minutes as real * factor)), maxMinutes)
  }

  /**
   "Increase interval" never narrows a schedule: false. For any factor it holds exactly for steps
   up to the maximum of which the factor takes less than half a minute, or just half a minute
   from an even step, or which are a single minute. A factor of at least 1 takes nothing.
   */
  lemma WideningNeverNarrowsIff(minutes: nat, factor: real, maxMinutes: int)
    ensures var taken := minutes as real - minutes as real * factor;
      WidenedMinutes(minutes, factor, maxMinutes) >= minutes <==>
        && minutes <= maxMinutes
        && (minutes <= 1 || taken < 0.5 || (taken == 0.5 && minutes % 2 == 0))
    ensures factor >= 1.0 ==> (WidenedMinutes(minutes, factor, maxMinutes) >= minutes <==> minutes <= maxMinutes)
  {
    RoundsUpIff(minutes as real * factor, minutes);
    if factor >= 1.0 {
      TakesNothing(minutes, factor);
    }
    hide Round;
  }

  lemma RoundsUpIff(x: real, n: int)
    ensures Round(x) >= n <==> n as real - x < 0.5 || (n as real - x == 0.5 && n % 2 == 0)
  {
    var low := x.Floor;
    var rest := x - low as real;
    assert 0.0 <= rest < 1.0;
    if n <= low {
      assert n as real <= low as real;
    } else if n == low + 1 {
      assert n as real - x == 1.0 - rest;
      assert n % 2 == 0 <==> low % 2 != 0;
    } else {
      assert n as real >= low as real + 2.0;
    }
  }

  /** A factor of at least 1 takes nothing. */
  lemma TakesNothing(minutes: nat, factor: real)
    requires factor >= 1.0
    ensures minutes as real * factor >= minutes as real
  {
    assert minutes as real * factor - minutes as real == minutes as real * (factor - 1.0);
  }

  /** The default settings cut a two-day step down to one day. */
  lemma WideningCanNarrow()
    ensures WidenedMinutes(2880, 2.0, 1440) == 1440
  {}
}
