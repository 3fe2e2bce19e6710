/**
 * The calculator's input editor (Yk/pro2/script.js): the expression typed so far,
 * the flag that makes the next digit start a fresh expression after a result, and
 * the display field.
 */
module Calculator {
  import opened JsText

  /** The characters `/[\+\-\*\/\.\^%]$/` looks for at the end of the input. */
  predicate IsOperatorChar(c: char)
  {
    c == '+' || c == '-' || c == '*' || c == '/' || c == '.' || c == '^' || c == '%'
  }

  /** Whether the input ends with an operator character (or a decimal point). */
  predicate EndsWithOperator(s: string): (r: bool)
    ensures r <==> s != [] && s[|s| - 1] in "+-*/.^%"
  {
    s != [] && IsOperatorChar(s[|s| - 1])
  }

  /** updateDisplay: `currentInput || '0'`. */
  function Shown(input: string): (d: string)
    ensures input == "" ==> d == "0"
    ensures input != "" ==> d == input
    ensures d != ""
  {
    if input == "" then "0" else input
  }

  /** Two inputs look alike on the display only when they are equal or are "" and "0". */
  lemma ShownConfusesOnlyEmptyAndZero(a: string, b: string)
    requires Shown(a) == Shown(b) && a != b
    ensures (a == "" && b == "0") || (a == "0" && b == "")
  {
  }

  /** No two decimal points side by side. */
  predicate NoAdjacentDots(s: string)
  {
    forall i :: 0 <= i < |s| - 1 ==> !(s[i] == '.' && s[i + 1] == '.')
  }

  /** Appending one character that is not a second '.' keeps NoAdjacentDots. */
  lemma AppendKeepsNoAdjacentDots(s: string, c: char)
    requires NoAdjacentDots(s)
    requires !(c == '.' && EndsWith(s, "."))
    ensures NoAdjacentDots(s + [c])
  {
    var t := s + [c];
    forall i | 0 <= i < |t| - 1 ensures !(t[i] == '.' && t[i + 1] == '.') {
      if i == |s| - 1 {
        assert s[|s| - 1..] == [s[i]];
      } else {
        assert t[i] == s[i] && t[i + 1] == s[i + 1];
      }
    }
  }

  /** What `eval` and friends produced: a number's text, `undefined`, or a thrown error. */
  datatype Evaluation = Value(text: string) | Undefined | Failed

  /** The calculator's module-level state and the display field. */
  class CalculatorApp {
    var currentInput: string
    var resetNext: bool
    var display: string

    /** Start-up: nothing typed, and updateDisplay shows "0". */
    constructor ()
      ensures currentInput == "" && !resetNext && display == "0"
    {
      currentInput := "";
      resetNext := false;
      display := Shown("");
    }

    /**
     * appendNumber: after a result the input is first emptied and the flag cleared;
     * then a '.' right after a '.' is dropped (leaving the display as it was), and
     * anything else is appended exactly.
     */
    method AppendNumber(number: string)
      modifies this
      ensures !resetNext
      ensures var base := if old(resetNext) then "" else old(currentInput);
        if number == "." && EndsWith(base, ".") then
          currentInput == base && display == old(display)
        else
          currentInput == base + number && display == Shown(currentInput)
      ensures |number| == 1 && NoAdjacentDots(old(currentInput)) ==> NoAdjacentDots(currentInput)
    {
      if resetNext {
        currentInput := "";
        resetNext := false;
      }
      ghost var base := currentInput;
      if number == "." && EndsWith(currentInput, ".") {
        return;
      }
      currentInput := currentInput + number;
      display := Shown(currentInput);
      if |number| == 1 && NoAdjacentDots(old(currentInput)) {
        assert NoAdjacentDots(base);
        assert number == [number[0]];
        AppendKeepsNoAdjacentDots(base, number[0]);
      }
    }

    /**
     * appendOperator: on empty input only '-' is taken; a trailing operator character
     * is replaced, otherwise the operator is appended. The flag is left alone, so an
     * operator typed after a result extends that result.
     */
    method AppendOperator(op: string)
      modifies this
      ensures resetNext == old(resetNext)
      ensures old(currentInput) == "" && op != "-" ==>
        currentInput == old(currentInput) && display == old(display)
      ensures !(old(currentInput) == "" && op != "-") ==>
        && currentInput == (if EndsWithOperator(old(currentInput)) then old(currentInput)[..|old(currentInput)| - 1]
                            else old(currentInput)) + op
        && EndsWith(currentInput, op)
        && |currentInput| <= |old(currentInput)| + |op|
        && display == Shown(currentInput)
    {
      if currentInput == "" && op != "-" {
        return;
      }
      if EndsWithOperator(currentInput) {
        currentInput := currentInput[..|currentInput| - 1];
      }
      currentInput := currentInput + op;
      display := Shown(currentInput);
    }

    /** clearDisplay: the input is emptied and the display shows "0". */
    method ClearDisplay()
      modifies this
      ensures currentInput == "" && display == "0" && resetNext == old(resetNext)
    {
      currentInput := "";
      display := Shown(currentInput);
    }

    /** clearEntry: the last character goes; on empty input nothing happens. */
    method ClearEntry()
      modifies this
      ensures old(currentInput) == "" ==> currentInput == "" && display == old(display)
      ensures old(currentInput) != "" ==>
        && currentInput + [old(currentInput)[|old(currentInput)| - 1]] == old(currentInput)
        && display == Shown(currentInput)
      ensures resetNext == old(resetNext)
    {
      if |currentInput| == 0 {
        return;
      }
      currentInput := currentInput[..|currentInput| - 1];
      display := Shown(currentInput);
    }

    /** backspace: the same as clearEntry. */
    method Backspace()
      modifies this
      ensures old(currentInput) == "" ==> currentInput == "" && display == old(display)
      ensures old(currentInput) != "" ==>
        && currentInput + [old(currentInput)[|old(currentInput)| - 1]] == old(currentInput)
        && display == Shown(currentInput)
      ensures resetNext == old(resetNext)
    {
      ClearEntry();
    }

    /**
     * The state change of calculate once `eval` has run on the input: nothing on empty
     * input or an `undefined` result; a value replaces the input and arms the flag;
     * an error empties the input, shows "Error" and arms the flag.
     */
    method Calculate(outcome: Evaluation)
      modifies this
      ensures old(currentInput) == "" || outcome.Undefined? ==>
        currentInput == old(currentInput) && resetNext == old(resetNext) && display == old(display)
      ensures old(currentInput) != "" && outcome.Value? ==>
        currentInput == outcome.text && resetNext && display == Shown(outcome.text)
      ensures old(currentInput) != "" && outcome.Failed? ==>
        currentInput == "" && resetNext && display == "Error"
    {
      if currentInput == "" {
        return;
      }
      match outcome {
        case Undefined =>
          return;
        case Value(text) =>
          currentInput := text;
          display := Shown(currentInput);
          resetNext := true;
        case Failed =>
          display := "Error";
          currentInput := "";
          resetNext := true;
      }
    }
  }

  /** After a result, an operator continues from the result while a digit starts over. */
  method OperatorThenDigitAfterResult(c: CalculatorApp, result: string, op: string, digit: string)
    requires c.currentInput != "" && result != "" && !EndsWithOperator(result) && digit != "."
    modifies c
  {
    c.Calculate(Value(result));
    c.AppendOperator(op);
    assert c.currentInput == result + op && c.resetNext;
    c.AppendNumber(digit);
    assert c.currentInput == digit && !c.resetNext;
  }
}
