/**
 * The calculator's input state machine: four state cells (the display text,
 * the stored first operand, the pending operator and whether the next digit
 * starts a new number) changed by five key handlers. Parsing, printing and
 * floating-point arithmetic are JavaScript's own and are kept uninterpreted:
 * they arrive as a `Numerics` bundle, so everything proved here holds for
 * any number type `N` and any implementation of those operations.
 */
module CalculatorHook {

  datatype Option<T> = None | Some(value: T)

  /** The four keys that combine two operands. */
  datatype Operator = Add | Subtract | Multiply | Divide

  /** The number primitives the hook calls: parseFloat, String(number), `||` on a number, + - * /. */
  datatype Numerics<!N> = Numerics(
    parseFloat: string -> N,
    format: N -> string,
    zero: N,
    truthy: N -> bool,
    add: (N, N) -> N,
    subtract: (N, N) -> N,
    multiply: (N, N) -> N,
    divide: (N, N) -> N)

  /** A snapshot of the four state cells. */
  datatype State<N> = State(display: string, first: Option<N>, op: Option<Operator>, waiting: bool)

  /** What the user can press; a digit key carries the text it appends. */
  datatype Key = Digit(text: string) | Decimal | ClearKey | OperatorKey(next: Option<Operator>) | Equals

  // ------------------------------------------------------------ display text

  /** The number of '.' characters in s. */
  function DotCount(s: string): nat
  {
    if |s| == 0 then 0 else DotCount(s[..|s| - 1]) + (if s[|s| - 1] == '.' then 1 else 0)
  }

  lemma {:induction false} DotCountZero(s: string)
    ensures DotCount(s) == 0 <==> '.' !in s
  {
    if |s| > 0 {
      var init := s[..|s| - 1];
      DotCountZero(init);
      assert s == init + [s[|s| - 1]];
      if '.' in init {
        var i :| 0 <= i < |init| && init[i] == '.';
        assert s[i] == '.';
      }
    }
  }

  lemma {:induction false} DotCountAppend(s: string, t: string)
    ensures DotCount(s + t) == DotCount(s) + DotCount(t)
  {
    if |t| > 0 {
      var init := t[..|t| - 1];
      assert (s + t)[..|s + t| - 1] == s + init;
      DotCountAppend(s, init);
    } else {
      assert s + t == s;
    }
  }

  /** JavaScript's String(number) never writes two decimal points ("1.5", "1.5e-7", "NaN", "Infinity"). */
  ghost predicate PlainFormat<N(!new)>(num: Numerics<N>)
  {
    forall x :: DotCount(num.format(x)) <= 1
  }

  // ------------------------------------------------------------ arithmetic

  /** The arithmetic of the pending operator; with no operator the second operand is the result. */
  function Calculate<N>(num: Numerics<N>, first: N, second: N, op: Option<Operator>): (r: N)
    ensures op.None? ==> r == second
  {
    match op
    case Some(Add) => num.add(first, second)
    case Some(Subtract) => num.subtract(first, second)
    case Some(Multiply) => num.multiply(first, second)
    case Some(Divide) => num.divide(first, second)
    case None => second
  }

  // ------------------------------------------------------------ the handlers on values

  /** The state the hook starts in. */
  function Initial<N>(): (s: State<N>)
    ensures s.display == "0" && s.first.None? && s.op.None? && !s.waiting
  {
    State("0", None, None, false)
  }

  function AfterDigit<N>(s: State<N>, digit: string): State<N>
  {
    if s.waiting then s.(display := digit, waiting := false)
    else s.(display := if s.display == "0" then digit else s.display + digit)
  }

  function AfterDecimal<N>(s: State<N>): State<N>
  {
    if s.waiting then s.(display := "0.", waiting := false)
    else if '.' !in s.display then s.(display := s.display + ".")
    else s
  }

  function AfterOperation<N>(num: Numerics<N>, s: State<N>, next: Option<Operator>): (r: State<N>)
    ensures r.waiting && r.op == next
    ensures s.first.None? ==> r.display == s.display && r.first == Some(num.parseFloat(s.display))
    ensures s.first.Some? && s.op.None? ==> r.display == s.display && r.first == s.first
  {
    var input := num.parseFloat(s.display);
    var s' :=
      if s.first.None? then s.(first := Some(input))
      else if s.op.Some? then
        var current := if num.truthy(s.first.value) then s.first.value else num.zero;
        var result := Calculate(num, current, input, s.op);
        s.(display := num.format(result), first := Some(result))
      else s;
    s'.(waiting := true, op := next)
  }

  function AfterEquals<N>(num: Numerics<N>, s: State<N>): (r: State<N>)
    ensures s.op.None? || s.first.None? ==> r == s
    ensures s.op.Some? && s.first.Some? ==>
      r.display == num.format(Calculate(num, s.first.value, num.parseFloat(s.display), s.op)) &&
      r.first.None? && r.op.None? && r.waiting
  {
    if s.op.None? || s.first.None? then s
    else
      var result := Calculate(num, s.first.value, num.parseFloat(s.display), s.op);
      State(num.format(result), None, None, true)
  }

  /** One key press. */
  function Step<N>(num: Numerics<N>, s: State<N>, k: Key): State<N>
  {
    match k
    case Digit(text) => AfterDigit(s, text)
    case Decimal => AfterDecimal(s)
    case ClearKey => Initial()
    case OperatorKey(next) => AfterOperation(num, s, next)
    case Equals => AfterEquals(num, s)
  }

  /** A sequence of key presses, in order. */
  function Run<N>(num: Numerics<N>, s: State<N>, keys: seq<Key>): State<N>
    decreases keys
  {
    if |keys| == 0 then s else Run(num, Step(num, s, keys[0]), keys[1..])
  }

  /** The digit keys of the keypad write no decimal point. */
  predicate DigitKeys(keys: seq<Key>)
  {
    forall i :: 0 <= i < |keys| && keys[i].Digit? ==> '.' !in keys[i].text
  }

  // ------------------------------------------------------------ properties

  /**
   * What every reachable state satisfies: the display holds at most one
   * decimal point, and an operator is only pending once a first operand is stored.
   */
  ghost predicate Inv<N>(s: State<N>)
  {
    DotCount(s.display) <= 1 && (s.op.Some? ==> s.first.Some?)
  }

  /** A digit without a '.' never adds a decimal point. */
  lemma DigitKeepsDots<N>(s: State<N>, digit: string)
    requires '.' !in digit
    ensures DotCount(AfterDigit(s, digit).display) <= DotCount(s.display)
    ensures !AfterDigit(s, digit).waiting
  {
    DotCountZero(digit);
    DotCountAppend(s.display, digit);
  }

  /** The decimal key leaves exactly one decimal point, whatever the display held before (at most one). */
  lemma DecimalOneDot<N>(s: State<N>)
    requires DotCount(s.display) <= 1
    ensures DotCount(AfterDecimal(s).display) == 1
    ensures !AfterDecimal(s).waiting
  {
    if s.waiting {
      assert "0."[..1] == "0";
      assert "0"[..0] == "";
    } else if '.' !in s.display {
      DotCountZero(s.display);
      assert DotCount(".") == 1 by {
        assert "."[..0] == "";
      }
      DotCountAppend(s.display, ".");
    } else {
      DotCountZero(s.display);
    }
  }

  /** Clear returns every cell to its starting value. */
  lemma ClearResets<N>(num: Numerics<N>, s: State<N>)
    ensures Step(num, s, ClearKey) == Initial() && Inv(Initial<N>())
  {
    assert "0"[..0] == "";
  }

  /** Every key press keeps the invariant. */
  lemma StepKeepsInv<N(!new)>(num: Numerics<N>, s: State<N>, k: Key)
    requires PlainFormat(num) && Inv(s)
    requires k.Digit? ==> '.' !in k.text
    ensures Inv(Step(num, s, k))
  {
    match k
    case Digit(text) => DigitKeepsDots(s, text);
    case Decimal => DecimalOneDot(s);
    case ClearKey => ClearResets(num, s);
    case OperatorKey(next) =>
    case Equals =>
  }

  /** From any state satisfying the invariant, any sequence of keypad presses keeps it. */
  lemma {:induction false} RunKeepsInv<N(!new)>(num: Numerics<N>, s: State<N>, keys: seq<Key>)
    requires PlainFormat(num) && Inv(s) && DigitKeys(keys)
    ensures Inv(Run(num, s, keys))
    decreases keys
  {
    if |keys| > 0 {
      StepKeepsInv(num, s, keys[0]);
      assert DigitKeys(keys[1..]) by {
        forall i | 0 <= i < |keys| - 1 && keys[1..][i].Digit?
          ensures '.' !in keys[1..][i].text
        {
          assert keys[1..][i] == keys[i + 1];
        }
      }
      RunKeepsInv(num, Step(num, s, keys[0]), keys[1..]);
    }
  }

  /** The display the hook shows never holds two decimal points. */
  lemma ReachableOneDot<N(!new)>(num: Numerics<N>, keys: seq<Key>)
    requires PlainFormat(num) && DigitKeys(keys)
    ensures DotCount(Run(num, Initial(), keys).display) <= 1
  {
    assert "0"[..0] == "";
    RunKeepsInv(num, Initial(), keys);
  }

  /**
   * In a reachable state equals does nothing exactly when no operator is
   * pending: its test of the first operand never decides anything.
   */
  lemma EqualsIdleIffNoOperator<N>(num: Numerics<N>, s: State<N>)
    requires Inv(s)
    ensures AfterEquals(num, s) == s <==> s.op.None?
  {
  }

  /** Running two key sequences one after the other is running their concatenation. */
  lemma {:induction false} RunAppend<N>(num: Numerics<N>, s: State<N>, first: seq<Key>, second: seq<Key>)
    ensures Run(num, s, first + second) == Run(num, Run(num, s, first), second)
    decreases first
  {
    if |first| == 0 {
      assert first + second == second;
    } else {
      assert (first + second)[0] == first[0];
      assert (first + second)[1..] == first[1..] + second;
      RunAppend(num, Step(num, s, first[0]), first[1..], second);
    }
  }

  // ------------------------------------------------------------ the hook's state cells

  /** The hook itself: four cells that each handler overwrites in place. */
  class Calculator<N> {
    const num: Numerics<N>
    var displayValue: string
    var firstOperand: Option<N>
    var operator: Option<Operator>
    var waitingForSecondOperand: bool

    function View(): State<N>
      reads this
    {
      State(displayValue, firstOperand, operator, waitingForSecondOperand)
    }

    constructor(num: Numerics<N>)
      ensures this.num == num && View() == Initial()
    {
      this.num := num;
      displayValue := "0";
      firstOperand := None;
      operator := None;
      waitingForSecondOperand := false;
    }

    method InputDigit(digit: string)
      modifies this
      ensures View() == AfterDigit(old(View()), digit)
    {
      if waitingForSecondOperand {
        displayValue := digit;
        waitingForSecondOperand := false;
      } else {
        displayValue := if displayValue == "0" then digit else displayValue + digit;
      }
    }

    method InputDecimal()
      modifies this
      ensures View() == AfterDecimal(old(View()))
    {
      if waitingForSecondOperand {
        displayValue := "0.";
        waitingForSecondOperand := false;
        return;
      }
      if '.' !in displayValue {
        displayValue := displayValue + ".";
      }
    }

    method Clear()
      modifies this
      ensures View() == Initial()
    {
      displayValue := "0";
      firstOperand := None;
      operator := None;
      waitingForSecondOperand := false;
    }

    method PerformOperation(nextOperator: Option<Operator>)
      modifies this
      ensures View() == AfterOperation(num, old(View()), nextOperator)
    {
      var inputValue := num.parseFloat(displayValue);
      if firstOperand.None? {
        firstOperand := Some(inputValue);
      } else if operator.Some? {
        var currentValue := if num.truthy(firstOperand.value) then firstOperand.value else num.zero;
        var newValue := Calculate(num, currentValue, inputValue, operator);
        displayValue := num.format(newValue);
        firstOperand := Some(newValue);
      }
      waitingForSecondOperand := true;
      operator := nextOperator;
    }

    method HandleEquals()
      modifies this
      ensures View() == AfterEquals(num, old(View()))
    {
      if operator.None? || firstOperand.None? {
        return;
      }
      var inputValue := num.parseFloat(displayValue);
      var result := Calculate(num, firstOperand.value, inputValue, operator);
      displayValue := num.format(result);
      firstOperand := None;
      operator := None;
      waitingForSecondOperand := true;
    }

  }
}
