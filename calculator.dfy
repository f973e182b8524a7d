/** The `Calculator` class of src/myapp/app.py. It has no state, so each of its
    methods is a function of its two operands. Operands are exact reals: Python's
    `int | float` union and true division `/` are modelled without rounding. */
module Calculator {
  import opened Outcome

  /** The message of the `ValueError` raised by `divide` on a zero divisor. */
  const DivideByZeroMessage: string := "Cannot divide by zero"

  function Add(a: real, b: real): real {
    a + b
  }

  function Subtract(a: real, b: real): real {
    a - b
  }

  function Multiply(a: real, b: real): real {
    a * b
  }

  /** True division; fails exactly when the divisor is zero, and otherwise
      returns the unique quotient that multiplied by `b` gives back `a`. */
  function Divide(a: real, b: real): (r: Result<real>)
    ensures r.Failure? <==> b == 0.0
    ensures r.Failure? ==> r.error == ValueError(DivideByZeroMessage)
    ensures r.Success? ==> r.value * b == a
  {
    if b == 0.0 then Failure(ValueError(DivideByZeroMessage)) else Success(a / b)
  }

  lemma AddCommutative(a: real, b: real)
    ensures Add(a, b) == Add(b, a)
  {
  }

  lemma MultiplyCommutative(a: real, b: real)
    ensures Multiply(a, b) == Multiply(b, a)
  {
  }

  lemma SubtractAntisymmetric(a: real, b: real)
    ensures Subtract(a, b) == -Subtract(b, a)
  {
  }

  /** Subtraction undoes addition. */
  lemma SubtractUndoesAdd(a: real, b: real)
    ensures Subtract(Add(a, b), b) == a
  {
  }

  /** Division by a non-zero number undoes multiplication by it. */
  lemma DivideUndoesMultiply(a: real, b: real)
    requires b != 0.0
    ensures Divide(Multiply(a, b), b) == Success(a)
  {
    var q := Divide(Multiply(a, b), b).value;
    assert q * b == a * b;
    assert q == (q * b) / b;
  }

  /** Whatever the dividend, a zero divisor raises the same error. */
  lemma DivideByZeroFails(a: real)
    ensures Divide(a, 0.0) == Failure(ValueError("Cannot divide by zero"))
  {
  }

  /** The values the unit tests of the calculator check. */
  lemma CalculatorExamples()
    ensures Add(2.0, 3.0) == 5.0 && Add(-1.0, 1.0) == 0.0 && Add(0.0, 0.0) == 0.0
    ensures Add(2.5, 3.5) == 6.0
    ensures Subtract(5.0, 3.0) == 2.0 && Subtract(1.0, 1.0) == 0.0 && Subtract(0.0, 5.0) == -5.0
    ensures Subtract(7.5, 2.5) == 5.0
    ensures Multiply(2.0, 3.0) == 6.0 && Multiply(-1.0, 5.0) == -5.0 && Multiply(0.0, 10.0) == 0.0
    ensures Multiply(2.5, 4.0) == 10.0
    ensures Divide(6.0, 2.0) == Success(3.0)
    ensures Divide(7.0, 2.0) == Success(3.5)
    ensures Divide(-10.0, 2.0) == Success(-5.0)
  {
  }
}
