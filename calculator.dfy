/**
 * The calculator tool provider: integer `multiply`, `add` and `power`,
 * each exposed as a tool taking the keyword arguments `a` and `b`, and the
 * provider's `tool_list`.
 */
module Calculator {
  import opened Messages

  function Multiply(a: int, b: int): int { a * b }

  function Add(a: int, b: int): int { a + b }

  /** Exponentiation as a repeated product: the meaning of `a ** b` for `b >= 0`. */
  function Exp(a: int, b: nat): int
  {
    if b == 0 then 1 else a * Exp(a, b - 1)
  }

  /**
   * `a ** b` for a non-negative exponent, computed by a binary
   * exponentiation that squares once per bit of `b` from the top.
   */
  function Power(a: int, b: nat): int
    decreases b
  {
    if b == 0 then 1
    else
      var half := Power(a, b / 2);
      if b % 2 == 0 then half * half else half * half * a
  }

  lemma {:induction false} ExpAdd(a: int, m: nat, n: nat)
    ensures Exp(a, m + n) == Exp(a, m) * Exp(a, n)
    decreases m
  {
    if m > 0 {
      ExpAdd(a, m - 1, n);
      calc {
        Exp(a, m + n);
        a * Exp(a, m - 1 + n);
        a * (Exp(a, m - 1) * Exp(a, n));
        (a * Exp(a, m - 1)) * Exp(a, n);
      }
    }
  }

  /** Binary exponentiation agrees with the repeated product for every exponent. */
  lemma {:induction false} PowerIsExp(a: int, b: nat)
    ensures Power(a, b) == Exp(a, b)
    decreases b
  {
    if b > 0 {
      var k := b / 2;
      PowerIsExp(a, k);
      ExpAdd(a, k, k);
      if b % 2 == 1 {
        ExpAdd(a, k + k, 1);
        assert Exp(a, 1) == a;
      }
    }
  }

  /** `a ** 0 == 1` and `a ** (b + 1) == a * a ** b`. */
  lemma PowerRecurrence(a: int, b: nat)
    ensures Power(a, 0) == 1
    ensures Power(a, b + 1) == a * Power(a, b)
  {
    PowerIsExp(a, b);
    PowerIsExp(a, b + 1);
  }

  const ValidationError := "validation error: arguments a and b must be integers"
  const ZeroDivisionError := "ZeroDivisionError: 0 cannot be raised to a negative power"
  const OverflowError := "OverflowError: int too large to convert to float"

  /**
   * The integers that convert to a double without overflow: those whose
   * magnitude rounds to at most the largest finite double, 2^1024 - 2^971.
   */
  predicate FitsDouble(x: int)
  {
    var bound := Exp(2, 1024) - Exp(2, 970);
    -bound < x < bound
  }

  /** The keyword arguments `a` and `b` as the two given integers. */
  function Operands(x: int, y: int): Args
  {
    map["a" := Int(x), "b" := Int(y)]
  }

  /**
   * A tool over the two integer parameters `a` and `b`: arguments that do
   * not validate raise before the body runs. The description is the
   * docstring's summary line only; the docstring's Args and Returns
   * sections, which the tool's description also carries, are abbreviated
   * away because nothing here depends on them.
   */
  function BinaryTool(name: string, description: string, body: (int, int) -> Invocation): Tool
  {
    Tool(name, description,
      (args: Args) =>
        if "a" in args && args["a"].Int? && "b" in args && args["b"].Int?
        then body(args["a"].i, args["b"].i)
        else Raised(ValidationError))
  }

  /**
   * `a ** b` over Python integers: an integer for `b >= 0`. A negative
   * exponent is handed to float exponentiation, which first converts both
   * operands to double (raising on overflow) and then rejects a zero base.
   */
  function PowerBody(a: int, b: int): Invocation
  {
    if b >= 0 then Returned(Int(Power(a, b)))
    else if !(FitsDouble(a) && FitsDouble(b)) then Raised(OverflowError)
    else if a == 0 then Raised(ZeroDivisionError)
    else Returned(Float)
  }

  const MultiplyTool := BinaryTool("multiply", "Multiply two numbers.", (a, b) => Returned(Int(Multiply(a, b))))
  const AddTool := BinaryTool("add", "Add two numbers.", (a, b) => Returned(Int(Add(a, b))))
  const PowerTool := BinaryTool("power", "Raise a number to the power of another.", (a, b) => PowerBody(a, b))

  /** The provider's exported `tool_list`. */
  const ToolList: seq<Tool> := [MultiplyTool, AddTool, PowerTool]

  /** The three tools, in order, with three distinct names. */
  lemma ToolListNames()
    ensures |ToolList| == 3
    ensures ToolList[0].name == "multiply" && ToolList[1].name == "add" && ToolList[2].name == "power"
    ensures forall i, j :: 0 <= i < j < |ToolList| ==> ToolList[i].name != ToolList[j].name
  {
  }

  /** Invoked with integers `a` and `b`, each tool returns the arithmetic result. */
  lemma {:induction false} ToolsCompute(x: int, y: int)
    ensures MultiplyTool.run(Operands(x, y)) == Returned(Int(x * y))
    ensures AddTool.run(Operands(x, y)) == Returned(Int(x + y))
    ensures y >= 0 ==> PowerTool.run(Operands(x, y)) == Returned(Int(Exp(x, y)))
    ensures y < 0 && !(FitsDouble(x) && FitsDouble(y)) ==> PowerTool.run(Operands(x, y)) == Raised(OverflowError)
    ensures y < 0 && FitsDouble(x) && FitsDouble(y) && x == 0 ==> PowerTool.run(Operands(x, y)) == Raised(ZeroDivisionError)
    ensures y < 0 && FitsDouble(x) && FitsDouble(y) && x != 0 ==> PowerTool.run(Operands(x, y)) == Returned(Float)
  {
    assert PowerTool.run(Operands(x, y)) == PowerBody(x, y);
    if y >= 0 {
      PowerIsExp(x, y);
    }
  }

  /** A call whose `a` or `b` is missing or not an integer raises for every calculator tool. */
  lemma ToolsRejectBadArguments(args: Args)
    requires !("a" in args && args["a"].Int? && "b" in args && args["b"].Int?)
    ensures forall i :: 0 <= i < |ToolList| ==> ToolList[i].run(args) == Raised(ValidationError)
  {
  }
}
