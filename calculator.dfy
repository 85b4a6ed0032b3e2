/** The integer tools `add`, `subtract` and `multiply` of
    agents/course/llamaindex/tools.py. Python integers are unbounded, as
    Dafny's are. */
module Calculator {

  function Add(a: int, b: int): (r: int)
    ensures r - b == a && r - a == b
  {
    a + b
  }

  function Subtract(a: int, b: int): (r: int)
    ensures r + b == a
  {
    a - b
  }

  function Multiply(a: int, b: int): (r: int)
    ensures r == 0 <==> a == 0 || b == 0
  {
    a * b
  }

  /** The examples in the docstrings. */
  lemma DocExamples()
    ensures Add(2, 3) == 5
    ensures Subtract(2, 3) == -1
    ensures Multiply(2, 3) == 6
  {
  }

  /** Subtracting what was added gives the original number back. */
  lemma SubtractUndoesAdd(a: int, b: int)
    ensures Subtract(Add(a, b), b) == a
    ensures Add(Subtract(a, b), b) == a
  {
  }
}
