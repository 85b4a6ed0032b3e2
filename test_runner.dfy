/** The pytest command line that `main` of intro-langgraph/run_tests.py
    builds from its flags, and its exit code. Running the command is an
    oracle from the command to its exit code. */
module TestRunner {

  datatype Flags = Flags(coverage: bool, verbose: bool, fast: bool, unit: bool, integration: bool, html: bool)

  /** The words the command can hold. */
  datatype Word =
    | Uv | RunWord | Pytest | Mark | UnitMark | IntegrationMark | TestsDir
    | Verbose | Workers | Auto | Cov | CovTerm | CovHtml

  function Spelling(w: Word): string
  {
    match w
    case Uv => "uv"
    case RunWord => "run"
    case Pytest => "pytest"
    case Mark => "-m"
    case UnitMark => "unit"
    case IntegrationMark => "integration"
    case TestsDir => "tests/"
    case Verbose => "-v"
    case Workers => "-n"
    case Auto => "auto"
    case Cov => "--cov=."
    case CovTerm => "--cov-report=term-missing"
    case CovHtml => "--cov-report=html"
  }

  /** The argument list handed to the runner. */
  function Spelled(cmd: seq<Word>): seq<string>
  {
    seq(|cmd|, k requires 0 <= k < |cmd| => Spelling(cmd[k]))
  }

  const Base: seq<Word> := [Uv, RunWord, Pytest]

  /** The test selection: unit tests, else integration tests, else everything under tests/. */
  function Selection(f: Flags): seq<Word>
  {
    if f.unit then [Mark, UnitMark] else if f.integration then [Mark, IntegrationMark] else [TestsDir]
  }

  function Verbosity(f: Flags): seq<Word>
  {
    if f.verbose then [Verbose] else []
  }

  function Parallel(f: Flags): seq<Word>
  {
    if f.fast then [Workers, Auto] else []
  }

  function Coverage(f: Flags): seq<Word>
  {
    if f.coverage then [Cov, CovTerm] + (if f.html then [CovHtml] else []) else []
  }

  /** The command, segment by segment in the order `main` adds them. */
  function Command(f: Flags): seq<Word>
  {
    Base + Selection(f) + Verbosity(f) + Parallel(f) + Coverage(f)
  }

  /** `cmd` grown by `append` and `extend` under the flag conditionals. */
  method BuildCommand(f: Flags) returns (cmd: seq<Word>)
    ensures cmd == Command(f)
  {
    cmd := [Uv, RunWord, Pytest];
    if f.unit {
      cmd := cmd + [Mark, UnitMark];
    } else if f.integration {
      cmd := cmd + [Mark, IntegrationMark];
    } else {
      cmd := cmd + [TestsDir];
    }
    assert cmd == Base + Selection(f);
    if f.verbose {
      cmd := cmd + [Verbose];
    }
    assert cmd == Base + Selection(f) + Verbosity(f);
    if f.fast {
      cmd := cmd + [Workers, Auto];
    }
    ghost var options := cmd;
    assert options == Base + Selection(f) + Verbosity(f) + Parallel(f);
    if f.coverage {
      cmd := cmd + [Cov, CovTerm];
      if f.html {
        cmd := cmd + [CovHtml];
        assert cmd == options + ([Cov, CovTerm] + [CovHtml]);
      }
    }
    assert cmd == options + Coverage(f);
  }

  /** `main`: the exit code is the runner's, unchanged. */
  method RunTests(f: Flags, run: seq<string> -> int) returns (exitCode: int)
    ensures exitCode == run(Spelled(Command(f)))
  {
    var cmd := BuildCommand(f);
    exitCode := run(Spelled(cmd));
  }

  /** The command starts with `uv run pytest` and then the selection, in
      which unit wins over integration. */
  lemma CommandSelection(f: Flags)
    ensures Command(f)[..3] == Base
    ensures f.unit ==> Command(f)[3..5] == [Mark, UnitMark]
    ensures !f.unit && f.integration ==> Command(f)[3..5] == [Mark, IntegrationMark]
    ensures !f.unit && !f.integration ==> Command(f)[3] == TestsDir
  {
    var sel := Selection(f);
    var rest := Verbosity(f) + Parallel(f) + Coverage(f);
    assert Command(f) == Base + (sel + rest);
    assert Command(f)[3..3 + |sel|] == sel;
  }

  predicate SelectionWord(w: Word)
  {
    w == Mark || w == TestsDir
  }

  /** Exactly one selection is added: the word after `pytest` opens it, and
      no other word is `-m` or `tests/`. */
  lemma CommandSelectsOnce(f: Flags)
    ensures SelectionWord(Command(f)[3])
    ensures forall k :: 0 <= k < |Command(f)| && k != 3 ==> !SelectionWord(Command(f)[k])
  {
    var c, sel := Command(f), Selection(f);
    var rest := Verbosity(f) + Parallel(f) + Coverage(f);
    assert c == Base + sel + rest;
    OptionsFree(f);
    forall k | 0 <= k < |c| && k != 3
      ensures !SelectionWord(c[k])
    {
      if k >= 3 + |sel| {
        assert c[k] == rest[k - 3 - |sel|];
        assert c[k] in rest;
      }
    }
  }

  /** The option segments hold no selection word. */
  lemma OptionsFree(f: Flags)
    ensures var rest := Verbosity(f) + Parallel(f) + Coverage(f);
      Mark !in rest && TestsDir !in rest
  {
  }

  /** Each option is present exactly when its flag is set; the HTML report
      only with coverage. */
  lemma CommandOptions(f: Flags)
    ensures Verbose in Command(f) <==> f.verbose
    ensures Workers in Command(f) <==> f.fast
    ensures Cov in Command(f) <==> f.coverage
    ensures CovTerm in Command(f) <==> f.coverage
    ensures CovHtml in Command(f) <==> f.coverage && f.html
  {
    var c := Command(f);
    assert forall x :: x in c <==> x in Base || x in Selection(f) || x in Verbosity(f) || x in Parallel(f) || x in Coverage(f);
  }
}
