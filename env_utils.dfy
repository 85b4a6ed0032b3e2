/** `get_env` of intro-langgraph/utils.py, over the process environment
    given as a map. */
module EnvUtils {
  import opened Wrappers

  function NotSet(key: string): Error
  {
    Error(ValueError, "Environment variable " + key + " is not set")
  }

  /** `os.getenv(key)`, raising when the variable is missing or empty. */
  function GetEnv(env: map<string, string>, key: string): (r: Outcome<string>)
    ensures r.Value? <==> key in env && env[key] != ""
    ensures r.Value? ==> r.value == env[key]
    ensures r.Raise? ==> r.error == NotSet(key)
  {
    if key !in env || env[key] == "" then Raise(NotSet(key)) else Value(env[key])
  }

  /** Setting a variable to a non-empty value makes `get_env` return it
      verbatim, and setting any other name, even one differing only in
      case, does not change what `get_env` returns. */
  lemma GetEnvAfterSet(env: map<string, string>, key: string, other: string, value: string)
    ensures value != "" ==> GetEnv(env[key := value], key) == Value(value)
    ensures value == "" ==> GetEnv(env[key := value], key) == Raise(NotSet(key))
    ensures other != key ==> GetEnv(env[other := value], key) == GetEnv(env, key)
  {
  }

  /** Values are returned verbatim, whitespace included. */
  lemma GetEnvReturnsValue()
    ensures GetEnv(map["TEST_VAR" := "test_value"], "TEST_VAR") == Value("test_value")
    ensures GetEnv(map["WHITESPACE_VAR" := "  test  "], "WHITESPACE_VAR") == Value("  test  ")
  {
  }

  /** A missing and an empty variable raise the same error. */
  lemma GetEnvRaises()
    ensures GetEnv(map[], "NONEXISTENT_VAR") == Raise(NotSet("NONEXISTENT_VAR"))
    ensures GetEnv(map["EMPTY_VAR" := ""], "EMPTY_VAR") == Raise(NotSet("EMPTY_VAR"))
  {
  }

  /** Names are compared exactly: "test_var" is not "TEST_VAR". */
  lemma GetEnvCaseSensitive()
    ensures GetEnv(map["test_var" := "lowercase"], "TEST_VAR").Raise?
    ensures GetEnv(map["test_var" := "lowercase"], "test_var") == Value("lowercase")
  {
    assert "test_var"[0] != "TEST_VAR"[0];
  }
}
