/**
 * helper.go: reading an integer setting from the environment, and the
 * last-occurrence slicing that extracts a file extension.
 */
module Helper {
  import opened Wrappers
  import opened Strconv
  import opened GoStrings

  /** The process environment; a variable that is absent reads as "". */
  type Env = map<string, string>

  /** `os.Getenv(key)`. */
  function Getenv(env: Env, key: string): string
  {
    if key in env then env[key] else ""
  }

  /**
   * `validateIntFlag(key)`: 0 for an unset or empty variable, the value of a
   * valid decimal, and otherwise the fatal log message (`Failure`), after
   * which the process ends and no value is returned.
   */
  function ValidateIntFlag(env: Env, key: string): (r: Result<int, string>)
    ensures Getenv(env, key) == "" ==> r == Success(0)
    ensures r.Success? && Getenv(env, key) != "" ==>
              Decimal(Getenv(env, key)) && r.value == DecimalValue(Getenv(env, key))
    ensures r.Success? ==> MinInt <= r.value <= MaxInt
    ensures r.Failure? <==> Getenv(env, key) != "" && Atoi(Getenv(env, key)).Failed?
    ensures r.Failure? ==> r.error == "Invalid value of " + key + ". Received " + Getenv(env, key) + "."
  {
    var value := Getenv(env, key);
    if value == "" then Success(0)
    else
      match Atoi(value)
      case Converted(n) => Success(n)
      case Failed(_, _) => Failure("Invalid value of " + key + ". Received " + value + ".")
  }

  /** Setting a variable to the rendering of a 64-bit int gives that int back. */
  lemma ValidateIntFlagItoa(env: Env, key: string, n: int)
    requires MinInt <= n <= MaxInt
    ensures ValidateIntFlag(env[key := Itoa(n)], key) == Success(n)
  {
    AtoiItoa(n);
  }

  /** A value that is not an optionally signed decimal is always fatal. */
  lemma ValidateIntFlagRejects(env: Env, key: string)
    requires Getenv(env, key) != "" && !Decimal(Getenv(env, key))
    ensures ValidateIntFlag(env, key).Failure?
  {
  }

  /**
   * `SplitAtLast(s, sep)`: `s` itself when `sep` does not occur in it, and
   * otherwise the suffix of `s` that starts at the LAST character of the last
   * occurrence of `sep` (the slice `s[index-1+len(sep):]`). With an empty
   * `sep` and an empty `s` that slice starts at -1 and Go panics, so that one
   * input is excluded.
   */
  function SplitAtLast(s: string, sep: string): (r: string)
    requires s != "" || sep != ""
    ensures |r| <= |s| && r == s[|s| - |r|..]
    ensures LastIndex(s, sep) == -1 ==> r == s
    ensures LastIndex(s, sep) != -1 ==>
              var start := |s| - |r| + 1 - |sep|;
              OccursAt(s, sep, start) && forall j :: start < j ==> !OccursAt(s, sep, j)
  {
    var index := LastIndex(s, sep);
    if index == -1 then s
    else s[index - 1 + |sep|..]
  }

  /**
   * For a one-character separator such as ".", the result is the separator
   * followed by a tail that does not contain it: the dotted extension.
   */
  lemma SplitAtLastChar(s: string, c: char)
    requires c in s
    ensures var r := SplitAtLast(s, [c]);
            |r| >= 1 && r[0] == c && c !in r[1..] && s == s[..|s| - |r|] + r
  {
    var i := LastIndex(s, [c]);
    var k :| 0 <= k < |s| && s[k] == c;
    OccursOne(s, c, k);
    assert 0 <= i < |s|;
    OccursOne(s, c, i);
    assert SplitAtLast(s, [c]) == s[i..];
    forall j | i < j < |s|
      ensures s[j] != c
    {
      OccursOne(s, c, j);
    }
    assert s[i..][1..] == s[i + 1..];
  }

  /** A one-character text occurs at an index exactly when that character is there. */
  lemma OccursOne(s: string, c: char, j: int)
    requires 0 <= j < |s|
    ensures OccursAt(s, [c], j) <==> s[j] == c
  {
    assert s[j..j + 1] == [s[j]];
  }

  /** The extension handed to the MIME lookup for "a.b.txt". */
  lemma SplitAtLastExample()
    ensures SplitAtLast("a.b.txt", ".") == ".txt"
  {
    var s := "a.b.txt";
    SplitAtLastChar(s, '.');
    var r := SplitAtLast(s, ".");
    assert s[5] != '.' && s[6] != '.' && s[4] != '.';
    assert OccursAt(s, ".", |s| - |r|);
    assert |r| == 4;
  }

  /** With an empty separator the result is the last character of `s`. */
  lemma SplitAtLastEmptySeparator(s: string)
    requires s != ""
    ensures SplitAtLast(s, "") == [s[|s| - 1]]
  {
    assert OccursAt(s, "", |s|);
  }
}
