/**
 * Command-line and numeric helpers shared by every program variant of the
 * benchmark: argument lookup, flag detection, digit validation, the linear
 * congruential generator used to seed the stream arrays, and the extremes of
 * a timing sample.
 *
 * A C string is modelled as the sequence of its characters before the
 * terminating NUL (`CString`: no NUL among them); `argv` is a sequence of
 * such strings and `argc` is its length.
 */
module StreamUtils {

  datatype Option<T> = None | Some(value: T)

  /** A C string: its characters before the terminator, none of them NUL. */
  predicate CString(s: string) {
    forall i :: 0 <= i < |s| ==> s[i] != '\0'
  }

  /** Every argument is a C string. */
  predicate CStrings(argv: seq<string>) {
    forall i :: 0 <= i < |argv| ==> CString(argv[i])
  }

  /** `argv[i + 1][0] != '-'`: an empty string starts with the NUL
      terminator, which is not a dash, so it counts as a value. */
  predicate IsValue(s: string) {
    |s| == 0 || s[0] != '-'
  }

  /** The first index `i >= from` with `argv[i] == arg`. */
  function FirstMatch(argv: seq<string>, arg: string, from: nat): Option<nat>
    decreases |argv| - from
  {
    if from >= |argv| then None
    else if argv[from] == arg then Some(from)
    else FirstMatch(argv, arg, from + 1)
  }

  /** What `find_command_line_arg_value` returns: the argument after the
      first occurrence of `arg`, unless it is missing or looks like an option. */
  function ArgValue(argv: seq<string>, arg: string): Option<string> {
    match FirstMatch(argv, arg, 1)
    case None => None
    case Some(i) => if i + 1 < |argv| && IsValue(argv[i + 1]) then Some(argv[i + 1]) else None
  }

  /** What `find_command_line_arg_value_v2` returns: the index of that value, or -1. */
  function ArgValueIndex(argv: seq<string>, arg: string): int {
    match FirstMatch(argv, arg, 1)
    case None => -1
    case Some(i) => if i + 1 < |argv| && IsValue(argv[i + 1]) then i + 1 else -1
  }

  /** FirstMatch finds exactly the least matching index at or after `from`. */
  lemma {:induction false} FirstMatchIsLeast(argv: seq<string>, arg: string, from: nat)
    ensures FirstMatch(argv, arg, from).Some? ==>
              var i := FirstMatch(argv, arg, from).value;
              from <= i < |argv| && argv[i] == arg &&
              forall j :: from <= j < i ==> argv[j] != arg
    ensures FirstMatch(argv, arg, from).None? <==>
              forall j :: from <= j < |argv| ==> argv[j] != arg
    decreases |argv| - from
  {
    if from < |argv| && argv[from] != arg {
      FirstMatchIsLeast(argv, arg, from + 1);
    }
  }

  /** No lookup ever examines `argv[0]` (the program name): every scan starts at 1. */
  lemma {:induction false} FirstMatchIgnoresBefore(argv: seq<string>, arg: string, from: nat, k: nat, x: string)
    requires k < from && k < |argv|
    ensures FirstMatch(argv[k := x], arg, from) == FirstMatch(argv, arg, from)
    decreases |argv| - from
  {
    if from < |argv| && argv[from] != arg {
      FirstMatchIgnoresBefore(argv, arg, from + 1, k, x);
    }
  }

  lemma ProgramNameIgnored(argv: seq<string>, arg: string, name: string)
    requires |argv| >= 1
    ensures ArgValue(argv[0 := name], arg) == ArgValue(argv, arg)
    ensures ArgValueIndex(argv[0 := name], arg) == ArgValueIndex(argv, arg)
    ensures FirstMatch(argv[0 := name], arg, 1).Some? == FirstMatch(argv, arg, 1).Some?
  {
    FirstMatchIgnoresBefore(argv, arg, 1, 0, name);
  }

  /** The index-returning lookup agrees with the pointer-returning one. */
  lemma IndexAgreesWithValue(argv: seq<string>, arg: string)
    ensures ArgValueIndex(argv, arg) == -1 <==> ArgValue(argv, arg) == None
    ensures ArgValueIndex(argv, arg) != -1 ==>
              2 <= ArgValueIndex(argv, arg) < |argv| &&
              ArgValue(argv, arg) == Some(argv[ArgValueIndex(argv, arg)])
  {
    FirstMatchIsLeast(argv, arg, 1);
  }

  method FindCommandLineArgValue(argv: seq<string>, arg: string) returns (r: Option<string>)
    requires CStrings(argv) && CString(arg)
    ensures r == ArgValue(argv, arg)
  {
    var i := 1;
    while i < |argv|
      invariant 1 <= i
      invariant FirstMatch(argv, arg, 1) == FirstMatch(argv, arg, i)
    {
      if argv[i] == arg {
        if i + 1 < |argv| && IsValue(argv[i + 1]) {
          return Some(argv[i + 1]);
        } else {
          return None;
        }
      }
      i := i + 1;
    }
    return None;
  }

  method FindCommandLineArgValueV2(argv: seq<string>, arg: string) returns (r: int)
    requires CStrings(argv) && CString(arg)
    ensures r == ArgValueIndex(argv, arg)
  {
    var i := 1;
    while i < |argv|
      invariant 1 <= i
      invariant FirstMatch(argv, arg, 1) == FirstMatch(argv, arg, i)
    {
      if argv[i] == arg {
        if i + 1 < |argv| && IsValue(argv[i + 1]) {
          return i + 1;
        } else {
          return -1;
        }
      }
      i := i + 1;
    }
    return -1;
  }

  /** `flag_exists`: 1 exactly when some argument after the program name equals `flag`. */
  method FlagExists(argv: seq<string>, flag: string) returns (r: int)
    requires CStrings(argv) && CString(flag)
    ensures r == 0 || r == 1
    ensures r == 1 <==> exists i :: 1 <= i < |argv| && argv[i] == flag
  {
    var i := 1;
    while i < |argv|
      invariant 1 <= i
      invariant forall j :: 1 <= j < i && j < |argv| ==> argv[j] != flag
    {
      if argv[i] == flag {
        return 1;
      }
      i := i + 1;
    }
    return 0;
  }

  predicate IsDigit(ch: char) {
    '0' <= ch <= '9'
  }

  /** `is_number`: 1 exactly when every character is a decimal digit; the
      empty string is accepted, and signs, blanks and points are rejected. */
  method IsNumber(s: string) returns (r: int)
    requires CString(s)
    ensures r == 0 || r == 1
    ensures r == 1 <==> forall i :: 0 <= i < |s| ==> IsDigit(s[i])
  {
    var i := 0;
    while i < |s|
      invariant 0 <= i <= |s|
      invariant forall j :: 0 <= j < i ==> IsDigit(s[j])
    {
      if s[i] < '0' || s[i] > '9' {
        return 0;
      }
      i := i + 1;
    }
    return 1;
  }

  const TwoTo31: int := 0x8000_0000
  const TwoTo32: int := 0x1_0000_0000

  newtype uint32 = x: int | 0 <= x < 0x1_0000_0000

  /** Reducing mod 2^32 first does not change a remainder mod 2^31. */
  lemma WrapThenReduce(x: nat)
    ensures (x % TwoTo32) % TwoTo31 == x % TwoTo31
  {
    var q := x / TwoTo32;
    assert x == q * TwoTo32 + x % TwoTo32;
    assert q * TwoTo32 == (2 * q) * TwoTo31;
    var r := x % TwoTo32;
    assert x == (2 * q) * TwoTo31 + r;
    assert r == (r / TwoTo31) * TwoTo31 + r % TwoTo31;
    assert x == (2 * q + r / TwoTo31) * TwoTo31 + r % TwoTo31;
  }

  /** `generate_random_number`: `seed * 16807 + 214013` in 32-bit unsigned
      arithmetic (it wraps mod 2^32), then reduced mod 2^31. */
  function GenerateRandomNumber(seed: uint32): (r: uint32)
    ensures (r as int) < TwoTo31
    ensures r as int == (seed as int * 16807 + 214013) % TwoTo31
  {
    var wrapped := (seed as int * 16807 + 214013) % TwoTo32;
    WrapThenReduce(seed as int * 16807 + 214013);
    (wrapped % TwoTo31) as uint32
  }

  /** `maximum(v, n)`: starts from `v[0]` and keeps the first strictly larger element. */
  method Maximum(v: array<real>, n: nat) returns (max: real)
    requires 1 <= v.Length && n <= v.Length
    ensures exists i :: 0 <= i < v.Length && (i == 0 || i < n) && max == v[i]
    ensures forall i :: 0 <= i < n ==> v[i] <= max
  {
    max := v[0];
    var i := 1;
    while i < n
      invariant 1 <= i && (n >= 1 ==> i <= n)
      invariant exists j :: 0 <= j < v.Length && (j == 0 || j < n) && max == v[j]
      invariant forall j :: 0 <= j < i && j < n ==> v[j] <= max
    {
      if v[i] > max {
        max := v[i];
      }
      i := i + 1;
    }
  }

  /** `minimum(v, n)`: starts from `v[0]` and keeps the first strictly smaller element. */
  method Minimum(v: array<real>, n: nat) returns (min: real)
    requires 1 <= v.Length && n <= v.Length
    ensures exists i :: 0 <= i < v.Length && (i == 0 || i < n) && min == v[i]
    ensures forall i :: 0 <= i < n ==> min <= v[i]
  {
    min := v[0];
    var i := 1;
    while i < n
      invariant 1 <= i && (n >= 1 ==> i <= n)
      invariant exists j :: 0 <= j < v.Length && (j == 0 || j < n) && min == v[j]
      invariant forall j :: 0 <= j < i && j < n ==> min <= v[j]
    {
      if v[i] < min {
        min := v[i];
      }
      i := i + 1;
    }
  }
}
