/** Small value types shared by every module of the model: optional values,
    the (value, error) pairs Go functions return, the three ways a Go call can
    end, and the JSON values that travel in tool arguments and records. */
module Base {

  datatype Option<+T> = None | Some(value: T)

  /** The answer of a collaborator the model cannot see (an SDK call, a
      listing, a library routine): a value, or an error carrying its text. */
  datatype Result<+T> = Ok(value: T) | Err(cause: string)

  /** How a Go function or handler ends: it returns a value, it returns a
      non-nil `error`, or it panics (a failed type assertion, a nil pointer). */
  datatype Outcome<+T> = Done(value: T) | Errored(cause: string) | Panicked(reason: string)

  /** JSON values as `encoding/json` decodes them into `interface{}`: every
      number becomes a float64, modelled here as a `real`. */
  datatype Json =
    | JNull
    | JBool(b: bool)
    | JNumber(x: real)
    | JString(s: string)
    | JArray(items: seq<Json>)
    | JObject(fields: map<string, Json>)

  /** A JSON object as Go code indexes it: a missing key reads as nil. */
  function Field(m: map<string, Json>, key: string): (v: Json)
    ensures key in m ==> v == m[key]
    ensures key !in m ==> v == JNull
  {
    if key in m then m[key] else JNull
  }

  /** The value of a string of decimal digits, read left to right. */
  function DigitsValue(s: string): nat
    requires forall i :: 0 <= i < |s| ==> '0' <= s[i] <= '9'
  {
    if s == [] then 0 else 10 * DigitsValue(s[..|s| - 1]) + (s[|s| - 1] as int - '0' as int)
  }

  /** Decimal digits of a natural number, as `%d` prints it: digits only
      and no leading zero. */
  function DecimalString(n: nat): (s: string)
    ensures |s| >= 1
    ensures forall i :: 0 <= i < |s| ==> '0' <= s[i] <= '9'
    ensures |s| > 1 ==> s[0] != '0'
  {
    var d := ('0' as int + n % 10) as char;
    if n < 10 then [d] else DecimalString(n / 10) + [d]
  }

  /** The digits of `DecimalString(n)` read back as `n`. */
  lemma {:induction false} DecimalStringValue(n: nat)
    ensures DigitsValue(DecimalString(n)) == n
    decreases n
  {
    if n >= 10 {
      var prefix := DecimalString(n / 10);
      var s := DecimalString(n);
      DecimalStringValue(n / 10);
      assert s[..|s| - 1] == prefix;
    }
  }

  /** The flags that may follow a `%` in a `fmt` format. */
  predicate IsFlag(c: char) {
    c == '#' || c == '0' || c == '+' || c == '-' || c == ' '
  }

  predicate IsDigit(c: char) {
    '0' <= c <= '9'
  }

  /** The index of the first character at or after `i` that is not a flag. */
  function SkipFlags(s: string, i: nat): (j: nat)
    requires i <= |s|
    ensures i <= j <= |s| && (j < |s| ==> !IsFlag(s[j]))
    ensures forall k :: i <= k < j ==> IsFlag(s[k])
    decreases |s| - i
  {
    if i < |s| && IsFlag(s[i]) then SkipFlags(s, i + 1) else i
  }

  /** The index of the first character at or after `i` that is not a digit. */
  function SkipDigits(s: string, i: nat): (j: nat)
    requires i <= |s|
    ensures i <= j <= |s| && (j < |s| ==> !IsDigit(s[j]))
    ensures forall k :: i <= k < j ==> IsDigit(s[k])
    decreases |s| - i
  {
    if i < |s| && IsDigit(s[i]) then SkipDigits(s, i + 1) else i
  }

  /** Where the verb of the directive opened by the `%` at index `i` stands,
      past its flags, its width and its precision; `|s|` when the format
      ends first. */
  function VerbIndex(s: string, i: nat): (j: nat)
    requires i < |s| && s[i] == '%'
    ensures i < j <= |s|
  {
    var w := SkipDigits(s, SkipFlags(s, i + 1));
    if w < |s| && s[w] == '.' then SkipDigits(s, w + 1) else w
  }

  /** The text of `fmt.Errorf(format)` called with no operands: plain
      characters are copied, `%%` prints `%`, every other verb prints
      `%!` verb `(MISSING)`, and a format ending inside a directive prints
      `%!(NOVERB)`. */
  function Errorf(format: string): string
    decreases |format|
  {
    if format == [] then []
    else if format[0] != '%' then [format[0]] + Errorf(format[1..])
    else
      var j := VerbIndex(format, 0);
      if j == |format| then "%!(NOVERB)"
      else if format[j] == '%' then "%" + Errorf(format[j + 1..])
      else MissingOperand(format[j]) + Errorf(format[j + 1..])
  }

  /** What `fmt` prints for a verb that has no operand. */
  function MissingOperand(verb: char): string {
    "%!" + [verb] + "(MISSING)"
  }

  /** A text without `%` passes through `fmt.Errorf` unchanged. */
  lemma {:induction false} ErrorfKeepsPlainText(s: string)
    requires forall i :: 0 <= i < |s| ==> s[i] != '%'
    ensures Errorf(s) == s
    decreases |s|
  {
    if s != [] {
      ErrorfKeepsPlainText(s[1..]);
    }
  }

  /** A prefix without `%` passes through `fmt.Errorf` unchanged, whatever follows it. */
  lemma {:induction false} ErrorfPlainPrefix(p: string, rest: string)
    requires forall i :: 0 <= i < |p| ==> p[i] != '%'
    ensures Errorf(p + rest) == p + Errorf(rest)
    decreases |p|
  {
    if p != [] {
      var s := p + rest;
      assert s[0] == p[0] && s[0] != '%' && s[1..] == p[1..] + rest;
      assert Errorf(s) == [p[0]] + Errorf(p[1..] + rest);
      ErrorfPlainPrefix(p[1..], rest);
      assert [p[0]] + (p[1..] + Errorf(rest)) == p + Errorf(rest);
    } else {
      assert p + rest == rest;
    }
  }

  /** A `%` followed by a space and a letter is a directive with the space
      as its flag and the letter as its verb. */
  lemma ErrorfFlagAndVerb(c: char, rest: string)
    requires c != '%' && !IsFlag(c) && !IsDigit(c) && c != '.'
    ensures Errorf(['%', ' ', c] + rest) == MissingOperand(c) + Errorf(rest)
  {
    var s := ['%', ' ', c] + rest;
    assert SkipFlags(s, 2) == 2;
    assert SkipDigits(s, 2) == 2;
    assert s[3..] == rest;
  }

  /** A `%`, a space and a verb between plain text become the verb's
      missing-operand mark; the text around it is kept. */
  lemma ErrorfMissingOperand(prefix: string, c: char, suffix: string)
    requires forall i :: 0 <= i < |prefix| ==> prefix[i] != '%'
    requires forall i :: 0 <= i < |suffix| ==> suffix[i] != '%'
    requires c != '%' && !IsFlag(c) && !IsDigit(c) && c != '.'
    ensures Errorf(prefix + ['%', ' ', c] + suffix) == prefix + MissingOperand(c) + suffix
  {
    assert prefix + ['%', ' ', c] + suffix == prefix + (['%', ' ', c] + suffix);
    ErrorfPlainPrefix(prefix, ['%', ' ', c] + suffix);
    ErrorfFlagAndVerb(c, suffix);
    ErrorfKeepsPlainText(suffix);
  }

  /** A text with a `%` does not pass unchanged: "disk 100% full" comes out
      as "disk 100%!f(MISSING)ull", the space read as a flag and `f` as the verb. */
  lemma ErrorfGarblesPercent(message: string)
    requires message == "disk 100% full"
    ensures Errorf(message) == "disk 100" + MissingOperand('f') + "ull"
    ensures Errorf(message) != message
  {
    var prefix, suffix := "disk 100", "ull";
    assert message == prefix + ['%', ' ', 'f'] + suffix;
    ErrorfMissingOperand(prefix, 'f', suffix);
    assert |Errorf(message)| == 23;
  }

  /** `xs` is `ys` with some elements left out, the others kept in order. */
  ghost predicate Subsequence<T>(xs: seq<T>, ys: seq<T>)
    decreases |ys|
  {
    if xs == [] then true
    else if ys == [] then false
    else (xs[|xs| - 1] == ys[|ys| - 1] && Subsequence(xs[..|xs| - 1], ys[..|ys| - 1])) || Subsequence(xs, ys[..|ys| - 1])
  }

  /** Every sequence is a subsequence of itself. */
  lemma {:induction false} SubsequenceOfSelf<T>(xs: seq<T>)
    ensures Subsequence(xs, xs)
    decreases |xs|
  {
    if xs != [] {
      SubsequenceOfSelf(xs[..|xs| - 1]);
    }
  }

  /** A subsequence is no longer than the sequence it is taken from. */
  lemma {:induction false} SubsequenceLength<T>(xs: seq<T>, ys: seq<T>)
    requires Subsequence(xs, ys)
    ensures |xs| <= |ys|
    decreases |ys|
  {
    if xs != [] {
      if xs[|xs| - 1] == ys[|ys| - 1] && Subsequence(xs[..|xs| - 1], ys[..|ys| - 1]) {
        SubsequenceLength(xs[..|xs| - 1], ys[..|ys| - 1]);
      } else {
        SubsequenceLength(xs, ys[..|ys| - 1]);
      }
    }
  }
}
