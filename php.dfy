/**
 * The few PHP built-in behaviours the plugin's decisions depend on, written out
 * so that the rest of the model can use them by name.
 */
module Php {
  import opened Wrappers

  /** `empty($s)` on a string: true for "" and for "0". */
  predicate EmptyString(s: string) {
    s == "" || s == "0"
  }

  /**
   * `empty($p)` on an integer request parameter read with a default of '':
   * the absent parameter (None) and 0 are both empty.
   */
  predicate EmptyIntParam(p: Option<int>) {
    p.None? || p.value == 0
  }

  /** Truthiness of an optional integer: null and 0 are falsy. */
  predicate TruthyInt(p: Option<int>) {
    p.Some? && p.value != 0
  }

  function DigitChar(d: nat): char
    requires d < 10
  {
    "0123456789"[d]
  }

  function NatToString(n: nat): string
    decreases n
  {
    if n < 10 then [DigitChar(n)] else NatToString(n / 10) + [DigitChar(n % 10)]
  }

  /** String interpolation of an integer. */
  function IntToString(n: int): string {
    if n < 0 then "-" + NatToString(-n) else NatToString(n)
  }

  /** Interpolation of an integer parameter whose absent value is ''. */
  function IntParamText(p: Option<int>): string {
    if p.Some? then IntToString(p.value) else ""
  }

  function UpperChar(c: char): char {
    if 'a' <= c <= 'z' then (c as int - 32) as char else c
  }

  /** `strtoupper` on ASCII letters. */
  function ToUpper(s: string): (r: string)
    ensures |r| == |s|
    ensures forall i :: 0 <= i < |s| ==> r[i] == UpperChar(s[i])
  {
    if s == [] then [] else [UpperChar(s[0])] + ToUpper(s[1..])
  }

  /** `$array[$key] ?? $default` on an array of strings. */
  function ValueOr(m: map<string, string>, key: string, default: string): string {
    if key in m then m[key] else default
  }
}
