/** The dependency-free helpers of `iconservice/utils`: the lowercase-hex
    validator and the pass-through `trace` decorator. */
module Utils {
  import opened Text

  /** The argument of a dynamically typed call: a `str`, or anything else
      (bytes, an int, None), which the validator rejects instead of raising. */
  datatype PyValue = Str(s: string) | NotStr

  /** Length of the text that `re.match('[0-9a-f]+', s)` matches: the
      longest prefix of lowercase hex digits (0 stands for "no match"). */
  function HexPrefixLength(s: string): (n: nat)
    ensures n <= |s|
    ensures forall i :: 0 <= i < n ==> IsLowerHexDigit(s[i])
    ensures n < |s| ==> !IsLowerHexDigit(s[n])
  {
    if s == [] || !IsLowerHexDigit(s[0]) then 0 else 1 + HexPrefixLength(s[1..])
  }

  /** `is_lowercase_hex_string`: true when the match covers the whole value.
      A `None` match (no leading hex digit, or the empty string) and a
      non-string argument both raise inside the `try` and fall through to
      `False`. */
  function IsLowercaseHexString(value: PyValue): (ok: bool)
    ensures ok ==> value.Str?
  {
    match value
    case NotStr => false
    case Str(s) =>
      var n := HexPrefixLength(s);
      if n == 0 then false else n == |s|
  }

  /** The validator accepts exactly the non-empty strings made only of
      `0-9a-f`. */
  lemma IsLowercaseHexStringIff(s: string)
    ensures IsLowercaseHexString(Str(s)) <==> s != [] && forall i :: 0 <= i < |s| ==> IsLowerHexDigit(s[i])
  {
  }

  /** A valid hex prefix followed by any other character (an uppercase
      `A-F`, say) is rejected. */
  lemma HexPrefixThenOtherRejected(prefix: string, c: char, rest: string)
    requires forall i :: 0 <= i < |prefix| ==> IsLowerHexDigit(prefix[i])
    requires !IsLowerHexDigit(c)
    ensures !IsLowercaseHexString(Str(prefix + [c] + rest))
  {
    var s := prefix + [c] + rest;
    assert s[|prefix|] == c;
    IsLowercaseHexStringIff(s);
  }

  /** `trace(func)`: the wrapper hands back exactly what the wrapped function
      returns for the same arguments (its printing is not modelled). */
  function Trace<A, R>(func: A -> R, args: A): (result: R)
    ensures result == func(args)
  {
    func(args)
  }
}
