/** The parts of the Java platform and its libraries that the modelled
    classes rely on: the exceptions they throw or propagate, and the
    `java.lang.String` operations they call, with Java's bounds checks. */
module JavaLang {
  import opened Results

  /** The exceptions that can end a modelled call. Most are `java.lang`'s own;
      `ClasspathAccess` is Jadira's `ClasspathAccessException` and
      `UnknownCurrency` is `javax.money.UnknownCurrencyException`. */
  datatype Throwable =
    | StringIndexOutOfBounds
    | ArrayIndexOutOfBounds
    | NullPointer
    | NumberFormat(input: string)
    | ClassNotFound(className: string)
    | ClasspathAccess(message: string, cause: Throwable)
    | IllegalState(message: string)
    | UnknownCurrency(currencyCode: string)
    | IllegalArgument(input: string)

  /** `s.indexOf(c)`: the first position of `c`, or -1. */
  function IndexOf(s: string, c: char): (r: int)
    ensures -1 <= r < |s|
    ensures r == -1 <==> c !in s
    ensures 0 <= r ==> s[r] == c && c !in s[..r]
  {
    if |s| == 0 then -1
    else if s[0] == c then 0
    else
      var k := IndexOf(s[1..], c);
      assert k >= 0 ==> s[1..][..k] == s[1..k + 1];
      if k == -1 then -1 else k + 1
  }

  /** `s.lastIndexOf(c)`: the last position of `c`, or -1. */
  function LastIndexOf(s: string, c: char): (r: int)
    ensures -1 <= r < |s|
    ensures r == -1 <==> c !in s
    ensures 0 <= r ==> s[r] == c && c !in s[r + 1..]
  {
    if |s| == 0 then -1
    else if s[|s| - 1] == c then |s| - 1
    else
      var t := s[..|s| - 1];
      var r := LastIndexOf(t, c);
      assert s == t + [s[|s| - 1]];
      assert r >= 0 ==> s[r + 1..] == t[r + 1..] + [s[|s| - 1]];
      r
  }

  /** A position holding `c` with no `c` before it is what `indexOf` returns. */
  lemma IndexOfAt(s: string, c: char, i: int)
    requires 0 <= i < |s| && s[i] == c && c !in s[..i]
    ensures IndexOf(s, c) == i
  {
  }

  /** A position holding `c` with no `c` after it is what `lastIndexOf` returns. */
  lemma LastIndexOfAt(s: string, c: char, i: int)
    requires 0 <= i < |s| && s[i] == c && c !in s[i + 1..]
    ensures LastIndexOf(s, c) == i
  {
  }

  /** `s.substring(begin, end)`: throws unless `0 <= begin <= end <= length`. */
  function Substring(s: string, begin: int, end: int): (r: Result<string, Throwable>)
    ensures r.Success? <==> 0 <= begin <= end <= |s|
    ensures r.Failure? ==> r.error == StringIndexOutOfBounds
    ensures r.Success? ==> |r.value| == end - begin
    ensures r.Success? ==> forall k :: 0 <= k < |r.value| ==> r.value[k] == s[begin + k]
  {
    if 0 <= begin <= end <= |s| then Success(s[begin..end]) else Failure(StringIndexOutOfBounds)
  }

  /** `s.replace(from, to)` for single characters. */
  function Replace(s: string, from: char, to: char): (r: string)
    ensures |r| == |s|
    ensures forall k :: 0 <= k < |s| ==> r[k] == (if s[k] == from then to else s[k])
    ensures from != to ==> from !in r
  {
    seq(|s|, k requires 0 <= k < |s| => if s[k] == from then to else s[k])
  }
}
