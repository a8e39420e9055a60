/** What both emulators do before the first step. */
module Emulation {

  /** Every symbol of `input` is in `alphabet`. */
  predicate InAlphabet(input: string, alphabet: set<char>) {
    forall i :: 0 <= i < |input| ==> input[i] in alphabet
  }

  /**
   * `checkSyntaxError(input)`: the index of the first symbol outside the input alphabet,
   * or -1 when there is none.
   */
  method CheckSyntaxError(input: string, alphabet: set<char>) returns (idx: int)
    ensures -1 <= idx < |input|
    ensures idx == -1 <==> InAlphabet(input, alphabet)
    ensures idx >= 0 ==> input[idx] !in alphabet && InAlphabet(input[..idx], alphabet)
  {
    var i := 0;
    while i < |input|
      invariant 0 <= i <= |input|
      invariant InAlphabet(input[..i], alphabet)
    {
      if input[i] !in alphabet {
        return i;
      }
      assert input[..i + 1] == input[..i] + [input[i]];
      i := i + 1;
    }
    assert input[..i] == input;
    return -1;
  }
}
