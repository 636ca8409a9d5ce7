/**
 * The padding step of `decode_base64url_safe`: base64url text from the upstream
 * arrives without its trailing `=`; enough are appended to reach a multiple of
 * four characters before the library decoder runs.
 */
module Base64Padding {
  import opened Text

  /** `data` with `'=' * (4 - len(data) % 4)` appended when the length is not a multiple of 4. */
  function PadBase64Url(data: string): (r: string)
    ensures |r| % 4 == 0
    ensures |data| <= |r| < |data| + 4
    ensures r[..|data|] == data
    ensures forall i :: |data| <= i < |r| ==> r[i] == '='
  {
    var missingPadding := |data| % 4;
    if missingPadding != 0 then data + Repeat('=', 4 - missingPadding) else data
  }

  /**
   * The padding is the least possible: any string that extends `data` by `=`
   * only and has a length divisible by four is at least as long.
   */
  lemma PaddingIsShortest(data: string, n: nat)
    requires (|data| + n) % 4 == 0
    ensures |PadBase64Url(data)| <= |data| + n
  {
  }

  /** Already padded text is left alone, so padding twice is padding once. */
  lemma PaddingIdempotent(data: string)
    ensures PadBase64Url(PadBase64Url(data)) == PadBase64Url(data)
  {
  }
}
