/** `maskToken` on the credentials page: how a stored token is shown. */
module CredentialsPage {
  import opened Common

  /** Eight `•` (U+2022). */
  const Bullets: string := "••••••••"

  /** `maskToken(token)`; `None` is an undefined token. */
  function MaskToken(token: Option<string>): (m: string)
    ensures !Truthy(token) ==> m == ""
    ensures Truthy(token) && |token.value| <= 8 ==> m == Bullets
    ensures Truthy(token) && |token.value| > 8 ==>
              m == token.value[..4] + Bullets + token.value[|token.value| - 4..]
  {
    if !Truthy(token) then ""
    else
      var t := token.value;
      if |t| <= 8 then Bullets else t[..4] + Bullets + t[|t| - 4..]
  }

  /** A shown token is 8 or 16 characters long, whatever its own length. */
  lemma MaskLength(token: Option<string>)
    ensures Truthy(token) ==> |MaskToken(token)| == 8 || |MaskToken(token)| == 16
    ensures Truthy(token) <==> MaskToken(token) != ""
  {
  }

  /** The characters between the first four and the last four are never
      shown: two tokens that differ only there mask alike. */
  lemma MaskHidesMiddle(a: string, b: string)
    requires |a| == |b| > 8
    requires a[..4] == b[..4] && a[|a| - 4..] == b[|b| - 4..]
    ensures MaskToken(Some(a)) == MaskToken(Some(b))
  {
  }

  /** Short tokens are not told apart at all. */
  lemma MaskHidesShort(a: string, b: string)
    requires 0 < |a| <= 8 && 0 < |b| <= 8
    ensures MaskToken(Some(a)) == MaskToken(Some(b)) == Bullets
  {
  }
}
