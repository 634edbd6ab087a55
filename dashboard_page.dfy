/**
 * The prospect list page: the CNPJ display mask and the count captions.
 */
module DashboardPage {
  import opened Text
  import opened Cnpj

  /** The shape `##.###.###/####-##`: eighteen characters, digits except at the four separators. */
  predicate IsMaskedShape(r: string) {
    && |r| == 18
    && r[2] == '.' && r[6] == '.' && r[10] == '/' && r[15] == '-'
    && forall i | 0 <= i < 18 && i != 2 && i != 6 && i != 10 && i != 15 :: IsDigit(r[i])
  }

  /** Writes the digits of `d` as `##.###.###/####-##`. */
  function Mask(d: string): (r: string)
    requires |d| == 14 && AllDigits(d)
    ensures IsMaskedShape(r)
  {
    d[..2] + "." + d[2..5] + "." + d[5..8] + "/" + d[8..12] + "-" + d[12..]
  }

  /**
   * `formatCnpj`: the digits of `cnpj`, masked when there are exactly
   * fourteen of them and left bare otherwise.
   */
  function FormatCnpj(cnpj: string): (r: string)
    ensures IsValidCnpj(cnpj) ==> IsMaskedShape(r)
    ensures !IsValidCnpj(cnpj) ==> r == CleanCnpj(cnpj) && AllDigits(r) && |r| != 14
  {
    var c := CleanCnpj(cnpj);
    if |c| == 14 then Mask(c) else c
  }

  /** Removing the mask gives back the digits it was built from. */
  lemma MaskThenClean(d: string)
    requires |d| == 14 && AllDigits(d)
    ensures CleanCnpj(Mask(d)) == d
  {
    var a, b, c, e, f := d[..2], d[2..5], d[5..8], d[8..12], d[12..];
    assert Mask(d) == a + ['.'] + b + ['.'] + c + ['/'] + e + ['-'] + f;
    CleanMasked(a, b, c, e, f);
    assert a + b + c + e + f == d;
  }

  /** Formatting never changes the digits a CNPJ carries. */
  lemma FormatThenClean(cnpj: string)
    ensures CleanCnpj(FormatCnpj(cnpj)) == CleanCnpj(cnpj)
  {
    var c := CleanCnpj(cnpj);
    if |c| == 14 {
      MaskThenClean(c);
    } else {
      CleanIdempotent(cnpj);
    }
  }

  /** Formatting an already formatted CNPJ changes nothing. */
  lemma FormatIdempotent(cnpj: string)
    ensures FormatCnpj(FormatCnpj(cnpj)) == FormatCnpj(cnpj)
  {
    FormatThenClean(cnpj);
  }

  /** A CNPJ is valid exactly when its formatted form has the mask's shape. */
  lemma FormattedShapeIffValid(cnpj: string)
    ensures IsMaskedShape(FormatCnpj(cnpj)) <==> IsValidCnpj(cnpj)
  {
  }

  /**
   * A count caption: the count, a space, then the singular noun for exactly
   * one and the plural noun for every other count.
   */
  function CountCaption(n: nat, singular: string, plural: string): (r: string)
    ensures var k := |NatToString(n)|;
      && k < |r| && r[..k] == NatToString(n) && r[k] == ' '
      && (n == 1 ==> r[k + 1..] == singular)
      && (n != 1 ==> r[k + 1..] == plural)
  {
    var s := NatToString(n);
    var noun := if n == 1 then singular else plural;
    var r := s + " " + noun;
    assert r[|s| + 1..] == noun;
    r
  }

  /** The nouns of the caption under the page title. */
  const PROSPECT_SINGULAR: string := "prospect"
  const PROSPECT_PLURAL: string := "prospects"

  /** The nouns of the interaction count on a list row. */
  const INTERACTION_SINGULAR: string := "interação"
  const INTERACTION_PLURAL: string := "interações"

  /** Both captions use the singular noun exactly for a count of one. */
  lemma CaptionNounIffOne(n: nat)
    ensures var k := |NatToString(n)|;
      && (CountCaption(n, PROSPECT_SINGULAR, PROSPECT_PLURAL)[k + 1..] == PROSPECT_SINGULAR <==> n == 1)
      && (CountCaption(n, INTERACTION_SINGULAR, INTERACTION_PLURAL)[k + 1..] == INTERACTION_SINGULAR <==> n == 1)
  {
    assert |PROSPECT_SINGULAR| != |PROSPECT_PLURAL|;
    assert |INTERACTION_SINGULAR| != |INTERACTION_PLURAL|;
  }

  /** The number at the head of a caption reads back as the count. */
  lemma CaptionCountRoundTrip(n: nat, singular: string, plural: string)
    ensures var r := CountCaption(n, singular, plural); var k := |NatToString(n)|;
      AllDigits(r[..k]) && DigitsValue(r[..k]) == n
  {
    NatToStringRoundTrip(n);
  }
}
