/**
 * The settings keys app.py builds per request, and how the points it stores
 * as text are read back.
 */
module SettingKeys {
  import opened Wrappers
  import opened Text

  /** `f"points_{id}"` (app.py:188, app.py:203, app.py:312). */
  function PointsKey(id: nat): string {
    "points_" + NatToString(id)
  }

  /** `f"qr_custom_{id}"` (app.py:191). */
  function QrCustomKey(id: nat): string {
    "qr_custom_" + NatToString(id)
  }

  const BaseUrlKey: string := "base_url"

  /** Per-request keys never collide: distinct ids give distinct keys, and the two families never meet each other or `base_url`. */
  lemma KeysDistinct(m: nat, n: nat)
    ensures PointsKey(m) == PointsKey(n) ==> m == n
    ensures QrCustomKey(m) == QrCustomKey(n) ==> m == n
    ensures PointsKey(m) != QrCustomKey(n)
    ensures PointsKey(m) != BaseUrlKey && QrCustomKey(m) != BaseUrlKey
  {
    if PointsKey(m) == PointsKey(n) {
      assert PointsKey(m)[7..] == NatToString(m) && PointsKey(n)[7..] == NatToString(n);
      NatToStringInjective(m, n);
    }
    if QrCustomKey(m) == QrCustomKey(n) {
      assert QrCustomKey(m)[10..] == NatToString(m) && QrCustomKey(n)[10..] == NatToString(n);
      NatToStringInjective(m, n);
    }
    assert PointsKey(m)[0] == 'p' && QrCustomKey(n)[0] == 'q';
    assert |NatToString(m)| > 0;
    assert PointsKey(m)[1] == 'o' && BaseUrlKey[1] == 'a';
  }

  /**
   * The review page's reading of a points setting: `int(points_str or 0)`,
   * with a ValueError counting as 0.
   */
  function PointsOf(text: string): int {
    if text == [] then 0 else ParseInt(text).GetOr(0)
  }

  /** The admin stores `str(points)`; the review page reads the same number back. */
  lemma PointsRoundTrip(points: nat)
    ensures PointsOf(NatToString(points)) == points
  {
    ParseIntRoundTrip(points);
  }
}
