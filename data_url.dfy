/**
 * The `data:image/png;base64,` prefix: stripped from the canvas export
 * before a mask is stored, stripped before an image is uploaded to
 * OpenAI, and added when an image is sent to Replicate.
 */
module DataUrl {
  import opened Text

  const PngPrefix: string := "data:image/png;base64,"

  /** `s.startsWith(prefix) ? s.slice(prefix.length) : s` */
  function StripPngPrefix(s: string): (r: string)
    ensures StartsWith(s, PngPrefix) ==> PngPrefix + r == s
    ensures !StartsWith(s, PngPrefix) ==> r == s
    ensures |r| <= |s|
  {
    if StartsWith(s, PngPrefix) then s[|PngPrefix|..] else s
  }

  /** `` `data:image/png;base64,${b64}` `` */
  function PngDataUrl(b64: string): (r: string)
    ensures StartsWith(r, PngPrefix)
    ensures |r| == |PngPrefix| + |b64|
  {
    PngPrefix + b64
  }

  /** Stripping undoes adding: the payload of a PNG data URL comes back unchanged. */
  lemma StripUndoesDataUrl(b64: string)
    ensures StripPngPrefix(PngDataUrl(b64)) == b64
  {
    assert (PngPrefix + b64)[..|PngPrefix|] == PngPrefix;
    assert (PngPrefix + b64)[|PngPrefix|..] == b64;
  }

  /** Adding undoes stripping, for every string that carried the prefix. */
  lemma DataUrlUndoesStrip(s: string)
    requires StartsWith(s, PngPrefix)
    ensures PngDataUrl(StripPngPrefix(s)) == s
  {
  }
}
