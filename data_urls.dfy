/**
 * Base64 data URLs (section 3 of RFC 2397): `data:<mediatype>;base64,<data>`.
 * The base64 text itself (section 4 of RFC 4648) comes from the runtime's
 * `Buffer`, which is outside the model.
 */
module DataUrls {
  import opened Wrappers
  import opened Text

  const Base64Marker := ";base64"

  /** `data:${mediaType};base64,${base64}`. */
  function DataUrl(mediaType: string, base64: string): string {
    "data:" + mediaType + Base64Marker + "," + base64
  }

  /**
   * Reads a base64 data URL: the header runs to the first comma and must end
   * with ";base64"; what precedes the marker is the media type, what follows
   * the comma is the encoded data.
   */
  function ParseDataUrl(s: string): Option<(string, string)> {
    if !StartsWith(s, "data:") then None
    else
      var rest := s[5..];
      match IndexOf(rest, ',')
      case None => None
      case Some(k) =>
        var header := rest[..k];
        if EndsWith(header, Base64Marker) then Some((header[..|header| - |Base64Marker|], rest[k + 1..]))
        else None
  }

  /** A data URL built from a media type without a comma reads back as that media type and data. */
  lemma DataUrlRoundTrip(mediaType: string, base64: string)
    requires ',' !in mediaType
    ensures ParseDataUrl(DataUrl(mediaType, base64)) == Some((mediaType, base64))
  {
    var s := DataUrl(mediaType, base64);
    assert s[..5] == "data:";
    var rest := s[5..];
    var k := |mediaType| + |Base64Marker|;
    assert rest == mediaType + Base64Marker + "," + base64;
    assert rest[k] == ',';
    assert rest[..k] == mediaType + Base64Marker;
    var idx := IndexOf(rest, ',');
    assert idx == Some(k) by {
      assert ',' !in rest[..k];
    }
    assert rest[k + 1..] == base64;
  }
}
