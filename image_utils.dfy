/**
 * `validateImageFile`: classifies a chosen file by its MIME type and its size
 * in bytes. Only the two properties the check reads are modelled.
 */
module ImageUtils {
  import opened Wrappers
  import Decimal

  const ImagePrefix: string := "image/"
  const BytesPerMB: nat := 1024 * 1024
  const TypeError: string := "File must be an image"

  /** `Image must be smaller than ${maxSizeMB}MB` */
  function SizeError(maxSizeMB: nat): string {
    "Image must be smaller than " + Decimal.DecimalString(maxSizeMB) + "MB"
  }

  /** `None` means the file is accepted; otherwise the error message. The
      type check comes first; the size limit is inclusive. */
  function ValidateImageFile(fileType: string, size: nat, maxSizeMB: nat := 2): (r: Option<string>)
    ensures !(ImagePrefix <= fileType) ==> r == Some(TypeError)
    ensures ImagePrefix <= fileType ==> (r.None? <==> size <= maxSizeMB * BytesPerMB)
    ensures ImagePrefix <= fileType && r.Some? ==> r.value == SizeError(maxSizeMB)
  {
    if !(ImagePrefix <= fileType) then Some(TypeError)
    else if size > maxSizeMB * BytesPerMB then Some(SizeError(maxSizeMB))
    else None
  }

  /** The two messages differ, so a caller can tell which check failed. */
  lemma MessagesDiffer(maxSizeMB: nat)
    ensures SizeError(maxSizeMB) != TypeError
  {
    assert SizeError(maxSizeMB)[0] == 'I' && TypeError[0] == 'F';
  }

  /** The size message names the limit it was checked against: the digits
      between the fixed text read back as `maxSizeMB`. */
  lemma SizeErrorNamesLimit(maxSizeMB: nat)
    ensures var m := SizeError(maxSizeMB);
      && 29 <= |m|
      && (forall i :: 27 <= i < |m| - 2 ==> Decimal.IsDigit(m[i]))
      && Decimal.ParseDecimal(m[27..|m| - 2]) == maxSizeMB
  {
    var m := SizeError(maxSizeMB);
    var digits := Decimal.DecimalString(maxSizeMB);
    assert m[27..|m| - 2] == digits;
    Decimal.ParseDecimalString(maxSizeMB);
  }

  /** With the default limit, an image of 2097152 bytes is accepted and one
      byte more is refused. */
  lemma DefaultLimit(fileType: string)
    requires ImagePrefix <= fileType
    ensures ValidateImageFile(fileType, 2097152) == None
    ensures ValidateImageFile(fileType, 2097153) == Some("Image must be smaller than 2MB")
  {
    assert Decimal.DigitChar(2) == '2';
    assert Decimal.DecimalString(2) == "2";
    assert SizeError(2) == "Image must be smaller than " + "2" + "MB";
    assert "Image must be smaller than " + "2" + "MB" == "Image must be smaller than 2MB";
  }
}
