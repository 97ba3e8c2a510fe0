/**
 * The logo upload control: a chosen file is checked for an image type and
 * a 2 MiB size limit before it becomes the preview and is handed to the
 * parent; removing the logo clears both.
 */
module LogoUpload {
  import opened Wrappers

  /** The picked file, as far as it is checked: its MIME type and size in bytes. */
  datatype SelectedFile = SelectedFile(mimeType: string, size: nat)

  const MaxLogoBytes: nat := 2 * 1024 * 1024

  /** What a pick comes to; every outcome other than `Accepted` leaves the control as it was. */
  datatype UploadCheck = NoFile | NotAnImage | TooLarge | Accepted

  /** `type.startsWith("image/")`, case-sensitively. */
  predicate IsImageType(mimeType: string)
    ensures IsImageType(mimeType) ==> |mimeType| >= 6 && mimeType == "image/" + mimeType[6..]
    ensures |mimeType| < 6 ==> !IsImageType(mimeType)
  {
    |mimeType| >= 6 && mimeType[..6] == "image/"
  }

  /** Every "image/" subtype is an image type; the match is case-sensitive. */
  lemma ImageSubtypesAreImages(subtype: string)
    ensures IsImageType("image/" + subtype)
    ensures !IsImageType("Image/" + subtype)
  {
    assert ("image/" + subtype)[..6] == "image/";
    assert ("Image/" + subtype)[0] == 'I';
  }

  /** The checks of `handleFileUpload`, in their order: no file, then the
      type, then the size. */
  function CheckFile(file: Option<SelectedFile>): (r: UploadCheck)
    ensures r == NoFile <==> file.None?
    ensures r == NotAnImage <==> file.Some? && !IsImageType(file.value.mimeType)
    ensures r == TooLarge <==> file.Some? && IsImageType(file.value.mimeType) && file.value.size > MaxLogoBytes
    ensures r == Accepted <==> file.Some? && IsImageType(file.value.mimeType) && file.value.size <= MaxLogoBytes
  {
    if file.None? then NoFile
    else if !IsImageType(file.value.mimeType) then NotAnImage
    else if file.value.size > MaxLogoBytes then TooLarge
    else Accepted
  }

  /** The limit is inclusive: an image of exactly 2 MiB is accepted, one byte more is not. */
  lemma LimitIsInclusive(mimeType: string)
    requires IsImageType(mimeType)
    ensures CheckFile(Some(SelectedFile(mimeType, 2097152))) == Accepted
    ensures CheckFile(Some(SelectedFile(mimeType, 2097153))) == TooLarge
  {
  }

  /** The type is checked first: a file that is neither an image nor small
      enough reports the type. */
  lemma TypeCheckedBeforeSize(file: SelectedFile)
    requires !IsImageType(file.mimeType) && file.size > MaxLogoBytes
    ensures CheckFile(Some(file)) == NotAnImage
  {
  }

  class LogoUploader {
    /** The logo shown, a data URL, or None. */
    var previewUrl: Option<string>
    /** The values handed to the parent's `onLogoChange`, oldest first. */
    var notified: seq<Option<string>>
    /** The file input's value. */
    var inputValue: string

    constructor (currentLogo: Option<string>)
      ensures previewUrl == currentLogo && notified == [] && inputValue == ""
    {
      previewUrl := currentLogo;
      notified := [];
      inputValue := "";
    }

    /** `handleFileUpload`, where `dataUrl` is what the file reader produces
        for the file. */
    method HandleFileUpload(file: Option<SelectedFile>, dataUrl: string) returns (outcome: UploadCheck)
      modifies this
      ensures outcome == CheckFile(file)
      ensures outcome == Accepted ==> previewUrl == Some(dataUrl) && notified == old(notified) + [Some(dataUrl)]
      ensures outcome != Accepted ==> previewUrl == old(previewUrl) && notified == old(notified)
      ensures inputValue == old(inputValue)
    {
      if file.None? {
        return NoFile;
      }
      if !IsImageType(file.value.mimeType) {
        return NotAnImage;
      }
      if file.value.size > MaxLogoBytes {
        return TooLarge;
      }
      previewUrl := Some(dataUrl);
      notified := notified + [Some(dataUrl)];
      outcome := Accepted;
    }

    /** `removeLogo`; `inputMounted` tells whether the file input is attached. */
    method RemoveLogo(inputMounted: bool)
      modifies this
      ensures previewUrl == None && notified == old(notified) + [None]
      ensures inputValue == (if inputMounted then "" else old(inputValue))
    {
      previewUrl := None;
      notified := notified + [None];
      if inputMounted {
        inputValue := "";
      }
    }
  }

  /** A client: an accepted upload shows and reports the data URL, and
      removing it afterwards reports None and shows nothing. */
  method UploadThenRemove(file: SelectedFile, dataUrl: string) returns (shown: Option<string>, reported: seq<Option<string>>)
    requires IsImageType(file.mimeType) && file.size <= MaxLogoBytes
    ensures shown == None && reported == [Some(dataUrl), None]
  {
    var control := new LogoUploader(None);
    var outcome := control.HandleFileUpload(Some(file), dataUrl);
    control.RemoveLogo(true);
    shown := control.previewUrl;
    reported := control.notified;
  }
}
