/** The upload page: the state it keeps while a file is chosen, rejected,
    removed and sent to storage, and the storage path it builds. */
module UploadPage {
  import opened Common

  /** A file the browser hands over: its name, MIME type and size in bytes. */
  datatype FileInfo = FileInfo(name: string, mimeType: string, size: nat)

  /** One reason react-dropzone gives for refusing a file. */
  datatype FileError = FileError(code: string, message: string)

  /** A refused file with its reasons; react-dropzone gives at least one. */
  datatype Rejection = Rejection(file: FileInfo, errors: seq<FileError>)

  const InvalidType := "Invalid file type. " + "Please upload a CSV or Excel file."
  const TooLarge := "File is too large. " + "Max size is 50MB."

  /** The message shown for a refusal, chosen by its first reason's code. */
  function RejectionMessage(r: Rejection): (m: string)
    requires |r.errors| > 0
    ensures r.errors[0].code == "file-invalid-type" ==> m == InvalidType
    ensures r.errors[0].code == "file-too-large" ==> m == TooLarge
    ensures (r.errors[0].code != "file-invalid-type" && r.errors[0].code != "file-too-large")
              ==> m == r.errors[0].message
  {
    var e := r.errors[0];
    if e.code == "file-invalid-type" then InvalidType
    else if e.code == "file-too-large" then TooLarge
    else e.message
  }

  /** Only the first reason decides the message: the rejected file and any
      further reasons play no part. */
  lemma MessageFromFirstError(r: Rejection, r': Rejection)
    requires |r.errors| > 0 && |r'.errors| > 0 && r.errors[0] == r'.errors[0]
    ensures RejectionMessage(r) == RejectionMessage(r')
  {
  }

  /** The two fixed messages differ, and a refusal whose own message is one
      of them can only be told apart by its code. */
  lemma FixedMessagesDistinct()
    ensures InvalidType != TooLarge
  {
    assert InvalidType[0] == 'I' && TooLarge[0] == 'F';
  }

  /** `uploads/{uid}/{timestamp}_{filename}`, the timestamp being the
      milliseconds `Date.now()` returns. */
  function StoragePath(uid: string, now: nat, fileName: string): (p: string)
    ensures StartsWith(p, "uploads/" + uid + "/")
    ensures EndsWith(p, "_" + fileName)
  {
    var prefix := "uploads/" + uid + "/";
    var p := prefix + NatToDecimal(now) + "_" + fileName;
    assert p[..|prefix|] == prefix;
    assert p[|p| - |"_" + fileName|..] == "_" + fileName;
    p
  }

  /** The page's state cells. */
  class UploadState {
    var file: Option<FileInfo>
    var uploading: bool
    var progress: real
    var error: Option<string>
    var success: bool

    constructor()
      ensures file == None && !uploading && progress == 0.0
      ensures error == None && !success
    {
      file := None;
      uploading := false;
      progress := 0.0;
      error := None;
      success := false;
    }

    /** `onDrop`: clears the messages; a refusal sets its message and keeps
        the chosen file; otherwise the first accepted file is chosen. */
    method OnDrop(accepted: seq<FileInfo>, rejections: seq<Rejection>)
      requires |rejections| > 0 ==> |rejections[0].errors| > 0
      modifies this
      ensures !success
      ensures uploading == old(uploading) && progress == old(progress)
      ensures |rejections| > 0 ==> error == Some(RejectionMessage(rejections[0])) && file == old(file)
      ensures |rejections| == 0 ==> error == None
      ensures |rejections| == 0 && |accepted| > 0 ==> file == Some(accepted[0])
      ensures |rejections| == 0 && |accepted| == 0 ==> file == old(file)
    {
      error := None;
      success := false;
      if |rejections| > 0 {
        error := Some(RejectionMessage(rejections[0]));
        return;
      }
      if |accepted| > 0 {
        file := Some(accepted[0]);
      }
    }

    /** `removeFile`: back to the empty page, except for `uploading`. */
    method RemoveFile()
      modifies this
      ensures file == None && error == None && !success && progress == 0.0
      ensures uploading == old(uploading)
    {
      file := None;
      error := None;
      success := false;
      progress := 0.0;
    }

    /** The synchronous start of `handleUpload`: without a file or a signed-in
        user nothing happens; otherwise the upload starts and the storage
        path is returned. */
    method StartUpload(user: Option<string>, now: nat) returns (path: Option<string>)
      modifies this
      ensures file == old(file) && success == old(success)
      ensures (old(file).None? || user.None?) ==>
                path == None && uploading == old(uploading)
                && progress == old(progress) && error == old(error)
      ensures (old(file).Some? && user.Some?) ==>
                path == Some(StoragePath(user.value, now, old(file).value.name))
                && uploading && progress == 0.0 && error == None
    {
      if file.None? || user.None? {
        return None;
      }
      uploading := true;
      error := None;
      progress := 0.0;
      path := Some(StoragePath(user.value, now, file.value.name));
    }
  }

  /** Dropping a refused file after a good one leaves the good one chosen,
      with the refusal's message showing. */
  method RejectionKeepsChoice(good: FileInfo, bad: Rejection)
    requires |bad.errors| > 0
  {
    var page := new UploadState();
    page.OnDrop([good], []);
    page.OnDrop([], [bad]);
    assert page.file == Some(good);
    assert page.error == Some(RejectionMessage(bad));
    page.RemoveFile();
    assert page.file == None && page.error == None;
  }
}
