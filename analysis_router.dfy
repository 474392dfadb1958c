/** `POST /api/analyze/upload`: the two guards that stand between a request
    and the file it names. Downloading the file and building its preview
    are parameters. */
module AnalysisRouter {
  import opened Common
  import UploadPage

  /** An HTTP error, or the preview of the downloaded file. */
  datatype Response<P> = HttpError(status: int, detail: string) | Preview(preview: P)

  const InvalidToken := "Invalid user token"
  const AccessDenied := "Access denied to this file"

  /** The folder a user's uploads live in. */
  function UserFolder(uid: string): string {
    "uploads/" + uid + "/"
  }

  /** `analyze_upload`: a token without a uid (missing or empty) gets 401, a
      path outside the user's folder gets 403, and only then is the file
      downloaded and previewed. */
  function AnalyzeUpload<C, P>(uid: Option<string>, filePath: string, fileName: string,
                               download: string -> C, preview: (C, string) -> P): (r: Response<P>)
    ensures (uid.None? || uid.value == "") <==> r == HttpError(401, InvalidToken)
    ensures r == HttpError(403, AccessDenied)
            <==> uid.Some? && uid.value != "" && !StartsWith(filePath, UserFolder(uid.value))
    ensures r.Preview? <==> uid.Some? && uid.value != "" && StartsWith(filePath, UserFolder(uid.value))
    ensures r.Preview? ==> r.preview == preview(download(filePath), fileName)
  {
    if uid.None? || uid.value == "" then HttpError(401, InvalidToken)
    else if !StartsWith(filePath, UserFolder(uid.value)) then HttpError(403, AccessDenied)
    else Preview(preview(download(filePath), fileName))
  }

  /** A refused request never touches storage: its answer is the same
      whatever the download and preview would have done. */
  lemma GuardsBeforeDownload<C, P>(uid: Option<string>, filePath: string, fileName: string,
                                   download: string -> C, preview: (C, string) -> P,
                                   download': string -> C, preview': (C, string) -> P)
    requires AnalyzeUpload(uid, filePath, fileName, download, preview).HttpError?
    ensures AnalyzeUpload(uid, filePath, fileName, download, preview)
         == AnalyzeUpload(uid, filePath, fileName, download', preview')
  {
  }

  /** The path the upload page stores a file under passes the check for the
      user who uploaded it. */
  lemma OwnUploadAccepted<C, P>(uid: string, now: nat, fileName: string,
                                download: string -> C, preview: (C, string) -> P)
    requires uid != ""
    ensures var path := UploadPage.StoragePath(uid, now, fileName);
            AnalyzeUpload(Some(uid), path, fileName, download, preview)
              == Preview(preview(download(path), fileName))
  {
  }

  /** Two different uids without '/', each followed by '/', differ at some
      position within both. */
  lemma SlashTerminatedDiffer(u: string, v: string) returns (i: nat)
    requires u != v && '/' !in u && '/' !in v
    ensures i <= |u| && i <= |v| && (u + "/")[i] != (v + "/")[i]
  {
    if |u| < |v| {
      i := |u|;
      assert v[i] in v;
    } else if |u| > |v| {
      i := |v|;
      assert u[i] in u;
    } else {
      i :| i < |u| && u[i] != v[i];
    }
  }

  /** Folders of two different uids without '/' are not prefixes of each
      other's paths. */
  lemma FoldersDisjoint(u: string, v: string, rest: string)
    requires u != v && '/' !in u && '/' !in v
    ensures !StartsWith(UserFolder(u) + rest, UserFolder(v))
  {
    var p := UserFolder(u) + rest;
    var f := UserFolder(v);
    var i := SlashTerminatedDiffer(u, v);
    if |f| <= |p| {
      assert p[8 + i] == (u + "/")[i];
      assert f[8 + i] == (v + "/")[i];
      assert p[..|f|][8 + i] != f[8 + i];
    }
  }

  /** For uids without '/', another user's upload path is refused with 403. */
  lemma OtherUserRefused<C, P>(owner: string, caller: string, now: nat, fileName: string,
                               download: string -> C, preview: (C, string) -> P)
    requires owner != caller && caller != ""
    requires '/' !in owner && '/' !in caller
    ensures AnalyzeUpload(Some(caller), UploadPage.StoragePath(owner, now, fileName), fileName, download, preview)
         == HttpError(403, AccessDenied)
  {
    var prefix := "uploads/" + owner + "/";
    var rest := NatToDecimal(now) + "_" + fileName;
    assert UploadPage.StoragePath(owner, now, fileName) == UserFolder(owner) + rest;
    FoldersDisjoint(owner, caller, rest);
  }

  /** A uid holding '/' breaks the isolation: user "a" may read what user
      "a/b" uploaded. */
  lemma SlashInUidCrossesFolders(now: nat, fileName: string)
    ensures StartsWith(UploadPage.StoragePath("a/b", now, fileName), UserFolder("a"))
  {
    var path := UploadPage.StoragePath("a/b", now, fileName);
    assert path == "uploads/a/" + ("b/" + NatToDecimal(now) + "_" + fileName);
    assert path[..10] == UserFolder("a");
  }
}
