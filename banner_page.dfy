/** The banner settings page: choosing an image per page, discarding a
    choice, and saving, which uploads the chosen files one after another and
    then writes the map of banner URLs. The upload service, its URLs, the
    store write and the file reader are parameters. */
module BannerPage {
  import opened Js
  import opened Dict
  import D = Dict
  import Seqs

  /** The browser's `File`: its MIME type and size in bytes. */
  datatype File = File(name: string, mimeType: string, size: nat)

  const MaxFileSize: nat := 5 * 1024 * 1024

  const NotAnImageAlert := "Please select an image file"
  const TooLargeAlert := "File size must be less than 5MB"
  const NoSelectionAlert := "Please select at least one banner to upload"
  const SavedAlert := "Banners updated successfully!"
  const SaveFailedAlert := "Error saving banners. Please try again."

  const Uploading := "uploading"
  const Success := "success"
  const Failed := "error"

  /** `s.startsWith(prefix)`. */
  predicate StartsWith(s: string, prefix: string) {
    |prefix| <= |s| && s[..|prefix|] == prefix
  }

  /** A file the page accepts: an image of at most 5 MiB. */
  predicate Acceptable(f: File) {
    StartsWith(f.mimeType, "image/") && f.size <= MaxFileSize
  }

  /** The alert `handleFileSelect` raises for a file, if any. */
  function SelectionAlert(f: File): (r: Option<string>)
    ensures r.None? <==> Acceptable(f)
    ensures !StartsWith(f.mimeType, "image/") ==> r == Some(NotAnImageAlert)
    ensures StartsWith(f.mimeType, "image/") && f.size > MaxFileSize ==> r == Some(TooLargeAlert)
  {
    if !StartsWith(f.mimeType, "image/") then Some(NotAnImageAlert)
    else if f.size > MaxFileSize then Some(TooLargeAlert)
    else None
  }

  /** `getStatusIcon`. */
  function StatusIcon(status: Option<string>): (r: string)
    ensures status == Some(Uploading) ==> r == "\U{23F3}"
    ensures status == Some(Success) ==> r == "\U{2705}"
    ensures status == Some(Failed) ==> r == "\U{274C}"
    ensures status != Some(Uploading) && status != Some(Success) && status != Some(Failed) ==> r == ""
  {
    match status
      case Some(s) =>
        if s == Uploading then "\U{23F3}"
        else if s == Success then "\U{2705}"
        else if s == Failed then "\U{274C}"
        else ""
      case None => ""
  }

  /** `getStatusText`. */
  function StatusText(status: Option<string>): (r: string)
    ensures status == Some(Uploading) ==> r == "Uploading..."
    ensures status == Some(Success) ==> r == "Uploaded"
    ensures status == Some(Failed) ==> r == "Failed"
    ensures status != Some(Uploading) && status != Some(Success) && status != Some(Failed) ==> r == ""
  {
    match status
      case Some(s) =>
        if s == Uploading then "Uploading..."
        else if s == Success then "Uploaded"
        else if s == Failed then "Failed"
        else ""
      case None => ""
  }

  /** Icon and text agree: both are empty for an unknown status, and the three
      known statuses have three different icons. */
  lemma StatusIconAndTextAgree(status: Option<string>)
    ensures StatusIcon(status) == "" <==> StatusText(status) == ""
    ensures StatusIcon(Some(Uploading)) != StatusIcon(Some(Success))
    ensures StatusIcon(Some(Success)) != StatusIcon(Some(Failed))
    ensures StatusIcon(Some(Uploading)) != StatusIcon(Some(Failed))
  {
    assert StatusIcon(Some(Uploading))[0] == '\U{23F3}';
    assert StatusIcon(Some(Success))[0] == '\U{2705}';
    assert StatusIcon(Some(Failed))[0] == '\U{274C}';
  }

  // ---------------------------------------------------------------------------
  // The save loop, as functions of the keys processed so far

  /** The status map after the keys `ks` were each given status `v`. */
  function Mark(d: Dict<string>, ks: seq<string>, v: string): Dict<string> {
    if ks == [] then d else Assign(Mark(d, ks[..|ks| - 1], v), ks[|ks| - 1], v)
  }

  /** `newBannerUrls` after the keys `ks` were uploaded. */
  function ApplyUploads(urls: Dict<string>, ks: seq<string>, upload: string -> Option<string>): Dict<string> {
    if ks == [] then urls
    else
      var last := ks[|ks| - 1];
      Assign(ApplyUploads(urls, ks[..|ks| - 1], upload), last, match upload(last) case Some(u) => u case None => "")
  }

  /** After marking, the marked keys hold the status and no other key changed. */
  lemma {:induction false} MarkLookup(d: Dict<string>, ks: seq<string>, v: string, k: string)
    ensures Lookup(Mark(d, ks, v), k) == if k in ks then Some(v) else Lookup(d, k)
  {
    if ks != [] {
      MarkLookup(d, ks[..|ks| - 1], v, k);
      Seqs.InSnoc(ks, k);
    }
  }

  /** The URL map saved holds each uploaded key's URL and keeps every other
      banner as it was. */
  lemma {:induction false} ApplyUploadsLookup(urls: Dict<string>, ks: seq<string>, upload: string -> Option<string>, k: string)
    requires AllUploaded(ks, upload)
    ensures Lookup(ApplyUploads(urls, ks, upload), k) == if k in ks then upload(k) else Lookup(urls, k)
  {
    if ks != [] {
      ApplyUploadsLookup(urls, ks[..|ks| - 1], upload, k);
      Seqs.InSnoc(ks, k);
    }
  }

  /** Setting a key twice is setting it once, to the second value. */
  lemma {:induction false} AssignTwice<V>(d: Dict<V>, k: string, a: V, b: V)
    ensures Assign(Assign(d, k, a), k, b) == Assign(d, k, b)
  {
    if d != [] && d[0].key != k {
      AssignTwice(d[1..], k, a, b);
      assert Assign(d, k, a)[1..] == Assign(d[1..], k, a);
    }
  }

  /** Every key in `ks` uploads. */
  ghost predicate AllUploaded(ks: seq<string>, upload: string -> Option<string>) {
    forall j :: 0 <= j < |ks| ==> upload(ks[j]).Some?
  }

  lemma UploadedStep(ks: seq<string>, upload: string -> Option<string>, i: nat)
    requires i < |ks| && AllUploaded(ks[..i], upload) && upload(ks[i]).Some?
    ensures AllUploaded(ks[..i + 1], upload)
  {
  }

  /** The index of the first key whose upload fails. */
  function FirstFailure(ks: seq<string>, upload: string -> Option<string>): (r: Option<nat>)
    ensures r.None? <==> AllUploaded(ks, upload)
    ensures r.Some? ==> r.value < |ks| && upload(ks[r.value]).None? && AllUploaded(ks[..r.value], upload)
  {
    if ks == [] then None
    else if upload(ks[0]).None? then Some(0)
    else match FirstFailure(ks[1..], upload)
      case None => None
      case Some(i) => Some(i + 1)
  }

  // ---------------------------------------------------------------------------
  // The component

  /** The six banner slots of the initial state, in their order. */
  const BannerKeys: seq<string> := ["aboutUs", "contactUs", "orderPage", "giftbox", "gallery", "homePage"]

  /** Each slot with an empty URL. */
  function InitialBanners(): Dict<string> {
    [Entry(BannerKeys[0], ""), Entry(BannerKeys[1], ""), Entry(BannerKeys[2], ""),
     Entry(BannerKeys[3], ""), Entry(BannerKeys[4], ""), Entry(BannerKeys[5], "")]
  }

  lemma InitialBannersKeys()
    ensures Keys(InitialBanners()) == BannerKeys
  {
    var d, ks := InitialBanners(), Keys(InitialBanners());
    forall i | 0 <= i < 6 ensures ks[i] == BannerKeys[i] {
      assert d[i].key == BannerKeys[i];
    }
  }

  lemma BannerKeysDistinct()
    ensures D.Distinct(BannerKeys)
  {
    var k := BannerKeys;
    assert k[0][0] == 'a' && k[1][0] == 'c' && k[2][0] == 'o' && k[5][0] == 'h';
    assert k[3][0] == 'g' && k[4][0] == 'g' && k[3][1] == 'i' && k[4][1] == 'a';
  }

  /** The initial map has the six distinct slots, each holding the empty URL. */
  lemma InitialBannersWellFormed()
    ensures Keys(InitialBanners()) == BannerKeys && D.Valid(InitialBanners())
    ensures forall k :: k in BannerKeys ==> Lookup(InitialBanners(), k) == Some("")
  {
    var d := InitialBanners();
    InitialBannersKeys();
    BannerKeysDistinct();
    forall k | k in BannerKeys ensures Lookup(d, k) == Some("") {
      var i :| 0 <= i < 6 && BannerKeys[i] == k;
      D.LookupAt(d, i);
    }
  }

  class Banners {
    var banners: Dict<string>
    var selectedFiles: Dict<File>
    var previews: Dict<string>
    var uploadStatus: Dict<string>
    var saving: bool
    var loading: bool

    predicate Valid()
      reads this
    {
      D.Valid(banners) && D.Valid(selectedFiles) && D.Valid(previews) && D.Valid(uploadStatus)
    }

    /** Six empty banner URLs until the first snapshot arrives. */
    constructor ()
      ensures Valid() && loading && !saving
      ensures Keys(banners) == BannerKeys
      ensures forall k :: k in BannerKeys ==> Lookup(banners, k) == Some("")
      ensures selectedFiles == [] && previews == [] && uploadStatus == []
    {
      banners := InitialBanners();
      selectedFiles := [];
      previews := [];
      uploadStatus := [];
      saving := false;
      loading := true;
      new;
      InitialBannersWellFormed();
    }

    /** The banners snapshot replaces the map and ends loading. */
    method ReceiveBanners(data: Dict<string>)
      requires Valid() && D.Valid(data)
      modifies this
      ensures Valid() && banners == data && !loading
      ensures selectedFiles == old(selectedFiles) && previews == old(previews)
      ensures uploadStatus == old(uploadStatus) && saving == old(saving)
    {
      banners := data;
      loading := false;
    }

    /** `handleFileSelect`: a missing or unacceptable file changes nothing; an
        acceptable one becomes the selection for `key`. */
    method HandleFileSelect(key: string, file: Option<File>) returns (alert: Option<string>)
      requires Valid()
      modifies this
      ensures Valid()
      ensures file.None? ==> alert.None? && selectedFiles == old(selectedFiles)
      ensures file.Some? ==> alert == SelectionAlert(file.value)
      ensures file.Some? && Acceptable(file.value) ==> selectedFiles == Assign(old(selectedFiles), key, file.value)
      ensures file.Some? && !Acceptable(file.value) ==> selectedFiles == old(selectedFiles)
      ensures banners == old(banners) && previews == old(previews)
      ensures uploadStatus == old(uploadStatus) && saving == old(saving) && loading == old(loading)
    {
      if file.None? {
        return None;
      }
      alert := SelectionAlert(file.value);
      if alert.None? {
        AssignValid(selectedFiles, key, file.value);
        selectedFiles := Assign(selectedFiles, key, file.value);
      }
    }

    /** The file reader's `onload` for an accepted file stores its data URL. */
    method PreviewLoaded(key: string, dataUrl: string)
      requires Valid()
      modifies this
      ensures Valid() && previews == Assign(old(previews), key, dataUrl)
      ensures banners == old(banners) && selectedFiles == old(selectedFiles)
      ensures uploadStatus == old(uploadStatus) && saving == old(saving) && loading == old(loading)
    {
      AssignValid(previews, key, dataUrl);
      previews := Assign(previews, key, dataUrl);
    }

    /** `handleRemoveFile`: drops `key` from the selections, the previews and
        the statuses. */
    method HandleRemoveFile(key: string)
      requires Valid()
      modifies this
      ensures Valid()
      ensures selectedFiles == Remove(old(selectedFiles), key)
      ensures previews == Remove(old(previews), key)
      ensures uploadStatus == Remove(old(uploadStatus), key)
      ensures banners == old(banners) && saving == old(saving) && loading == old(loading)
    {
      RemoveValid(selectedFiles, key);
      RemoveValid(previews, key);
      RemoveValid(uploadStatus, key);
      selectedFiles := Remove(selectedFiles, key);
      previews := Remove(previews, key);
      uploadStatus := Remove(uploadStatus, key);
    }

    /** `handleSaveSettings`. With nothing selected it only alerts. Otherwise
        it uploads the selected keys in order; the first failed upload marks
        its key `error` and abandons the save with every selection kept. When
        all uploads succeed the URL map is written (`written`), and a write that
        succeeds clears the selections, previews and statuses. */
    method HandleSaveSettings(upload: string -> Option<string>, writeOk: bool)
      returns (alert: string, written: Option<Dict<string>>)
      requires Valid()
      modifies this
      ensures Valid() && banners == old(banners) && loading == old(loading)
      ensures old(selectedFiles) != [] ==> !saving
      ensures old(selectedFiles) == [] ==>
        (alert == NoSelectionAlert && saving == old(saving) && written.None? && selectedFiles == old(selectedFiles)
         && previews == old(previews) && uploadStatus == old(uploadStatus))
      ensures var keys := Keys(old(selectedFiles));
        keys != [] && FirstFailure(keys, upload).Some? ==>
          var f := FirstFailure(keys, upload).value;
          written.None? && alert == SaveFailedAlert
          && uploadStatus == Assign(Mark(old(uploadStatus), keys[..f], Success), keys[f], Failed)
          && selectedFiles == old(selectedFiles) && previews == old(previews)
      ensures var keys := Keys(old(selectedFiles));
        keys != [] && FirstFailure(keys, upload).None? ==>
          written == Some(ApplyUploads(old(banners), keys, upload))
          && (writeOk ==> alert == SavedAlert && selectedFiles == [] && previews == [] && uploadStatus == [])
          && (!writeOk ==>
                (alert == SaveFailedAlert && uploadStatus == Mark(old(uploadStatus), keys, Success)
                 && selectedFiles == old(selectedFiles) && previews == old(previews)))
    {
      var keys := Keys(selectedFiles);
      if keys == [] {
        return NoSelectionAlert, None;
      }
      saving := true;
      var newUrls, status, failure := UploadAll(banners, uploadStatus, keys, upload);
      alert, written := FinishSave(newUrls, status, failure, writeOk);
    }

    /** The end of `handleSaveSettings` once the uploads have run: after a
        failed upload only the statuses change; otherwise the URL map is
        written, and a successful write clears the selections. */
    method FinishSave(newUrls: Dict<string>, status: Dict<string>, failure: Option<nat>, writeOk: bool)
      returns (alert: string, written: Option<Dict<string>>)
      requires Valid() && D.Valid(status)
      modifies this
      ensures Valid() && !saving && banners == old(banners) && loading == old(loading)
      ensures failure.Some? ==>
        (written.None? && alert == SaveFailedAlert && uploadStatus == status
         && selectedFiles == old(selectedFiles) && previews == old(previews))
      ensures failure.None? && writeOk ==>
        (written == Some(newUrls) && alert == SavedAlert
         && selectedFiles == [] && previews == [] && uploadStatus == [])
      ensures failure.None? && !writeOk ==>
        (written == Some(newUrls) && alert == SaveFailedAlert && uploadStatus == status
         && selectedFiles == old(selectedFiles) && previews == old(previews))
    {
      if failure.Some? {
        uploadStatus := status;
        alert, written := SaveFailedAlert, None;
      } else {
        written := Some(newUrls);
        if writeOk {
          selectedFiles := [];
          previews := [];
          uploadStatus := [];
          alert := SavedAlert;
        } else {
          uploadStatus := status;
          alert := SaveFailedAlert;
        }
      }
      saving := false;
    }
  }

  /** The upload loop of `handleSaveSettings`: each key is marked `uploading`,
      then `success` with its URL recorded, until the first failed upload,
      which is marked `error` and ends the loop. */
  method UploadAll(urls: Dict<string>, status0: Dict<string>, keys: seq<string>, upload: string -> Option<string>)
    returns (newUrls: Dict<string>, status: Dict<string>, failure: Option<nat>)
    requires D.Valid(status0)
    ensures D.Valid(status)
    ensures failure == FirstFailure(keys, upload)
    ensures failure.None? ==> newUrls == ApplyUploads(urls, keys, upload) && status == Mark(status0, keys, Success)
    ensures failure.Some? ==>
      (failure.value < |keys|
       && status == Assign(Mark(status0, keys[..failure.value], Success), keys[failure.value], Failed))
  {
    newUrls := urls;
    status := status0;
    var i := 0;
    assert keys[..0] == [];
    while i < |keys|
      invariant 0 <= i <= |keys|
      invariant AllUploaded(keys[..i], upload)
      invariant newUrls == ApplyUploads(urls, keys[..i], upload)
      invariant status == Mark(status0, keys[..i], Success)
    {
      var key := keys[i];
      var before := status;
      status := Assign(status, key, Uploading);
      var result := upload(key);
      if result.None? {
        AssignTwice(before, key, Uploading, Failed);
        status := Assign(status, key, Failed);
        FirstFailureAt(keys, upload, i);
        MarkValid(status0, keys[..i], Success);
        AssignValid(before, key, Failed);
        return newUrls, status, Some(i);
      }
      AssignTwice(before, key, Uploading, Success);
      status := Assign(status, key, Success);
      newUrls := Assign(newUrls, key, result.value);
      LoopStep(urls, status0, keys, upload, i);
      assert status == Assign(before, key, Success);
      assert status == Mark(status0, keys[..i + 1], Success);
      assert newUrls == ApplyUploads(urls, keys[..i + 1], upload);
      UploadedStep(keys, upload, i);
      i := i + 1;
    }
    assert keys[..i] == keys;
    MarkValid(status0, keys, Success);
    failure := None;
  }

  lemma LoopStep(urls: Dict<string>, status0: Dict<string>, keys: seq<string>, upload: string -> Option<string>, i: nat)
    requires i < |keys| && upload(keys[i]).Some?
    ensures ApplyUploads(urls, keys[..i + 1], upload) == Assign(ApplyUploads(urls, keys[..i], upload), keys[i], upload(keys[i]).value)
    ensures Mark(status0, keys[..i + 1], Success) == Assign(Mark(status0, keys[..i], Success), keys[i], Success)
  {
    assert keys[..i + 1][..i] == keys[..i];
  }

  /** Marking and uploading keep the keys of a dictionary distinct. */
  lemma {:induction false} MarkValid(d: Dict<string>, ks: seq<string>, v: string)
    requires D.Valid(d)
    ensures D.Valid(Mark(d, ks, v))
  {
    if ks != [] {
      MarkValid(d, ks[..|ks| - 1], v);
      AssignValid(Mark(d, ks[..|ks| - 1], v), ks[|ks| - 1], v);
    }
  }

  /** If every key before `i` uploads and key `i` does not, `i` is the first failure. */
  lemma {:induction false} FirstFailureAt(ks: seq<string>, upload: string -> Option<string>, i: nat)
    requires i < |ks| && upload(ks[i]).None?
    requires AllUploaded(ks[..i], upload)
    ensures FirstFailure(ks, upload) == Some(i)
  {
    if i > 0 {
      assert forall j :: 0 <= j < i - 1 ==> ks[1..][j] == ks[j + 1];
      FirstFailureAt(ks[1..], upload, i - 1);
    }
  }
}
