/**
 * The rich-text editor's image handling: file naming under the diary's
 * folder, the `isUploading` flag around an upload, and which drops and
 * pastes the editor takes over (those carrying at least one image file).
 */
module Editor {
  import opened Wrappers
  import opened Effects
  import opened Text
  import opened ImageUpload

  const DEFAULT_EXTENSION := "jpg"
  const TEMP_PREFIX := "temp-"
  const MSG_UPLOAD_FAILED := "이미지 업로드 실패"
  const MSG_UPLOAD_THREW := "이미지를 업로드하는 중 오류가 발생했습니다."
  const MSG_UPLOAD_DONE := "이미지 업로드 완료"

  /** `file.name.split('.').pop() || 'jpg'`: the last segment, or "jpg" when that segment is empty. */
  function Extension(name: string): (ext: string)
    ensures LastSegment(name) != "" ==> ext == LastSegment(name)
    ensures LastSegment(name) == "" ==> ext == DEFAULT_EXTENSION
  {
    OrElse(LastSegment(name), DEFAULT_EXTENSION)
  }

  /** The extension is never empty and never contains '.'. */
  lemma ExtensionIsOneSegment(name: string)
    ensures Extension(name) != "" && '.' !in Extension(name)
  {
    LastSegmentSpec(name);
  }

  /** `diaryId || \`temp-${Date.now()}\``: the folder of the diary's images; `renderNow` is the clock at render. */
  function Folder(diaryId: Option<string>, renderNow: nat): (folder: string)
    ensures diaryId.Some? && diaryId.value != "" ==> folder == diaryId.value
    ensures !(diaryId.Some? && diaryId.value != "") ==> folder == TEMP_PREFIX + Decimal(renderNow)
  {
    OrElse(diaryId.GetOr(""), TEMP_PREFIX + Decimal(renderNow))
  }

  /** Without a diary id, renders at different times name different folders. */
  lemma {:induction false} TempFolderPerRender(t1: nat, t2: nat)
    ensures Folder(None, t1) == Folder(None, t2) <==> t1 == t2
  {
    if Folder(None, t1) == Folder(None, t2) {
      var d1, d2 := Decimal(t1), Decimal(t2);
      assert TEMP_PREFIX + d1 == TEMP_PREFIX + d2;
      assert d1 == (TEMP_PREFIX + d1)[|TEMP_PREFIX|..];
      assert d2 == (TEMP_PREFIX + d2)[|TEMP_PREFIX|..];
      ParseDecimalOfDecimal(t1);
      ParseDecimalOfDecimal(t2);
    }
  }

  /** `${folder}/${Date.now()}.${ext}`. */
  function UploadPath(folder: string, now: nat, name: string): string {
    folder + "/" + Decimal(now) + "." + Extension(name)
  }

  /** The stored image's extension is the file's, or "jpg" for a name ending in '.' or without one. */
  lemma UploadPathExtension(folder: string, now: nat, name: string)
    ensures LastSegment(UploadPath(folder, now, name)) == Extension(name)
  {
    ExtensionIsOneSegment(name);
    LastSegmentOfJoin(folder + "/" + Decimal(now), Extension(name));
  }

  /** The stored image lies in the diary's folder. */
  lemma UploadPathFolder(folder: string, now: nat, name: string)
    ensures UploadPath(folder, now, name)[..|folder| + 1] == folder + "/"
  {
    PrefixOfJoin(folder + "/", Decimal(now) + "." + Extension(name));
  }

  lemma PrefixOfJoin(a: string, b: string)
    ensures (a + b)[..|a|] == a
  {
  }

  /** `files.filter(file => file.type.startsWith('image/'))`. */
  function ImageFiles(files: seq<File>): (images: seq<File>)
    ensures |images| <= |files|
    ensures forall f :: f in images <==> f in files && IsImage(f)
  {
    if files == [] then []
    else if IsImage(files[0]) then [files[0]] + ImageFiles(files[1..])
    else ImageFiles(files[1..])
  }

  /** The filter keeps order: filtering a concatenation filters each part in turn. */
  lemma {:induction false} ImageFilesAppend(a: seq<File>, b: seq<File>)
    ensures ImageFiles(a + b) == ImageFiles(a) + ImageFiles(b)
  {
    if a == [] {
      assert a + b == b;
    } else {
      assert (a + b)[0] == a[0] && (a + b)[1..] == a[1..] + b;
      ImageFilesAppend(a[1..], b);
    }
  }

  /** Whether the editor takes over a drop or paste, and which files it then uploads. */
  datatype Intake = Intake(handled: bool, uploads: seq<File>)

  /** The part of `handleDrop`/`handlePaste` after the guards on the event: the image files decide. */
  function Take(files: seq<File>): (r: Intake)
    ensures r.handled <==> ImageFiles(files) != []
    ensures r.uploads == if r.handled then ImageFiles(files) else []
  {
    var images := ImageFiles(files);
    if |images| > 0 then Intake(true, images) else Intake(false, [])
  }

  /**
   * `handleDrop`. `files` is `event.dataTransfer.files`, None when the event
   * carries no transfer. A move within the editor, no files, or no image file
   * is left to the editor (false).
   */
  function HandleDrop(moved: bool, files: Option<seq<File>>): (r: Intake)
    ensures r.handled <==> !moved && files.Some? && ImageFiles(files.value) != []
    ensures r.handled ==> r.uploads == ImageFiles(files.value)
    ensures !r.handled ==> r.uploads == []
  {
    if !moved && files.Some? && |files.value| > 0 then Take(files.value) else Intake(false, [])
  }

  /** `handlePaste`: like a drop, for `event.clipboardData.files`, and never a move. */
  function HandlePaste(files: Option<seq<File>>): (r: Intake)
    ensures r.handled <==> files.Some? && ImageFiles(files.value) != []
    ensures r.handled ==> r.uploads == ImageFiles(files.value)
    ensures !r.handled ==> r.uploads == []
  {
    if files.Some? && |files.value| > 0 then Take(files.value) else Intake(false, [])
  }

  /** A paste is taken over exactly when the same files dropped (not moved) would be. */
  lemma PasteIsUnmovedDrop(files: Option<seq<File>>)
    ensures HandlePaste(files) == HandleDrop(false, files)
  {
  }

  /** The storage's answer to an upload: success, an error object with a message, or a rejection. */
  datatype StorageReply = Uploaded | UploadRejected(message: string) | UploadThrew

  /** One storage upload, with the value of `isUploading` while it ran. */
  datatype UploadCall = UploadCall(path: string, uploading: bool)

  /** The editor component's upload state. */
  class TiptapEditor {
    var isUploading: bool
    var uploads: seq<UploadCall>
    var images: seq<string>  // the `src` of every image inserted into the document
    var effects: seq<Effect>

    constructor ()
      ensures !isUploading && uploads == [] && images == [] && effects == []
    {
      images := [];
      isUploading := false;
      uploads := [];
      effects := [];
    }

    /**
     * `handleImageUpload`, as created by one render: `tempDiaryId` is that
     * render's `Folder(diaryId, renderNow)`. With no diary id each render names
     * its own `temp-` folder (TempFolderPerRender), and the handler uploads
     * into the one of the render it came from. `now` is `Date.now()` at the call, `reply` what the
     * storage answers for the path, `publicUrl` the bucket's public URL of it.
     * The upload runs with the flag up; the flag is down afterwards on every
     * path; a failed upload yields None and one error toast.
     */
    method HandleImageUpload(tempDiaryId: string, file: File, now: nat, reply: StorageReply, publicUrl: string -> string)
      returns (url: Option<string>)
      modifies this`isUploading, this`uploads, this`effects
      ensures !isUploading
      ensures uploads == old(uploads) + [UploadCall(UploadPath(tempDiaryId, now, file.name), true)]
      ensures reply.Uploaded? ==> url == Some(publicUrl(UploadPath(tempDiaryId, now, file.name))) && effects == old(effects)
      ensures reply.UploadRejected? ==> url.None? && effects == old(effects) + [Toast(ErrorNotice(MSG_UPLOAD_FAILED, reply.message))]
      ensures reply.UploadThrew? ==> url.None? && effects == old(effects) + [Toast(ErrorNotice(MSG_UPLOAD_FAILED, MSG_UPLOAD_THREW))]
    {
      isUploading := true;
      var path := UploadPath(tempDiaryId, now, file.name);
      uploads := uploads + [UploadCall(path, isUploading)];
      match reply {
        case Uploaded =>
          url := Some(publicUrl(path));
        case UploadRejected(m) =>
          effects := effects + [Toast(ErrorNotice(MSG_UPLOAD_FAILED, m))];
          url := None;
        case UploadThrew =>
          effects := effects + [Toast(ErrorNotice(MSG_UPLOAD_FAILED, MSG_UPLOAD_THREW))];
          url := None;
      }
      isUploading := false;
    }

    /**
     * What a taken-over drop or paste does with one of its image files: upload
     * it and, only when that yields a non-empty URL (`if (imageUrl)`), insert
     * the image and say so.
     */
    method InsertImage(tempDiaryId: string, file: File, now: nat, reply: StorageReply, publicUrl: string -> string)
      modifies this`isUploading, this`uploads, this`images, this`effects
      ensures !isUploading
      ensures uploads == old(uploads) + [UploadCall(UploadPath(tempDiaryId, now, file.name), true)]
      ensures reply.Uploaded? && publicUrl(UploadPath(tempDiaryId, now, file.name)) != "" ==>
        && images == old(images) + [publicUrl(UploadPath(tempDiaryId, now, file.name))]
        && effects == old(effects) + [Toast(SuccessNotice(MSG_UPLOAD_DONE))]
      ensures reply.Uploaded? && publicUrl(UploadPath(tempDiaryId, now, file.name)) == "" ==>
        images == old(images) && effects == old(effects)
      ensures !reply.Uploaded? ==>
        && images == old(images)
        && effects == old(effects) + [Toast(ErrorNotice(MSG_UPLOAD_FAILED, if reply.UploadRejected? then reply.message else MSG_UPLOAD_THREW))]
    {
      var url := HandleImageUpload(tempDiaryId, file, now, reply, publicUrl);
      if url.Some? && url.value != "" {
        images := images + [url.value];
        effects := effects + [Toast(SuccessNotice(MSG_UPLOAD_DONE))];
      }
    }
  }
}
