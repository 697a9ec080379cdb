/**
 * `uploadImageToSupabase`: admission of a file (image type, then at most
 * 5 MiB), the collision-avoiding storage path, and the mapping of storage
 * failures to one generic error.
 */
module ImageUpload {
  import opened Wrappers
  import opened Text

  /** The parts of a browser `File` the core reads. */
  datatype File = File(name: string, mimeType: string, size: nat)

  const IMAGE_PREFIX := "image/"
  const MAX_FILE_SIZE: nat := 5 * 1024 * 1024

  /** `file.type.startsWith('image/')`. */
  predicate IsImage(f: File) {
    StartsWith(f.mimeType, IMAGE_PREFIX)
  }

  datatype UploadError = NotAnImage | TooLarge | UploadFailed

  /** The message of the `Error` thrown for each rejection. */
  function ErrorMessage(e: UploadError): (m: string)
    ensures m != ""
  {
    match e
    case NotAnImage => "이미지 파일만 업로드 가능합니다."
    case TooLarge => "이미지 크기는 5MB 이하여야 합니다."
    case UploadFailed => "이미지 업로드에 실패했습니다."
  }

  /** A caller can tell the three rejections apart by the thrown message alone. */
  lemma ErrorMessagesDistinct(e1: UploadError, e2: UploadError)
    ensures ErrorMessage(e1) == ErrorMessage(e2) ==> e1 == e2
  {
  }

  /** The guards, in source order: the type check comes before the size check. */
  function Admission(f: File): (r: Option<UploadError>)
    ensures r == Some(NotAnImage) <==> !IsImage(f)
    ensures r == Some(TooLarge) <==> IsImage(f) && f.size > MAX_FILE_SIZE
    ensures r.None? <==> IsImage(f) && f.size <= MAX_FILE_SIZE
  {
    if !IsImage(f) then Some(NotAnImage)
    else if f.size > MAX_FILE_SIZE then Some(TooLarge)
    else None
  }

  /** The limit is inclusive: a 5 MiB image passes, one byte more does not, and a large non-image gets the type error. */
  lemma AdmissionBoundary(name: string)
    ensures Admission(File(name, "image/png", 5 * 1024 * 1024)).None?
    ensures Admission(File(name, "image/png", 5 * 1024 * 1024 + 1)) == Some(TooLarge)
    ensures Admission(File(name, "application/pdf", 5 * 1024 * 1024 + 1)) == Some(NotAnImage)
  {
    assert StartsWith("image/png", IMAGE_PREFIX);
    assert !StartsWith("application/pdf", IMAGE_PREFIX) by {
      assert "application/pdf"[0] != IMAGE_PREFIX[0];
    }
  }

  /**
   * The storage path `<Date.now()>-<random>.<extension>`, at the bucket's top
   * level. `now` is `Date.now()`; `random` is
   * `Math.random().toString(36).substring(2)`, both taken as given.
   */
  function FilePath(name: string, now: nat, random: string): string {
    Decimal(now) + "-" + random + "." + LastSegment(name)
  }

  /** The stored file keeps the uploaded file's extension. */
  lemma FilePathKeepsExtension(name: string, now: nat, random: string)
    ensures LastSegment(FilePath(name, now, random)) == LastSegment(name)
  {
    LastSegmentSpec(name);
    LastSegmentOfJoin(Decimal(now) + "-" + random, LastSegment(name));
  }

  /** No folder: the path has no '/' unless the random suffix or the file name brings one. */
  lemma FilePathHasNoFolder(name: string, now: nat, random: string)
    requires '/' !in random && '/' !in name
    ensures '/' !in FilePath(name, now, random)
  {
    var ext := LastSegment(name);
    LastSegmentSpec(name);
    SuffixHasNoSlash(name, ext);
    var digits := Decimal(now);
    forall i | 0 <= i < |digits| ensures digits[i] != '/' {
      assert IsDigit(digits[i]);
    }
    NoSlashInJoin(digits, random, ext);
  }

  lemma SuffixHasNoSlash(s: string, r: string)
    requires '/' !in s
    requires |r| <= |s| && r == s[|s| - |r|..]
    ensures '/' !in r
  {
    forall i | 0 <= i < |r| ensures r[i] != '/' {
      assert r[i] == s[|s| - |r| + i];
    }
  }

  lemma NoSlashInJoin(digits: string, random: string, ext: string)
    requires '/' !in digits && '/' !in random && '/' !in ext
    ensures '/' !in digits + "-" + random + "." + ext
  {
  }

  /** `{ url, path }`. */
  datatype UploadResponse = UploadResponse(url: string, path: string)

  /**
   * `uploadImageToSupabase`; a `Failure(e)` stands for the thrown
   * `Error(ErrorMessage(e))`. `stored(p)` says whether the storage upload of
   * path `p` succeeded, `publicUrl(p)` is the public URL the bucket gives `p`.
   */
  function Upload(f: File, now: nat, random: string, stored: string -> bool, publicUrl: string -> string)
    : (r: Result<UploadResponse, UploadError>)
    ensures Admission(f).Some? ==> r == Failure(Admission(f).value)
    ensures Admission(f).None? ==> (r.Success? <==> stored(FilePath(f.name, now, random)))
    ensures r.Failure? && Admission(f).None? ==> r.error == UploadFailed
    ensures r.Success? ==>
      && r.value.path == FilePath(f.name, now, random)
      && stored(r.value.path)
      && r.value.url == publicUrl(r.value.path)
  {
    match Admission(f)
    case Some(e) => Failure(e)
    case None =>
      var path := FilePath(f.name, now, random);
      if stored(path) then Success(UploadResponse(publicUrl(path), path)) else Failure(UploadFailed)
  }
}
