/** The S3 storage service: upload validation, object keys and the object
    URL <-> key conversion. The S3 client itself is outside the model; its
    outcome on each call is a parameter. */
module S3Storage {
  import opened Common

  const ALLOWED_IMAGE_TYPES: seq<string> := ["image/jpeg", "image/jpg", "image/png", "image/gif"]

  /** 10 MiB. */
  const MAX_FILE_SIZE: nat := 10 * 1024 * 1024

  const EMPTY_FILE: string := "파일이 비어있습니다"
  const TOO_LARGE: string := "파일 크기가 10MB를 초과합니다"
  const UNSUPPORTED_TYPE: string := "지원하지 않는 이미지 형식입니다"
  const UPLOAD_FAILED: string := "파일 업로드 중 오류가 발생했습니다"
  const DELETE_FAILED: string := "파일 삭제 중 오류가 발생했습니다"

  /** The content type is present and, lower-cased, one of the four image types. */
  predicate AllowedType(contentType: Option<string>)
  {
    contentType.Some? && Lower(contentType.value) in ALLOWED_IMAGE_TYPES
  }

  /** validateImageFile: emptiness, then size, then type, each an
      INVALID_INPUT_VALUE ApiException with its own message. */
  function ValidateImageFile(file: FilePart): (r: Result<()>)
    ensures r.Ok? <==> !file.IsEmpty() && file.size <= MAX_FILE_SIZE && AllowedType(file.contentType)
    ensures file.IsEmpty() ==> r == Err(Api(INVALID_INPUT_VALUE, EMPTY_FILE))
    ensures !file.IsEmpty() && file.size > MAX_FILE_SIZE ==> r == Err(Api(INVALID_INPUT_VALUE, TOO_LARGE))
    ensures !file.IsEmpty() && file.size <= MAX_FILE_SIZE && !AllowedType(file.contentType)
            ==> r == Err(Api(INVALID_INPUT_VALUE, UNSUPPORTED_TYPE))
  {
    if file.IsEmpty() then Err(Api(INVALID_INPUT_VALUE, EMPTY_FILE))
    else if file.size > MAX_FILE_SIZE then Err(Api(INVALID_INPUT_VALUE, TOO_LARGE))
    else if !AllowedType(file.contentType) then Err(Api(INVALID_INPUT_VALUE, UNSUPPORTED_TYPE))
    else Ok(())
  }

  /** The size bound is inclusive, and the type check ignores case. */
  lemma SizeBoundIsInclusive(name: Option<string>)
    ensures ValidateImageFile(FilePart(MAX_FILE_SIZE, Some("IMAGE/PNG"), name)).Ok?
    ensures ValidateImageFile(FilePart(MAX_FILE_SIZE + 1, Some("image/png"), name))
            == Err(Api(INVALID_INPUT_VALUE, TOO_LARGE))
  {
    assert Lower("IMAGE/PNG") == "image/png";
  }

  /** generateFileName: a fresh UUID, a dash and the original name (string
      concatenation writes a null name as "null"). */
  function FileName(uuid: string, originalFilename: Option<string>): (r: string)
    ensures StartsWith(r, uuid + "-")
    ensures originalFilename.Some? ==> EndsWith(r, originalFilename.value)
  {
    uuid + "-" + originalFilename.GetOr("null")
  }

  /** The object key of an album image: "albums/{albumId}/original/{fileName}". */
  function ObjectKey(albumId: nat, fileName: string): (r: string)
    ensures StartsWith(r, "albums/") && EndsWith(r, "/original/" + fileName)
  {
    "albums/" + NatToString(albumId) + "/original/" + fileName
  }

  /** getFileUrl. */
  function FileUrl(bucket: string, key: string): (r: string)
    ensures StartsWith(r, "https://" + bucket + ".s3.amazonaws.com/") && EndsWith(r, key)
  {
    "https://" + bucket + ".s3.amazonaws.com/" + key
  }

  /** extractKeyFromUrl: everything after the first ".com/". Without one,
      indexOf gives -1 and the text from index 4 on is returned, which fails
      on a URL shorter than 4 characters. */
  function ExtractKeyFromUrl(url: string): (r: Result<string>)
    ensures Contains(url, ".com/") ==> r == Ok(url[IndexOf(url, ".com/") + 5..])
    ensures !Contains(url, ".com/") ==> r == (if |url| >= 4 then Ok(url[4..]) else Err(StringIndexOutOfBounds))
    ensures r.Ok? ==> EndsWith(url, r.value)
  {
    var i := IndexOf(url, ".com/") + 5;
    if i <= |url| then Ok(url[i..]) else Err(StringIndexOutOfBounds)
  }

  /** indexOf finds an occurrence when there is none earlier. */
  lemma FirstOccurrence(s: string, p: string, j: nat)
    requires OccursAt(s, p, j)
    requires forall i :: 0 <= i < j ==> !OccursAt(s, p, i)
    ensures IndexOf(s, p) == j
  {
  }

  /** The key comes from the ".com/" at `j` when no earlier position starts
      one, which a position shows by lacking the '.' or the '/'. */
  lemma KeyAfterFirstSeparator(url: string, j: nat)
    requires OccursAt(url, ".com/", j)
    requires forall i :: 0 <= i < j ==> url[i] != '.' || url[i + 4] != '/'
    ensures ExtractKeyFromUrl(url) == Ok(url[j + 5..])
  {
    forall i | 0 <= i < j
      ensures !OccursAt(url, ".com/", i)
    {
      assert url[i..i + 5][0] == url[i] && url[i..i + 5][4] == url[i + 4];
    }
    FirstOccurrence(url, ".com/", j);
  }

  /** The key round trip: the key is recovered from the URL whenever the
      bucket name holds no '/', since then the first ".com/" of the URL is
      the one ending the host name. */
  lemma {:induction false} KeyRoundTrip(bucket: string, key: string)
    requires !HasChar(bucket, '/')
    ensures ExtractKeyFromUrl(FileUrl(bucket, key)) == Ok(key)
  {
    var url := FileUrl(bucket, key);
    var host := "https://" + bucket + ".s3.amazonaws";
    var j := |host|;
    assert url == host + ".com/" + key;
    assert url[j..j + 5] == ".com/";
    forall i | 0 <= i < j
      ensures url[i] != '.' || url[i + 4] != '/'
    {
      if i + 4 < 8 {
        assert url[..8] == "https://";
        assert url[i] == "https://"[i];
      } else if i + 4 < 8 + |bucket| {
        assert url[i + 4] == bucket[i + 4 - 8];
      } else {
        assert url[8 + |bucket|..j + 4] == ".s3.amazonaws.com";
        assert url[i + 4] == ".s3.amazonaws.com"[i + 4 - 8 - |bucket|];
      }
    }
    KeyAfterFirstSeparator(url, j);
    assert url[j + 5..] == key;
  }

  /** A bucket name holding ".com/" breaks the round trip: the key comes back
      with part of the host name in front of it. */
  lemma SlashInBucketBreaksRoundTrip(bucket: string, key: string)
    requires bucket == "a.com/b" && key == "k"
    ensures ExtractKeyFromUrl(FileUrl(bucket, key)) == Ok("b.s3.amazonaws.com/k")
  {
    var url := FileUrl(bucket, key);
    assert url == "https://" + bucket + ".s3.amazonaws.com/" + key;
    assert url[..9] == "https://a";
    assert url[9..14] == ".com/";
    assert url[14..] == "b.s3.amazonaws.com/k";
    forall i | 0 <= i < 9
      ensures url[i] != '.'
    {
      assert url[i] == url[..9][i];
    }
    KeyAfterFirstSeparator(url, 9);
  }

  /** uploadAlbumImage: validation first; then the key is built from a fresh
      UUID and the file is put. An IOException while reading the file
      (`streamOk` false) becomes an INTERNAL_SERVER_ERROR ApiException; a
      failure of the S3 client itself (`put`) propagates unchanged. */
  function UploadAlbumImage(file: FilePart, albumId: nat, bucket: string, uuid: string,
                            streamOk: bool, put: Result<()>): (r: Result<string>)
    ensures ValidateImageFile(file).Err? ==> r == ValidateImageFile(file).PropagateFailure()
    ensures r.Ok? <==> ValidateImageFile(file).Ok? && streamOk && put.Ok?
    ensures r.Ok? ==> r.value == FileUrl(bucket, ObjectKey(albumId, FileName(uuid, file.originalFilename)))
    ensures ValidateImageFile(file).Ok? && !streamOk ==> r == Err(Api(INTERNAL_SERVER_ERROR, UPLOAD_FAILED))
  {
    var _ :- ValidateImageFile(file);
    var key := ObjectKey(albumId, FileName(uuid, file.originalFilename));
    if !streamOk then Err(Api(INTERNAL_SERVER_ERROR, UPLOAD_FAILED))
    else
      var _ :- put;
      Ok(FileUrl(bucket, key))
  }

  /** A rejected file is rejected the same way whatever UUID would have been
      drawn and whatever the client would have done: nothing is built or sent. */
  lemma ValidationPrecedesUpload(file: FilePart, albumId: nat, bucket: string,
                                 uuid1: string, uuid2: string, stream1: bool, stream2: bool,
                                 put1: Result<()>, put2: Result<()>)
    requires ValidateImageFile(file).Err?
    ensures UploadAlbumImage(file, albumId, bucket, uuid1, stream1, put1)
            == UploadAlbumImage(file, albumId, bucket, uuid2, stream2, put2)
  {
  }

  /** A stored image URL names its own key again. */
  lemma UploadedUrlNamesItsKey(file: FilePart, albumId: nat, bucket: string, uuid: string,
                               streamOk: bool, put: Result<()>)
    requires !HasChar(bucket, '/')
    requires UploadAlbumImage(file, albumId, bucket, uuid, streamOk, put).Ok?
    ensures ExtractKeyFromUrl(UploadAlbumImage(file, albumId, bucket, uuid, streamOk, put).value)
            == Ok(ObjectKey(albumId, FileName(uuid, file.originalFilename)))
  {
    KeyRoundTrip(bucket, ObjectKey(albumId, FileName(uuid, file.originalFilename)));
  }

  /** deleteImage: the key is extracted outside the try block, so a failed
      extraction propagates as is; a failure of the client (`clientOk`
      false) becomes an INTERNAL_SERVER_ERROR ApiException. On success the
      result is the key the delete request targeted. */
  function DeleteImage(fileUrl: string, clientOk: bool): (r: Result<string>)
    ensures ExtractKeyFromUrl(fileUrl).Err? ==> r == Err(StringIndexOutOfBounds)
    ensures ExtractKeyFromUrl(fileUrl).Ok? && !clientOk ==> r == Err(Api(INTERNAL_SERVER_ERROR, DELETE_FAILED))
    ensures r.Ok? <==> ExtractKeyFromUrl(fileUrl).Ok? && clientOk
    ensures r.Ok? ==> r == ExtractKeyFromUrl(fileUrl)
  {
    var key :- ExtractKeyFromUrl(fileUrl);
    if clientOk then Ok(key) else Err(Api(INTERNAL_SERVER_ERROR, DELETE_FAILED))
  }

  /** Deleting an image this service stored targets exactly the key it was stored under. */
  lemma DeleteTargetsStoredKey(bucket: string, key: string)
    requires !HasChar(bucket, '/')
    ensures DeleteImage(FileUrl(bucket, key), true) == Ok(key)
  {
    KeyRoundTrip(bucket, key);
  }
}
