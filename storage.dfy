/**
 * The storage service: the four operations the gateway offers over one
 * object-storage bucket (upload, fetch, delete a file, delete a folder), the
 * naming rules they share (extension-preserving file-name generation, the
 * `directory/filename` key, the folder prefix) and the content-type defaults.
 *
 * The bucket is a class whose one field maps each key to the stored object.
 * What the remote store answers to each request (done, or a thrown exception),
 * the content-type probe, the listing page and the random identifier are
 * parameters: the model says what the service does with each answer.
 */
module Storage {
  import opened Wrappers
  import opened Text

  type Byte = bv8
  type Key = string

  /** The type given to content whose type is unknown. */
  const OctetStream: string := "application/octet-stream"

  /** An object as the bucket keeps it: its bytes, the content type given when it
      was put (objects put by other clients may have none), and its user metadata. */
  datatype StoredObject = StoredObject(content: seq<Byte>, contentType: Option<string>, metadata: map<string, string>)

  /** What a fetch hands back (the `S3Blob` record). */
  datatype Blob = Blob(content: seq<Byte>, contentType: string)

  /** The exceptions the operations can meet: an `IOException`, an `S3Exception`
      (a service error) and any other exception (a client-side SDK error, an
      invalid path), each with its message. */
  datatype Fault = IoFault(message: string) | S3Fault(message: string) | OtherFault(message: string)

  /** The store's answer to a put, get or delete request. */
  datatype Reply = Done | Threw(fault: Fault)

  /** What probing a file name for its content type gives. */
  datatype Probe = Probed(contentType: Option<string>) | ProbeThrew(fault: Fault)

  /** The answer to a listing request: one page of keys, or an exception. */
  datatype Listing = Page(keys: seq<Key>) | ListThrew(fault: Fault)

  /** The answer to a batch delete: the keys the store reports it could not
      delete (the request itself succeeded), or an exception. */
  datatype BatchReply = BatchDone(notDeleted: set<Key>) | BatchThrew(fault: Fault)

  // ---------------------------------------------------------------------------
  // Naming

  predicate IsLowerHex(c: char) {
    ('0' <= c <= '9') || ('a' <= c <= 'f')
  }

  /** The text of a random UUID: 8-4-4-4-12 lower-case hexadecimal digits. */
  predicate IsUuidText(id: string) {
    && |id| == 36
    && forall i :: 0 <= i < |id| ==>
         if i == 8 || i == 13 || i == 18 || i == 23 then id[i] == '-' else IsLowerHex(id[i])
  }

  /** The extension of a file name: its suffix from the last `.` on, or empty
      when there is no `.`. */
  function ExtensionOf(filename: string): (ext: string)
    ensures |ext| <= |filename| && filename[|filename| - |ext|..] == ext
    ensures ext == [] <==> forall i :: 0 <= i < |filename| ==> filename[i] != '.'
    ensures ext != [] ==> ext[0] == '.' && forall i :: 0 < i < |ext| ==> ext[i] != '.'
  {
    var dot := LastIndexOf(filename, '.');
    if dot == -1 then "" else filename[dot..]
  }

  /** The name a part is stored under: the client's name, or when names are
      generated, a fresh identifier followed by the client name's extension. */
  function EffectiveName(filename: string, generateFileName: bool, freshId: string): (name: string)
    requires generateFileName ==> IsUuidText(freshId)
    ensures !generateFileName ==> name == filename
    ensures generateFileName ==> |name| >= 36 && name[..36] == freshId
    ensures generateFileName ==> ExtensionOf(name) == ExtensionOf(filename)
    ensures generateFileName ==> name == freshId + ExtensionOf(filename)
  {
    if generateFileName then
      assert forall i :: 0 <= i < |freshId| ==> freshId[i] != '.';
      GeneratedNameKeepsExtension(freshId, filename);
      freshId + ExtensionOf(filename)
    else filename
  }

  /** An identifier without a `.` followed by an extension has that extension. */
  lemma GeneratedNameKeepsExtension(freshId: string, filename: string)
    requires forall i :: 0 <= i < |freshId| ==> freshId[i] != '.'
    ensures ExtensionOf(freshId + ExtensionOf(filename)) == ExtensionOf(filename)
  {
    var ext := ExtensionOf(filename);
    LastIndexOfAfterFreePrefix(freshId, ext, '.');
    if ext != [] {
      LastIndexOfAfterFreePrefix([], ext, '.');
      assert [] + ext == ext;
      assert LastIndexOf(ext, '.') == 0;
    }
  }

  /** The key of a file in a directory: `directory + "/" + filename`. */
  function StorageKey(directory: string, filename: string): (key: Key)
    ensures |key| == |directory| + 1 + |filename|
    ensures key[..|directory|] == directory && key[|directory|] == '/' && key[|directory| + 1..] == filename
  {
    directory + "/" + filename
  }

  /** Directories are path segments, so they hold no `/`; then distinct
      (directory, filename) pairs have distinct keys, and the key splits back
      at its first `/`. */
  lemma StorageKeyInjective(d1: string, f1: string, d2: string, f2: string)
    requires '/' !in d1 && '/' !in d2
    ensures StorageKey(d1, f1) == StorageKey(d2, f2) <==> d1 == d2 && f1 == f2
  {
    var k1, k2 := StorageKey(d1, f1), StorageKey(d2, f2);
    if k1 == k2 {
      assert forall i :: 0 <= i < |d1| ==> k1[i] == d1[i];
      assert forall i :: 0 <= i < |d2| ==> k2[i] == d2[i];
      assert k1[|d1|] == '/' && k2[|d2|] == '/';
      assert |d1| == |d2|;
      assert d1 == k1[..|d1|] == k2[..|d2|] == d2;
      assert f1 == k1[|d1| + 1..] == k2[|d2| + 1..] == f2;
    }
  }

  /** The prefix under which a folder's objects are listed: the folder name with
      a trailing `/`, added only when it is missing. */
  function FolderPrefix(folderName: string): (prefix: string)
    ensures EndsWith(prefix, '/')
    ensures |folderName| <= |prefix| <= |folderName| + 1 && prefix[..|folderName|] == folderName
    ensures EndsWith(folderName, '/') ==> prefix == folderName
  {
    if EndsWith(folderName, '/') then folderName else folderName + "/"
  }

  /** Normalising is idempotent. */
  lemma FolderPrefixIdempotent(folderName: string)
    ensures FolderPrefix(FolderPrefix(folderName)) == FolderPrefix(folderName)
  {
  }

  /** Every file uploaded into a directory lies under the prefix that deleting
      the folder of the same name lists. */
  lemma UploadedKeyUnderFolderPrefix(directory: string, filename: string)
    ensures var prefix := FolderPrefix(directory);
      |prefix| <= |StorageKey(directory, filename)| && StorageKey(directory, filename)[..|prefix|] == prefix
  {
  }

  // ---------------------------------------------------------------------------
  // Metadata and messages

  /** The user metadata an upload attaches: the stored name, the content type and
      the byte count in decimal. */
  predicate DescribesUpload(metadata: map<string, string>, filename: string, contentType: string, size: nat) {
    && metadata.Keys == {"filename", "content-type", "content-length"}
    && metadata["filename"] == filename
    && metadata["content-type"] == contentType
    && metadata["content-length"] == DecimalText(size)
  }

  /** The upload metadata is determined by the name, type and size: exactly
      three entries, no room for another. */
  lemma UploadMetadataUnique(m1: map<string, string>, m2: map<string, string>, filename: string, contentType: string, size: nat)
    requires DescribesUpload(m1, filename, contentType, size)
    requires DescribesUpload(m2, filename, contentType, size)
    ensures m1 == m2
  {
    forall k | k in m1 ensures k in m2 && m1[k] == m2[k] {
      assert k == "filename" || k == "content-type" || k == "content-length";
    }
  }

  /** The recorded content length reads back as the number of bytes stored. */
  lemma ContentLengthReadsBack(metadata: map<string, string>, filename: string, contentType: string, size: nat)
    requires DescribesUpload(metadata, filename, contentType, size)
    ensures forall i :: 0 <= i < |metadata["content-length"]| ==> IsDigit(metadata["content-length"][i])
    ensures ParseDecimal(metadata["content-length"]) == size
  {
    ParseDecimalText(size);
  }

  /** The message of the exception an upload ends with: a fixed text for a
      service error; for a read error and for any other error, a prefix that
      tells the two apart followed by the original exception's message. */
  function UploadFailureMessage(fault: Fault): (message: string)
    ensures fault.S3Fault? ==> message == "Could not obtain the keys"
    ensures fault.IoFault? ==>
      |message| == 29 + |fault.message| && message[..29] == "Failed to read file content: " && message[29..] == fault.message
    ensures fault.OtherFault? ==>
      |message| == 23 + |fault.message| && message[..23] == "Failed to upload file: " && message[23..] == fault.message
  {
    match fault
    case S3Fault(_) => "Could not obtain the keys"
    case IoFault(m) => "Failed to read file content: " + m
    case OtherFault(m) => "Failed to upload file: " + m
  }

  function FileDeleted(filename: string): string {
    "File [" + filename + "] deleted successfully"
  }

  function FileNotDeleted(filename: string): string {
    "Unable to delete file: " + filename
  }

  function FolderDeleted(folderName: string): string {
    "Folder [" + folderName + "] deleted successfully"
  }

  function FolderNotDeleted(folderName: string): string {
    "Unable to delete folder: " + folderName
  }

  /** The content type a fetch reports for a stored object: the stored one unless
      it is missing or blank, then `application/octet-stream`. */
  function TypeOnFetch(stored: Option<string>): (t: string)
    ensures !IsBlank(t)
    ensures stored.Some? && !IsBlank(stored.value) ==> t == stored.value
    ensures stored.None? || IsBlank(stored.value) ==> t == OctetStream
  {
    if stored.None? || IsBlank(stored.value) then
      assert OctetStream[0] == 'a';
      OctetStream
    else stored.value
  }

  /** What fetching `key` from a bucket holding `objects` gives, when the store answers `reply`. */
  function Fetch(objects: map<Key, StoredObject>, key: Key, reply: Reply): (blob: Option<Blob>)
    ensures blob.Some? <==> reply.Done? && key in objects
    ensures blob.Some? ==> blob.value.content == objects[key].content && !IsBlank(blob.value.contentType)
    ensures blob.Some? ==> blob.value.contentType == TypeOnFetch(objects[key].contentType)
    ensures blob.Some? && objects[key].contentType.Some? && !IsBlank(objects[key].contentType.value) ==>
      blob.value.contentType == objects[key].contentType.value
    ensures blob.Some? && (objects[key].contentType.None? || IsBlank(objects[key].contentType.value)) ==>
      blob.value.contentType == OctetStream
  {
    if reply.Done? && key in objects then
      Some(Blob(objects[key].content, TypeOnFetch(objects[key].contentType)))
    else None
  }

  /** Fetching a key just put gives back the bytes put, and the type put unless
      that type was blank. */
  lemma FetchAfterPut(objects: map<Key, StoredObject>, key: Key, content: seq<Byte>, contentType: string, metadata: map<string, string>)
    ensures var blob := Fetch(objects[key := StoredObject(content, Some(contentType), metadata)], key, Done);
      && blob.Some?
      && blob.value.content == content
      && blob.value.contentType == (if IsBlank(contentType) then OctetStream else contentType)
  {
  }

  // ---------------------------------------------------------------------------
  // The bucket and the service

  /** The remote bucket: a map from key to stored object. */
  class Bucket {
    var objects: map<Key, StoredObject>

    constructor ()
      ensures objects == map[]
    {
      objects := map[];
    }
  }

  class StorageService {
    const bucket: Bucket
    const bucketName: string

    constructor (bucket: Bucket, bucketName: string)
      ensures this.bucket == bucket && this.bucketName == bucketName
    {
      this.bucket := bucket;
      this.bucketName := bucketName;
    }

    /** Stores one part under `directory/name` and returns `name`, where `name`
        is the client's file name or, with `generateFileName`, `freshId` plus the
        client name's extension. `read` is the outcome of reading the part's
        bytes, `probe` the content-type probe, `putReply` the store's answer to
        the put. Any exception aborts the upload with its message, and then the
        bucket is as it was. */
    method UploadFile(read: Result<seq<Byte>, string>, filename: string, directory: string,
                      generateFileName: bool, freshId: string, probe: string -> Probe, putReply: Reply)
      returns (r: Result<string, string>)
      requires generateFileName ==> IsUuidText(freshId)
      modifies bucket
      ensures var name := EffectiveName(filename, generateFileName, freshId);
        r.Success? <==> read.Success? && probe(name).Probed? && putReply.Done?
      ensures r.Success? ==>
        var name := r.value;
        && name == EffectiveName(filename, generateFileName, freshId)
        && probe(name).Probed?
        && var key, contentType := StorageKey(directory, name), probe(name).contentType.GetOr(OctetStream);
        && bucket.objects.Keys == old(bucket.objects).Keys + {key}
        && (forall k :: k in old(bucket.objects) && k != key ==> bucket.objects[k] == old(bucket.objects)[k])
        && bucket.objects[key].content == read.value
        && bucket.objects[key].contentType == Some(contentType)
        && DescribesUpload(bucket.objects[key].metadata, name, contentType, |read.value|)
      ensures r.Failure? ==>
        var name := EffectiveName(filename, generateFileName, freshId);
        && bucket.objects == old(bucket.objects)
        && r.error == (if read.Failure? then UploadFailureMessage(IoFault(read.error))
                       else if probe(name).ProbeThrew? then UploadFailureMessage(probe(name).fault)
                       else UploadFailureMessage(putReply.fault))
    {
      if read.Failure? {
        return Failure(UploadFailureMessage(IoFault(read.error)));
      }
      var bytes := read.value;
      var size := |bytes|;

      var name := filename;
      if generateFileName {
        var extension := "";
        var dot := LastIndexOf(name, '.');
        if dot != -1 {
          extension := name[dot..];
        }
        name := freshId + extension;
      }

      var probed := probe(name);
      if probed.ProbeThrew? {
        return Failure(UploadFailureMessage(probed.fault));
      }
      var contentType := probed.contentType.GetOr(OctetStream);

      var key := StorageKey(directory, name);

      var metadata := map[];
      metadata := metadata["filename" := name];
      metadata := metadata["content-type" := contentType];
      metadata := metadata["content-length" := DecimalText(size)];

      if putReply.Threw? {
        return Failure(UploadFailureMessage(putReply.fault));
      }
      bucket.objects := bucket.objects[key := StoredObject(bytes, Some(contentType), metadata)];
      return Success(name);
    }

    /** Fetches `directory/filename`: its bytes and content type (defaulted when
        missing or blank), or nothing when the key is absent or the request
        throws. */
    method GetFile(filename: string, directory: string, reply: Reply) returns (blob: Option<Blob>)
      ensures var key := StorageKey(directory, filename);
        blob.Some? <==> reply.Done? && key in bucket.objects
      ensures blob.Some? ==>
        var stored := bucket.objects[StorageKey(directory, filename)];
        && blob.value.content == stored.content
        && !IsBlank(blob.value.contentType)
        && (stored.contentType.Some? && !IsBlank(stored.contentType.value) ==> blob.value.contentType == stored.contentType.value)
        && (stored.contentType.None? || IsBlank(stored.contentType.value) ==> blob.value.contentType == OctetStream)
      ensures blob == Fetch(bucket.objects, StorageKey(directory, filename), reply)
    {
      var key := StorageKey(directory, filename);
      if reply.Threw? || key !in bucket.objects {
        return None;
      }
      var stored := bucket.objects[key];
      var contentType := "";
      if stored.contentType.Some? {
        contentType := stored.contentType.value;
      }
      if stored.contentType.None? || IsBlank(contentType) {
        contentType := OctetStream;
        assert contentType[0] == 'a';
      }
      return Some(Blob(stored.content, contentType));
    }

    /** Deletes `directory/filename`. The store's delete succeeds whether or not
        the key exists, so success is reported either way; only an exception
        gives the failure message, and then the bucket is as it was. */
    method DeleteFile(filename: string, directory: string, reply: Reply) returns (message: string)
      modifies bucket
      ensures reply.Done? ==>
        && bucket.objects == old(bucket.objects) - {StorageKey(directory, filename)}
        && message == FileDeleted(filename)
      ensures reply.Threw? ==>
        && bucket.objects == old(bucket.objects)
        && message == FileNotDeleted(filename)
    {
      var key := StorageKey(directory, filename);
      if reply.Threw? {
        return FileNotDeleted(filename);
      }
      bucket.objects := bucket.objects - {key};
      return FileDeleted(filename);
    }

    /** Deletes a folder: lists one page of keys under the folder's prefix and,
        when the page is not empty, sends one batch delete of exactly those keys.
        `listing` is the store's answer to that listing request, so every key
        it holds starts with the prefix.
        `batch` is that batch request, if one was sent. Keys the page does not
        hold are never touched, so a folder larger than one page is only partly
        deleted. Keys the store reports as not deleted stay, and success is
        still reported. */
    method DeleteFolder(folderName: string, listing: Listing, batchReply: BatchReply)
      returns (message: string, batch: Option<seq<Key>>)
      requires listing.Page? ==> forall i :: 0 <= i < |listing.keys| ==> FolderPrefix(folderName) <= listing.keys[i]
      modifies bucket
      ensures listing.ListThrew? ==>
        && batch == None
        && bucket.objects == old(bucket.objects)
        && message == FolderNotDeleted(folderName)
      ensures listing.Page? && listing.keys == [] ==>
        && batch == None
        && bucket.objects == old(bucket.objects)
        && message == FolderDeleted(folderName)
      ensures listing.Page? && listing.keys != [] ==>
        && batch == Some(listing.keys)
        && (batchReply.BatchThrew? ==> bucket.objects == old(bucket.objects) && message == FolderNotDeleted(folderName))
        && (batchReply.BatchDone? ==>
              && bucket.objects == old(bucket.objects) - (set k | k in listing.keys && k !in batchReply.notDeleted)
              && message == FolderDeleted(folderName))
      ensures forall k :: k in old(bucket.objects) && (listing.ListThrew? || k !in listing.keys) ==>
        k in bucket.objects && bucket.objects[k] == old(bucket.objects)[k]
      ensures forall k :: k in old(bucket.objects) && !(FolderPrefix(folderName) <= k) ==>
        k in bucket.objects && bucket.objects[k] == old(bucket.objects)[k]
    {
      batch := None;
      if listing.ListThrew? {
        return FolderNotDeleted(folderName), batch;
      }
      var keys := listing.keys;
      if keys != [] {
        batch := Some(keys);
        if batchReply.BatchThrew? {
          return FolderNotDeleted(folderName), batch;
        }
        bucket.objects := bucket.objects - (set k | k in keys && k !in batchReply.notDeleted);
      }
      return FolderDeleted(folderName), batch;
    }
  }

  /** A client of the service: uploading a part and then fetching the name the
      upload returned gives back the bytes read and the content type stored. */
  method UploadThenFetch(service: StorageService, bytes: seq<Byte>, filename: string, directory: string,
                         generateFileName: bool, freshId: string, probe: string -> Probe)
    returns (stored: Result<string, string>, fetched: Option<Blob>)
    requires generateFileName ==> IsUuidText(freshId)
    modifies service.bucket
    ensures stored.Success? <==> probe(EffectiveName(filename, generateFileName, freshId)).Probed?
    ensures stored.Success? ==>
      && probe(stored.value).Probed?
      && var contentType := probe(stored.value).contentType.GetOr(OctetStream);
      fetched == Some(Blob(bytes, if IsBlank(contentType) then OctetStream else contentType))
  {
    stored := service.UploadFile(Success(bytes), filename, directory, generateFileName, freshId, probe, Done);
    if stored.Success? {
      fetched := service.GetFile(stored.value, directory, Done);
    } else {
      fetched := None;
    }
  }
}
