/**
 * The file service's key handling and its de-duplicating store.  A file key
 * is the base64 text of the UTF-8 bytes of "<version>key"; the owner of an
 * object is the first segment of its object key; storing a file whose
 * checksum matches the object already held under that name returns the held
 * object instead of writing a new version.
 */
module FileKeys {
  import opened Wrappers
  import opened Bytes
  import Base64Url
  import opened Texts

  /** UTF-8 text encoding, a library routine: only its round trip is relied on. */
  datatype Utf8 = Utf8(encode: string -> seq<byte>, decode: seq<byte> -> string)

  ghost predicate Lossless(u: Utf8)
  {
    forall s :: u.decode(u.encode(s)) == s
  }

  /** The main properties of a stored object; the expiry is a timestamp or absent. */
  datatype ObjectProperties = ObjectProperties(
    etag: string,
    expirationUtc: Option<int>,
    key: string,
    versionId: string,
    contentLengthBytes: int,
    fileName: string)

  datatype FileDescriptor = FileDescriptor(
    fileKey: string,
    fileName: string,
    etag: string,
    fileSizeBytes: int,
    expiryDateUtc: Option<int>,
    ownerUserMail: string)

  /** Why a file key could not be read. */
  datatype KeyError =
    | BadBase64          // the standard base64 decoder rejected the key
    | KeyFormat          // the decoded text does not hold exactly one '>'
    | ArgumentOutOfRange // the text before the '>' is empty, so it has no first character to drop

  // ----- Splitting text -----

  /**
   * String.Split on one character: the pieces between the separators, empty
   * pieces included, so there is one more piece than separators.
   */
  function Split(s: string, c: char): (parts: seq<string>)
    ensures |parts| == Count(s, c) + 1
    ensures forall k :: 0 <= k < |parts| ==> c !in parts[k]
    decreases |s|
  {
    if |s| == 0 then [""]
    else
      var rest := Split(s[1..], c);
      assert s == [s[0]] + s[1..];
      if s[0] == c then [""] + rest
      else [[s[0]] + rest[0]] + rest[1..]
  }

  /** The pieces, joined back with the separator. */
  function Join(parts: seq<string>, c: char): string
    requires |parts| > 0
  {
    if |parts| == 1 then parts[0] else parts[0] + [c] + Join(parts[1..], c)
  }

  /** Prefixing the first piece prefixes the joined text. */
  lemma JoinCons(x: string, parts: seq<string>, c: char)
    requires |parts| > 0
    ensures Join([x + parts[0]] + parts[1..], c) == x + Join(parts, c)
  {
    var p := [x + parts[0]] + parts[1..];
    assert p[0] == x + parts[0] && p[1..] == parts[1..];
    if |parts| > 1 {
      assert Join(p, c) == (x + parts[0]) + [c] + Join(parts[1..], c);
      assert Join(parts, c) == parts[0] + [c] + Join(parts[1..], c);
    }
  }

  /** Splitting loses nothing: joining the pieces gives the text back. */
  lemma {:induction false} JoinSplit(s: string, c: char)
    ensures Join(Split(s, c), c) == s
    decreases |s|
  {
    if |s| > 0 {
      JoinSplit(s[1..], c);
      var rest := Split(s[1..], c);
      assert s == [s[0]] + s[1..];
      if s[0] == c {
        assert Split(s, c) == [""] + rest;
        assert ([""] + rest)[1..] == rest;
      } else {
        assert Split(s, c) == [[s[0]] + rest[0]] + rest[1..];
        JoinCons([s[0]], rest, c);
      }
    }
  }

  /** A text with one separator splits into the two sides. */
  lemma {:induction false} SplitOnce(a: string, b: string, c: char)
    requires c !in a && c !in b
    ensures Split(a + [c] + b, c) == [a, b]
    decreases |a|
  {
    if |a| == 0 {
      assert a + [c] + b == [c] + b;
      assert ([c] + b)[1..] == b;
      SplitNone(b, c);
    } else {
      assert (a + [c] + b)[1..] == a[1..] + [c] + b;
      SplitOnce(a[1..], b, c);
      assert [a[0]] + a[1..] == a;
    }
  }

  /** A text without the separator is a single piece. */
  lemma {:induction false} SplitNone(s: string, c: char)
    requires c !in s
    ensures Split(s, c) == [s]
    decreases |s|
  {
    if |s| > 0 {
      SplitNone(s[1..], c);
      assert [s[0]] + s[1..] == s;
    }
  }

  // ----- File keys -----

  /** The key format "<{0}>{1}" filled with the version and the object key. */
  function KeyText(version: string, key: string): string
  {
    "<" + version + ">" + key
  }

  /** CreateFileKey: the base64 text of the UTF-8 bytes of "<version>key". */
  function CreateFileKey(u: Utf8, props: ObjectProperties): (fileKey: string)
    ensures Base64Url.Base64Decode(fileKey) == Ok(u.encode(KeyText(props.versionId, props.key)))
  {
    Base64Url.Base64RoundTrip(u.encode(KeyText(props.versionId, props.key)));
    Base64Url.Base64Encode(u.encode(KeyText(props.versionId, props.key)))
  }

  /**
   * Extract: decodes a file key into (version, key).  The decoded text must
   * hold exactly one '>'; the version is what precedes it without its first
   * character, the key what follows it.  A text that starts with its '>'
   * has no first character to drop, and Substring fails.
   */
  function Extract(u: Utf8, fileKey: string): (r: Result<(string, string), KeyError>)
    ensures Base64Url.Base64Decode(fileKey).Err? <==> r == Err(BadBase64)
    ensures Base64Url.Base64Decode(fileKey).Ok? ==>
              var text := u.decode(Base64Url.Base64Decode(fileKey).value);
              (r == Err(KeyFormat) <==> Count(text, '>') != 1) &&
              (r == Err(ArgumentOutOfRange) <==> Count(text, '>') == 1 && text[0] == '>') &&
              (r.Ok? ==> |text| > 0 && text == [text[0]] + r.value.0 + ">" + r.value.1 &&
                         '>' !in r.value.0 && '>' !in r.value.1)
  {
    match Base64Url.Base64Decode(fileKey)
    case Err(_) => Err(BadBase64)
    case Ok(bytes) =>
      var text := u.decode(bytes);
      var parts := Split(text, '>');
      if |parts| != 2 then Err(KeyFormat)
      else if |parts[0]| == 0 then
        JoinSplit(text, '>');
        assert text == parts[0] + ">" + parts[1];
        Err(ArgumentOutOfRange)
      else
        JoinSplit(text, '>');
        assert text == parts[0] + ">" + parts[1];
        assert parts[0] == [parts[0][0]] + parts[0][1..];
        Ok((parts[0][1..], parts[1]))
  }

  /** Extract reads back the version and key a file key was made from, when neither holds a '>'. */
  lemma ExtractCreate(u: Utf8, props: ObjectProperties)
    requires Lossless(u)
    requires '>' !in props.versionId && '>' !in props.key
    ensures Extract(u, CreateFileKey(u, props)) == Ok((props.versionId, props.key))
  {
    var text := KeyText(props.versionId, props.key);
    assert u.decode(u.encode(text)) == text;
    assert '>' !in "<" + props.versionId;
    assert text == ("<" + props.versionId) + ['>'] + props.key;
    SplitOnce("<" + props.versionId, props.key, '>');
    assert ("<" + props.versionId)[1..] == props.versionId;
  }

  /**
   * GetFolderFromS3OBjectKey: the owner folder is the first '/'-separated
   * segment of the object key, or the whole key when it has no '/'.
   */
  function Folder(objectKey: string): (folder: string)
    ensures folder <= objectKey && '/' !in folder
    ensures |folder| < |objectKey| ==> objectKey[|folder|] == '/'
  {
    FirstPiece(objectKey, '/');
    Split(objectKey, '/')[0]
  }

  /** The first piece of a split is the text up to the first separator. */
  lemma {:induction false} FirstPiece(s: string, c: char)
    ensures Split(s, c)[0] <= s
    ensures |Split(s, c)[0]| < |s| ==> s[|Split(s, c)[0]|] == c
    decreases |s|
  {
    if |s| > 0 && s[0] != c {
      FirstPiece(s[1..], c);
    }
  }

  /**
   * ConvertToFileDescriptor: tag, expiry, name and size are copied, the key
   * is the file key of the version and object key, the owner its folder.
   */
  function ConvertToFileDescriptor(u: Utf8, props: ObjectProperties): (d: FileDescriptor)
    ensures d.etag == props.etag && d.expiryDateUtc == props.expirationUtc
    ensures d.fileName == props.fileName && d.fileSizeBytes == props.contentLengthBytes
    ensures d.ownerUserMail == Folder(props.key)
  {
    FileDescriptor(CreateFileKey(u, props), props.fileName, props.etag, props.contentLengthBytes,
                   props.expirationUtc, Folder(props.key))
  }

  /** The key of a descriptor reads back as the version and object key it describes. */
  lemma DescriptorKey(u: Utf8, props: ObjectProperties)
    requires Lossless(u)
    requires '>' !in props.versionId && '>' !in props.key
    ensures Extract(u, ConvertToFileDescriptor(u, props).fileKey) == Ok((props.versionId, props.key))
  {
    ExtractCreate(u, props);
  }

  /** An object held in the store, with the SHA-256 checksum recorded for it (base64 text). */
  datatype StoredObject = StoredObject(props: ObjectProperties, checksum: string)

  /**
   * The store side of the file service: whether the bucket exists and the
   * objects it holds, by (user folder, file name).  The object store itself
   * is a remote service; only what the service reads and writes is kept.
   */
  class FileService {
    var bucketExists: bool
    var objects: map<(string, string), StoredObject>

    constructor(objects: map<(string, string), StoredObject>)
      ensures !bucketExists && this.objects == objects
    {
      bucketExists := false;
      this.objects := objects;
    }

    /**
     * StoreFileAsync: when the user's folder already holds an object of that
     * name whose checksum equals the data's, its descriptor is returned and
     * nothing is written; otherwise the data is stored (the store answers
     * with the properties `stored` of the new version) and that version is
     * described.  `sha256` stands for the checksum routine.
     */
    method StoreFile(u: Utf8, data: seq<byte>, fileName: string, email: string,
                     sha256: seq<byte> -> string, stored: ObjectProperties)
      returns (d: FileDescriptor)
      modifies this
      ensures bucketExists
      ensures var name := (email, fileName);
              if name in old(objects) && old(objects)[name].checksum == sha256(data) then
                objects == old(objects) && d == ConvertToFileDescriptor(u, old(objects)[name].props)
              else
                objects == old(objects)[name := StoredObject(stored, sha256(data))] &&
                d == ConvertToFileDescriptor(u, stored)
    {
      if !bucketExists {
        bucketExists := true;
      }
      var name := (email, fileName);
      if name in objects {
        var existing := objects[name];
        var checksum := sha256(data);
        if checksum == existing.checksum {
          d := ConvertToFileDescriptor(u, existing.props);
          return;
        }
      }
      objects := objects[name := StoredObject(stored, sha256(data))];
      d := ConvertToFileDescriptor(u, stored);
    }
  }

  /** Storing the same data twice under one name writes it once: the second call changes nothing. */
  method StoreTwice(u: Utf8, data: seq<byte>, fileName: string, email: string,
                    sha256: seq<byte> -> string, first: ObjectProperties, second: ObjectProperties)
    returns (d1: FileDescriptor, d2: FileDescriptor)
    ensures d1 == d2 == ConvertToFileDescriptor(u, first)
  {
    var service := new FileService(map[]);
    d1 := service.StoreFile(u, data, fileName, email, sha256, first);
    var held := service.objects;
    d2 := service.StoreFile(u, data, fileName, email, sha256, second);
    assert service.objects == held;
  }
}
