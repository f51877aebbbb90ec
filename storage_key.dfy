/** The strings the handlers build: the file extension taken from a media type, the
    object-store key `<directory>/<token>.<extension>`, the public object URL, and the
    thumbnail's asset path and URL. */
module StorageKey {
  import opened Wrappers
  import opened Strings
  import opened Base64Url
  import opened FilePath
  import opened Api
  import AspectRatio

  /** The 32 bytes `crypto/rand` fills in for a key. */
  type RandomName = bytes: seq<byte> | |bytes| == 32 witness seq(32, _ => 0 as byte)

  /** `strings.Split(mediaType, "/")[1]`: `None` where Go panics (no `/` at all). */
  function Extension(mediaType: string): Option<string> {
    Field(mediaType, '/', 1)
  }

  /** There is an extension exactly when the media type has a `/`, and it holds none. */
  lemma ExtensionExists(mediaType: string)
    ensures Extension(mediaType).Some? <==> '/' in mediaType
    ensures Extension(mediaType).Some? ==> '/' !in Extension(mediaType).value
  {
    SecondFieldExists(mediaType, '/');
  }

  /** The extension of `type/subtype` is `subtype`. */
  lemma ExtensionOfType(kind: string, subtype: string)
    requires '/' !in kind && '/' !in subtype
    ensures Extension(kind + "/" + subtype) == Some(subtype)
  {
    var s := kind + "/" + subtype;
    assert s[..|kind|] == kind;
    IndexOfIs(s, '/', |kind|);
    assert s[|kind| + 1..] == subtype;
    assert Split(s, '/') == [kind, subtype];
  }

  lemma Mp4Extension()
    ensures Extension("video/mp4") == Some("mp4")
  {
    assert "video/mp4" == "video" + "/" + "mp4";
    ExtensionOfType("video", "mp4");
  }

  /** The object key: directory, `/`, the unpadded URL-safe base64 of the random bytes,
      `.`, extension. */
  function ObjectKey(dir: string, random: RandomName, ext: string): string {
    dir + "/" + Encode(random) + "." + ext
  }

  /** The key for a video of the given aspect ratio. */
  function VideoKey(ratio: string, random: RandomName, ext: string): string {
    ObjectKey(AspectRatio.Directory(ratio), random, ext)
  }

  datatype KeyParts = KeyParts(dir: string, token: string, ext: string)

  /** Reads a key back: the directory up to the first `/`, a 43-character token, a `.`,
      and the extension. */
  function ParseKey(key: string): Option<KeyParts> {
    if '/' !in key then None
    else
      var i := IndexOf(key, '/');
      var rest := key[i + 1..];
      if |rest| < 44 || rest[43] != '.' then None
      else Some(KeyParts(key[..i], rest[..43], rest[44..]))
  }

  /** A key gives back the directory, token and extension it was built from, and the
      token decodes to the random bytes. */
  lemma ParseObjectKey(dir: string, random: RandomName, ext: string)
    requires '/' !in dir
    ensures ParseKey(ObjectKey(dir, random, ext)) == Some(KeyParts(dir, Encode(random), ext))
    ensures Decode(Encode(random)) == Some(random)
  {
    var key := ObjectKey(dir, random, ext);
    var token := Encode(random);
    TokenShape(random);
    assert key[..|dir|] == dir;
    IndexOfIs(key, '/', |dir|);
    var rest := key[|dir| + 1..];
    assert rest == token + "." + ext;
    assert rest[..43] == token;
    assert rest[44..] == ext;
    DecodeEncode(random);
  }

  /** Keys built from different directories, random bytes or extensions differ: with
      fresh random bytes per upload, no two uploads share a key. */
  lemma ObjectKeyInjective(dir1: string, random1: RandomName, ext1: string,
                           dir2: string, random2: RandomName, ext2: string)
    requires '/' !in dir1 && '/' !in dir2
    requires ObjectKey(dir1, random1, ext1) == ObjectKey(dir2, random2, ext2)
    ensures dir1 == dir2 && random1 == random2 && ext1 == ext2
  {
    ParseObjectKey(dir1, random1, ext1);
    ParseObjectKey(dir2, random2, ext2);
  }

  /** A video key's directory is the one its aspect ratio selects, its token is 43
      URL-safe characters, and it ends in `.` and the extension. */
  lemma VideoKeyShape(ratio: string, random: RandomName, ext: string)
    ensures var key := VideoKey(ratio, random, ext);
      && ParseKey(key).Some?
      && ParseKey(key).value.dir == AspectRatio.Directory(ratio)
      && |ParseKey(key).value.token| == 43
      && (forall k :: 0 <= k < 43 ==> IsUrlSafeChar(ParseKey(key).value.token[k]))
      && EndsWith(key, "." + ext)
  {
    var dir := AspectRatio.Directory(ratio);
    assert '/' !in dir;
    ParseObjectKey(dir, random, ext);
    TokenShape(random);
    KeySuffix(dir, random, ext);
  }

  lemma KeySuffix(dir: string, random: RandomName, ext: string)
    ensures EndsWith(ObjectKey(dir, random, ext), "." + ext)
  {
    var key := ObjectKey(dir, random, ext);
    assert key == (dir + "/" + Encode(random)) + ("." + ext);
    assert key[|key| - |"." + ext|..] == "." + ext;
  }

  /** The key of an mp4 video reads back as its ratio's directory, the random name's
      token and `mp4`. */
  lemma Mp4KeyParts(ratio: string, random: RandomName)
    ensures ParseKey(VideoKey(ratio, random, "mp4")) ==
      Some(KeyParts(AspectRatio.Directory(ratio), Encode(random), "mp4"))
  {
    var dir := AspectRatio.Directory(ratio);
    assert '/' !in dir;
    ParseObjectKey(dir, random, "mp4");
  }

  /** The public URL of an object: `https://<bucket>.s3.<region>.amazonaws.com/<key>`. */
  function S3Url(bucket: string, region: string, key: string): string {
    "https://" + bucket + ".s3." + region + ".amazonaws.com/" + key
  }

  /** The object URL names one key: within a bucket and region, different keys give
      different URLs. */
  lemma S3UrlInjective(bucket: string, region: string, key1: string, key2: string)
    requires S3Url(bucket, region, key1) == S3Url(bucket, region, key2)
    ensures key1 == key2
  {
    var host := "https://" + bucket + ".s3." + region + ".amazonaws.com/";
    assert S3Url(bucket, region, key1) == host + key1;
    assert S3Url(bucket, region, key2) == host + key2;
    assert (host + key1)[|host|..] == key1;
    assert (host + key2)[|host|..] == key2;
  }

  /** `filepath.Join(assetsRoot, videoID) + "." + ext`: where the thumbnail is written. */
  function AssetPath(assetsRoot: string, videoID: Uuid, ext: string): string {
    JoinPath(assetsRoot, videoID) + "." + ext
  }

  /** `http://localhost:<port>/assets/<videoID>.<ext>`: where the thumbnail is served. */
  function ThumbnailUrl(port: string, videoID: Uuid, ext: string): string {
    "http://localhost:" + port + "/assets/" + videoID + "." + ext
  }

  /** The asset file is `<videoID>.<ext>` directly inside the cleaned assets
      directory. */
  lemma AssetPathInRoot(assetsRoot: string, videoID: Uuid, ext: string)
    ensures AssetPath(assetsRoot, videoID, ext) == Within(Clean(assetsRoot), videoID + "." + ext)
  {
    UuidCharacters(videoID);
    JoinPlainName(assetsRoot, videoID);
    var d := Clean(assetsRoot);
    var name := videoID + "." + ext;
    if d == "." {
    } else if d == "/" {
      assert "/" + videoID + "." + ext == "/" + name;
    } else {
      assert d + "/" + videoID + "." + ext == d + "/" + name;
    }
  }

  /** The thumbnail URL names one asset file: on one port, different video ids or
      different extensions give different URLs. */
  lemma ThumbnailUrlInjective(port: string, id1: Uuid, ext1: string, id2: Uuid, ext2: string)
    requires ThumbnailUrl(port, id1, ext1) == ThumbnailUrl(port, id2, ext2)
    ensures id1 == id2 && ext1 == ext2
  {
    UuidCharacters(id1);
    UuidCharacters(id2);
    var prefix := "http://localhost:" + port + "/assets/";
    var name1 := id1 + "." + ext1;
    var name2 := id2 + "." + ext2;
    assert ThumbnailUrl(port, id1, ext1) == prefix + name1;
    assert ThumbnailUrl(port, id2, ext2) == prefix + name2;
    assert (prefix + name1)[|prefix|..] == name1;
    assert (prefix + name2)[|prefix|..] == name2;
    assert name1[..|id1|] == id1 && name1[|id1| + 1..] == ext1;
    assert name2[..|id2|] == id2 && name2[|id2| + 1..] == ext2;
  }
}
