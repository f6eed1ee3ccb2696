/** The video asset store of the UI process (src/services/capacitorService.ts).

    The device's document filesystem is state of the store: `docs` maps a
    path relative to the documents root to the file there, and `names`
    lists the entries of the recordings directory in the order the
    filesystem reports them. The rest of the filesystem's behaviour is given
    by oracles: which paths cannot be stat-ed or resolved to a URI, the URI
    of a path, which writes fail, which share requests fail, and whether
    creating the directory fails. */
module VideoStore {
  import opened Wrappers

  const VideoDirectory := "scouter-videos"
  const LoadFailedMessage := "Failed to load video files"
  const SaveOnlyNativeMessage := "File saving is only available on native platforms"
  const SaveFailedMessage := "Failed to save video file"
  const ShareOnlyNativeMessage := "Sharing is only available on native platforms"
  const ShareFailedMessage := "Failed to share video"
  const DeleteOnlyNativeMessage := "File deletion is only available on native platforms"
  const DeleteFailedMessage := "Failed to delete video"
  const Base64FailedMessage := "Failed to convert blob to base64"
  const ShareTitle := "Share Video"
  const ShareTextPrefix := "Check out this screen recording: "

  /** A recording as the store hands it to the UI; `dateCreated` is a
      timestamp in milliseconds. */
  datatype VideoFile = VideoFile(
    id: string, name: string, url: string, size: nat, duration: nat, dateCreated: int, path: string)

  /** A file of the document filesystem: its base64-encoded content, its
      size in bytes and its modification time. */
  datatype FileEntry = FileEntry(data: string, size: nat, mtime: int)

  /** A recorded blob, seen through what reading it as a data URL yields
      (`None` when the reader reports an error). */
  datatype Blob = Blob(dataUrl: Option<string>)

  /** The request handed to the share sheet. */
  datatype ShareRequest = ShareRequest(title: string, text: string, url: string, dialogTitle: string)

  /** What a modal dialog answers: a choice, or a failure of the dialog. */
  datatype DialogAnswer = Answered(value: bool) | DialogFailed

  /** The modal a dialog helper shows. */
  datatype Modal =
    | BrowserConfirm(text: string)
    | NativeConfirm(title: string, message: string)
    | BrowserAlert(text: string)
    | NativeAlert(title: string, message: string)

  datatype PlatformInfo = PlatformInfo(platform: string, isNative: bool, isWeb: bool)

  // ---------------------------------------------------------------------
  // Paths and names

  function PathOf(name: string): string {
    VideoDirectory + "/" + name
  }

  lemma PathOfInjective(a: string, b: string)
    ensures PathOf(a) == PathOf(b) ==> a == b
  {
    var p := VideoDirectory + "/";
    if PathOf(a) == PathOf(b) {
      assert a == PathOf(a)[|p|..];
      assert b == PathOf(b)[|p|..];
    }
  }

  predicate EndsWith(s: string, suffix: string) {
    |suffix| <= |s| && s[|s| - |suffix|..] == suffix
  }

  /** The container extensions the listing recognises. */
  predicate IsVideoName(name: string) {
    EndsWith(name, ".webm") || EndsWith(name, ".mp4")
  }

  /** The byte length of base64 data: three bytes per four characters,
      less the padding. */
  function DecodedLength(b64: string): nat {
    var padding := if EndsWith(b64, "==") then 2 else if EndsWith(b64, "=") then 1 else 0;
    var full := |b64| / 4 * 3;
    if full >= padding then full - padding else 0
  }

  // ---------------------------------------------------------------------
  // The listing

  /** The asset assembled for a directory entry whose stat and URI
      succeeded. */
  function AssetOf(name: string, file: FileEntry, uri: string): VideoFile {
    VideoFile(name, name, uri, file.size, 0, file.mtime, PathOf(name))
  }

  /** An entry is listed when it has a recognised extension and its stat
      and URI lookups succeed. */
  predicate Qualifies(name: string, docs: map<string, FileEntry>, failing: string -> bool) {
    IsVideoName(name) && PathOf(name) in docs && !failing(PathOf(name))
  }

  /** The asset that a qualifying entry contributes. */
  function ListedAsset(name: string, docs: map<string, FileEntry>, uriOf: string -> string): VideoFile
    requires PathOf(name) in docs
  {
    AssetOf(name, docs[PathOf(name)], uriOf(PathOf(name)))
  }

  /** What the listing loop has pushed after processing `names`. */
  function Collect(names: seq<string>, docs: map<string, FileEntry>, failing: string -> bool,
                   uriOf: string -> string): seq<VideoFile>
  {
    if names == [] then []
    else
      var last := names[|names| - 1];
      Collect(names[..|names| - 1], docs, failing, uriOf) +
        (if Qualifies(last, docs, failing) then [ListedAsset(last, docs, uriOf)] else [])
  }

  /** Everything collected comes from a qualifying entry, assembled from its
      stat and URI. */
  lemma {:induction false} CollectSound(names: seq<string>, docs: map<string, FileEntry>,
                                        failing: string -> bool, uriOf: string -> string)
    ensures forall v :: v in Collect(names, docs, failing, uriOf) ==>
      && v.name in names
      && Qualifies(v.name, docs, failing)
      && v == ListedAsset(v.name, docs, uriOf)
  {
    if names != [] {
      CollectSound(names[..|names| - 1], docs, failing, uriOf);
    }
  }

  /** No qualifying entry is lost: a failing entry does not stop the
      others from being listed. */
  lemma {:induction false} CollectComplete(names: seq<string>, docs: map<string, FileEntry>,
                                           failing: string -> bool, uriOf: string -> string)
    ensures forall n :: n in names && Qualifies(n, docs, failing) ==>
      ListedAsset(n, docs, uriOf) in Collect(names, docs, failing, uriOf)
  {
    if names != [] {
      var init := names[..|names| - 1];
      CollectComplete(init, docs, failing, uriOf);
      assert forall n :: n in names ==> n in init || n == names[|names| - 1] by {
        assert names == init + [names[|names| - 1]];
      }
    }
  }

  predicate DistinctNames(vs: seq<VideoFile>) {
    forall i, j :: 0 <= i < j < |vs| ==> vs[i].name != vs[j].name
  }

  /** Distinct directory entries give assets with distinct names and ids. */
  lemma {:induction false} CollectDistinct(names: seq<string>, docs: map<string, FileEntry>,
                                           failing: string -> bool, uriOf: string -> string)
    requires Distinct(names)
    ensures DistinctNames(Collect(names, docs, failing, uriOf))
    ensures var c := Collect(names, docs, failing, uriOf);
            forall i, j :: 0 <= i < j < |c| ==> c[i].id != c[j].id
  {
    var c := Collect(names, docs, failing, uriOf);
    CollectSound(names, docs, failing, uriOf);
    assert forall i :: 0 <= i < |c| ==> c[i] in c && c[i].id == c[i].name;
    CollectNamesDistinct(names, docs, failing, uriOf);
  }

  lemma {:induction false} CollectNamesDistinct(names: seq<string>, docs: map<string, FileEntry>,
                                                failing: string -> bool, uriOf: string -> string)
    requires Distinct(names)
    ensures DistinctNames(Collect(names, docs, failing, uriOf))
  {
    if names != [] {
      var init := names[..|names| - 1];
      var last := names[|names| - 1];
      var c := Collect(init, docs, failing, uriOf);
      CollectNamesDistinct(init, docs, failing, uriOf);
      CollectSound(init, docs, failing, uriOf);
      assert last !in init;
      assert forall v :: v in c ==> v.name != last;
    }
  }

  // ---------------------------------------------------------------------
  // Sorting newest first (the source's stable `sort` with `b - a`)

  predicate NewestFirst(vs: seq<VideoFile>) {
    forall i, j :: 0 <= i < j < |vs| ==> vs[i].dateCreated >= vs[j].dateCreated
  }

  /** Puts `v` before the first element that is not newer than it. */
  function Insert(v: VideoFile, vs: seq<VideoFile>): seq<VideoFile> {
    if vs == [] || v.dateCreated >= vs[0].dateCreated then [v] + vs
    else [vs[0]] + Insert(v, vs[1..])
  }

  function SortNewestFirst(vs: seq<VideoFile>): seq<VideoFile> {
    if vs == [] then [] else Insert(vs[0], SortNewestFirst(vs[1..]))
  }

  lemma {:induction false} InsertMembers(v: VideoFile, vs: seq<VideoFile>)
    ensures multiset(Insert(v, vs)) == multiset(vs) + multiset{v}
    ensures forall x :: x in Insert(v, vs) <==> x == v || x in vs
  {
    if vs != [] && v.dateCreated < vs[0].dateCreated {
      InsertMembers(v, vs[1..]);
      assert vs == [vs[0]] + vs[1..];
    }
  }

  /** A head no older than every element keeps a sorted tail sorted. */
  lemma PrependKeepsOrder(x: VideoFile, vs: seq<VideoFile>)
    requires NewestFirst(vs)
    requires forall k :: 0 <= k < |vs| ==> x.dateCreated >= vs[k].dateCreated
    ensures NewestFirst([x] + vs)
  {
  }

  lemma {:induction false} InsertKeepsOrder(v: VideoFile, vs: seq<VideoFile>)
    requires NewestFirst(vs)
    ensures NewestFirst(Insert(v, vs))
  {
    if vs == [] || v.dateCreated >= vs[0].dateCreated {
      PrependKeepsOrder(v, vs);
    } else {
      var tail := vs[1..];
      var rest := Insert(v, tail);
      assert NewestFirst(tail) by {
        forall i, j | 0 <= i < j < |tail| ensures tail[i].dateCreated >= tail[j].dateCreated {
          assert tail[i] == vs[i + 1] && tail[j] == vs[j + 1];
        }
      }
      InsertKeepsOrder(v, tail);
      InsertMembers(v, tail);
      forall k | 0 <= k < |rest| ensures vs[0].dateCreated >= rest[k].dateCreated {
        assert rest[k] in rest;
        if rest[k] != v {
          var m :| 0 <= m < |tail| && tail[m] == rest[k];
          assert tail[m] == vs[m + 1];
        }
      }
      PrependKeepsOrder(vs[0], rest);
    }
  }

  /** The sort orders newest first and is a permutation of its input. */
  lemma {:induction false} SortNewestFirstCorrect(vs: seq<VideoFile>)
    ensures NewestFirst(SortNewestFirst(vs))
    ensures multiset(SortNewestFirst(vs)) == multiset(vs)
  {
    if vs != [] {
      SortNewestFirstCorrect(vs[1..]);
      InsertKeepsOrder(vs[0], SortNewestFirst(vs[1..]));
      InsertMembers(vs[0], SortNewestFirst(vs[1..]));
      assert vs == [vs[0]] + vs[1..];
    }
  }

  lemma {:induction false} InsertKeepsDistinct(v: VideoFile, vs: seq<VideoFile>)
    requires DistinctNames(vs)
    requires forall x :: x in vs ==> x.name != v.name
    ensures DistinctNames(Insert(v, vs))
    ensures forall x :: x in Insert(v, vs) <==> x == v || x in vs
  {
    if vs == [] || v.dateCreated >= vs[0].dateCreated {
    } else {
      InsertKeepsDistinct(v, vs[1..]);
      assert forall x :: x in vs[1..] ==> x.name != vs[0].name;
    }
  }

  lemma {:induction false} SortKeepsDistinct(vs: seq<VideoFile>)
    requires DistinctNames(vs)
    ensures DistinctNames(SortNewestFirst(vs))
    ensures forall x :: x in SortNewestFirst(vs) <==> x in vs
  {
    if vs != [] {
      SortKeepsDistinct(vs[1..]);
      InsertKeepsDistinct(vs[0], SortNewestFirst(vs[1..]));
    }
  }

  /** The native listing of the recordings directory. */
  function Listing(names: seq<string>, docs: map<string, FileEntry>, failing: string -> bool,
                   uriOf: string -> string): seq<VideoFile>
  {
    SortNewestFirst(Collect(names, docs, failing, uriOf))
  }

  /** The native listing holds exactly one asset per qualifying entry,
      assembled from the entry's stat and URI, newest first. */
  lemma ListingCorrect(names: seq<string>, docs: map<string, FileEntry>, failing: string -> bool,
                       uriOf: string -> string)
    requires Distinct(names)
    ensures var vs := Listing(names, docs, failing, uriOf);
      && NewestFirst(vs)
      && DistinctNames(vs)
      && (forall v :: v in vs ==>
            && v.name in names
            && Qualifies(v.name, docs, failing)
            && IsVideoName(v.name)
            && v.id == v.name
            && v.path == PathOf(v.name)
            && v.duration == 0
            && v.size == docs[PathOf(v.name)].size
            && v.dateCreated == docs[PathOf(v.name)].mtime
            && v.url == uriOf(PathOf(v.name)))
      && (forall n :: n in names && Qualifies(n, docs, failing) ==> ListedAsset(n, docs, uriOf) in vs)
  {
    var c := Collect(names, docs, failing, uriOf);
    SortNewestFirstCorrect(c);
    CollectSound(names, docs, failing, uriOf);
    CollectComplete(names, docs, failing, uriOf);
    CollectDistinct(names, docs, failing, uriOf);
    SortKeepsDistinct(c);
  }

  // ---------------------------------------------------------------------
  // The mock catalog of non-native runtimes

  /** Three fixed demo recordings (timestamps of 2024-01-15 10:30,
      2024-01-14 15:45 and 2024-01-13 09:15). */
  function MockVideoFiles(): (vs: seq<VideoFile>)
    ensures |vs| == 3
    ensures vs[0].id == "1" && vs[1].id == "2" && vs[2].id == "3"
    ensures vs[0].size == 15728640 && vs[1].size == 8388608 && vs[2].size == 25165824
    ensures NewestFirst(vs) && DistinctNames(vs)
  {
    [ VideoFile("1", "Screen Recording 2024-01-15.webm", "data:video/webm;base64,", 15728640, 120,
                1705314600000, "/mock/path/video1.webm"),
      VideoFile("2", "Demo Recording.webm", "data:video/webm;base64,", 8388608, 75,
                1705247100000, "/mock/path/video2.webm"),
      VideoFile("3", "Tutorial Recording.webm", "data:video/webm;base64,", 25165824, 300,
                1705137300000, "/mock/path/video3.webm") ]
  }

  // ---------------------------------------------------------------------
  // The base64 payload of a data URL: `result.split(',')[1]`

  /** `s.split(',')` */
  function Fields(s: string): (fs: seq<string>)
    ensures |fs| >= 1
  {
    if s == [] then [""]
    else
      var rest := Fields(s[1..]);
      if s[0] == ',' then [""] + rest else [[s[0]] + rest[0]] + rest[1..]
  }

  /** The second comma-separated field, rejected when missing or empty. */
  function BlobToBase64(dataUrl: string): Result<string> {
    var fs := Fields(dataUrl);
    if |fs| > 1 && fs[1] != "" then Success(fs[1]) else Failure(Base64FailedMessage)
  }

  lemma {:induction false} FieldsNoComma(s: string)
    requires ',' !in s
    ensures Fields(s) == [s]
  {
    if s != [] {
      FieldsNoComma(s[1..]);
      assert [s[0]] + s[1..] == s;
    }
  }

  lemma {:induction false} FieldsAfterComma(a: string, b: string)
    requires ',' !in a
    ensures Fields(a + "," + b) == [a] + Fields(b)
    decreases |a|
  {
    if a == [] {
      assert a + "," + b == [','] + b;
      assert (a + "," + b)[1..] == b;
    } else {
      FieldsAfterComma(a[1..], b);
      assert (a + "," + b)[1..] == a[1..] + "," + b;
      assert [a[0]] + a[1..] == a;
    }
  }

  /** A string without a comma has no payload. */
  lemma NoCommaNoPayload(s: string)
    requires ',' !in s
    ensures BlobToBase64(s) == Failure(Base64FailedMessage)
  {
    FieldsNoComma(s);
  }

  /** The payload is the text between the first comma and the next comma
      (or the end), and it is rejected exactly when that text is empty. */
  lemma PayloadIsSecondField(a: string, b: string, c: string)
    requires ',' !in a && ',' !in b
    requires c == [] || c[0] == ','
    ensures BlobToBase64(a + "," + b + c) ==
            (if b != "" then Success(b) else Failure(Base64FailedMessage))
  {
    FieldsAfterComma(a, b + c);
    assert a + "," + b + c == a + "," + (b + c);
    if c == [] {
      assert b + c == b;
      FieldsNoComma(b);
    } else {
      FieldsAfterComma(b, c[1..]);
      assert b + c == b + "," + c[1..];
    }
  }

  /** The round trip the reader relies on, for a media type without a
      comma: the payload of a `data:<type>;base64,<data>` URL is `<data>`. */
  lemma DataUrlRoundTrip(mime: string, data: string)
    requires ',' !in mime && ',' !in data && data != ""
    ensures BlobToBase64("data:" + mime + ";base64," + data) == Success(data)
  {
    var head := "data:" + mime + ";base64";
    assert ',' !in head;
    PayloadIsSecondField(head, data, "");
    assert head + "," + data + "" == "data:" + mime + ";base64," + data;
  }

  /** A data URL whose media type lists two codecs. */
  const CodecsDataUrl := "data:" + "video/webm;codecs=vp8" + "," + "opus" + ";base64," + "AAAA"

  /** As written, a media type with a parameter list containing a comma
      (`video/webm;codecs=vp8,opus`) makes the second field the tail of the
      type rather than the payload. */
  lemma CommaInTypeTakesWrongField(mime1: string, mime2: string, data: string)
    requires ',' !in mime1 && ',' !in mime2 && ',' !in data
    ensures BlobToBase64("data:" + mime1 + "," + mime2 + ";base64," + data) == Success(mime2 + ";base64")
  {
    var head := "data:" + mime1;
    var b := mime2 + ";base64";
    assert ',' !in head && ',' !in b;
    PayloadIsSecondField(head, b, "," + data);
    assert head + "," + b + ("," + data) == "data:" + mime1 + "," + mime2 + ";base64," + data;
  }

  /** The recorder's usual media type does not round-trip as written. */
  lemma CodecsTypeLosesPayload()
    ensures BlobToBase64(CodecsDataUrl) == Success("opus;base64")
    ensures PayloadOf(CodecsDataUrl) == Success("AAAA")
  {
    var m1, m2, d := "video/webm;codecs=vp8", "opus", "AAAA";
    assert ',' !in m1 && ',' !in m2 && ',' !in d;
    CommaInTypeTakesWrongField(m1, m2, d);
    assert CodecsDataUrl == "data:" + m1 + "," + m2 + ";base64," + d;
    assert m2 + ";base64" == "opus;base64";
    PayloadRoundTrip(m1 + "," + m2, d);
    assert CodecsDataUrl == "data:" + (m1 + "," + m2) + ";base64," + d;
  }

  /** The payload as intended: the text after the last comma (the base64
      alphabet has none), rejected when missing or empty. */
  function PayloadOf(dataUrl: string): Result<string> {
    var fs := Fields(dataUrl);
    if |fs| > 1 && fs[|fs| - 1] != "" then Success(fs[|fs| - 1]) else Failure(Base64FailedMessage)
  }

  lemma {:induction false} FieldsLast(a: string, b: string)
    requires ',' !in b
    ensures |Fields(a + "," + b)| > 1 && Fields(a + "," + b)[|Fields(a + "," + b)| - 1] == b
    decreases |a|
  {
    var s := a + "," + b;
    if a == [] {
      assert s == [','] + b && s[1..] == b;
      FieldsNoComma(b);
    } else {
      assert s[1..] == a[1..] + "," + b;
      FieldsLast(a[1..], b);
    }
  }

  /** Whatever the media type, the payload of a `data:<type>;base64,<data>`
      URL is `<data>`. */
  lemma PayloadRoundTrip(mime: string, data: string)
    requires ',' !in data && data != ""
    ensures PayloadOf("data:" + mime + ";base64," + data) == Success(data)
  {
    FieldsLast("data:" + mime + ";base64", data);
    assert "data:" + mime + ";base64" + "," + data == "data:" + mime + ";base64," + data;
  }

  /** On the URLs the source handles as intended the correction changes
      nothing: with a comma-free type both extractions give the payload. */
  lemma PayloadAgreesWhenTypeHasNoComma(mime: string, data: string)
    requires ',' !in mime && ',' !in data && data != ""
    ensures PayloadOf("data:" + mime + ";base64," + data) == BlobToBase64("data:" + mime + ";base64," + data)
  {
    PayloadRoundTrip(mime, data);
    DataUrlRoundTrip(mime, data);
  }

  // ---------------------------------------------------------------------
  // The store

  class CapacitorService {
    /** `Capacitor.isNativePlatform()` and `Capacitor.getPlatform()` */
    const native: bool
    const platform: string
    /** Filesystem oracles. */
    const mkdirFails: bool
    const failing: string -> bool
    const uriOf: string -> string
    const writeFails: string -> bool
    const shareFails: nat -> bool

    var dirExists: bool
    var names: seq<string>
    var docs: map<string, FileEntry>
    var shares: seq<ShareRequest>

    /** The directory listing and the documents agree, and the directory's
        entries are distinct. */
    ghost predicate Valid()
      reads this
    {
      && Distinct(names)
      && (forall n :: n in names ==> PathOf(n) in docs)
      && (forall n :: PathOf(n) in docs ==> n in names)
      && (!dirExists ==> names == [])
    }

    constructor (native: bool, platform: string, mkdirFails: bool, failing: string -> bool,
                 uriOf: string -> string, writeFails: string -> bool, shareFails: nat -> bool,
                 dirExists: bool, names: seq<string>, docs: map<string, FileEntry>)
      requires Distinct(names)
      requires forall n :: n in names <==> PathOf(n) in docs
      requires !dirExists ==> names == []
      ensures Valid()
      ensures this.native == native && this.platform == platform && this.mkdirFails == mkdirFails
      ensures this.failing == failing && this.uriOf == uriOf && this.writeFails == writeFails
      ensures this.shareFails == shareFails
      ensures this.dirExists == dirExists && this.names == names && this.docs == docs && shares == []
    {
      this.native := native;
      this.platform := platform;
      this.mkdirFails := mkdirFails;
      this.failing := failing;
      this.uriOf := uriOf;
      this.writeFails := writeFails;
      this.shareFails := shareFails;
      this.dirExists := dirExists;
      this.names := names;
      this.docs := docs;
      shares := [];
    }

    /** `initializeVideoDirectory`: a failure to create the directory is
        swallowed. */
    method InitializeVideoDirectory()
      requires Valid()
      modifies this`dirExists
      ensures Valid()
      ensures dirExists == (old(dirExists) || (native && !mkdirFails))
    {
      if !native {
        return;
      }
      if !mkdirFails {
        dirExists := true;
      }
    }

    /** `getVideoFiles` */
    method GetVideoFiles() returns (r: Result<seq<VideoFile>>)
      requires Valid()
      modifies this`dirExists
      ensures Valid()
      ensures dirExists == (old(dirExists) || (native && !mkdirFails))
      ensures !native ==> r == Success(MockVideoFiles())
      ensures native ==> r == if dirExists then Success(Listing(names, docs, failing, uriOf))
                              else Failure(LoadFailedMessage)
    {
      if !native {
        return Success(MockVideoFiles());
      }
      InitializeVideoDirectory();
      if !dirExists {
        // reading a missing directory throws
        return Failure(LoadFailedMessage);
      }
      var videoFiles: seq<VideoFile> := [];
      for i := 0 to |names|
        invariant videoFiles == Collect(names[..i], docs, failing, uriOf)
      {
        var name := names[i];
        assert names[..i + 1][..i] == names[..i];
        if EndsWith(name, ".webm") || EndsWith(name, ".mp4") {
          var path := PathOf(name);
          if path in docs && !failing(path) {
            var stat := docs[path];
            var uri := uriOf(path);
            videoFiles := videoFiles + [VideoFile(name, name, uri, stat.size, 0, stat.mtime, path)];
          }
        }
      }
      assert names[..|names|] == names;
      return Success(SortNewestFirst(videoFiles));
    }

    /** `saveVideoFile` */
    method SaveVideoFile(blob: Blob, filename: string, now: int) returns (r: Result<string>)
      requires Valid()
      modifies this`dirExists, this`names, this`docs
      ensures Valid()
      ensures !native ==> r == Failure(SaveOnlyNativeMessage) && dirExists == old(dirExists)
      ensures dirExists == (old(dirExists) || (native && !mkdirFails))
      ensures var path := PathOf(filename);
              var payload := if blob.dataUrl.Some? then BlobToBase64(blob.dataUrl.value) else Failure("");
              if native && dirExists && payload.Success? && !writeFails(path) then
                && r == Success(path)
                && docs == old(docs)[path := FileEntry(payload.value, DecodedLength(payload.value), now)]
                && names == if filename in old(names) then old(names) else old(names) + [filename]
              else
                && r == Failure(if native then SaveFailedMessage else SaveOnlyNativeMessage)
                && docs == old(docs) && names == old(names)
    {
      if !native {
        return Failure(SaveOnlyNativeMessage);
      }
      InitializeVideoDirectory();
      if blob.dataUrl.None? {
        return Failure(SaveFailedMessage);
      }
      var base64Data := BlobToBase64(blob.dataUrl.value);
      if base64Data.Failure? {
        return Failure(SaveFailedMessage);
      }
      var filePath := PathOf(filename);
      if !dirExists || writeFails(filePath) {
        return Failure(SaveFailedMessage);
      }
      forall n | PathOf(n) == filePath ensures n == filename {
        PathOfInjective(n, filename);
      }
      docs := docs[filePath := FileEntry(base64Data.value, DecodedLength(base64Data.value), now)];
      if filename !in names {
        names := names + [filename];
      }
      return Success(filePath);
    }

    /** `shareVideo` */
    method ShareVideo(videoFile: VideoFile) returns (r: Result<()>)
      modifies this`shares
      ensures !native ==> r == Failure(ShareOnlyNativeMessage) && shares == old(shares)
      ensures native ==>
        && shares == old(shares) + [ShareRequest(ShareTitle, ShareTextPrefix + videoFile.name, videoFile.url, ShareTitle)]
        && r == if shareFails(|old(shares)|) then Failure(ShareFailedMessage) else Success(())
    {
      if !native {
        return Failure(ShareOnlyNativeMessage);
      }
      var failed := shareFails(|shares|);
      shares := shares + [ShareRequest(ShareTitle, ShareTextPrefix + videoFile.name, videoFile.url, ShareTitle)];
      if failed {
        return Failure(ShareFailedMessage);
      }
      return Success(());
    }

    /** `deleteVideo`: deleting a file that does not exist fails. */
    method DeleteVideo(videoFile: VideoFile) returns (r: Result<()>)
      requires Valid()
      modifies this`names, this`docs
      ensures Valid()
      ensures if native && videoFile.path in old(docs) then
                && r == Success(())
                && docs == old(docs) - {videoFile.path}
                && names == Without(old(names), videoFile.path)
              else
                && r == Failure(if native then DeleteFailedMessage else DeleteOnlyNativeMessage)
                && docs == old(docs) && names == old(names)
    {
      if !native {
        return Failure(DeleteOnlyNativeMessage);
      }
      if videoFile.path !in docs {
        return Failure(DeleteFailedMessage);
      }
      WithoutCorrect(names, videoFile.path);
      docs := docs - {videoFile.path};
      names := Without(names, videoFile.path);
      return Success(());
    }

    /** `showConfirmDialog`: a failing native dialog counts as a refusal. */
    function ShowConfirmDialog(title: string, message: string, answer: DialogAnswer): (r: (Modal, bool))
      ensures r.1 <==> answer == Answered(true)
      ensures !native ==> r.0 == BrowserConfirm(title + "\n\n" + message)
      ensures native ==> r.0 == NativeConfirm(title, message)
    {
      if !native then (BrowserConfirm(title + "\n\n" + message), answer == Answered(true))
      else
        match answer
        case Answered(v) => (NativeConfirm(title, message), v)
        case DialogFailed => (NativeConfirm(title, message), false)
    }

    /** `showAlert`: a failing native dialog is swallowed, so the alert
        resolves whether or not the native dialog could be shown. */
    function ShowAlert(title: string, message: string, nativeFails: bool): (r: (Modal, Result<()>))
      ensures r.1 == Success(())
      ensures !native ==> r.0 == BrowserAlert(title + "\n\n" + message)
      ensures native ==> r.0 == NativeAlert(title, message)
    {
      if !native then (BrowserAlert(title + "\n\n" + message), Success(()))
      else if nativeFails then (NativeAlert(title, message), Success(()))
      else (NativeAlert(title, message), Success(()))
    }

    /** `getPlatformInfo` */
    function GetPlatformInfo(): (info: PlatformInfo)
      ensures info.isWeb == !info.isNative
      ensures info.isNative == native && info.platform == platform
    {
      PlatformInfo(platform, native, !native)
    }

    /** Saving a recording and listing again surfaces it under its own name
        and its path inside the recordings directory. */
    method SaveThenList(blob: Blob, filename: string, now: int) returns (saved: Result<string>, listed: Result<seq<VideoFile>>)
      requires Valid()
      modifies this`dirExists, this`names, this`docs
      ensures Valid()
      ensures saved.Success? && IsVideoName(filename) && !failing(PathOf(filename)) ==>
        && listed.Success?
        && exists v :: v in listed.value && v.name == filename && v.path == PathOf(filename)
                           && EndsWith(v.path, filename)
    {
      saved := SaveVideoFile(blob, filename, now);
      listed := GetVideoFiles();
      if saved.Success? && IsVideoName(filename) && !failing(PathOf(filename)) {
        ListingCorrect(names, docs, failing, uriOf);
        var v := ListedAsset(filename, docs, uriOf);
        assert v in listed.value;
        assert PathOf(filename) == VideoDirectory + "/" + filename;
      }
    }
  }

  /** The directory entries left after deleting `path`, in order. */
  function Without(names: seq<string>, path: string): seq<string> {
    if names == [] then []
    else (if PathOf(names[0]) == path then [] else [names[0]]) + Without(names[1..], path)
  }

  predicate Distinct(ns: seq<string>) {
    forall i, j :: 0 <= i < j < |ns| ==> ns[i] != ns[j]
  }

  lemma {:induction false} WithoutCorrect(names: seq<string>, path: string)
    requires Distinct(names)
    ensures forall n :: n in Without(names, path) <==> n in names && PathOf(n) != path
    ensures Distinct(Without(names, path))
  {
    if names != [] {
      var rest := Without(names[1..], path);
      assert Distinct(names[1..]);
      WithoutCorrect(names[1..], path);
      assert forall n :: n in names <==> n == names[0] || n in names[1..];
      assert names[0] !in names[1..];
      assert names[0] !in rest;
      if PathOf(names[0]) == path {
        assert Without(names, path) == rest;
      } else {
        var w := [names[0]] + rest;
        assert Without(names, path) == w;
        forall i, j | 0 <= i < j < |w| ensures w[i] != w[j] {
          assert w[j] == rest[j - 1] && w[j] in rest;
          if i > 0 {
            assert w[i] == rest[i - 1];
          }
        }
      }
    }
  }
}
