/** Job images as files: the writer, the reader and the in-place updater, as
    they move a position through a stream. Each is proved against the byte
    functions of `JobImages`. */
module ImageFiles {
  import opened Basics
  import opened JobImages

  /** A binary stream over the bytes of a file. `good` is cleared by a short
      read and stays cleared. */
  class FileStream {
    var bytes: seq<byte>
    var pos: nat
    var good: bool

    ghost predicate Valid()
      reads this
    {
      pos <= |bytes|
    }

    /** What is still to be read. */
    ghost function Rest(): seq<byte>
      requires Valid()
      reads this
    {
      bytes[pos..]
    }

    constructor (content: seq<byte>)
      ensures Valid() && good && pos == 0 && bytes == content
    {
      bytes, pos, good := content, 0, true;
    }

    method Seek(at: nat)
      modifies this`pos
      ensures pos == at
    {
      pos := at;
    }

    method Write(data: seq<byte>)
      requires good
      modifies this`bytes, this`pos
      ensures Valid() && pos == old(pos) + |data|
      ensures bytes == WriteAt(old(bytes), old(pos), data)
    {
      bytes := WriteAt(bytes, pos, data);
      pos := pos + |data|;
    }

    /** A write at the end of the file. */
    method Append(data: seq<byte>)
      requires good && pos == |bytes|
      modifies this`bytes, this`pos
      ensures pos == |bytes| && bytes == old(bytes) + data
    {
      Appended(bytes, data);
      Write(data);
    }

    /** `count` bytes; a short file clears `good` and moves nothing. */
    method Read(count: nat) returns (data: seq<byte>)
      requires Valid()
      modifies this`pos, this`good
      ensures Valid() && |data| == count
      ensures good == (old(good) && count <= |old(Rest())|)
      ensures good ==> data == old(Rest())[..count] && Rest() == old(Rest())[count..] && pos == old(pos) + count
    {
      if good && count <= |bytes| - pos {
        data := bytes[pos..pos + count];
        pos := pos + count;
      } else {
        good := false;
        data := seq(count, i => 0 as char);
      }
    }

    method ReadU64() returns (n: u64)
      requires Valid()
      modifies this`pos, this`good
      ensures Valid()
      ensures good == (old(good) && DecU64(old(Rest())).Some?)
      ensures good ==> DecU64(old(Rest())) == Some((n, Rest())) && pos == old(pos) + 8
    {
      var data := Read(8);
      DecodeBound(data);
      PowValues();
      n := Decode(data);
    }

    method ReadI32() returns (n: i32)
      requires Valid()
      modifies this`pos, this`good
      ensures Valid()
      ensures good == (old(good) && DecI32(old(Rest())).Some?)
      ensures good ==> DecI32(old(Rest())) == Some((n, Rest())) && pos == old(pos) + 4
    {
      var data := Read(4);
      DecodeBound(data);
      PowValues();
      n := SignedOf(Decode(data));
    }

    method ReadBool() returns (b: bool)
      requires Valid()
      modifies this`pos, this`good
      ensures Valid()
      ensures good == (old(good) && DecBool(old(Rest())).Some?)
      ensures good ==> DecBool(old(Rest())) == Some((b, Rest())) && pos == old(pos) + 1
    {
      var data := Read(1);
      b := data[0] as int != 0;
    }

    method ReadStringField() returns (ok: bool, value: Text)
      requires Valid() && good
      modifies this`pos, this`good
      ensures Valid() && ok == good
      ensures good == DecText(old(Rest())).Some?
      ensures good ==> DecText(old(Rest())) == Some((value, Rest())) && pos == old(pos) + 8 + |value|
    {
      var size := ReadU64();
      if !good { return false, []; }
      if size > 0 {
        value := Read(size);
      } else {
        value := [];
      }
      ok := good;
    }

    /** The count and the records; the last read of the image. */
    method ReadChunks() returns (chunks: seq<ChunkState>)
      requires Valid() && good
      modifies this`pos, this`good
      ensures Valid()
      ensures good == DecChunkList(old(Rest())).Some?
      ensures good ==> DecChunkList(old(Rest())) == Some((chunks, Rest()))
    {
      var size := ReadU64();
      chunks := [];
      if good && size > 0 {
        ghost var rest := Rest();
        var length: nat := 24 * (size as int);
        var data := Read(length);
        if good {
          chunks := DecChunks(data, size);
          assert rest == data + Rest();
          ChunksLocal(data, Rest(), size);
        }
      }
    }

    method WriteStringField(value: Text) returns (offset: nat)
      requires Valid() && good && pos == |bytes| && |value| < TWO64
      modifies this`bytes, this`pos
      ensures Valid() && pos == |bytes| && offset == old(pos)
      ensures bytes == old(bytes) + EncText(value)
    {
      offset := pos;
      Append(EncU64(|value|));
      Append(value);
    }
  }

  /** Chunk records are read from their own bytes only. */
  lemma {:induction false} ChunksLocal(data: seq<byte>, rest: seq<byte>, count: nat)
    requires |data| == 24 * count
    ensures DecChunks(data + rest, count) == DecChunks(data, count)
  {
    if count > 0 {
      assert (data + rest)[24..] == data[24..] + rest;
      ChunksLocal(data[24..], rest, count - 1);
      ChunkLocal(data, rest);
    }
  }

  lemma ChunkLocal(data: seq<byte>, rest: seq<byte>)
    requires |data| >= 24
    ensures DecChunk(data + rest) == DecChunk(data)
  {
    var bs := data + rest;
    assert bs[..8] == data[..8];
    assert bs[8..][..8] == data[8..][..8];
    assert bs[16..][..8] == data[16..][..8];
  }

  /** Everything up to the update time, and where that begins. */
  method WriteHead(img: JobImage) returns (file: FileStream, updatedAt: nat)
    ensures fresh(file) && file.Valid() && file.good && file.pos == |file.bytes| == 33
    ensures file.bytes == EncFixed(img) + EncU64(img.updatedAt) && updatedAt == 25
  {
    file := new FileStream([]);
    file.Append(LE(VERSION, 4));
    file.Append(EncU64(img.fileSize));
    file.Append(EncI32(img.maxConnections));
    file.Append(EncBool(img.ranged));
    file.Append(EncU64(img.createdAt));
    assert file.bytes == EncFixed(img);
    updatedAt := file.pos;
    file.Append(EncU64(img.updatedAt));
  }

  method WriteTexts(file: FileStream, img: JobImage) returns (filePath: nat, url: nat, etag: nat, lastModified: nat)
    requires file.Valid() && file.good && file.pos == |file.bytes| && Storable(img)
    modifies file`bytes, file`pos
    ensures file.Valid() && file.pos == |file.bytes|
    ensures file.bytes == old(file.bytes) + EncTexts(img)
    ensures filePath == old(file.pos) && url == filePath + 8 + |img.filePath| && etag == url + 8 + |img.url|
    ensures lastModified == etag + 8 + |img.etag| && file.pos == lastModified + 8 + |img.lastModified|
  {
    filePath := file.WriteStringField(img.filePath);
    url := file.WriteStringField(img.url);
    etag := file.WriteStringField(img.etag);
    lastModified := file.WriteStringField(img.lastModified);
  }

  method WriteChunks(file: FileStream, chunks: seq<ChunkState>)
    requires file.good && |chunks| < TWO64
    modifies file`bytes, file`pos
    ensures file.bytes == WriteAt(old(file.bytes), old(file.pos), EncChunkList(chunks))
  {
    WriteOn(file.bytes, file.pos, EncU64(|chunks|), EncChunks(chunks));
    file.Write(EncU64(|chunks|));
    if chunks != [] {
      file.Write(EncChunks(chunks));
    } else {
      assert EncU64(|chunks|) + EncChunks(chunks) == EncU64(|chunks|);
    }
  }

  /** Offsets noted on the way are the image's index. */
  lemma Noted(index: Index, img: JobImage)
    requires index.updatedAt == 25 && index.filePath == 33
    requires index.url == index.filePath + 8 + |img.filePath| && index.etag == index.url + 8 + |img.url|
    requires index.lastModified == index.etag + 8 + |img.etag|
    requires index.chunks == index.lastModified + 8 + |img.lastModified| && index.chunkCount == |img.chunks|
    ensures index == IndexOf(img)
  {
  }

  lemma Appended(bs: seq<byte>, data: seq<byte>)
    ensures WriteAt(bs, |bs|, data) == bs + data
  {
  }

  method WriteImageToDisk(img: JobImage) returns (file: FileStream, index: Index)
    requires Storable(img)
    ensures fresh(file) && file.good
    ensures file.bytes == Serialize(img)
    ensures index == IndexOf(img)
  {
    var updatedAt, filePath, url, etag, lastModified;
    file, updatedAt := WriteHead(img);
    filePath, url, etag, lastModified := WriteTexts(file, img);
    index := Index(updatedAt, filePath, url, etag, lastModified, file.pos, |img.chunks|);
    Noted(index, img);
    Appended(file.bytes, EncChunkList(img.chunks));
    WriteChunks(file, img.chunks);
  }

  /** The texts and the chunks, noting where each begins. */
  method ReadTail(file: FileStream, before: Index) returns (ok: bool, tail: Tail, index: Index)
    requires file.Valid() && file.good
    modifies file`pos, file`good
    ensures file.Valid()
    ensures ok == DecTail(old(file.Rest())).Some?
    ensures ok ==> DecTail(old(file.Rest())) == Some(tail)
    ensures ok ==> && index.updatedAt == before.updatedAt && index.filePath == old(file.pos)
                   && index.url == index.filePath + 8 + |tail.filePath| && index.etag == index.url + 8 + |tail.url|
                   && index.lastModified == index.etag + 8 + |tail.etag|
                   && index.chunks == index.lastModified + 8 + |tail.lastModified| && index.chunkCount == |tail.chunks|
  {
    tail, index := Tail([], [], [], [], []), before.(filePath := file.pos);
    var filePath, url, etag, lastModified;
    ok, filePath := file.ReadStringField();
    if !ok { return; }
    index := index.(url := file.pos);
    ok, url := file.ReadStringField();
    if !ok { return; }
    index := index.(etag := file.pos);
    ok, etag := file.ReadStringField();
    if !ok { return; }
    index := index.(lastModified := file.pos);
    ok, lastModified := file.ReadStringField();
    if !ok { return; }
    index := index.(chunks := file.pos);
    var chunks := file.ReadChunks();
    index := index.(chunkCount := |chunks|);
    tail := Tail(filePath, url, etag, lastModified, chunks);
    ok := file.good;
  }

  /** The fields of fixed width, and where the update time begins. */
  method ReadHead(file: FileStream) returns (head: Head, updatedAt: nat)
    requires file.Valid() && file.good
    modifies file`pos, file`good
    ensures file.Valid()
    ensures file.good == DecHead(old(file.Rest())).Some?
    ensures file.good ==> DecHead(old(file.Rest())) == Some((head, file.Rest()))
    ensures file.good ==> updatedAt == old(file.pos) + 21 && file.pos == old(file.pos) + 29
  {
    var fileSize := file.ReadU64();
    var maxConnections := file.ReadI32();
    var ranged := file.ReadBool();
    var createdAt := file.ReadU64();
    updatedAt := file.pos;
    var stamp := file.ReadU64();
    head := Head(fileSize, maxConnections, ranged, createdAt, stamp);
  }

  /** The layout without a version field; `index` is left alone. */
  method ReadLegacy(file: FileStream) returns (ok: bool, img: JobImage)
    requires file.Valid() && file.good
    modifies file`pos, file`good
    ensures ok == DecLegacy(old(file.bytes)).Some?
    ensures ok ==> DecLegacy(old(file.bytes)) == Some((img, Index(0, 0, 0, 0, 0, 0, 0)))
  {
    img := JobImage([], 0, 0, false, [], [], [], 0, 0, []);
    file.Seek(0);
    assert file.Rest() == file.bytes;
    var filePath, url;
    ok, filePath := file.ReadStringField();
    if !ok { return; }
    ok, url := file.ReadStringField();
    if !ok { return; }
    var chunks := file.ReadChunks();
    img := img.(filePath := filePath, url := url, chunks := chunks);
    ok := file.good;
  }

  /** Reads a freshly opened file. The caller's index starts out as zeros. */
  method ReadImageFromDisk(file: FileStream) returns (ok: bool, img: JobImage, index: Index)
    requires file.Valid() && file.good && file.pos == 0
    modifies file`pos, file`good
    ensures ok == Deserialize(file.bytes).Some?
    ensures ok ==> Deserialize(file.bytes) == Some((img, index))
  {
    img, index := JobImage([], 0, 0, false, [], [], [], 0, 0, []), Index(0, 0, 0, 0, 0, 0, 0);
    assert file.Rest() == file.bytes;
    var field := file.Read(4);
    if !file.good { return false, img, index; }
    if Decode(field) == VERSION {
      var head, updatedAt := ReadHead(file);
      if !file.good { return false, img, index; }
      var tail;
      ok, tail, index := ReadTail(file, index.(updatedAt := updatedAt));
      img := Assemble(head, tail);
      if ok { Noted(index, img); }
    } else {
      ok, img := ReadLegacy(file);
    }
  }

  /** Writing on where the last write ended is one longer write. */
  lemma WriteOn(bs: seq<byte>, at: nat, a: seq<byte>, b: seq<byte>)
    ensures WriteAt(WriteAt(bs, at, a), at + |a|, b) == WriteAt(bs, at, a + b)
  {
    var once := WriteAt(bs, at, a + b);
    var twice := WriteAt(WriteAt(bs, at, a), at + |a|, b);
    assert |once| == |twice|;
    assert forall i :: 0 <= i < |once| ==> once[i] == twice[i];
  }

  method UpdateImageChunksOnDisk(file: FileStream, index: Index, chunks: seq<ChunkState>, updatedAt: u64)
    returns (ok: bool)
    requires file.good && |chunks| < TWO64
    modifies file`bytes, file`pos
    ensures ok == Patch(old(file.bytes), index, chunks, updatedAt).Some?
    ensures ok ==> Patch(old(file.bytes), index, chunks, updatedAt) == Some(file.bytes)
    ensures !ok ==> file.bytes == old(file.bytes)
  {
    if index.chunkCount != |chunks| { return false; }
    file.Seek(index.updatedAt);
    file.Write(EncU64(updatedAt));
    file.Seek(index.chunks);
    WriteChunks(file, chunks);
    ok := true;
  }
}
