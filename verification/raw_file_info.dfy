/**
 * Identity of a raw feed file: its logical file name and its path. The
 * value itself is immutable; it is assembled by a builder whose fluent
 * setters overwrite one field each and return the builder itself.
 */
module RawFileInfos {
  import opened Wrappers

  /** A Java `String` reference: `None` is `null`. */
  type NullableString = Option<string>

  /**
   * The built, immutable file identity. The destructors `filename` and
   * `path` are the getters `getFilename()` and `getPath()`.
   */
  datatype RawFileInfo = RawFileInfo(filename: NullableString, path: NullableString)

  class RawFileInfoBuilder {
    var filename: NullableString
    var path: NullableString

    /** A fresh builder: neither field has been set. */
    constructor ()
      ensures filename == None && path == None
    {
      filename := None;
      path := None;
    }

    /** Overwrites the file name; the path is left alone; returns this builder. */
    method Filename(filename: NullableString) returns (self: RawFileInfoBuilder)
      modifies this
      ensures this.filename == filename
      ensures path == old(path)
      ensures self == this
    {
      this.filename := filename;
      self := this;
    }

    /** Overwrites the path; the file name is left alone; returns this builder. */
    method Path(path: NullableString) returns (self: RawFileInfoBuilder)
      modifies this
      ensures this.path == path
      ensures filename == old(filename)
      ensures self == this
    {
      this.path := path;
      self := this;
    }

    /** Snapshots both fields; the builder is not changed. */
    method Build() returns (info: RawFileInfo)
      ensures info.filename == filename
      ensures info.path == path
    {
      info := RawFileInfo(filename, path);
    }
  }

  /** `RawFileInfo.builder()`: a new builder with no field set. */
  method Builder() returns (b: RawFileInfoBuilder)
    ensures fresh(b)
    ensures b.filename == None && b.path == None
  {
    b := new RawFileInfoBuilder();
  }

  /**
   * `builder().filename(f).build()`: the file name reads back and the path,
   * never set, is null.
   */
  method BuildWithFilename(f: NullableString) returns (info: RawFileInfo)
    ensures info.filename == f
    ensures info.path == None
  {
    var b := Builder();
    b := b.Filename(f);
    info := b.Build();
  }

  /**
   * `builder().path(p).build()`: the path reads back and the file name,
   * never set, is null.
   */
  method BuildWithPath(p: NullableString) returns (info: RawFileInfo)
    ensures info.path == p
    ensures info.filename == None
  {
    var b := Builder();
    b := b.Path(p);
    info := b.Build();
  }

  /**
   * `builder().filename(f1).path(p).filename(f2).build()`: the last file name
   * written wins and setting the file name again leaves the path in place.
   */
  method BuildLastWriteWins(f1: NullableString, p: NullableString, f2: NullableString)
    returns (info: RawFileInfo)
    ensures info.filename == f2
    ensures info.path == p
  {
    var b := Builder();
    b := b.Filename(f1);
    b := b.Path(p);
    b := b.Filename(f2);
    info := b.Build();
  }

  /**
   * Building twice from one builder gives the same file name and path both
   * times: `build()` changes nothing.
   */
  method BuildTwice(b: RawFileInfoBuilder) returns (first: RawFileInfo, second: RawFileInfo)
    ensures first.filename == second.filename && first.path == second.path
    ensures first.filename == b.filename && first.path == b.path
  {
    first := b.Build();
    second := b.Build();
  }
}
