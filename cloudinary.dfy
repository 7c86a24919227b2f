/**
 * config/cloudinary.js: the public id of an uploaded image recovered from
 * its URL, the upload filter that admits only images, and the upload
 * limits. The Cloudinary and multer clients themselves are not modelled.
 */
module Cloudinary {

  /** The folder every pickup photo is stored under. */
  const Folder := "trashapp/pickups/"

  /** `fileSize: 5 * 1024 * 1024`, in bytes. */
  const MaxFileSize := 5 * 1024 * 1024

  /** `files: 5` */
  const MaxFiles := 5

  const ImagePrefix := "image/"
  const NotAnImage := "Only image files are allowed"

  /**
   * `s.split(c)` for a one-character separator: the pieces between the
   * occurrences of c, so there is always one more piece than separators.
   */
  function Split(s: string, c: char): (parts: seq<string>)
    ensures |parts| >= 1
  {
    if |s| == 0 then [""]
    else
      var rest := Split(s[1..], c);
      if s[0] == c then [""] + rest
      else [[s[0]] + rest[0]] + rest[1..]
  }

  /** No piece holds the separator. */
  lemma {:induction false} SplitPieces(s: string, c: char)
    ensures forall i :: 0 <= i < |Split(s, c)| ==> c !in Split(s, c)[i]
    decreases |s|
  {
    if |s| > 0 {
      SplitPieces(s[1..], c);
      var rest := Split(s[1..], c);
      if s[0] != c {
        var first := [s[0]] + rest[0];
        assert forall x :: x in first ==> x == s[0] || x in rest[0];
      }
    }
  }

  /** The first piece is the head of s up to its first separator, or all of s. */
  lemma {:induction false} SplitFirst(s: string, c: char)
    ensures var first := Split(s, c)[0];
            && |first| <= |s| && first == s[..|first|]
            && (|first| == |s| || s[|first|] == c)
    decreases |s|
  {
    if |s| > 0 && s[0] != c {
      SplitFirst(s[1..], c);
      var rest := Split(s[1..], c);
      assert Split(s, c)[0] == [s[0]] + rest[0];
    }
  }

  /** The last piece is the tail of s after its last separator, or all of s. */
  lemma {:induction false} SplitLast(s: string, c: char)
    ensures var parts := Split(s, c);
            var last := parts[|parts| - 1];
            && |last| <= |s| && last == s[|s| - |last|..]
            && (|last| == |s| || s[|s| - |last| - 1] == c)
    decreases |s|
  {
    if |s| > 0 {
      SplitLast(s[1..], c);
      var rest := Split(s[1..], c);
      var parts := Split(s, c);
      var last := rest[|rest| - 1];
      assert s[1..][|s| - 1 - |last|..] == s[|s| - |last|..];
      if s[0] == c {
        assert parts[|parts| - 1] == last;
      } else if |rest| > 1 {
        assert parts[|parts| - 1] == last;
        SplitPieces(s[1..], c);
        SplitFirst(s[1..], c);
        assert |last| < |s| - 1 by {
          if |last| == |s| - 1 {
            assert last == s[1..];
            SplitWithoutSeparator(s[1..], c);
          }
        }
      } else {
        JoinSplit(s[1..], c);
        assert rest[0] == s[1..];
        assert parts == [[s[0]] + rest[0]];
        assert s == [s[0]] + s[1..];
      }
    }
  }

  /** A string without the separator splits into itself alone. */
  lemma {:induction false} SplitWithoutSeparator(s: string, c: char)
    requires c !in s
    ensures Split(s, c) == [s]
    decreases |s|
  {
    if |s| > 0 {
      assert s[0] in s;
      assert forall x :: x in s[1..] ==> x in s;
      SplitWithoutSeparator(s[1..], c);
      assert s == [s[0]] + s[1..];
    }
  }

  /** `parts.join(c)` */
  function Join(parts: seq<string>, c: char): (s: string)
    requires |parts| >= 1
  {
    if |parts| == 1 then parts[0] else parts[0] + [c] + Join(parts[1..], c)
  }

  /** Joining the pieces with the separator gives back the string. */
  lemma {:induction false} JoinSplit(s: string, c: char)
    ensures Join(Split(s, c), c) == s
    decreases |s|
  {
    if |s| > 0 {
      var rest := Split(s[1..], c);
      JoinSplit(s[1..], c);
      if s[0] == c {
        assert Split(s, c) == [""] + rest;
        assert ([""] + rest)[1..] == rest;
      } else {
        var parts := Split(s, c);
        assert parts == [[s[0]] + rest[0]] + rest[1..];
        if |rest| == 1 {
          assert parts == [[s[0]] + rest[0]];
        } else {
          assert parts[1..] == rest[1..];
          assert Join(rest, c) == rest[0] + [c] + Join(rest[1..], c);
        }
        assert s == [s[0]] + s[1..];
      }
    }
  }

  /** Pieces free of the separator are exactly what splitting their join gives. */
  lemma {:induction false} SplitJoin(parts: seq<string>, c: char)
    requires |parts| >= 1
    requires forall i :: 0 <= i < |parts| ==> c !in parts[i]
    ensures Split(Join(parts, c), c) == parts
    decreases |parts|, |parts[0]|
  {
    var p := parts[0];
    if |p| == 0 {
      if |parts| > 1 {
        var tail := Join(parts[1..], c);
        SplitJoin(parts[1..], c);
        assert Join(parts, c) == [c] + tail;
        assert ([c] + tail)[1..] == tail;
        assert parts == [""] + parts[1..];
      }
    } else {
      var shorter := [p[1..]] + parts[1..];
      assert shorter[1..] == parts[1..];
      forall i | 0 <= i < |shorter| ensures c !in shorter[i] {
        if i == 0 {
          assert forall x :: x in p[1..] ==> x in p;
        } else {
          assert shorter[i] == parts[i];
        }
      }
      SplitJoin(shorter, c);
      var s := Join(parts, c);
      assert p[0] != c by { assert p[0] in p; }
      if |parts| == 1 {
        assert s == [p[0]] + Join(shorter, c);
      } else {
        assert s == [p[0]] + (p[1..] + [c] + Join(parts[1..], c));
        assert s == [p[0]] + Join(shorter, c);
      }
      assert s[1..] == Join(shorter, c);
      var rest := Split(s[1..], c);
      assert Split(s, c) == [[p[0]] + rest[0]] + rest[1..];
      assert [p[0]] + p[1..] == p;
      assert parts == [p] + parts[1..];
    }
  }

  /**
   * The longest tail of url without a '/': the whole url when it has no
   * '/', otherwise what follows its last '/'.
   */
  function FileName(url: string): (name: string)
    ensures '/' !in name
    ensures |name| <= |url| && name == url[|url| - |name|..]
    ensures |name| == |url| || url[|url| - |name| - 1] == '/'
  {
    SplitPieces(url, '/');
    SplitLast(url, '/');
    var parts := Split(url, '/');
    parts[|parts| - 1]
  }

  /** The head of name before its first '.', or all of name when there is none. */
  function Stem(name: string): (stem: string)
    ensures '.' !in stem
    ensures |stem| <= |name| && stem == name[..|stem|]
    ensures |stem| == |name| || name[|stem|] == '.'
  {
    SplitPieces(name, '.');
    SplitFirst(name, '.');
    Split(name, '.')[0]
  }

  /** `extractPublicId(url)` */
  function ExtractPublicId(url: string): (id: string)
    ensures id == Folder + Stem(FileName(url))
  {
    var parts := Split(url, '/');
    var filename := parts[|parts| - 1];
    var publicId := Split(filename, '.')[0];
    Folder + publicId
  }

  /** A tail without '/' after a '/' (or the start) is what FileName finds. */
  lemma FileNameIsLastSegment(url: string, k: nat)
    requires k <= |url| && (k == 0 || url[k - 1] == '/')
    requires '/' !in url[k..]
    ensures FileName(url) == url[k..]
  {
  }

  /** A head without '.' followed by '.' (or the end) is what Stem finds. */
  lemma StemIsFirstPiece(name: string, k: nat)
    requires k <= |name| && (k == |name| || name[k] == '.')
    requires '.' !in name[..k]
    ensures Stem(name) == name[..k]
  {
  }

  /** Without any '/', the whole url is the file name. */
  lemma NoSlashWholeUrl(url: string)
    requires '/' !in url
    ensures ExtractPublicId(url) == Folder + Stem(url)
  {
    FileNameIsLastSegment(url, 0);
  }

  /** A file name without '.' is used whole. */
  lemma NoDotWholeName(url: string)
    requires '.' !in FileName(url)
    ensures ExtractPublicId(url) == Folder + FileName(url)
  {
    var name := FileName(url);
    StemIsFirstPiece(name, |name|);
  }

  /** The URL of a stored photo, `<anything>/<stem>.<extension>`, gives back the folder and the stem. */
  lemma {:induction false} StoredPhotoId(dir: string, stem: string, ext: string)
    requires '/' !in stem && '/' !in ext && '.' !in stem
    ensures ExtractPublicId(dir + "/" + stem + "." + ext) == Folder + stem
  {
    var url := dir + "/" + stem + "." + ext;
    var name := stem + "." + ext;
    assert url[|dir| + 1..] == name;
    assert '/' !in name by {
      assert forall x :: x in name ==> x in stem || x == '.' || x in ext;
    }
    FileNameIsLastSegment(url, |dir| + 1);
    assert name[..|stem|] == stem;
    StemIsFirstPiece(name, |stem|);
  }

  datatype FilterDecision = Accept | Reject(message: string)

  /** `fileFilter`: what it hands to the callback for a file of the given MIME type. */
  function FileFilter(mimetype: string): (d: FilterDecision)
    ensures d.Accept? <==> |mimetype| >= |ImagePrefix| && mimetype[..|ImagePrefix|] == ImagePrefix
    ensures d.Reject? ==> d.message == NotAnImage
  {
    if ImagePrefix <= mimetype then Accept else Reject(NotAnImage)
  }

  lemma FilterExamples()
    ensures FileFilter("image/png").Accept? && FileFilter("image/webp").Accept?
    ensures FileFilter("application/pdf") == Reject(NotAnImage)
    ensures FileFilter("IMAGE/PNG") == Reject(NotAnImage)
    ensures FileFilter("image") == Reject(NotAnImage)
  {
    assert "application/pdf"[0] != ImagePrefix[0];
    assert "IMAGE/PNG"[0] != ImagePrefix[0];
  }

  /** A file as multer sees it: its MIME type and its size in bytes. */
  datatype Upload = Upload(mimetype: string, size: nat)

  /** An upload multer with these limits and this filter lets through. */
  predicate Admits(files: seq<Upload>) {
    && |files| <= MaxFiles
    && forall i :: 0 <= i < |files| ==> files[i].size <= MaxFileSize && FileFilter(files[i].mimetype).Accept?
  }

  function TotalSize(files: seq<Upload>): nat {
    if |files| == 0 then 0 else files[0].size + TotalSize(files[1..])
  }

  /** An admitted upload carries at most 25 MiB of images. */
  lemma {:induction false} AdmittedUploadBound(files: seq<Upload>)
    requires Admits(files)
    ensures TotalSize(files) <= MaxFiles * MaxFileSize
  {
    SizeBound(files);
  }

  lemma {:induction false} SizeBound(files: seq<Upload>)
    requires forall i :: 0 <= i < |files| ==> files[i].size <= MaxFileSize
    ensures TotalSize(files) <= |files| * MaxFileSize
  {
    if |files| > 0 {
      assert forall i :: 0 <= i < |files[1..]| ==> files[1..][i] == files[i + 1];
      SizeBound(files[1..]);
    }
  }
}
