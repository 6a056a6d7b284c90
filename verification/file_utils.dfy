/** Upload file helpers: the size check, the lower-cased extension of a path
    (Python's `os.path.splitext` on POSIX) and filename sanitising. */
module FileUtils {

  /** Bytes in one mebibyte, the unit of `max_size_mb`. */
  const BytesPerMb: int := 1024 * 1024

  /** Longest sanitised filename, in characters. */
  const MaxFilenameLength: nat := 255

  /** `validate_file_size`: does a file of `fileSize` bytes fit a limit of
      `maxSizeMb` mebibytes? */
  function ValidateFileSize(fileSize: int, maxSizeMb: int): bool {
    fileSize <= maxSizeMb * BytesPerMb
  }

  /** A file fits exactly when its size, rounded up to whole mebibytes, is
      within the limit. */
  lemma ValidateFileSizeWholeMb(fileSize: nat, maxSizeMb: int)
    ensures ValidateFileSize(fileSize, maxSizeMb)
        <==> (fileSize + BytesPerMb - 1) / BytesPerMb <= maxSizeMb
  {
    var q := (fileSize + BytesPerMb - 1) / BytesPerMb;
    var rem := (fileSize + BytesPerMb - 1) % BytesPerMb;
    assert fileSize + BytesPerMb - 1 == q * BytesPerMb + rem;
    if fileSize > maxSizeMb * BytesPerMb {
      if q <= maxSizeMb {
        MulMono(q, maxSizeMb, BytesPerMb);
        assert false;
      }
    }
  }

  lemma MulMono(a: int, b: int, c: nat)
    requires a <= b
    ensures a * c <= b * c
  {
  }

  /** The two cases of the repository's tests: 2 MB fits a 5 MB limit, 6 MB
      does not. */
  lemma ValidateFileSizeExamples()
    ensures ValidateFileSize(2 * BytesPerMb, 5)
    ensures !ValidateFileSize(6 * BytesPerMb, 5)
  {
  }

  /** The characters `sanitize_filename` keeps: `[a-zA-Z0-9._-]`. */
  predicate IsSafeChar(c: char) {
    ('a' <= c <= 'z') || ('A' <= c <= 'Z') || ('0' <= c <= '9')
    || c == '.' || c == '_' || c == '-'
  }

  /** One character after the `re.sub` of `sanitize_filename`. */
  function SanitizeChar(c: char): char {
    if IsSafeChar(c) then c else '_'
  }

  /** `sanitize_filename`: every unsafe character becomes `_`, then the
      result is cut to 255 characters. */
  function SanitizeFilename(name: string): (r: string)
    ensures |r| == if |name| <= MaxFilenameLength then |name| else MaxFilenameLength
    ensures forall i :: 0 <= i < |r| ==> IsSafeChar(r[i])
    ensures forall i :: 0 <= i < |r| && IsSafeChar(name[i]) ==> r[i] == name[i]
    ensures forall i :: 0 <= i < |r| && !IsSafeChar(name[i]) ==> r[i] == '_'
  {
    var safe := seq(|name|, i requires 0 <= i < |name| => SanitizeChar(name[i]));
    if |safe| <= MaxFilenameLength then safe else safe[..MaxFilenameLength]
  }

  /** Sanitising a sanitised name changes nothing. */
  lemma SanitizeFilenameIdempotent(name: string)
    ensures SanitizeFilename(SanitizeFilename(name)) == SanitizeFilename(name)
  {
    var r := SanitizeFilename(name);
    var rr := SanitizeFilename(r);
    assert |rr| == |r|;
    forall i | 0 <= i < |r| ensures rr[i] == r[i] {
      assert IsSafeChar(r[i]);
    }
  }

  /** No path separator or space survives sanitising. */
  lemma SanitizeFilenameNoSeparators(name: string)
    ensures forall i :: 0 <= i < |SanitizeFilename(name)| ==>
      SanitizeFilename(name)[i] != '/' && SanitizeFilename(name)[i] != ' '
  {
    var r := SanitizeFilename(name);
    forall i | 0 <= i < |r| ensures r[i] != '/' && r[i] != ' ' {
      assert IsSafeChar(r[i]);
    }
  }

  /** The example from the repository's tests. */
  lemma SanitizeFilenameExample()
    ensures SanitizeFilename("hello world!.pdf") == "hello_world_.pdf"
  {
    var r := SanitizeFilename("hello world!.pdf");
    assert |r| == 16;
    assert r[5] == '_' && r[11] == '_';
    assert IsSafeChar('h') && IsSafeChar('e') && IsSafeChar('l') && IsSafeChar('o');
    assert IsSafeChar('w') && IsSafeChar('r') && IsSafeChar('d');
    assert IsSafeChar('.') && IsSafeChar('p') && IsSafeChar('f');
  }

  /** Index of the last occurrence of `c` in `s`, or -1 (`str.rfind`). */
  function RFind(s: string, c: char): (k: int)
    ensures -1 <= k < |s|
    ensures k >= 0 ==> s[k] == c
    ensures forall j :: k < j < |s| ==> s[j] != c
    decreases |s|
  {
    if |s| == 0 then -1
    else if s[|s| - 1] == c then |s| - 1
    else RFind(s[..|s| - 1], c)
  }

  /** Does `s[from..to]` hold a character other than `.`? */
  predicate HasNonDot(s: string, from: int, to: int)
    requires 0 <= from && to <= |s|
  {
    exists j :: from <= j < to && s[j] != '.'
  }

  /** `os.path.splitext` on POSIX: the extension starts at the last dot
      after the last `/`, provided the base name has a character other than
      a dot before it (so leading dots, as in `.bashrc`, do not start an
      extension). Returns `(root, ext)`. */
  function SplitExt(p: string): (string, string) {
    var sepIndex := RFind(p, '/');
    var dotIndex := RFind(p, '.');
    if dotIndex > sepIndex && HasNonDot(p, sepIndex + 1, dotIndex) then
      (p[..dotIndex], p[dotIndex..])
    else
      (p, "")
  }

  /** `root + ext` gives back the path, and a non-empty extension is a dot
      followed by neither a dot nor a separator. */
  lemma SplitExtRoundTrip(p: string)
    ensures SplitExt(p).0 + SplitExt(p).1 == p
    ensures var ext := SplitExt(p).1;
      ext == [] || (ext[0] == '.' && forall i :: 1 <= i < |ext| ==> ext[i] != '.' && ext[i] != '/')
  {
    var dotIndex := RFind(p, '.');
    var sepIndex := RFind(p, '/');
    if dotIndex > sepIndex && HasNonDot(p, sepIndex + 1, dotIndex) {
      assert p[..dotIndex] + p[dotIndex..] == p;
      var ext := p[dotIndex..];
      forall i | 1 <= i < |ext| ensures ext[i] != '.' && ext[i] != '/' {
        assert ext[i] == p[dotIndex + i];
      }
    }
  }

  /** ASCII lower-casing (`str.lower` on the characters file names use). */
  function LowerChar(c: char): char {
    if 'A' <= c <= 'Z' then (c as int + 32) as char else c
  }

  function Lower(s: string): (r: string)
    ensures |r| == |s|
    ensures forall i :: 0 <= i < |s| ==> r[i] == LowerChar(s[i])
  {
    seq(|s|, i requires 0 <= i < |s| => LowerChar(s[i]))
  }

  /** `get_file_extension`: the lower-cased extension, `""` when there is
      none. */
  function GetFileExtension(filename: string): (r: string)
    ensures r == [] || r[0] == '.'
    ensures forall i :: 1 <= i < |r| ==> r[i] != '.' && r[i] != '/'
    ensures |r| <= |filename|
    ensures forall i :: 0 <= i < |r| ==>
      r[i] == LowerChar(filename[|filename| - |r| + i])
  {
    SplitExtRoundTrip(filename);
    var ext := SplitExt(filename).1;
    assert filename[|filename| - |ext|..] == ext;
    forall i | 1 <= i < |ext| ensures LowerChar(ext[i]) != '.' && LowerChar(ext[i]) != '/' {
      assert ext[i] != '.' && ext[i] != '/';
    }
    Lower(ext)
  }

  /** The extension is non-empty exactly when the base name has a dot that
      follows some other character of the base name. */
  lemma GetFileExtensionNonEmpty(filename: string)
    ensures GetFileExtension(filename) != [] <==>
      (RFind(filename, '.') > RFind(filename, '/')
       && HasNonDot(filename, RFind(filename, '/') + 1, RFind(filename, '.')))
  {
  }

  /** Examples from the repository's tests and from `os.path.splitext`. */
  lemma GetFileExtensionExamples()
    ensures GetFileExtension("document.pdf") == ".pdf"
    ensures GetFileExtension("photo.JPG") == ".jpg"
    ensures GetFileExtension(".bashrc") == ""
    ensures GetFileExtension("archive.d/README") == ""
  {
    assert "document.pdf"[8] == '.';
    assert RFind("document.pdf", '.') == 8;
    assert RFind("document.pdf", '/') == -1;
    assert HasNonDot("document.pdf", 0, 8) by { assert "document.pdf"[0] != '.'; }
    assert "photo.JPG"[5] == '.';
    assert RFind("photo.JPG", '.') == 5;
    assert HasNonDot("photo.JPG", 0, 5) by { assert "photo.JPG"[0] != '.'; }
    assert RFind("photo.JPG", '/') == -1;
    assert ".bashrc"[0] == '.';
    assert RFind(".bashrc", '.') == 0;
    assert "archive.d/README"[9] == '/' && "archive.d/README"[7] == '.';
    assert RFind("archive.d/README", '/') == 9;
    assert RFind("archive.d/README", '.') == 7;
  }
}
