/**
 * split_path and format_string_and_filenames of update_servicecatalog/sync_catalog.py:
 * the last component of a repository path, its stem before the first '.', and the
 * comparison keys derived from them.
 */
module Paths {
  import opened Strings
  import opened Normalizer

  /** `os.path.split(path)[-1]`: the text after the last '/', the whole path when there is none. */
  function BaseName(path: string): (name: string)
    ensures '/' !in name
    ensures |name| <= |path| && path[|path| - |name|..] == name
    ensures |name| < |path| ==> path[|path| - |name| - 1] == '/'
    decreases |path|
  {
    if '/' in path then BaseName(path[1..]) else path
  }

  /** `name.split(".")[0]`: the text before the first '.', the whole name when there is none. */
  function Stem(name: string): (stem: string)
    ensures stem <= name
    ensures '.' !in stem
    ensures |stem| < |name| ==> name[|stem|] == '.'
    decreases |name|
  {
    if name == [] || name[0] == '.' then "" else [name[0]] + Stem(name[1..])
  }

  /** split_path: the file name and the short file name. */
  function SplitPath(path: string): (r: (string, string))
    ensures r.0 == BaseName(path) && r.1 == Stem(r.0)
    ensures var parts := Split(path, '/'); r.0 == parts[|parts| - 1]
    ensures r.1 == Split(r.0, '.')[0]
  {
    var fileName := BaseName(path);
    BaseNameIsLastPiece(path);
    StemIsFirstPiece(fileName);
    (fileName, Stem(fileName))
  }

  /**
   * format_string_and_filenames: the key of the file name, the file name itself, and the
   * key of the short file name.
   */
  function FormatStringAndFilenames(path: string): (r: (string, string, string))
    ensures r.1 == SplitPath(path).0
    ensures r.0 == Normalize(r.1)
    ensures r.2 == Normalize(SplitPath(path).1)
    ensures var parts := Split(path, '/'); r.1 == parts[|parts| - 1]
    ensures r.2 == Normalize(Split(r.1, '.')[0]) && Normalize(r.2) == r.2 && '.' !in r.2
  {
    var (fileName, shortFileName) := SplitPath(path);
    NormalizeIdempotent(shortFileName);
    NormalizeShape(shortFileName);
    assert Escaped[14] == '.';
    (Normalize(fileName), fileName, Normalize(shortFileName))
  }

  /** The file name is the last piece of splitting the path on '/'. */
  lemma {:induction false} BaseNameIsLastPiece(path: string)
    ensures var parts := Split(path, '/'); BaseName(path) == parts[|parts| - 1]
    decreases |path|
  {
    if '/' !in path {
      SplitWithoutSeparator(path, '/');
    } else {
      var rest := Split(path[1..], '/');
      if path[0] == '/' {
        assert Split(path, '/') == [""] + rest;
        if '/' in path[1..] {
          BaseNameIsLastPiece(path[1..]);
        } else {
          SplitWithoutSeparator(path[1..], '/');
        }
      } else {
        assert '/' in path[1..] by {
          var k :| 0 <= k < |path| && path[k] == '/';
          assert path[1..][k - 1] == '/';
        }
        SplitWithSeparator(path[1..], '/');
        BaseNameIsLastPiece(path[1..]);
      }
    }
  }

  /** The short file name is the first piece of splitting the file name on '.'. */
  lemma {:induction false} StemIsFirstPiece(name: string)
    ensures Stem(name) == Split(name, '.')[0]
    decreases |name|
  {
    if name != [] && name[0] != '.' {
      StemIsFirstPiece(name[1..]);
    }
  }

  /**
   * The lookup key of a path is the key of a prefix of its file name, a prefix that ends
   * at the first '.', and the key itself is already normalised.
   */
  lemma ShortKeyOfFileName(path: string)
    ensures var (_, fileName, key) := FormatStringAndFilenames(path);
      exists k :: 0 <= k <= |fileName| && '.' !in fileName[..k] && (k < |fileName| ==> fileName[k] == '.')
        && key == Normalize(fileName[..k])
    ensures var key := FormatStringAndFilenames(path).2; Normalize(key) == key && '.' !in key
  {
    var (_, fileName, key) := FormatStringAndFilenames(path);
    var stem := Stem(fileName);
    assert fileName[..|stem|] == stem;
    NormalizeIdempotent(stem);
    NormalizeShape(stem);
    assert Escaped[14] == '.';
  }
}
