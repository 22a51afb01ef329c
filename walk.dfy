/**
 * The file filter of `walkFunc`, with the parts of Go's `path/filepath` it
 * relies on, for '/' as the path separator.
 */
module Walk {

  /** What the walk does with one visited entry. */
  datatype Visit = Skip | Convert

  /** The path with every trailing '/' removed. */
  function StripTrailingSlashes(p: string): (r: string)
    ensures r <= p
    ensures r == [] || r[|r| - 1] != '/'
    ensures forall i :: |r| <= i < |p| ==> p[i] == '/'
  {
    if p != [] && p[|p| - 1] == '/' then StripTrailingSlashes(p[..|p| - 1]) else p
  }

  /** The text after the last '/' (the whole path when it has none). */
  function LastElement(p: string): (r: string)
    ensures '/' !in r
    ensures |r| <= |p|
  {
    if p == [] || p[|p| - 1] == '/' then []
    else LastElement(p[..|p| - 1]) + [p[|p| - 1]]
  }

  /** The last element is the tail of the path, and the character before it, if any, is a '/'. */
  lemma {:induction false} LastElementIsTail(p: string)
    ensures var r := LastElement(p);
      r == p[|p| - |r|..] && (|r| == |p| || p[|p| - |r| - 1] == '/')
  {
    if p != [] && p[|p| - 1] != '/' {
      var init := p[..|p| - 1];
      LastElementIsTail(init);
      var r0 := LastElement(init);
      assert p[|p| - |r0| - 1..] == init[|init| - |r0|..] + [p[|p| - 1]];
    }
  }

  /** `filepath.Base`: the last element of a path, "." for the empty path, "/" for a path of slashes. */
  function Base(path: string): (r: string)
    ensures r != []
    ensures path == [] ==> r == "."
    ensures path != [] && r != "/" ==> '/' !in r
  {
    if path == [] then "."
    else
      var s := StripTrailingSlashes(path);
      if s == [] then "/" else LastElement(s)
  }

  /** The suffix of a name that starts at its last '.', or "" when it has none. */
  function DotSuffix(name: string): (r: string)
    ensures r != [] ==> r[0] == '.' && |r| <= |name| && r == name[|name| - |r|..]
    ensures forall j :: 0 < j < |r| ==> r[j] != '.'
    ensures r == [] ==> '.' !in name
  {
    if name == [] then []
    else if name[|name| - 1] == '.' then "."
    else
      var e := DotSuffix(name[..|name| - 1]);
      if e == [] then [] else e + [name[|name| - 1]]
  }

  /**
   * `filepath.Ext`: scanning back from the end of the path up to the last
   * '/', the suffix from the first '.' met; "" when there is none. That is
   * the dot-suffix of the path's last element.
   */
  function Ext(path: string): (r: string)
    ensures r != [] ==> r[0] == '.' && '/' !in r && |r| <= |path| && r == path[|path| - |r|..]
    ensures r == [] ==> '.' !in LastElement(path)
  {
    LastElementIsTail(path);
    DotSuffix(LastElement(path))
  }

  /** Trailing slashes appended to a path that does not end in '/' are exactly what is stripped. */
  lemma {:induction false} StripSlashesAppend(p: string, slashes: string)
    requires p == [] || p[|p| - 1] != '/'
    requires forall i :: 0 <= i < |slashes| ==> slashes[i] == '/'
    ensures StripTrailingSlashes(p + slashes) == p
  {
    if slashes == [] {
      assert p + slashes == p;
    } else {
      var ps := p + slashes;
      assert ps[..|ps| - 1] == p + slashes[..|slashes| - 1] && ps[|ps| - 1] == '/';
      StripSlashesAppend(p, slashes[..|slashes| - 1]);
    }
  }

  /** `filepath.Base` of "dir/name", with any number of trailing slashes, is name. */
  lemma BaseOfName(prefix: string, name: string, slashes: string)
    requires '/' !in name && name != []
    requires prefix == [] || prefix[|prefix| - 1] == '/'
    requires forall i :: 0 <= i < |slashes| ==> slashes[i] == '/'
    ensures Base(prefix + name + slashes) == name
  {
    var p := prefix + name;
    assert p[|p| - 1] == name[|name| - 1];
    StripSlashesAppend(p, slashes);
    LastElementOfName(prefix, name);
  }

  /** The spreadsheet lock files that the editor leaves beside an open workbook start with this. */
  const LockPrefix := "~$"

  /** `walkFunc`'s decision for one entry: directories, lock files and files of other types are skipped. */
  function VisitOf(path: string, isDir: bool): (v: Visit)
    ensures isDir ==> v == Skip
    ensures v == Convert ==>
      (|path| >= 5 && path[|path| - 5..] == ".xlsx") || (|path| >= 4 && path[|path| - 4..] == ".xls")
  {
    if isDir then Skip
    else if LockPrefix <= Base(path) then Skip
    else
      var ext := Ext(path);
      if ext == ".xlsx" || ext == ".xls" then
        assert |ext| <= |path| && path[|path| - |ext|..] == ext;
        Convert
      else Skip
  }

  /** The last element of "dir/name" is name. */
  lemma {:induction false} LastElementOfName(prefix: string, name: string)
    requires '/' !in name
    requires prefix == [] || prefix[|prefix| - 1] == '/'
    ensures LastElement(prefix + name) == name
  {
    if name != [] {
      var init := name[..|name| - 1];
      var p := prefix + name;
      assert p[..|p| - 1] == prefix + init;
      assert p[|p| - 1] == name[|name| - 1];
      LastElementOfName(prefix, init);
      assert name == init + [name[|name| - 1]];
    } else {
      assert prefix + name == prefix;
    }
  }

  /** The extension of "dir/name" is the extension of name. */
  lemma ExtOfName(prefix: string, name: string)
    requires '/' !in name
    requires prefix == [] || prefix[|prefix| - 1] == '/'
    ensures Ext(prefix + name) == Ext(name)
  {
    LastElementOfName(prefix, name);
    LastElementOfName([], name);
    assert [] + name == name;
  }

  /** Appending text without a '/' extends the last element by that text. */
  lemma {:induction false} LastElementAppend(p: string, q: string)
    requires '/' !in q
    ensures LastElement(p + q) == LastElement(p) + q
  {
    if q == [] {
      assert p + q == p;
    } else {
      var init, c := q[..|q| - 1], q[|q| - 1];
      assert q == init + [c];
      assert c != '/' && '/' !in init;
      var pq := p + q;
      assert pq[..|pq| - 1] == p + init && pq[|pq| - 1] == c;
      assert LastElement(pq) == LastElement(p + init) + [c];
      LastElementAppend(p, init);
    }
  }

  /** A name ending in a dot-suffix with no further dot has that suffix as its dot-suffix. */
  lemma {:induction false} DotSuffixOfSuffix(stem: string, ext: string)
    requires |ext| > 0 && ext[0] == '.'
    requires forall j :: 0 < j < |ext| ==> ext[j] != '.'
    ensures DotSuffix(stem + ext) == ext
  {
    var p := stem + ext;
    if |ext| > 1 {
      var init := ext[..|ext| - 1];
      assert p[..|p| - 1] == stem + init && p[|p| - 1] == ext[|ext| - 1];
      DotSuffixOfSuffix(stem, init);
      assert ext == init + [ext[|ext| - 1]];
    } else {
      assert p[|p| - 1] == '.';
    }
  }

  /** A path ending in a dot-suffix with no further dot or '/' has that suffix as its extension. */
  lemma ExtOfSuffix(stem: string, ext: string)
    requires |ext| > 0 && ext[0] == '.'
    requires forall j :: 0 < j < |ext| ==> ext[j] != '.' && ext[j] != '/'
    ensures Ext(stem + ext) == ext
  {
    LastElementAppend(stem, ext);
    DotSuffixOfSuffix(LastElement(stem), ext);
  }

  /**
   * A file "dir/name" is converted exactly when name does not start with
   * "~$" and its extension is ".xlsx" or ".xls"; a directory never is.
   */
  lemma VisitOfFile(prefix: string, name: string, isDir: bool)
    requires '/' !in name && name != []
    requires prefix == [] || prefix[|prefix| - 1] == '/'
    ensures VisitOf(prefix + name, isDir) == Convert <==>
      !isDir && !(LockPrefix <= name) && (Ext(name) == ".xlsx" || Ext(name) == ".xls")
  {
    LastElementOfName(prefix, name);
    ExtOfName(prefix, name);
    assert StripTrailingSlashes(prefix + name) == prefix + name;
  }

  /** A lock file "~$…" is never converted, whatever its extension. */
  lemma LockFileSkipped(prefix: string, rest: string, isDir: bool)
    requires '/' !in rest
    requires prefix == [] || prefix[|prefix| - 1] == '/'
    ensures VisitOf(prefix + LockPrefix + rest, isDir) == Skip
  {
    assert prefix + LockPrefix + rest == prefix + (LockPrefix + rest);
    VisitOfFile(prefix, LockPrefix + rest, isDir);
  }

  /** A file whose name ends in ".xlsx" or ".xls" and does not start with "~$" is converted. */
  lemma SpreadsheetConverted(prefix: string, stem: string, ext: string)
    requires ext == ".xlsx" || ext == ".xls"
    requires '/' !in stem && !(LockPrefix <= stem + ext)
    requires prefix == [] || prefix[|prefix| - 1] == '/'
    ensures VisitOf(prefix + (stem + ext), false) == Convert
  {
    ExtOfSuffix(stem, ext);
    VisitOfFile(prefix, stem + ext, false);
  }

  /** A file whose extension is anything else, such as ".txt", is skipped. */
  lemma OtherExtensionSkipped(prefix: string, stem: string, ext: string)
    requires |ext| > 0 && ext[0] == '.' && ext != ".xlsx" && ext != ".xls"
    requires forall j :: 0 < j < |ext| ==> ext[j] != '.' && ext[j] != '/'
    requires '/' !in stem
    requires prefix == [] || prefix[|prefix| - 1] == '/'
    ensures VisitOf(prefix + (stem + ext), false) == Skip
  {
    ExtOfSuffix(stem, ext);
    VisitOfFile(prefix, stem + ext, false);
  }
}
