// Naming of the assembler output file: the last path component with a
// four-character extension dropped, followed by ".csl".
module OutputName {

  /** strrchr(path, '/'): index of the last slash, -1 if there is none. */
  function LastSlash(path: string): (i: int)
    ensures -1 <= i < |path|
    ensures i >= 0 ==> path[i] == '/'
    ensures forall j :: i < j < |path| ==> path[j] != '/'
  {
    if path == [] then -1
    else if path[|path| - 1] == '/' then |path| - 1
    else LastSlash(path[..|path| - 1])
  }

  /** The file name of the path: the text after the last '/' (the whole path
      when there is none), without its last four characters when it has more
      than four. */
  function FileNameOf(path: string): (name: string)
    ensures '/' !in name
    ensures '/' !in path ==> name == (if |path| > 4 then path[..|path| - 4] else path)
    ensures var base := path[LastSlash(path) + 1..];
      (|base| > 4 ==> |name| == |base| - 4 && name + base[|base| - 4..] == base) &&
      (|base| <= 4 ==> name == base)
  {
    var base := path[LastSlash(path) + 1..];
    if |base| > 4 then base[..|base| - 4] else base
  }

  /** getFileName: copy what follows the last '/' (the whole path when there is
      none), then cut the extension by writing a NUL four characters before
      the end. */
  method GetFileName(path: string) returns (name: string)
    ensures name == FileNameOf(path)
  {
    var last := LastSlash(path);
    var start := if last < 0 then 0 else last + 1;
    name := path[start..];
    var len := |name|;
    if len > 4 {
      name := name[..len - 4];
    }
  }

  /** getOutputFileName: the file name with ".csl" appended. */
  method GetOutputFileName(path: string) returns (name: string)
    ensures name == FileNameOf(path) + ".csl"
    ensures '/' !in name
  {
    name := GetFileName(path);
    name := name + ".csl";
  }

  /** The documented example. */
  lemma OutputFileNameExample()
    ensures FileNameOf("dir/prog.mpl") + ".csl" == "prog.csl"
  {
    var path := "dir/prog.mpl";
    assert path[3] == '/';
    assert forall j :: 3 < j < |path| ==> path[j] != '/';
    assert LastSlash(path) == 3;
    assert path[4..] == "prog.mpl";
  }
}
