/**
 * Repository files and the file-name helpers the scheduling code applies to
 * them (the commons-io `FilenameUtils` operations on names and paths).
 */
module FileNames {
  import opened JavaText

  /** A file of the repository, as far as scheduling looks at it. */
  datatype RepositoryFile = RepositoryFile(name: string, path: string)

  predicate IsSeparator(c: char)
  {
    c == '/' || c == '\\'
  }

  predicate HasNoSeparator(s: string)
  {
    '/' !in s && '\\' !in s
  }

  /** The index of the last `/` or `\`, or -1. */
  function LastSeparatorIndex(s: string): (i: int)
    ensures -1 <= i < |s|
    ensures 0 <= i ==> IsSeparator(s[i])
    ensures forall j :: i < j < |s| ==> !IsSeparator(s[j])
  {
    var slash, backslash := LastIndexOf(s, '/'), LastIndexOf(s, '\\');
    if slash < backslash then backslash else slash
  }

  /** The index of the dot that starts the extension, or -1 when the last dot is not in the last path segment. */
  function IndexOfExtension(name: string): (i: int)
    ensures -1 <= i < |name|
    ensures 0 <= i ==> name[i] == '.' && forall j :: i < j < |name| ==> name[j] != '.' && !IsSeparator(name[j])
  {
    var dot := LastIndexOf(name, '.');
    if LastSeparatorIndex(name) > dot then -1 else dot
  }

  /**
   * `FilenameUtils.getExtension`: what follows the last dot of the last path
   * segment, or "" when that segment has no dot.
   */
  function Extension(name: string): (e: string)
    ensures '.' !in e && HasNoSeparator(e)
    ensures e != "" ==> |e| < |name| && name == name[..|name| - |e| - 1] + "." + e
  {
    var i := IndexOfExtension(name);
    if i == -1 then ""
    else
      var e := name[i + 1..];
      assert name == name[..i] + "." + e;
      e
  }

  /** Whatever precedes it, a dot followed by a plain extension makes that the extension. */
  lemma ExtensionOfDottedName(stem: string, e: string)
    requires '.' !in e && HasNoSeparator(e)
    ensures Extension(stem + "." + e) == e
  {
    var name := stem + "." + e;
    assert name == stem + ("." + e);
    LastIndexOfAppend(stem, "." + e, '.');
    assert LastIndexOf("." + e, '.') == 0 by {
      LastIndexOfUnique("." + e, '.', 0);
    }
    var dot := |stem|;
    assert LastIndexOf(name, '.') == dot;
    assert LastSeparatorIndex(name) < dot by {
      var t := "." + e;
      assert '/' !in t && '\\' !in t;
      LastIndexOfAppendAbsent(stem, t, '/');
      LastIndexOfAppendAbsent(stem, t, '\\');
    }
    assert name[dot + 1..] == e;
  }

  /** `FilenameUtils.getName`: the last path segment. */
  function Name(path: string): (n: string)
    ensures HasNoSeparator(n)
  {
    var n := path[LastSeparatorIndex(path) + 1..];
    assert forall j :: 0 <= j < |n| ==> !IsSeparator(n[j]) by {
      forall j | 0 <= j < |n| ensures !IsSeparator(n[j]) {
        assert n[j] == path[LastSeparatorIndex(path) + 1 + j];
      }
    }
    n
  }

  /** `FilenameUtils.removeExtension`: the name without its extension and its dot. */
  function RemoveExtension(name: string): string
  {
    var i := IndexOfExtension(name);
    if i == -1 then name else name[..i]
  }

  /** `FilenameUtils.getBaseName`: the last path segment without its extension. */
  function BaseName(path: string): string
  {
    RemoveExtension(Name(path))
  }

  /**
   * The length of the path's prefix. Only the Unix prefix (one leading
   * separator) is considered; drive letters, UNC names and `~user` are not.
   */
  function PrefixLength(path: string): nat
  {
    if path != [] && IsSeparator(path[0]) then 1 else 0
  }

  /** `FilenameUtils.getPathNoEndSeparator`: the directory part, without prefix and without the final separator. */
  function PathNoEndSeparator(path: string): string
  {
    var prefix, index := PrefixLength(path), LastSeparatorIndex(path);
    if prefix >= |path| || index < 0 || prefix >= index then "" else path[prefix..index]
  }

  /**
   * For a repository path `/dir/name` the directory part is `dir` and the
   * last segment is `name`: the decomposition the scheduling code relies on.
   */
  lemma RepositoryPathParts(dir: string, name: string)
    requires dir != [] && !IsSeparator(dir[0])
    requires HasNoSeparator(name)
    ensures PathNoEndSeparator("/" + dir + "/" + name) == dir
    ensures Name("/" + dir + "/" + name) == name
  {
    var head := "/" + dir;
    var path := head + ("/" + name);
    assert "/" + dir + "/" + name == path;
    LastIndexOfAppend(head, "/" + name, '/');
    assert LastIndexOf("/" + name, '/') == 0 by {
      LastIndexOfUnique("/" + name, '/', 0);
    }
    assert '\\' !in "/" + name;
    LastIndexOfAppendAbsent(head, "/" + name, '\\');
    assert LastSeparatorIndex(path) == |head|;
    assert path[0] == '/';
    assert path[1..|head|] == dir;
    assert path[|head| + 1..] == name;
  }
}
