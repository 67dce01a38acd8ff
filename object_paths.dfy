/** Child names and full paths of objects in an archive. */
module ObjectPaths {
  import opened AbcTypes

  /** The names `createChild` accepts: non-empty and free of the separator. */
  predicate IsLegalName(name: string)
  {
    name != [] && '/' !in name
  }

  /** The full path of a child `name` under the object whose full path is
      `parentFull`; the root "/" gets no second separator. */
  function ChildFullName(parentFull: string, name: string): string
  {
    (if parentFull == "/" then parentFull else parentFull + "/") + name
  }

  /** Position of the last separator in `s`, if any. */
  function LastSlash(s: string): (r: Option<nat>)
    ensures r.Some? ==> r.value < |s| && s[r.value] == '/'
    ensures r.Some? ==> forall j :: r.value < j < |s| ==> s[j] != '/'
    ensures r.None? ==> '/' !in s
  {
    if s == [] then None
    else if s[|s| - 1] == '/' then Some(|s| - 1)
    else
      var r := LastSlash(s[..|s| - 1]);
      assert s == s[..|s| - 1] + [s[|s| - 1]];
      r
  }

  /** The last component of a path. */
  function BaseName(path: string): string
  {
    match LastSlash(path)
    case Some(k) => path[k + 1..]
    case None => path
  }

  /** The path of the enclosing object; a path directly under the root
      has parent "/". */
  function ParentPath(path: string): string
  {
    match LastSlash(path)
    case Some(k) => if k == 0 then "/" else path[..k]
    case None => ""
  }

  /** The separator placed by `ChildFullName` is the last one in the result. */
  lemma {:induction false} LastSlashOfChild(prefix: string, name: string)
    requires '/' !in name
    ensures LastSlash(prefix + "/" + name) == Some(|prefix|)
  {
    var s := prefix + "/" + name;
    assert s[|prefix|] == '/';
    forall j | |prefix| < j < |s|
      ensures s[j] != '/'
    {
      assert s[j] == name[j - |prefix| - 1];
    }
  }

  /** A full path built by `createChild` splits back into the parent's full
      path and the child's name. */
  lemma {:induction false} FullNameRoundTrip(parentFull: string, name: string)
    requires parentFull != ""
    requires IsLegalName(name)
    ensures BaseName(ChildFullName(parentFull, name)) == name
    ensures ParentPath(ChildFullName(parentFull, name)) == parentFull
  {
    var full := ChildFullName(parentFull, name);
    if parentFull == "/" {
      assert full == "" + "/" + name;
      LastSlashOfChild("", name);
      assert full[1..] == name;
    } else {
      assert full == parentFull + "/" + name;
      LastSlashOfChild(parentFull, name);
      assert full[|parentFull| + 1..] == name;
      assert full[..|parentFull|] == parentFull;
    }
  }
}
