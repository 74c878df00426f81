/** What both model loaders share: the file dialog's answer and the file name of a path. */
module ModelFiles {
  import opened Wrappers
  import opened JsText

  /** The single-file open dialog: a cancel, a chosen path, or a thrown error. */
  datatype DialogResult = Cancelled | Selected(path: string) | DialogError(reason: string)

  /** The path the loaders go on with: JavaScript treats an empty string like a cancel. */
  function PickedPath(d: DialogResult): (p: Option<string>)
    ensures p.Some? <==> d.Selected? && d.path != ""
    ensures p.Some? ==> p.value == d.path
  {
    if d.Selected? && d.path != "" then Some(d.path) else None
  }

  const PathSeparators: set<char> := {'/', '\\'}

  /** `path.split(/[\\/]/).pop()`: the last segment of a POSIX or Windows path. */
  function FileName(path: string): string {
    AfterLast(path, PathSeparators)
  }

  /** The text after the last separator is the only free tail that starts the string or follows a separator. */
  lemma AfterLastUnique(s: string, seps: set<char>, t: string)
    requires |t| <= |s| && t == s[|s| - |t|..] && Free(t, seps)
    requires |t| < |s| ==> s[|s| - |t| - 1] in seps
    ensures AfterLast(s, seps) == t
  {
    var u := AfterLast(s, seps);
    AfterLastIsTail(s, seps);
    if |u| != |t| {
      // the longer of the two would contain the separator just before the shorter
      assert false;
    }
  }

  /** Only the last segment of a path counts, whatever directories precede it. */
  lemma {:induction false} FileNameIgnoresDirectories(dir: string, sep: char, name: string)
    requires sep in PathSeparators && Free(name, PathSeparators)
    ensures FileName(dir + [sep] + name) == name
  {
    var s := dir + [sep] + name;
    assert s[|s| - |name|..] == name;
    AfterLastUnique(s, PathSeparators, name);
  }
}
