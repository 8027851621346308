/** Deriving a person's name, the key of the people cache and the text of a
    back-link, from a note's vault path. */
module Paths {
  import opened Wrappers
  import opened Text

  const MarkdownExtension := ".md"

  /** `getPersonNameFromPath`: the last `/`-separated piece of the path with
      one trailing `.md` removed, or None when that piece is empty. */
  function PersonNameFromPath(filePath: string): (r: Option<string>)
    ensures r.None? <==> AfterLast(filePath, '/') == ""
    ensures r.Some? ==> '/' !in r.value
  {
    var fileName := AfterLast(filePath, '/');
    if fileName == "" then None
    else if EndsWith(fileName, MarkdownExtension) then Some(fileName[..|fileName| - 3])
    else Some(fileName)
  }

  /** The callers test the result with `!name`, so the empty name (from a
      path ending in `/.md`) is rejected just like a missing one. */
  predicate IsUsableName(name: Option<string>) {
    name.Some? && name.value != ""
  }

  /** A note `n.md` in any folder is named `n`. */
  lemma PersonNameOfNote(folder: string, n: string)
    requires folder == "" || EndsWith(folder, "/")
    requires '/' !in n
    ensures PersonNameFromPath(folder + n + MarkdownExtension) == Some(n)
  {
    var file := n + MarkdownExtension;
    assert '/' !in file by {
      assert '/' !in MarkdownExtension;
    }
    FileNameAfterFolder(folder, file);
    assert folder + n + MarkdownExtension == folder + file;
    assert EndsWith(file, MarkdownExtension) && file[..|file| - 3] == n;
  }

  /** The last piece of `folder + file` is `file` when `file` has no `/`. */
  lemma FileNameAfterFolder(folder: string, file: string)
    requires folder == "" || EndsWith(folder, "/")
    requires '/' !in file
    ensures AfterLast(folder + file, '/') == file
  {
    if folder == "" {
      AfterLastOfJoin("", '/', file);
      assert folder + file == file;
    } else {
      var parent := folder[..|folder| - 1];
      assert folder == parent + ['/'];
      assert folder + file == parent + ['/'] + file;
      AfterLastOfJoin(parent, '/', file);
    }
  }

  /** Only one `.md` is removed, and a file without it keeps its whole name. */
  lemma PersonNameOfPlainFile(folder: string, n: string)
    requires folder == "" || EndsWith(folder, "/")
    requires '/' !in n && n != "" && !EndsWith(n, MarkdownExtension)
    ensures PersonNameFromPath(folder + n) == Some(n)
  {
    FileNameAfterFolder(folder, n);
  }

  /** A path that ends in `/` (or is empty) names nobody. */
  lemma NoNameForFolderPath(filePath: string)
    requires filePath == "" || EndsWith(filePath, "/")
    ensures PersonNameFromPath(filePath) == None
  {
    if filePath != "" {
      assert filePath[|filePath| - 1] == '/';
    }
  }
}
