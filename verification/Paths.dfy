/** Host paths as the file browser handles them: joining, going up and taking the last component. */
module Paths {
  predicate IsSeparator(c: char) {
    c == '\\' || c == '/'
  }

  /** `path.replace(/[\\/]+$/, '')` */
  function WithoutTrailing(path: string): string {
    if path != "" && IsSeparator(path[|path| - 1]) then WithoutTrailing(path[..|path| - 1]) else path
  }

  /** `path.replace(/^[\\/]+/, '')` */
  function WithoutLeading(path: string): string {
    if path != "" && IsSeparator(path[0]) then WithoutLeading(path[1..]) else path
  }

  function PathSeparator(path: string): char {
    if '\\' in path then '\\' else '/'
  }

  function JoinPath(parent: string, child: string): string {
    WithoutTrailing(parent) + [PathSeparator(parent)] + WithoutLeading(child)
  }

  function LastIndexOf(path: string, c: char): (i: int)
    ensures -1 <= i < |path|
    ensures i >= 0 ==> path[i] == c
    ensures forall k :: i < k < |path| ==> path[k] != c
  {
    if path == "" then -1
    else if path[|path| - 1] == c then |path| - 1
    else LastIndexOf(path[..|path| - 1], c)
  }

  predicate IsLetter(c: char) {
    'A' <= c <= 'Z' || 'a' <= c <= 'z'
  }

  predicate HasDrive(path: string) {
    |path| >= 2 && IsLetter(path[0]) && path[1] == ':'
  }

  function ParentPath(path: string): string {
    var trimmed := WithoutTrailing(path);
    var separator := PathSeparator(trimmed);
    var index := LastIndexOf(trimmed, separator);
    if index < 0 then trimmed
    else if separator == '\\' && index == 2 && HasDrive(trimmed) then trimmed[..2] + "\\"
    else if index == 0 then [separator]
    else trimmed[..index]
  }

  /** The last element of `path.split(/[\\/]/)`. */
  function AfterSeparators(path: string): string {
    if path == "" || IsSeparator(path[|path| - 1]) then "" else AfterSeparators(path[..|path| - 1]) + [path[|path| - 1]]
  }

  function Basename(path: string): string {
    AfterSeparators(WithoutTrailing(path))
  }

  // ---------- names ----------

  predicate SeparatorFree(s: string) {
    forall k :: 0 <= k < |s| ==> !IsSeparator(s[k])
  }

  predicate IsName(s: string) {
    s != "" && SeparatorFree(s)
  }

  lemma {:induction false} WithoutTrailingIsAPrefix(path: string)
    ensures WithoutTrailing(path) <= path
    ensures WithoutTrailing(path) == "" || !IsSeparator(WithoutTrailing(path)[|WithoutTrailing(path)| - 1])
    ensures WithoutTrailing(path) == path <==> path == "" || !IsSeparator(path[|path| - 1])
    ensures forall k :: |WithoutTrailing(path)| <= k < |path| ==> IsSeparator(path[k])
  {
    if path != "" && IsSeparator(path[|path| - 1]) {
      var shorter := path[..|path| - 1];
      WithoutTrailingIsAPrefix(shorter);
      forall k | |WithoutTrailing(path)| <= k < |path| ensures IsSeparator(path[k]) {
        if k < |path| - 1 {
          assert shorter[k] == path[k];
        }
      }
    }
  }

  lemma JoinedEndsInName(parent: string, name: string)
    requires IsName(name)
    ensures JoinPath(parent, name) == WithoutTrailing(parent) + [PathSeparator(parent)] + name
    ensures WithoutTrailing(JoinPath(parent, name)) == JoinPath(parent, name)
  {
    var joined := JoinPath(parent, name);
    assert joined[|joined| - 1] == name[|name| - 1];
    WithoutTrailingIsAPrefix(joined);
  }

  lemma {:induction false} AfterSeparator(head: string, c: char, name: string)
    requires IsSeparator(c) && SeparatorFree(name)
    ensures AfterSeparators(head + [c] + name) == name
  {
    var path := head + [c] + name;
    if name == "" {
      assert path[|path| - 1] == c;
    } else {
      assert path[..|path| - 1] == head + [c] + name[..|name| - 1];
      AfterSeparator(head, c, name[..|name| - 1]);
      assert name[..|name| - 1] + [name[|name| - 1]] == name;
    }
  }

  /** The last component of a joined path is the name that was joined to it. */
  lemma BasenameOfJoined(parent: string, name: string)
    requires IsName(name)
    ensures Basename(JoinPath(parent, name)) == name
  {
    JoinedEndsInName(parent, name);
    AfterSeparator(WithoutTrailing(parent), PathSeparator(parent), name);
  }

  // ---------- going up from a joined path ----------

  /** `/`, `\` and the drive roots. */
  predicate IsRoot(path: string) {
    path == "/" || path == "\\" || (|path| == 3 && HasDrive(path) && path[2] == '\\')
  }

  predicate NoTrailing(path: string) {
    path != "" && !IsSeparator(path[|path| - 1])
  }

  lemma SameSeparator(parent: string)
    ensures PathSeparator(WithoutTrailing(parent)) == '\\' ==> PathSeparator(parent) == '\\'
  {
    WithoutTrailingIsAPrefix(parent);
  }

  /** The last separator of a joined path is the one that joining put in. */
  lemma JoinedSeparator(parent: string, name: string)
    requires IsName(name)
    ensures var joined, trimmed := JoinPath(parent, name), WithoutTrailing(parent);
            && PathSeparator(joined) == PathSeparator(parent)
            && LastIndexOf(joined, PathSeparator(joined)) == |trimmed|
            && joined[..|trimmed|] == trimmed
  {
    JoinedEndsInName(parent, name);
    SameSeparator(parent);
    var joined, trimmed := JoinPath(parent, name), WithoutTrailing(parent);
    assert joined[|trimmed|] == PathSeparator(parent);
    assert forall k :: |trimmed| < k < |joined| ==> joined[k] == name[k - |trimmed| - 1];
    assert forall k :: 0 <= k < |trimmed| ==> joined[k] == trimmed[k];
    assert '\\' in joined <==> PathSeparator(parent) == '\\';
  }

  lemma ParentOfJoined(parent: string, name: string)
    requires IsName(name)
    ensures var trimmed := WithoutTrailing(parent);
            ParentPath(JoinPath(parent, name)) ==
            if PathSeparator(parent) == '\\' && |trimmed| == 2 && HasDrive(trimmed) then trimmed + "\\"
            else if trimmed == "" then [PathSeparator(parent)]
            else trimmed
  {
    JoinedEndsInName(parent, name);
    JoinedSeparator(parent, name);
    var joined, trimmed := JoinPath(parent, name), WithoutTrailing(parent);
    if |trimmed| == 2 {
      assert joined[0] == trimmed[0] && joined[1] == trimmed[1];
      assert joined[..2] == trimmed;
    }
  }

  /** Going up from a joined path leads back to where it was joined exactly for the roots and for the nonempty
      paths without a trailing separator. */
  lemma ParentUndoesJoinExactlyWhen(parent: string, name: string)
    requires IsName(name)
    ensures ParentPath(JoinPath(parent, name)) == parent <==> IsRoot(parent) || NoTrailing(parent)
  {
    ParentOfJoined(parent, name);
    WithoutTrailingIsAPrefix(parent);
    var trimmed := WithoutTrailing(parent);
    if NoTrailing(parent) {
      assert trimmed == parent;
      if |parent| == 2 && HasDrive(parent) {
        assert parent[0] != '\\' && parent[1] != '\\';
      }
    } else if IsRoot(parent) {
      RootsTrim(parent);
    }
  }

  lemma RootsTrim(path: string)
    requires IsRoot(path)
    ensures WithoutTrailing(path) == if |path| == 1 then "" else path[..2]
    ensures '\\' in path <==> path != "/"
  {
    if |path| == 1 {
      assert path[..0] == "";
    } else {
      assert path[2] == '\\';
      assert path[..2][|path[..2]| - 1] == ':';
    }
  }

  // ---------- separators at the ends do not matter ----------

  lemma OneMoreTrailing(path: string, c: char)
    requires IsSeparator(c)
    ensures WithoutTrailing(path + [c]) == WithoutTrailing(path)
  {
    assert (path + [c])[..|path|] == path;
  }

  lemma OneMoreLeading(path: string, c: char)
    requires IsSeparator(c)
    ensures WithoutLeading([c] + path) == WithoutLeading(path)
  {
    assert ([c] + path)[1..] == path;
  }

  /** A separator at the end of a path changes neither its parent nor its last component. */
  lemma TrailingSeparatorsDoNotMatter(path: string, c: char)
    requires IsSeparator(c)
    ensures ParentPath(path + [c]) == ParentPath(path) && Basename(path + [c]) == Basename(path)
  {
    OneMoreTrailing(path, c);
  }

  /** Nor does one where two paths meet change what joining gives, unless it is the first backslash, which makes
      backslashes the separator. */
  lemma MeetingSeparatorsDoNotMatter(parent: string, child: string, c: char)
    requires IsSeparator(c)
    ensures JoinPath(parent, [c] + child) == JoinPath(parent, child)
    ensures c == '/' || '\\' in parent ==> JoinPath(parent + [c], child) == JoinPath(parent, child)
    ensures c == '\\' && '\\' !in parent ==>
              JoinPath(parent + [c], child) == WithoutTrailing(parent) + "\\" + WithoutLeading(child)
  {
    OneMoreLeading(child, c);
    OneMoreTrailing(parent, c);
  }

  // ---------- going up ends ----------

  /** Going up shortens a path or leaves it as it is. */
  lemma ParentIsShorterOrEqual(path: string)
    ensures |ParentPath(path)| < |path| || ParentPath(path) == path
  {
    WithoutTrailingIsAPrefix(path);
    var trimmed := WithoutTrailing(path);
    var index := LastIndexOf(trimmed, PathSeparator(trimmed));
    if index >= 0 {
      assert IsSeparator(trimmed[index]);
      assert index < |trimmed| - 1;
    }
  }

  /** The paths without a separator are the only ones that going up leaves as they are. */
  lemma ParentStaysExactlyWhen(path: string)
    ensures ParentPath(path) == path <==> SeparatorFree(path)
  {
    WithoutTrailingIsAPrefix(path);
    var trimmed := WithoutTrailing(path);
    var index := LastIndexOf(trimmed, PathSeparator(trimmed));
    if index >= 0 {
      assert IsSeparator(trimmed[index]) && index < |trimmed| - 1;
      assert path[index] == trimmed[index];
    } else {
      assert SeparatorFree(trimmed);
      if path != trimmed {
        assert IsSeparator(path[|trimmed|]);
      }
    }
  }

  /** Where going up and up ends. */
  function Top(path: string): string
    decreases |path|
  {
    ParentIsShorterOrEqual(path);
    if ParentPath(path) == path then path else Top(ParentPath(path))
  }

  /** Going up ends, and ends at a path without a separator. */
  lemma {:induction false} TopIsSeparatorFree(path: string)
    ensures SeparatorFree(Top(path))
    decreases |path|
  {
    ParentStaysExactlyWhen(path);
    ParentIsShorterOrEqual(path);
    if ParentPath(path) != path {
      TopIsSeparatorFree(ParentPath(path));
    }
  }
}
