/**
 * Slash-separated path helpers used when a candidate note path is built
 * and when its filename and stem are derived: Go's `filepath.Join`,
 * `filepath.Base`, `filepath.Ext` and zk's `paths.FilenameStem`.
 */
module Paths {

  const Separator: char := '/'

  /** `filepath.Join(dir, name)`: empty elements are ignored, the others are joined by one separator. */
  function Join(dir: string, name: string): string
  {
    if dir == "" then name
    else if name == "" then dir
    else dir + [Separator] + name
  }

  /** `path` without its trailing separators. */
  function TrimTrailingSeparators(path: string): string
  {
    if path != "" && path[|path| - 1] == Separator then TrimTrailingSeparators(path[..|path| - 1])
    else path
  }

  /** The part of `path` after its last separator. */
  function LastElement(path: string): string
  {
    if path == "" || path[|path| - 1] == Separator then ""
    else LastElement(path[..|path| - 1]) + [path[|path| - 1]]
  }

  /** `filepath.Base`: the last element of `path`, trailing separators removed; "." for "" and "/" for separators only. */
  function Base(path: string): string
  {
    if path == "" then "."
    else
      var trimmed := TrimTrailingSeparators(path);
      if trimmed == "" then [Separator] else LastElement(trimmed)
  }

  /** `filepath.Ext`: the suffix of `path` from the last dot of its last element, or "" when that element has none. */
  function Ext(path: string): string
  {
    if path == "" then ""
    else
      var last := path[|path| - 1];
      if last == Separator then ""
      else if last == '.' then "."
      else
        var e := Ext(path[..|path| - 1]);
        if e == "" then "" else e + [last]
  }

  /** `strings.TrimSuffix`: `s` without `suffix` when it ends with it, otherwise `s`. */
  function TrimSuffix(s: string, suffix: string): string
  {
    if |suffix| <= |s| && s[|s| - |suffix|..] == suffix then s[..|s| - |suffix|] else s
  }

  /** zk's `paths.FilenameStem`: the base name of `path` without its extension. */
  function FilenameStem(path: string): string
  {
    var name := Base(path);
    TrimSuffix(name, Ext(name))
  }

  /** Trimming removes separators only, from the end, and leaves no separator last. */
  lemma {:induction false} TrimmedPrefix(path: string)
    ensures var r := TrimTrailingSeparators(path);
      && |r| <= |path| && r == path[..|r|]
      && (r == "" || r[|r| - 1] != Separator)
      && forall k :: |r| <= k < |path| ==> path[k] == Separator
  {
    if path != "" && path[|path| - 1] == Separator {
      TrimmedPrefix(path[..|path| - 1]);
    }
  }

  /** The last element is the separator-free suffix of `path` after its last separator, or all of `path` when it has none. */
  lemma {:induction false} LastElementIsFinalSegment(path: string)
    ensures var r := LastElement(path);
      && |r| <= |path| && r == path[|path| - |r|..]
      && Separator !in r
      && (|r| < |path| ==> path[|path| - |r| - 1] == Separator)
  {
    if path != "" && path[|path| - 1] != Separator {
      var init := path[..|path| - 1];
      LastElementIsFinalSegment(init);
      var r0 := LastElement(init);
      assert path[|path| - |r0| - 1..] == r0 + [path[|path| - 1]];
    }
  }

  /** A base name is never empty, and it is either "/" or free of separators. */
  lemma BaseIsOneElement(path: string)
    ensures Base(path) != ""
    ensures Base(path) == [Separator] || Separator !in Base(path)
  {
    if path != "" {
      var trimmed := TrimTrailingSeparators(path);
      TrimmedPrefix(path);
      if trimmed != "" {
        LastElementIsFinalSegment(trimmed);
        assert LastElement(trimmed) != "";
      }
    }
  }

  /**
   * An extension is a suffix of the path that starts with its only dot and
   * holds no separator, and it is empty exactly when the last element has no dot.
   */
  lemma {:induction false} ExtIsDottedSuffix(path: string)
    ensures var r := Ext(path);
      && |r| <= |path| && r == path[|path| - |r|..]
      && (r != "" ==> r[0] == '.' && '.' !in r[1..] && Separator !in r)
    ensures Ext(path) == "" <==> '.' !in LastElement(path)
  {
    if path != "" && path[|path| - 1] != Separator && path[|path| - 1] != '.' {
      var init, last := path[..|path| - 1], path[|path| - 1];
      ExtIsDottedSuffix(init);
      assert LastElement(path) == LastElement(init) + [last];
      var e := Ext(init);
      if e != "" {
        var r := e + [last];
        assert Ext(path) == r;
        assert path[|path| - |r|..] == init[|init| - |e|..] + [last];
        assert r[1..] == e[1..] + [last];
      }
    }
  }

  /** The last element of a path that ends in a separator-free name after a separator (or nothing) is that name. */
  lemma {:induction false} LastElementOfName(prefix: string, name: string)
    requires Separator !in name
    requires prefix == "" || prefix[|prefix| - 1] == Separator
    ensures LastElement(prefix + name) == name
  {
    if name != "" {
      var init := name[..|name| - 1];
      assert (prefix + name)[..|prefix + name| - 1] == prefix + init;
      LastElementOfName(prefix, init);
      assert init + [name[|name| - 1]] == name;
    } else {
      assert prefix + name == prefix;
    }
  }

  /** Joining a non-empty, separator-free name onto any directory keeps that name as the base name. */
  lemma BaseOfJoin(dir: string, name: string)
    requires name != "" && Separator !in name
    ensures Base(Join(dir, name)) == name
  {
    var joined := Join(dir, name);
    var prefix := if dir == "" then "" else dir + [Separator];
    assert joined == prefix + name;
    assert joined[|joined| - 1] == name[|name| - 1];
    assert TrimTrailingSeparators(joined) == joined;
    LastElementOfName(prefix, name);
  }

  /** A name followed by "." and a dot-free, separator-free extension has exactly that extension. */
  lemma {:induction false} ExtOfDotted(name: string, ext: string)
    requires '.' !in ext && Separator !in ext
    ensures Ext(name + "." + ext) == "." + ext
  {
    var s := name + "." + ext;
    if ext != "" {
      var init := ext[..|ext| - 1];
      assert s[..|s| - 1] == name + "." + init;
      assert s[|s| - 1] == ext[|ext| - 1];
      ExtOfDotted(name, init);
      assert "." + init + [ext[|ext| - 1]] == "." + ext;
    } else {
      assert s[|s| - 1] == '.';
    }
  }

  /**
   * The note path built from a rendered name and the configured extension
   * gives back "name.ext" as its base name and the rendered name as its stem.
   */
  lemma NoteFileNames(dir: string, name: string, ext: string)
    requires Separator !in name
    requires '.' !in ext && Separator !in ext
    ensures Base(Join(dir, name + "." + ext)) == name + "." + ext
    ensures FilenameStem(Join(dir, name + "." + ext)) == name
  {
    var filename := name + "." + ext;
    assert Separator !in filename by {
      assert forall k :: 0 <= k < |filename| ==> filename[k] in name || filename[k] == '.' || filename[k] in ext;
    }
    BaseOfJoin(dir, filename);
    ExtOfDotted(name, ext);
    assert filename[|filename| - |"." + ext|..] == "." + ext;
    assert filename[..|filename| - |"." + ext|] == name;
  }
}
