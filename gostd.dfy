/** The Go standard-library operations the request validator calls:
    `strings.SplitN(s, sep, 2)` for a one-character separator and
    `filepath.Ext` with '/' as the path separator. `HasSuffix`, with the
    meaning of Go's `strings.HasSuffix`, is not called by the validator; it
    only serves to state what the extension test admits. Strings are
    sequences of characters; Go works on bytes, which makes no difference for
    the ASCII separators used here. */
module GoStd {

  /** `s` ends with `suffix`, as Go's `strings.HasSuffix` decides it. */
  predicate HasSuffix(s: string, suffix: string) {
    |suffix| <= |s| && s[|s| - |suffix|..] == suffix
  }

  /** `strings.SplitN(s, string(sep), 2)`: the whole string when `sep` does
      not occur in it, otherwise the part before the first `sep` and the
      rest after it. */
  function SplitFirst(s: string, sep: char): (parts: seq<string>)
    ensures 1 <= |parts| <= 2
    ensures sep !in parts[0]
    ensures |parts| == 1 <==> sep !in s
    ensures |parts| == 1 ==> parts[0] == s
    ensures |parts| == 2 ==> s == parts[0] + [sep] + parts[1]
  {
    if |s| == 0 then [s]
    else if s[0] == sep then ["", s[1..]]
    else
      var rest := SplitFirst(s[1..], sep);
      [[s[0]] + rest[0]] + rest[1..]
  }

  /** Splitting at the first separator recovers both halves whenever the
      left half is free of the separator. */
  lemma {:induction false} SplitFirstJoin(left: string, sep: char, right: string)
    requires sep !in left
    ensures SplitFirst(left + [sep] + right, sep) == [left, right]
  {
    var s := left + [sep] + right;
    if left != [] {
      assert s[0] == left[0] != sep;
      assert s[1..] == left[1..] + [sep] + right;
      SplitFirstJoin(left[1..], sep, right);
      assert [left[0]] + left[1..] == left;
    }
  }

  const PathSeparator: char := '/'

  /** `filepath.Ext(path)`: the suffix of `path` that starts at the last '.'
      of its final element, or "" when that element has no '.'. */
  function Ext(path: string): (ext: string)
    ensures HasSuffix(path, ext)
    ensures ext != "" ==> ext[0] == '.'
    ensures forall i :: 0 < i < |ext| ==> ext[i] != '.' && ext[i] != PathSeparator
    ensures ext == "" ==>
      forall i :: 0 <= i < |path| && path[i] == '.' ==> PathSeparator in path[i + 1..]
  {
    if |path| == 0 then ""
    else
      var last := path[|path| - 1];
      if last == PathSeparator then ""
      else if last == '.' then "."
      else
        var ext := Ext(path[..|path| - 1]);
        if ext == "" then "" else ext + [last]
  }

  /** A path ending in a dot followed by characters that are neither dots nor
      separators has exactly that ending as its extension. */
  lemma {:induction false} ExtOfSuffix(stem: string, ext: string)
    requires ext != "" && ext[0] == '.'
    requires forall i :: 0 < i < |ext| ==> ext[i] != '.' && ext[i] != PathSeparator
    ensures Ext(stem + ext) == ext
  {
    var path := stem + ext;
    if |ext| > 1 {
      var shorter := ext[..|ext| - 1];
      assert path[..|path| - 1] == stem + shorter;
      ExtOfSuffix(stem, shorter);
      assert shorter + [ext[|ext| - 1]] == ext;
    }
  }
}
