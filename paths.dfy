/** The little of Node's `path` module that the upload client relies on:
    resolving a watcher-reported name against the watched folder, and the
    base name that the watcher's ignore option is matched against. */
module Paths {

  /** A POSIX absolute path starts at the root. */
  predicate IsAbsolute(p: string) {
    |p| > 0 && p[0] == '/'
  }

  /** `path.resolve(dir, name)` without normalisation: an absolute `name`
      stands for itself, a relative one is taken inside `dir`. */
  function Resolve(dir: string, name: string): (r: string)
    ensures IsAbsolute(dir) ==> IsAbsolute(r)
    ensures IsAbsolute(name) ==> r == name
    ensures !IsAbsolute(name) ==>
      |r| == |dir| + 1 + |name| && r[..|dir|] == dir && r[|dir|] == '/' && r[|dir| + 1..] == name
  {
    if IsAbsolute(name) then name else dir + "/" + name
  }

  /** The last path segment: everything after the final '/'. */
  function BaseName(p: string): (b: string)
    ensures |b| <= |p| && p[|p| - |b|..] == b
    ensures forall i :: 0 <= i < |b| ==> b[i] != '/'
    ensures |b| < |p| ==> p[|p| - |b| - 1] == '/'
  {
    if p == [] || p[|p| - 1] == '/' then []
    else BaseName(p[..|p| - 1]) + [p[|p| - 1]]
  }

  /** The file name the watcher is told to ignore (OS folder metadata). */
  const IgnoredName: string := ".DS_Store"

  /** The watcher's `ignored` option: no 'add' event for such a file. */
  predicate IsIgnored(p: string) {
    BaseName(p) == IgnoredName
  }

  /** A path is ignored exactly when it is ".DS_Store" or ends in "/.DS_Store". */
  lemma IgnoredIffSuffix(p: string)
    ensures IsIgnored(p) <==> (p == IgnoredName || EndsWithSlashName(p, IgnoredName))
  {
    NoSlashInIgnoredName();
    BaseNameIff(p, IgnoredName);
  }

  /** The ignored name is a single path segment. */
  lemma NoSlashInIgnoredName()
    ensures forall i :: 0 <= i < |IgnoredName| ==> IgnoredName[i] != '/'
  {
  }

  /** `p` ends in '/' followed by `name`. */
  predicate EndsWithSlashName(p: string, name: string) {
    |p| > |name| && p[|p| - |name| - 1] == '/' && p[|p| - |name|..] == name
  }

  /** A slash-free `name` is the base name of `p` exactly when `p` is `name`
      or ends in '/' followed by `name`. */
  lemma {:induction false} BaseNameIff(p: string, name: string)
    requires forall i :: 0 <= i < |name| ==> name[i] != '/'
    ensures BaseName(p) == name <==> (p == name || EndsWithSlashName(p, name))
  {
    var b := BaseName(p);
    if b == name && |p| == |b| {
      assert p == p[|p| - |b|..];
    }
  }
}
