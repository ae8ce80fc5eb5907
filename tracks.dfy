/**
 * Playlist entries (renderer.js, `selectMusic`): each selected file becomes a
 * record of its path and its display name, the last component of the path as
 * Node's POSIX `path.basename` gives it.
 */
module Tracks {

  datatype Track = Track(path: string, name: string)

  predicate NoSlash(s: string) {
    forall i :: 0 <= i < |s| ==> s[i] != '/'
  }

  /** The path without its trailing separators. */
  function StripTrailingSlashes(p: string): (r: string)
    ensures |r| <= |p| && r == p[..|r|]
    ensures r == [] || r[|r| - 1] != '/'
    ensures forall i :: |r| <= i < |p| ==> p[i] == '/'
  {
    if p != [] && p[|p| - 1] == '/' then StripTrailingSlashes(p[..|p| - 1]) else p
  }

  /** The longest suffix of `p` that holds no separator. */
  function AfterLastSlash(p: string): (r: string)
    ensures |r| <= |p| && r == p[|p| - |r|..]
    ensures NoSlash(r)
    ensures |r| < |p| ==> p[|p| - |r| - 1] == '/'
  {
    if p == [] || p[|p| - 1] == '/' then [] else AfterLastSlash(p[..|p| - 1]) + [p[|p| - 1]]
  }

  /**
   * `path.basename(p)` on POSIX: the last non-empty component ("" for "/" and
   * ""), a separator-free suffix of the path once its trailing separators are
   * dropped.
   */
  function Basename(p: string): (r: string)
    ensures NoSlash(r) && |r| <= |p|
    ensures var q := StripTrailingSlashes(p); |r| <= |q| && r == q[|q| - |r|..]
  {
    AfterLastSlash(StripTrailingSlashes(p))
  }

  /** A bare file name is its own basename. */
  lemma {:induction false} BasenameOfName(name: string)
    requires NoSlash(name)
    ensures Basename(name) == name
  {
    AfterLastSlashOfName(name);
  }

  lemma {:induction false} AfterLastSlashOfName(name: string)
    requires NoSlash(name)
    ensures AfterLastSlash(name) == name
  {
    if name != [] {
      AfterLastSlashOfName(name[..|name| - 1]);
    }
  }

  /**
   * Joining a directory and a file name and taking the basename gives the
   * file name back, with or without trailing separators after it.
   */
  lemma BasenameOfJoin(dir: string, name: string, trailing: nat)
    requires name != [] && NoSlash(name)
    ensures Basename(dir + "/" + name + Slashes(trailing)) == name
  {
    var p := dir + "/" + name;
    StripSlashes(p, trailing);
    JoinAfterLastSlash(dir + "/", name);
  }

  function Slashes(k: nat): (s: string)
    ensures |s| == k && forall i :: 0 <= i < k ==> s[i] == '/'
  {
    if k == 0 then [] else Slashes(k - 1) + ['/']
  }

  lemma {:induction false} StripSlashes(p: string, k: nat)
    requires p != [] && p[|p| - 1] != '/'
    ensures StripTrailingSlashes(p + Slashes(k)) == p
  {
    if k > 0 {
      var q := p + Slashes(k);
      assert q[..|q| - 1] == p + Slashes(k - 1);
      StripSlashes(p, k - 1);
    }
  }

  lemma {:induction false} JoinAfterLastSlash(prefix: string, name: string)
    requires prefix != [] && prefix[|prefix| - 1] == '/'
    requires NoSlash(name)
    ensures AfterLastSlash(prefix + name) == name
  {
    if name == [] {
      assert prefix + name == prefix;
    } else {
      var p := prefix + name;
      assert p[..|p| - 1] == prefix + name[..|name| - 1];
      JoinAfterLastSlash(prefix, name[..|name| - 1]);
    }
  }

  /** The playlist entry for one selected file: `{ path: file, name: path.basename(file) }`. */
  function TrackOf(file: string): (t: Track)
    ensures t.path == file && NoSlash(t.name)
  {
    Track(file, Basename(file))
  }

  /** `files.map(...)`: one entry per selected file, in the order selected. */
  function TracksOf(files: seq<string>): (ts: seq<Track>)
    ensures |ts| == |files|
    ensures forall i :: 0 <= i < |files| ==> ts[i] == TrackOf(files[i])
  {
    seq(|files|, i requires 0 <= i < |files| => TrackOf(files[i]))
  }

  /** What the audio element is pointed at: `file://` followed by the path. */
  function SourceUrl(t: Track): (url: string)
    ensures |url| == 7 + |t.path| && url[..7] == "file://" && url[7..] == t.path
  {
    "file://" + t.path
  }

  /** Two entries get the same source exactly when they have the same path. */
  lemma SourceUrlInjective(a: Track, b: Track)
    ensures SourceUrl(a) == SourceUrl(b) <==> a.path == b.path
  {
    if SourceUrl(a) == SourceUrl(b) {
      assert a.path == SourceUrl(a)[7..];
    }
  }
}
