/** The three `os.path` functions the handler uses, with POSIX (`posixpath`) semantics. */
module PosixPath {

  /** Index just past the last '/' of `p`, or 0 when there is none (`p.rfind('/') + 1`). */
  function TailStart(p: string): (i: nat)
    ensures i <= |p|
    ensures '/' !in p[i..]
    ensures i == 0 || p[i - 1] == '/'
  {
    if p == [] then 0
    else if p[|p| - 1] == '/' then |p|
    else
      var i := TailStart(p[..|p| - 1]);
      assert p[i..] == p[..|p| - 1][i..] + [p[|p| - 1]];
      i
  }

  /** `posixpath.basename`: the longest suffix of `p` that holds no '/'. */
  function Basename(p: string): (b: string)
    ensures '/' !in b
    ensures |b| <= |p| && b == p[|p| - |b|..]
    ensures |b| == |p| || p[|p| - |b| - 1] == '/'
  {
    p[TailStart(p)..]
  }

  predicate AllSlashes(s: string)
  {
    forall i :: 0 <= i < |s| ==> s[i] == '/'
  }

  /** `s.rstrip('/')`. */
  function RStripSlashes(s: string): (r: string)
    ensures |r| <= |s| && r == s[..|r|]
    ensures AllSlashes(s[|r|..])
    ensures r == [] || r[|r| - 1] != '/'
  {
    if s != [] && s[|s| - 1] == '/' then
      var r := RStripSlashes(s[..|s| - 1]);
      assert s[|r|..] == s[..|s| - 1][|r|..] + ['/'];
      r
    else s
  }

  /** `posixpath.dirname`: everything up to the last '/', with the trailing slashes of
      that head removed, unless the head consists of slashes only. */
  function Dirname(p: string): (d: string)
    ensures var head := p[..TailStart(p)];
            if AllSlashes(head) then d == head
            else d != [] && d[|d| - 1] != '/' && |d| <= |head| && d == head[..|d|] && AllSlashes(head[|d|..])
  {
    var head := p[..TailStart(p)];
    if head != [] && !AllSlashes(head) then RStripSlashes(head) else head
  }

  /** `posixpath.join(a, b)` for two components. */
  function Join(a: string, b: string): string
  {
    if b != [] && b[0] == '/' then b
    else if a == [] || a[|a| - 1] == '/' then a + b
    else a + "/" + b
  }

  /** `path.join(path.dirname(p), path.basename(p))`. */
  function Rejoin(p: string): string
  {
    Join(Dirname(p), Basename(p))
  }

  /** The head of `p` ends in two or more slashes but is not made of slashes only:
      the only case where `Rejoin` changes a path. */
  predicate RedundantSlashes(p: string)
  {
    var head := p[..TailStart(p)];
    |head| >= 2 && head[|head| - 2] == '/' && !AllSlashes(head)
  }

  /** Splitting a path into directory and base name and joining them again gives the
      same path exactly when the base name is not preceded by two or more slashes that
      follow some other character (a head of slashes only, as in `//x`, comes back
      unchanged). */
  lemma {:induction false} RejoinIdentity(p: string)
    ensures Rejoin(p) == p <==> !RedundantSlashes(p)
  {
    var i := TailStart(p);
    var head, base := p[..i], p[i..];
    assert p == head + base;
    var d := Dirname(p);
    if head == [] {
      assert Rejoin(p) == p;
    } else if AllSlashes(head) {
      assert d == head && d[|d| - 1] == '/';
      assert Rejoin(p) == d + base;
    } else {
      assert head[|head| - 1] == '/';
      assert |d| < |head|;
      assert Rejoin(p) == d + "/" + base;
      if RedundantSlashes(p) {
        assert head[|head| - 2] == '/';
        assert |d| <= |head| - 2;
        assert |Rejoin(p)| < |p|;
      } else {
        assert |d| == |head| - 1;
        assert head == d + "/";
      }
    }
  }

  /** The key of a marker object: its base name is the marker, its directory is the
      folder it sits in (no trailing '/'), and a marker at the root has directory "". */
  lemma {:induction false} MarkerKeyParts(dir: string, name: string)
    requires '/' !in name
    requires dir == [] || dir[|dir| - 1] != '/'
    ensures var key := if dir == [] then name else dir + "/" + name;
            Basename(key) == name && Dirname(key) == dir
  {
    var key := if dir == [] then name else dir + "/" + name;
    if dir == [] {
      assert TailStart(key) == 0;
    } else {
      var i := |dir| + 1;
      assert key[i - 1] == '/' && key[i..] == name;
      assert TailStart(key) == i;
      var head := key[..i];
      assert head == dir + "/";
      assert !AllSlashes(head) by {
        assert head[|dir| - 1] != '/';
      }
      var d := Dirname(key);
      assert |d| == |dir|;
    }
  }

  /** A key whose folder part is slashes only (`/name`, `//name`): its directory is those
      slashes, trailing '/' included. */
  lemma {:induction false} SlashesKeyParts(slashes: string, name: string)
    requires '/' !in name && slashes != [] && AllSlashes(slashes)
    ensures Basename(slashes + name) == name && Dirname(slashes + name) == slashes
  {
    var key := slashes + name;
    var i := |slashes|;
    assert key[i - 1] == '/' && key[i..] == name;
    assert TailStart(key) == i;
    assert key[..i] == slashes;
  }

  /** A base name placed under any directory is the base name of the result. */
  lemma {:induction false} BasenameUnder(dir: string, name: string)
    requires '/' !in name
    ensures Basename(dir + "/" + name) == name
  {
    var p := dir + "/" + name;
    assert p[|dir|] == '/' && p[|dir| + 1..] == name;
  }

  /** A name without '/' is its own base name. */
  lemma {:induction false} BasenameOfName(name: string)
    requires '/' !in name
    ensures Basename(name) == name
  {
  }

  /** The three properties in TailStart's contract determine it. */
  lemma {:induction false} TailStartUnique(p: string, i: nat)
    requires i <= |p| && '/' !in p[i..] && (i == 0 || p[i - 1] == '/')
    ensures TailStart(p) == i
  {
    if p != [] && p[|p| - 1] != '/' {
      assert p[|p| - 1] in p[i..];
      var init := p[..|p| - 1];
      assert init[i..] == p[i..|p| - 1];
      TailStartUnique(init, i);
    }
  }

  lemma {:induction false} TailStartAppend(p: string, t: string)
    requires '/' !in t
    ensures TailStart(p + t) == TailStart(p)
  {
    var i := TailStart(p);
    assert (p + t)[i..] == p[i..] + t;
    TailStartUnique(p + t, i);
  }

  lemma {:induction false} DirnameAppend(p: string, t: string)
    requires '/' !in t
    ensures Dirname(p + t) == Dirname(p)
  {
    var i := TailStart(p);
    TailStartAppend(p, t);
    assert (p + t)[..i] == p[..i];
  }

  lemma {:induction false} BasenameAppend(p: string, t: string)
    requires '/' !in t
    ensures Basename(p + t) == Basename(p) + t
  {
    var i := TailStart(p);
    TailStartAppend(p, t);
    assert (p + t)[i..] == p[i..] + t;
  }

  lemma {:induction false} JoinAppend(d: string, b: string, t: string)
    requires '/' !in b && '/' !in t
    ensures Join(d, b + t) == Join(d, b) + t
  {
    if b + t != [] {
      assert (b + t)[0] in b + t;
    }
  }

  /** Text without '/' appended to a path lengthens its base name and leaves the
      directory alone, so rejoining commutes with appending it. */
  lemma {:induction false} RejoinAppend(p: string, t: string)
    requires '/' !in t
    ensures Rejoin(p + t) == Rejoin(p) + t
  {
    DirnameAppend(p, t);
    BasenameAppend(p, t);
    JoinAppend(Dirname(p), Basename(p), t);
  }

  /** Rejoining a non-empty path without newlines gives a non-empty path without newlines. */
  lemma {:induction false} RejoinNoNewline(p: string)
    requires p != [] && '\n' !in p
    ensures Rejoin(p) != [] && '\n' !in Rejoin(p)
  {
    var i := TailStart(p);
    var head := p[..i];
    var d, b := Dirname(p), Basename(p);
    assert '\n' !in head;
    assert '\n' !in d by {
      if !AllSlashes(head) {
        assert d == head[..|d|];
      }
    }
    if b == [] {
      assert head == p;
      assert d != [];
    }
  }
}
