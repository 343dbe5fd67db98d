/** The check that the host path a node mounts and the places volumes live in can see one another. */
module Hostpath {
  import opened Strings

  function Slashed(path: string): string {
    if path != "" && path[|path| - 1] == '/' then path else path + "/"
  }

  /** ValidateHostpath; hostpath is the value of SCALE_HOSTPATH, empty when it is not defined. */
  method ValidateHostpath(mountpath: string, linkpath: string, hostpath: string) returns (ok: bool)
    ensures ok <==> hostpath != "" && Passes(Dirs(hostpath), Dirs(mountpath), Dirs(linkpath))
  {
    if hostpath == "" {
      return false;
    }
    var host, link, mount := hostpath, linkpath, mountpath;
    if host[|host| - 1] != '/' {
      host := host + "/";
    }
    if link == "" || link[|link| - 1] != '/' {
      link := link + "/";
    }
    if mount == "" || mount[|mount| - 1] != '/' {
      mount := mount + "/";
    }
    assert host == Slashed(hostpath) && link == Slashed(linkpath) && mount == Slashed(mountpath);
    PathPrefix(linkpath, hostpath);
    PathPrefix(mountpath, hostpath);
    PathPrefix(hostpath, linkpath);
    PathPrefix(hostpath, mountpath);
    if !(link <= host) && !(mount <= host) && !(host <= link) && !(host <= mount) {
      return false;
    }
    return true;
  }

  /** The path components of a path, whether or not it was written with a final slash. */
  function Dirs(path: string): seq<string> {
    var parts := Split(Slashed(path), '/');
    parts[..|parts| - 1]
  }

  /** The components of "/a/b", "/a/b/" and so on, after the empty one in front of the first slash. */
  lemma DirsExactly(parts: seq<string>, inner: string)
    requires parts != [] && forall i :: 0 <= i < |parts| ==> parts[i] != "" && '/' !in parts[i]
    requires inner == Join(parts, '/')
    ensures Dirs("/" + inner) == Dirs("/" + inner + "/") == [""] + parts
  {
    JoinEnd(parts);
    InnerDirs(parts);
    BelowTop(inner, parts);
  }

  lemma BelowTop(inner: string, parts: seq<string>)
    requires inner != "" && inner[|inner| - 1] != '/' && Split(inner + "/", '/') == parts + [""] && parts != []
    ensures Dirs("/" + inner) == Dirs("/" + inner + "/") == [""] + parts
  {
    var below := inner + "/";
    SplitCons("", below, '/');
    TopAgain(inner);
    assert [""] + (parts + [""]) == [""] + parts + [""];
    WithoutLast("/" + inner, [""] + parts);
  }

  lemma TopAgain(inner: string)
    ensures "/" + inner + "/" == "" + ['/'] + (inner + "/")
  {
  }

  lemma WithoutLast(path: string, parts: seq<string>)
    requires path != "" && path[|path| - 1] != '/' && Split(path + "/", '/') == parts + [""]
    ensures Dirs(path) == Dirs(path + "/") == parts
  {
    OneSlash(path);
    assert (parts + [""])[..|parts|] == parts;
  }

  /** A final slash makes no difference. */
  lemma OneSlash(path: string)
    requires path != "" && path[|path| - 1] != '/'
    ensures Dirs(path) == Dirs(path + "/") && Slashed(path + "/") == path + "/"
  {
  }

  lemma InnerDirs(parts: seq<string>)
    requires parts != [] && forall i :: 0 <= i < |parts| ==> '/' !in parts[i]
    ensures Split(Join(parts, '/') + "/", '/') == parts + [""]
  {
    var inner := Join(parts, '/');
    SplitJoin(parts, '/');
    SplitJoined(inner, "", '/');
    assert inner + ['/'] + "" == inner + "/";
    assert Split("", '/') == [""];
  }

  lemma {:induction false} JoinEnd(parts: seq<string>)
    requires parts != [] && forall i :: 0 <= i < |parts| ==> parts[i] != "" && '/' !in parts[i]
    ensures var s := Join(parts, '/'); s != "" && s[|s| - 1] != '/'
  {
    if |parts| == 1 {
      assert parts[0][|parts[0]| - 1] in parts[0];
    } else {
      JoinEnd(parts[1..]);
    }
  }

  /** The four-way test, on path components. */
  predicate Passes(host: seq<string>, mount: seq<string>, link: seq<string>) {
    link <= host || mount <= host || host <= link || host <= mount
  }

  /** The paths part ways at some component. */
  predicate Differ(a: seq<string>, b: seq<string>) {
    exists i :: 0 <= i < |a| && i < |b| && a[i] != b[i]
  }

  /** The host path may lie inside the link path or the mount point, or hold one of them, and nothing else passes. */
  lemma PassesExactly(inner: seq<string>, outer: seq<string>, other: seq<string>)
    ensures Passes(inner + other, inner, outer) && Passes(inner + other, outer, inner)
    ensures Passes(inner, inner + other, outer) && Passes(inner, outer, inner + other)
    ensures Differ(inner, outer) && Differ(inner, other) ==> !Passes(inner, outer, other)
  {
  }

  /** What is left of a slash-terminated string after its first component is empty or slash-terminated again. */
  lemma FirstComponent(s: string) returns (first: string, rest: string)
    requires s != "" && s[|s| - 1] == '/'
    ensures s == first + "/" + rest && '/' !in first
    ensures rest != "" ==> rest[|rest| - 1] == '/'
  {
    first := "";
    var i := 0;
    while s[i] != '/'
      invariant 0 <= i < |s| && first == s[..i] && '/' !in first
      decreases |s| - i
    {
      i := i + 1;
      first := s[..i];
    }
    rest := s[i + 1..];
    assert s == first + "/" + rest;
  }

  lemma DirsCons(s: string, first: string, rest: string)
    requires s == first + "/" + rest && '/' !in first && (rest != "" ==> rest[|rest| - 1] == '/')
    ensures Dirs(s) == [first] + if rest == "" then [] else Dirs(rest)
    ensures rest != "" ==> Dirs(rest) != []
  {
    SplitCons(first, rest, '/');
    assert s[|s| - 1] == '/';
    assert Slashed(s) == s;
    if rest != "" {
      assert rest[|rest| - 1] in rest;
      SplitMore(rest, '/');
    }
  }

  /** For slash-terminated strings, being a string prefix is being a prefix in path components. */
  lemma {:induction false} PrefixIsPathPrefix(a: string, b: string)
    requires a != "" && a[|a| - 1] == '/' && b != "" && b[|b| - 1] == '/'
    ensures a <= b <==> Dirs(a) <= Dirs(b)
    decreases |a|
  {
    var fa, ra := FirstComponent(a);
    var fb, rb := FirstComponent(b);
    DirsCons(a, fa, ra);
    DirsCons(b, fb, rb);
    assert Dirs(a)[0] == fa && Dirs(b)[0] == fb;
    if fa == fb {
      SameHead(fa, ra, rb);
      assert Dirs(a)[1..] == if ra == "" then [] else Dirs(ra);
      assert Dirs(b)[1..] == if rb == "" then [] else Dirs(rb);
      assert Dirs(a) <= Dirs(b) <==> Dirs(a)[1..] <= Dirs(b)[1..] by { SameTails(Dirs(a), Dirs(b)); }
      if ra != "" && rb != "" {
        PrefixIsPathPrefix(ra, rb);
      }
    } else if a <= b {
      OneFirst(fa, ra, fb, rb);
    }
  }

  lemma SameTails(a: seq<string>, b: seq<string>)
    requires a != [] && b != [] && a[0] == b[0]
    ensures a <= b <==> a[1..] <= b[1..]
  {
    if a[1..] <= b[1..] {
      assert a == [a[0]] + a[1..] && b == [a[0]] + b[1..];
      assert b[..|a|] == [a[0]] + b[1..][..|a| - 1];
    }
  }

  lemma SameHead(f: string, ra: string, rb: string)
    ensures f + "/" + ra <= f + "/" + rb <==> ra <= rb
  {
    var a, b := f + "/" + ra, f + "/" + rb;
    assert ra == a[|f| + 1..] && rb == b[|f| + 1..];
    if a <= b {
      assert b[|f| + 1..][..|ra|] == b[..|a|][|f| + 1..];
    }
    if ra <= rb {
      assert b[..|a|] == f + "/" + rb[..|ra|];
    }
  }

  lemma OneFirst(fa: string, ra: string, fb: string, rb: string)
    requires '/' !in fa && '/' !in fb && fa + "/" + ra <= fb + "/" + rb
    ensures fa == fb
  {
    var a, b := fa + "/" + ra, fb + "/" + rb;
    var tail := b[|a|..];
    assert b == a + tail;
    assert b == fa + "/" + (ra + tail);
    SplitCons(fa, ra + tail, '/');
    assert Split(b, '/')[0] == fa;
    SplitCons(fb, rb, '/');
    assert Split(b, '/')[0] == fb;
  }

  lemma PathPrefix(a: string, b: string)
    ensures Slashed(a) <= Slashed(b) <==> Dirs(a) <= Dirs(b)
  {
    PrefixIsPathPrefix(Slashed(a), Slashed(b));
    assert Slashed(Slashed(a)) == Slashed(a) && Slashed(Slashed(b)) == Slashed(b);
  }

  /** Below its mount point the link path adds nothing: the host path must contain the mount point or lie inside it. */
  lemma BelowMountComparable(host: seq<string>, mount: seq<string>, link: seq<string>)
    requires mount <= link
    ensures Passes(host, mount, link) <==> host <= mount || mount <= host
  {
    if host <= link {
      if |host| <= |mount| {
        assert host == link[..|host|] == mount[..|host|];
      } else {
        assert mount == link[..|mount|] == host[..|mount|];
      }
    }
    if link <= host {
      assert mount == link[..|mount|] == host[..|mount|];
    }
  }
}
