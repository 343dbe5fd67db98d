/** The Go string helpers the driver uses, on sequences of characters, and what they mean. */
module Strings {

  // ---------- strings.Split with a one-character separator ----------

  function Split(s: string, sep: char): (parts: seq<string>)
    ensures |parts| >= 1
  {
    if s == "" then [""]
    else
      var rest := Split(s[1..], sep);
      if s[0] == sep then [""] + rest else [[s[0]] + rest[0]] + rest[1..]
  }

  function Join(parts: seq<string>, sep: char): string
    requires |parts| >= 1
  {
    if |parts| == 1 then parts[0] else parts[0] + [sep] + Join(parts[1..], sep)
  }

  ghost predicate AllFree(parts: seq<string>, sep: char) {
    forall i :: 0 <= i < |parts| ==> sep !in parts[i]
  }

  lemma {:induction false} JoinSplit(s: string, sep: char)
    ensures Join(Split(s, sep), sep) == s
    ensures AllFree(Split(s, sep), sep)
  {
    if s == "" {
    } else {
      JoinSplit(s[1..], sep);
      var rest := Split(s[1..], sep);
      var parts := Split(s, sep);
      if s[0] == sep {
        assert parts[1..] == rest;
        assert s == [sep] + s[1..];
        assert Join(parts, sep) == [] + [sep] + Join(rest, sep);
      } else {
        if |rest| > 1 {
          assert parts[1..] == rest[1..];
          calc {
            Join(parts, sep);
            parts[0] + [sep] + Join(parts[1..], sep);
            [s[0]] + rest[0] + [sep] + Join(rest[1..], sep);
            {
              var more := Join(rest[1..], sep);
              assert [s[0]] + rest[0] + [sep] + more == [s[0]] + (rest[0] + [sep] + more);
            }
            [s[0]] + Join(rest, sep);
          }
        }
        assert s == [s[0]] + s[1..];
      }
    }
  }

  lemma {:induction false} SplitFree(a: string, sep: char)
    requires sep !in a
    ensures Split(a, sep) == [a]
  {
    if a == "" {
    } else {
      assert sep !in a[1..];
      SplitFree(a[1..], sep);
      assert [a[0]] + a[1..] == a;
    }
  }

  lemma {:induction false} SplitCons(a: string, b: string, sep: char)
    requires sep !in a
    ensures Split(a + [sep] + b, sep) == [a] + Split(b, sep)
  {
    var s := a + [sep] + b;
    if a == "" {
      assert s[1..] == b;
    } else {
      assert s[1..] == a[1..] + [sep] + b;
      SplitCons(a[1..], b, sep);
      assert [a[0]] + a[1..] == a;
    }
  }

  lemma {:induction false} SplitJoin(parts: seq<string>, sep: char)
    requires |parts| >= 1 && AllFree(parts, sep)
    ensures Split(Join(parts, sep), sep) == parts
  {
    if |parts| == 1 {
      SplitFree(parts[0], sep);
    } else {
      SplitJoin(parts[1..], sep);
      SplitCons(parts[0], Join(parts[1..], sep), sep);
      assert [parts[0]] + parts[1..] == parts;
    }
  }

  /** Splitting at a separator in the middle splits both sides. */
  lemma {:induction false} SplitJoined(a: string, b: string, sep: char)
    ensures Split(a + [sep] + b, sep) == Split(a, sep) + Split(b, sep)
  {
    var s := a + [sep] + b;
    if a == "" {
      assert s[1..] == b;
    } else {
      assert s[1..] == a[1..] + [sep] + b;
      SplitJoined(a[1..], b, sep);
    }
  }

  lemma {:induction false} SplitLength(a: string, b: string, sep: char)
    ensures |Split(a + b, sep)| == |Split(a, sep)| + |Split(b, sep)| - 1
  {
    if a == "" {
      assert a + b == b;
    } else {
      assert (a + b)[1..] == a[1..] + b;
      SplitLength(a[1..], b, sep);
    }
  }

  lemma {:induction false} SplitMore(s: string, sep: char)
    ensures |Split(s, sep)| > 1 <==> sep in s
    ensures sep !in Split(s, sep)[0] && |Split(s, sep)[0]| <= |s|
  {
    if s == "" {
    } else {
      SplitMore(s[1..], sep);
      assert s == [s[0]] + s[1..];
    }
  }

  // ---------- strings.Index and strings.Replace(s, old, new, 1) ----------

  function IndexOf(s: string, sub: string): (i: int)
    ensures -1 <= i && (i >= 0 ==> i + |sub| <= |s|)
  {
    if sub <= s then 0
    else if s == "" then -1
    else
      var i := IndexOf(s[1..], sub);
      if i < 0 then -1 else i + 1
  }

  function ReplaceFirst(s: string, old_: string, new_: string): string {
    var i := IndexOf(s, old_);
    if i < 0 then s else s[..i] + new_ + s[i + |old_|..]
  }

  lemma ReplacePrefix(p: string, r: string, new_: string)
    ensures ReplaceFirst(p + r, p, new_) == new_ + r
  {
    var s := p + r;
    assert p <= s;
    assert IndexOf(s, p) == 0;
    assert s[..0] == "" && s[|p|..] == r;
    assert ReplaceFirst(s, p, new_) == "" + new_ + r;
  }

  /** strings.Contains */
  ghost predicate Contains(s: string, sub: string) {
    exists i :: 0 <= i <= |s| && sub <= s[i..]
  }

  /** The index is that of the first place at which the text occurs, and -1 if there is none. */
  lemma {:induction false} IndexOfExactly(s: string, sub: string)
    ensures var i := IndexOf(s, sub);
      && (i >= 0 <==> Contains(s, sub))
      && (i >= 0 ==> sub <= s[i..])
      && (forall j :: 0 <= j <= |s| && (i >= 0 ==> j < i) ==> !(sub <= s[j..]))
  {
    var i := IndexOf(s, sub);
    if sub <= s {
      assert s[0..] == s;
    } else if s == "" {
      assert forall j :: 0 <= j <= |s| ==> s[j..] == s;
    } else {
      var rest := s[1..];
      IndexOfExactly(rest, sub);
      forall j | 0 <= j <= |s| && (i >= 0 ==> j < i) ensures !(sub <= s[j..]) {
        if j == 0 {
          assert s[0..] == s;
        } else {
          assert s[j..] == rest[j - 1..];
        }
      }
      if i >= 0 {
        assert s[i..] == rest[i - 1..];
      }
    }
  }

  // ---------- strings.Trim with the cutset "!/" ----------

  predicate Cut(c: char) {
    c == '!' || c == '/'
  }

  ghost predicate AllCut(s: string) {
    forall i :: 0 <= i < |s| ==> Cut(s[i])
  }

  predicate EndsCut(s: string) {
    s != "" && Cut(s[|s| - 1])
  }

  predicate StartsCut(s: string) {
    s != "" && Cut(s[0])
  }

  function TrimLeft(s: string): string {
    if StartsCut(s) then TrimLeft(s[1..]) else s
  }

  function TrimRight(s: string): string {
    if EndsCut(s) then TrimRight(s[..|s| - 1]) else s
  }

  lemma {:induction false} TrimLeftSplits(s: string) returns (l: string)
    ensures AllCut(l) && s == l + TrimLeft(s) && !StartsCut(TrimLeft(s))
  {
    if StartsCut(s) {
      var l' := TrimLeftSplits(s[1..]);
      l := [s[0]] + l';
    } else {
      l := "";
    }
  }

  lemma {:induction false} TrimRightSplits(s: string) returns (r: string)
    ensures AllCut(r) && s == TrimRight(s) + r && !EndsCut(TrimRight(s))
  {
    if EndsCut(s) {
      var r' := TrimRightSplits(s[..|s| - 1]);
      r := r' + [s[|s| - 1]];
    } else {
      r := "";
    }
  }

  function Trim(s: string): string {
    TrimRight(TrimLeft(s))
  }

  /** Trimming keeps a core that is non-empty and clean at both ends. */
  lemma TrimAround(l: string, core: string, r: string)
    requires AllCut(l) && AllCut(r) && core != "" && !StartsCut(core) && !EndsCut(core)
    ensures Trim(l + core + r) == core
  {
    TrimLeftSkips(l, core + r);
    assert l + core + r == l + (core + r);
    TrimRightSkips(core, r);
  }

  /** Nothing but exclamation marks and slashes. */
  predicate Edging(s: string) {
    forall i :: 0 <= i < |s| ==> s[i] == '!' || s[i] == '/'
  }

  /** Something that neither starts nor ends with an exclamation mark or a slash. */
  predicate Bare(s: string) {
    s != "" && s[0] != '!' && s[0] != '/' && s[|s| - 1] != '!' && s[|s| - 1] != '/'
  }

  /** Exclamation marks and slashes go at both ends, and nothing else does. */
  lemma TrimExactly(l: string, core: string, r: string)
    requires Edging(l) && Bare(core) && Edging(r)
    ensures Trim(l + core + r) == core && Trim(l + r) == ""
  {
    TrimAround(l, core, r);
    TrimEmpty(l + r);
  }

  lemma {:induction false} TrimLeftSkips(l: string, s: string)
    requires AllCut(l) && !StartsCut(s)
    ensures TrimLeft(l + s) == s
  {
    if l == "" {
      assert l + s == s;
    } else {
      assert (l + s)[1..] == l[1..] + s;
      TrimLeftSkips(l[1..], s);
    }
  }

  lemma {:induction false} TrimRightSkips(s: string, r: string)
    requires AllCut(r) && !EndsCut(s)
    ensures TrimRight(s + r) == s
  {
    if r == "" {
      assert s + r == s;
    } else {
      assert (s + r)[..|s + r| - 1] == s + r[..|r| - 1];
      TrimRightSkips(s, r[..|r| - 1]);
    }
  }

  /** Every string is its trimmed core between two runs of cut characters. */
  lemma TrimSplits(s: string) returns (l: string, r: string)
    ensures AllCut(l) && AllCut(r)
    ensures s == l + Trim(s) + r
    ensures !StartsCut(Trim(s)) && !EndsCut(Trim(s))
  {
    l := TrimLeftSplits(s);
    var t := TrimLeft(s);
    r := TrimRightSplits(t);
    assert l + (Trim(s) + r) == l + Trim(s) + r;
    if Trim(s) != "" {
      assert Trim(s)[0] == t[0];
    }
  }

  /** Nothing is left exactly when there was nothing but cut characters. */
  lemma TrimEmpty(s: string)
    ensures Trim(s) == "" <==> AllCut(s)
  {
    var l, r := TrimSplits(s);
    if Trim(s) != "" {
      assert s[|l|] == Trim(s)[0];
    }
  }

  function TrimSuffixSlash(s: string): string {
    if s != "" && s[|s| - 1] == '/' then s[..|s| - 1] else s
  }

  // ---------- filepath.Base ----------

  function DropSlashes(s: string): string {
    if s != "" && s[|s| - 1] == '/' then DropSlashes(s[..|s| - 1]) else s
  }

  function LastComponent(s: string): string {
    if s == "" || s[|s| - 1] == '/' then "" else LastComponent(s[..|s| - 1]) + [s[|s| - 1]]
  }

  function Base(p: string): string {
    if p == "" then "."
    else
      var t := DropSlashes(p);
      if t == "" then "/" else LastComponent(t)
  }

  /** The last component of "dir/name" is the name. */
  lemma {:induction false} LastOfJoined(dir: string, name: string)
    requires '/' !in name
    ensures LastComponent(dir + "/" + name) == name
    decreases |name|
  {
    var s := dir + "/" + name;
    if name != "" {
      var k := |name| - 1;
      assert s[|s| - 1] == name[k];
      assert s[..|s| - 1] == dir + "/" + name[..k];
      LastOfJoined(dir, name[..k]);
      assert name[..k] + [name[k]] == name;
    }
  }

  lemma BaseOfJoined(dir: string, name: string)
    requires name != "" && '/' !in name
    ensures Base(dir + "/" + name) == name
  {
    var s := dir + "/" + name;
    assert s[|s| - 1] == name[|name| - 1];
    LastOfJoined(dir, name);
  }

  /** A final slash does not count, and what is left may have no slash at all or nothing else. */
  lemma BaseExactly(name: string)
    requires name != "" && '/' !in name
    ensures Base(name) == name && Base(name + "/") == name
    ensures Base("") == "." && Base("/") == "/"
  {
    assert name[|name| - 1] in name;
    assert (name + "/")[..|name|] == name;
    LastOfFree(name);
  }

  lemma {:induction false} LastOfFree(name: string)
    requires '/' !in name
    ensures LastComponent(name) == name
  {
    if name != "" {
      assert name[|name| - 1] in name;
      LastOfFree(name[..|name| - 1]);
    }
  }
}
