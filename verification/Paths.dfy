/** Slash-separated paths, as path/filepath treats them on Unix, and the order of sort.Strings. */
module Paths {
  import opened Sorting

  // ---------------------------------------------------------------- the order

  predicate LexLeq(a: string, b: string) {
    a == "" || (b != "" && (a[0] < b[0] || (a[0] == b[0] && LexLeq(a[1..], b[1..]))))
  }

  function Lexicographic(): (string, string) -> bool {
    (a: string, b: string) => LexLeq(a, b)
  }

  lemma {:induction false} LexTotal(a: string, b: string)
    ensures LexLeq(a, b) || LexLeq(b, a)
    decreases |a|
  {
    if a != "" && b != "" && a[0] == b[0] {
      LexTotal(a[1..], b[1..]);
    }
  }

  lemma {:induction false} LexTransitive(a: string, b: string, c: string)
    requires LexLeq(a, b) && LexLeq(b, c)
    ensures LexLeq(a, c)
    decreases |a|
  {
    if a != "" && a[0] == b[0] == c[0] {
      LexTransitive(a[1..], b[1..], c[1..]);
    }
  }

  lemma {:induction false} LexAntisymmetric(a: string, b: string)
    requires LexLeq(a, b) && LexLeq(b, a)
    ensures a == b
    decreases |a|
  {
    if a != "" && b != "" {
      LexAntisymmetric(a[1..], b[1..]);
      assert a == [a[0]] + a[1..] && b == [b[0]] + b[1..];
    }
  }

  lemma {:induction false} LexPrefix(a: string, b: string)
    requires a <= b
    ensures LexLeq(a, b)
    decreases |a|
  {
    if a != "" {
      LexPrefix(a[1..], b[1..]);
    }
  }

  /** Byte order: a stands first if it is a prefix, or has the smaller character where they first differ. */
  lemma {:induction false} LexMeans(a: string, b: string)
    ensures LexLeq(a, b) <==> a <= b || exists i :: FirstDifference(a, b, i) && a[i] < b[i]
    decreases |a|
  {
    if a == "" {
      return;
    } else if b == "" {
      assert !(a <= b);
    } else if a[0] != b[0] {
      assert FirstDifference(a, b, 0);
      forall i ensures FirstDifference(a, b, i) ==> i == 0 {
        if 0 < i < |a| && i < |b| {
          assert a[..i][0] == a[0] && b[..i][0] == b[0];
        }
      }
    } else {
      LexMeans(a[1..], b[1..]);
      assert a <= b <==> a[1..] <= b[1..] by {
        assert a == [a[0]] + a[1..] && b == [b[0]] + b[1..];
      }
      forall i ensures FirstDifference(a[1..], b[1..], i) <==> FirstDifference(a, b, i + 1) {
        if 0 <= i < |a| - 1 && i < |b| - 1 {
          DifferenceShifts(a, b, i);
        }
      }
      if i :| FirstDifference(a, b, i) && a[i] < b[i] {
        assert FirstDifference(a[1..], b[1..], i - 1);
      }
      if i :| FirstDifference(a[1..], b[1..], i) && a[1..][i] < b[1..][i] {
        assert FirstDifference(a, b, i + 1);
      }
    }
  }

  lemma DifferenceShifts(a: string, b: string, i: nat)
    requires i < |a| - 1 && i < |b| - 1 && a[0] == b[0]
    ensures a[1..][..i] == b[1..][..i] <==> a[..i + 1] == b[..i + 1]
  {
    assert a[..i + 1] == [a[0]] + a[1..][..i] && b[..i + 1] == [b[0]] + b[1..][..i];
    assert a[1..][..i] == a[..i + 1][1..] && b[1..][..i] == b[..i + 1][1..];
  }

  ghost predicate FirstDifference(a: string, b: string, i: int) {
    0 <= i < |a| && i < |b| && a[..i] == b[..i] && a[i] != b[i]
  }

  lemma LexIsOrder()
    ensures TotalPreorder(Lexicographic()) && PartialOrder(Lexicographic())
  {
    var leq := Lexicographic();
    forall a, b ensures leq(a, b) || leq(b, a) { LexTotal(a, b); }
    forall a, b, c | leq(a, b) && leq(b, c) ensures leq(a, c) { LexTransitive(a, b, c); }
    forall a ensures leq(a, a) { LexPrefix(a, a); }
    forall a, b | leq(a, b) && leq(b, a) ensures a == b { LexAntisymmetric(a, b); }
  }

  // ------------------------------------------------------------------ parents

  /** filepath.Dir of a path below the root; "" is the root itself. */
  function Parent(k: string): (p: string)
    ensures p <= k && (k != "" ==> |p| < |k|)
  {
    if k == "" then ""
    else if k[|k| - 1] == '/' then k[..|k| - 1]
    else Parent(k[..|k| - 1])
  }

  // ----------------------------------------------------------------- cleaning

  /** The parts between slashes, empty ones included. */
  function Split(s: string): (parts: seq<string>)
    ensures parts != []
  {
    if s == "" then [""]
    else
      var parts, c := Split(s[..|s| - 1]), s[|s| - 1];
      if c == '/' then parts + [""]
      else parts[..|parts| - 1] + [parts[|parts| - 1] + [c]]
  }

  function Join(parts: seq<string>): string {
    if parts == [] then ""
    else if |parts| == 1 then parts[0]
    else Join(parts[..|parts| - 1]) + "/" + parts[|parts| - 1]
  }

  /** One more part on the stack: "" and "." vanish, ".." pops what it can. */
  function Push(stack: seq<string>, part: string, rooted: bool): seq<string> {
    if part == "" || part == "." then stack
    else if part != ".." then stack + [part]
    else if stack != [] && stack[|stack| - 1] != ".." then stack[..|stack| - 1]
    else if rooted then stack
    else stack + [".."]
  }

  function PushAll(parts: seq<string>, rooted: bool): seq<string> {
    if parts == [] then [] else Push(PushAll(parts[..|parts| - 1], rooted), parts[|parts| - 1], rooted)
  }

  /** filepath.Clean. */
  function Clean(s: string): string {
    var rooted := s != "" && s[0] == '/';
    var body := Join(PushAll(Split(s), rooted));
    var path := if rooted then "/" + body else body;
    if path == "" then "." else path
  }

  predicate HasPrefix(s: string, p: string) {
    p <= s
  }

  predicate IsName(part: string) {
    part != "" && part != "." && part != ".."
  }

  /** A path that a directory walk reports relative to its root. */
  predicate IsRelative(k: string) {
    forall i | 0 <= i < |Split(k)| :: IsName(Split(k)[i])
  }

  lemma JoinSnoc(parts: seq<string>, part: string)
    requires parts != []
    ensures Join(parts + [part]) == Join(parts) + "/" + part
  {
    assert (parts + [part])[..|parts|] == parts;
  }

  lemma JoinExtend(parts: seq<string>, c: char)
    requires parts != []
    ensures Join(parts[..|parts| - 1] + [parts[|parts| - 1] + [c]]) == Join(parts) + [c]
  {
    var init, last := parts[..|parts| - 1], parts[|parts| - 1];
    assert parts == init + [last];
    JoinLonger(init, last, c);
  }

  lemma JoinLonger(init: seq<string>, last: string, c: char)
    ensures Join(init + [last + [c]]) == Join(init + [last]) + [c]
  {
    if init == [] {
      assert init + [last] == [last] && init + [last + [c]] == [last + [c]];
    } else {
      JoinSnoc(init, last);
      JoinSnoc(init, last + [c]);
      Associate(Join(init) + "/", last, [c]);
    }
  }

  lemma Associate(a: string, b: string, c: string)
    ensures a + (b + c) == a + b + c
  {
  }

  lemma {:induction false} JoinSplit(s: string)
    ensures Join(Split(s)) == s
    decreases |s|
  {
    if s != "" {
      var init, c := s[..|s| - 1], s[|s| - 1];
      JoinSplit(init);
      if c == '/' {
        JoinSnoc(Split(init), "");
      } else {
        JoinExtend(Split(init), c);
      }
    }
  }

  lemma {:induction false} PushNames(parts: seq<string>, rooted: bool)
    requires forall i | 0 <= i < |parts| :: IsName(parts[i])
    ensures PushAll(parts, rooted) == parts
    decreases |parts|
  {
    if parts != [] {
      PushNames(parts[..|parts| - 1], rooted);
    }
  }

  lemma {:induction false} FirstPart(s: string)
    requires s != "" && s[0] == '/'
    ensures Split(s)[0] == ""
    decreases |s|
  {
    if |s| > 1 {
      FirstPart(s[..|s| - 1]);
      AtLeastTwo(s[..|s| - 1]);
    } else {
      assert s[..0] == "";
    }
  }

  lemma {:induction false} AtLeastTwo(s: string)
    requires s != "" && s[0] == '/'
    ensures |Split(s)| >= 2
    decreases |s|
  {
    if |s| > 1 {
      AtLeastTwo(s[..|s| - 1]);
    } else {
      assert s[..0] == "";
    }
  }

  lemma SplitSlash(s: string)
    ensures Split(s + "/") == Split(s) + [""]
  {
    assert (s + "/")[..|s|] == s;
  }

  lemma RelativeStart(k: string)
    requires IsRelative(k)
    ensures k != "" && k[0] != '/' && k != "."
  {
    assert IsName(Split(k)[0]);
    if k != "" && k[0] == '/' {
      FirstPart(k);
    }
    SplitDot();
  }

  lemma SplitDot()
    ensures Split(".") == ["."]
  {
    assert "."[..0] == "" && Split("") == [""];
    assert [""][..0] == [] && "" + ['.'] == ".";
  }

  /** A walked path is clean already, with or without the slash that marks a directory. */
  lemma CleanRelative(k: string)
    requires IsRelative(k)
    ensures k != "" && k[0] != '/' && k != "." && Clean(k) == k && Clean(k + "/") == k
  {
    RelativeStart(k);
    JoinSplit(k);
    PushNames(Split(k), false);
    SplitSlash(k);
    PushEmpty(Split(k));
    CleanUnrooted(k);
    CleanUnrooted(k + "/");
  }

  lemma CleanUnrooted(s: string)
    requires (s == "" || s[0] != '/') && Join(PushAll(Split(s), false)) != ""
    ensures Clean(s) == Join(PushAll(Split(s), false))
  {
  }

  lemma PushEmpty(parts: seq<string>)
    ensures PushAll(parts + [""], false) == PushAll(parts, false)
  {
    assert (parts + [""])[..|parts|] == parts;
  }

  // ---------------------------------------------------------- paths as their parts

  /** A name that a directory entry can have. */
  predicate IsEntryName(part: string) {
    IsName(part) && '/' !in part
  }

  lemma {:induction false} SplitSnoc(s: string, part: string)
    requires '/' !in part
    ensures Split(s + "/" + part) == Split(s) + [part]
    decreases |part|
  {
    if part == "" {
      SplitSlash(s);
      assert s + "/" + part == s + "/";
    } else {
      var init, c := part[..|part| - 1], part[|part| - 1];
      SplitSnoc(s, init);
      assert (s + "/" + part)[..|s| + |part|] == s + "/" + init;
      assert init + [c] == part;
      assert (Split(s) + [init])[..|Split(s)|] == Split(s);
    }
  }

  lemma {:induction false} SplitName(part: string)
    requires '/' !in part
    ensures Split(part) == [part]
    decreases |part|
  {
    if part != "" {
      var init := part[..|part| - 1];
      SplitName(init);
      assert init + [part[|part| - 1]] == part;
      assert [init][..0] == [];
    }
  }

  lemma {:induction false} SplitJoin(parts: seq<string>)
    requires parts != [] && forall i | 0 <= i < |parts| :: '/' !in parts[i]
    ensures Split(Join(parts)) == parts
    decreases |parts|
  {
    var init, last := parts[..|parts| - 1], parts[|parts| - 1];
    assert parts == init + [last];
    if init == [] {
      SplitName(last);
    } else {
      SplitJoin(init);
      SplitSnoc(Join(init), last);
    }
  }

  /** The parent's parts are all but the last; a single part has the root for its parent. */
  lemma {:induction false} SplitParent(k: string)
    ensures if |Split(k)| == 1 then Parent(k) == "" else Split(Parent(k)) == Split(k)[..|Split(k)| - 1]
    decreases |k|
  {
    if k != "" {
      SplitParent(k[..|k| - 1]);
      var parts := Split(k[..|k| - 1]);
      if k[|k| - 1] == '/' {
        assert (parts + [""])[..|parts|] == parts;
      } else {
        assert (parts[..|parts| - 1] + [parts[|parts| - 1] + [k[|k| - 1]]])[..|parts| - 1] == parts[..|parts| - 1];
      }
    }
  }

  // ------------------------------------------------------------ where a clean path leads

  lemma {:induction false} SplitSlashFree(s: string)
    ensures forall i | 0 <= i < |Split(s)| :: '/' !in Split(s)[i]
    decreases |s|
  {
    if s != "" {
      SplitSlashFree(s[..|s| - 1]);
    }
  }

  /** The first part is what stands before the first slash. */
  lemma {:induction false} FirstPartStarts(s: string)
    ensures var first := Split(s)[0];
      first <= s && if |Split(s)| == 1 then first == s else |first| < |s| && s[|first|] == '/'
    decreases |s|
  {
    if s != "" {
      var init, c := s[..|s| - 1], s[|s| - 1];
      FirstPartStarts(init);
      assert init + [c] == s;
    }
  }

  /** What Clean's stack holds: some steps up, unless the path is rooted, and then names. */
  ghost predicate Stacked(stack: seq<string>, rooted: bool) {
    (forall i | 0 <= i < |stack| ::
       '/' !in stack[i] && (IsName(stack[i]) || (stack[i] == ".." && !rooted))) &&
    forall i, j | 0 <= i < j < |stack| :: stack[j] == ".." ==> stack[i] == ".."
  }

  lemma {:induction false} PushAllStacked(parts: seq<string>, rooted: bool)
    requires forall i | 0 <= i < |parts| :: '/' !in parts[i]
    ensures Stacked(PushAll(parts, rooted), rooted)
    decreases |parts|
  {
    if parts != [] {
      PushAllStacked(parts[..|parts| - 1], rooted);
    }
  }

  lemma StackLeads(stack: seq<string>)
    requires Stacked(stack, false) && stack != []
    ensures Split(Join(stack))[0] == ".." || IsRelative(Join(stack))
    ensures Join(stack) != ""
  {
    SplitJoin(stack);
    if stack[0] != ".." {
      assert forall i | 0 <= i < |stack| :: IsName(stack[i]);
    }
    assert Split("") == [""];
  }

  /** A clean path is rooted, the directory itself, a path up and out of it, or a path below it. */
  lemma CleanLeads(s: string)
    ensures var c := Clean(s);
      c != "" && (HasPrefix(c, "/") || c == "." || Split(c)[0] == ".." || IsRelative(c))
  {
    if s != "" && s[0] == '/' {
      CleanRooted(s);
    } else {
      var stack := PushAll(Split(s), false);
      SplitSlashFree(s);
      PushAllStacked(Split(s), false);
      if stack == [] {
        CleanNothing(s);
      } else {
        StackLeads(stack);
        CleanUnrooted(s);
      }
    }
  }

  lemma CleanRooted(s: string)
    requires s != "" && s[0] == '/'
    ensures HasPrefix(Clean(s), "/")
  {
  }

  lemma CleanNothing(s: string)
    requires (s == "" || s[0] != '/') && PushAll(Split(s), false) == []
    ensures Clean(s) == "."
  {
  }

  lemma PushAllSnoc(parts: seq<string>, part: string, rooted: bool)
    ensures PushAll(parts + [part], rooted) == Push(PushAll(parts, rooted), part, rooted)
  {
    assert (parts + [part])[..|parts|] == parts;
  }

  lemma CleanBy(s: string, t: string)
    requires s != "" && t != "" && s[0] == t[0]
    requires forall rooted: bool :: PushAll(Split(s), rooted) == PushAll(Split(t), rooted)
    ensures Clean(s) == Clean(t)
  {
    assert PushAll(Split(s), true) == PushAll(Split(t), true) && PushAll(Split(s), false) == PushAll(Split(t), false);
  }

  lemma DownAndUp(s: string, c: string, rooted: bool)
    requires IsEntryName(c)
    ensures PushAll(Split(s + "/" + c + "/" + ".."), rooted) == PushAll(Split(s), rooted)
  {
    SplitSnoc(s, c);
    SplitSnoc(s + "/" + c, "..");
    PushAllSnoc(Split(s), c, rooted);
    PushAllSnoc(Split(s) + [c], "..", rooted);
  }

  lemma Nowhere(s: string, rooted: bool)
    ensures PushAll(Split(s + "/" + "."), rooted) == PushAll(Split(s), rooted)
    ensures PushAll(Split(s + "/"), rooted) == PushAll(Split(s), rooted)
  {
    SplitSnoc(s, ".");
    SplitSlash(s);
    PushAllSnoc(Split(s), ".", rooted);
    PushAllSnoc(Split(s), "", rooted);
  }

  /** What Clean is for: a step down and up again, a step nowhere, and a doubled slash make no difference. */
  lemma CleanLaws(s: string, c: string)
    requires s != "" && IsEntryName(c)
    ensures Clean(s + "/" + c + "/" + "..") == Clean(s)
    ensures Clean(s + "/" + ".") == Clean(s) && Clean(s + "/") == Clean(s)
  {
    forall rooted: bool
      ensures PushAll(Split(s + "/" + c + "/" + ".."), rooted) == PushAll(Split(s), rooted)
      ensures PushAll(Split(s + "/" + "."), rooted) == PushAll(Split(s), rooted)
      ensures PushAll(Split(s + "/"), rooted) == PushAll(Split(s), rooted)
    {
      DownAndUp(s, c, rooted);
      Nowhere(s, rooted);
    }
    CleanBy(s + "/" + c + "/" + "..", s);
    CleanBy(s + "/" + ".", s);
    CleanBy(s + "/", s);
  }

  lemma PushOne(part: string, rooted: bool)
    ensures PushAll([part], rooted) == Push([], part, rooted)
  {
    assert [] + [part] == [part];
    PushAllSnoc([], part, rooted);
  }

  /** … and a step up from nowhere stays a step up. */
  lemma CleanUp(s: string)
    requires s == ".."
    ensures Clean(s) == ".."
  {
    SplitName(s);
    PushOne(s, false);
    CleanUnrooted(s);
  }

  /** … but for a root, which has nothing above it. */
  lemma CleanRootUp(s: string)
    requires s == "/.."
    ensures Clean(s) == "/"
  {
    SplitRootUp(s);
    PushOne("", true);
    PushAllSnoc([""], "..", true);
    assert "/" + "" == "/";
  }

  lemma SplitRootUp(s: string)
    requires s == "/.."
    ensures Split(s) == [""] + [".."]
  {
    SplitSnoc("", "..");
    assert "" + "/" + ".." == s;
  }
}
