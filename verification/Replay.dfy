/** Writing an archive's entries, one by one, into an empty directory. */
module Replay {
  import opened Sorting
  import opened Paths
  import opened Sources
  import opened Bundle

  /** The process that extracts: its umask, and whether the kernel lets it ignore permissions. */
  datatype Env = Env(umask: Mode, privileged: bool)

  /** What has been written below the extraction root: File and Dir nodes only. */
  type Fs = map<string, Stat>

  /** The mode a new file or directory gets. */
  function Created(env: Env, m: Mode): Mode {
    m & !env.umask
  }

  /** rwxr-xr-x, for the root and for parents that no entry names. */
  const DEFAULT_DIR: Mode := 0x1ED

  /** Owner write and search: what it takes to create something in a directory. */
  predicate MayCreateIn(env: Env, m: Mode) {
    env.privileged || m & 0xC0 == 0xC0
  }

  predicate MayWrite(env: Env, m: Mode) {
    env.privileged || m & 0x80 == 0x80
  }

  predicate IsDir(fs: Fs, p: string) {
    p == "" || (p in fs && fs[p].Dir?)
  }

  function DirMode(env: Env, fs: Fs, p: string): Mode
    requires IsDir(fs, p)
  {
    if p == "" then Created(env, DEFAULT_DIR) else fs[p].mode
  }

  // -------------------------------------------------------------- system calls

  function Mkdir(env: Env, fs: Fs, p: string, m: Mode): Result<Fs> {
    if p == "" || p in fs || !IsDir(fs, Parent(p)) || !MayCreateIn(env, DirMode(env, fs, Parent(p))) then Err
    else Ok(fs[p := Dir(Created(env, m))])
  }

  function MkdirAll(env: Env, fs: Fs, p: string, m: Mode): Result<Fs>
    decreases |p|
  {
    if p == "" then Ok(fs)
    else if p in fs then if fs[p].Dir? then Ok(fs) else Err
    else
      match MkdirAll(env, fs, Parent(p), m)
      case Err => Err
      case Ok(fs1) => Mkdir(env, fs1, p, m)
  }

  /** Open for writing, creating or truncating, and copy the body. */
  function WriteFile(env: Env, fs: Fs, p: string, m: Mode, data: Bytes): Result<Fs> {
    if p == "" then Err
    else if p in fs then
      if fs[p].File? && MayWrite(env, fs[p].mode) then Ok(fs[p := File(fs[p].mode, data)]) else Err
    else if !IsDir(fs, Parent(p)) || !MayCreateIn(env, DirMode(env, fs, Parent(p))) then Err
    else Ok(fs[p := File(Created(env, m), data)])
  }

  // -------------------------------------------------------------------- entries

  predicate Unsafe(clean: string) {
    HasPrefix(clean, "..") || HasPrefix(clean, "/")
  }

  /**
   For every name there is, hostile ones included: the guard lets through only the directory itself and
   paths below it, and of those it refuses just the ones whose first part begins with two dots.
   */
  lemma GuardConfines(name: string)
    ensures var clean := Clean(name);
      !Unsafe(clean) <==> (clean == "." || IsRelative(clean)) && !HasPrefix(Split(clean)[0], "..")
  {
    var clean := Clean(name);
    CleanLeads(name);
    SplitDot();
    FirstPartStarts(clean);
    if IsRelative(clean) {
      RelativeStart(clean);
    }
    var first := Split(clean)[0];
    if HasPrefix(clean, "..") {
      assert clean[0] == '.' && clean[1] == '.';
      assert first[..2] == "..";
    }
  }

  /** What an entry does once its name has been cleaned and joined to the root. */
  function WriteTarget(env: Env, fs: Fs, target: string, e: Entry): Result<Fs> {
    match e.kind
    case TypeDir => MkdirAll(env, fs, target, Perm(e.mode))
    case TypeReg =>
      (match MkdirAll(env, fs, Parent(target), DEFAULT_DIR)
       case Err => Err
       case Ok(fs1) => WriteFile(env, fs1, target, Perm(e.mode), e.data))
    case TypeOther => Ok(fs)
  }

  function WriteEntry(env: Env, fs: Fs, e: Entry): Result<Fs> {
    var clean := Clean(e.name);
    if Unsafe(clean) then Err else WriteTarget(env, fs, if clean == "." then "" else clean, e)
  }

  function Replayed(env: Env, es: seq<Entry>): Result<Fs> {
    if es == [] then Ok(map[])
    else
      match Replayed(env, es[..|es| - 1])
      case Err => Err
      case Ok(fs) => WriteEntry(env, fs, es[|es| - 1])
  }

  // ------------------------------------------------------------- any archive at all

  ghost predicate Confined(fs: Fs) {
    forall k | k in fs :: IsRelative(k)
  }

  lemma RelativeParent(k: string)
    requires IsRelative(k)
    ensures Parent(k) == "" || IsRelative(Parent(k))
  {
    SplitParent(k);
  }

  lemma {:induction false} MkdirAllConfined(env: Env, fs: Fs, p: string, m: Mode)
    requires Confined(fs) && (p == "" || IsRelative(p))
    ensures MkdirAll(env, fs, p, m).Ok? ==> Confined(MkdirAll(env, fs, p, m).value)
    decreases |p|
  {
    if p != "" && p !in fs {
      RelativeParent(p);
      MkdirAllConfined(env, fs, Parent(p), m);
    }
  }

  lemma TargetConfined(env: Env, fs: Fs, target: string, e: Entry)
    requires Confined(fs) && (target == "" || IsRelative(target))
    ensures WriteTarget(env, fs, target, e).Ok? ==> Confined(WriteTarget(env, fs, target, e).value)
  {
    match e.kind
    case TypeDir => MkdirAllConfined(env, fs, target, Perm(e.mode));
    case TypeReg =>
      if target != "" {
        RelativeParent(target);
      }
      MkdirAllConfined(env, fs, Parent(target), DEFAULT_DIR);
    case TypeOther =>
  }

  lemma EntryConfined(env: Env, fs: Fs, e: Entry)
    requires Confined(fs)
    ensures WriteEntry(env, fs, e).Ok? ==> Confined(WriteEntry(env, fs, e).value)
  {
    GuardConfines(e.name);
    if !Unsafe(Clean(e.name)) {
      TargetConfined(env, fs, if Clean(e.name) == "." then "" else Clean(e.name), e);
    }
  }

  /** Whoever made the archive, what it extracts lies below the root, path by path. */
  lemma {:induction false} ExtractsBelowRoot(env: Env, es: seq<Entry>)
    ensures Replayed(env, es).Ok? ==> forall k | k in Replayed(env, es).value :: IsRelative(k)
    decreases |es|
  {
    if es != [] {
      var init := es[..|es| - 1];
      ExtractsBelowRoot(env, init);
      if Replayed(env, init).Ok? {
        EntryConfined(env, Replayed(env, init).value, es[|es| - 1]);
      }
    }
  }

  /** One unsafe name, wherever it stands, and nothing extracts. */
  lemma {:induction false} UnsafeNeverExtracts(env: Env, es: seq<Entry>, i: nat)
    requires i < |es| && Unsafe(Clean(es[i].name))
    ensures Replayed(env, es).Err?
    decreases |es|
  {
    if i < |es| - 1 {
      UnsafeNeverExtracts(env, es[..|es| - 1], i);
    }
  }

  lemma ReplayedSnoc(env: Env, es: seq<Entry>, e: Entry)
    ensures Replayed(env, es + [e]) ==
            match Replayed(env, es) case Err => Err case Ok(fs) => WriteEntry(env, fs, e)
  {
    assert (es + [e])[..|es|] == es;
  }

  lemma SkippedOnce(env: Env, es: seq<Entry>, other: Entry)
    requires other.kind == TypeOther && !Unsafe(Clean(other.name))
    ensures Replayed(env, es + [other]) == Replayed(env, es)
  {
    ReplayedSnoc(env, es, other);
  }

  /** What has come to the same goes on the same. */
  lemma {:induction false} SameRest(env: Env, a: seq<Entry>, b: seq<Entry>, rest: seq<Entry>)
    requires Replayed(env, a) == Replayed(env, b)
    ensures Replayed(env, a + rest) == Replayed(env, b + rest)
    decreases |rest|
  {
    if rest == [] {
      assert a + rest == a && b + rest == b;
    } else {
      ReplayedSnoc(env, a, rest[0]);
      ReplayedSnoc(env, b, rest[0]);
      SameRest(env, a + [rest[0]], b + [rest[0]], rest[1..]);
      Regroup(a, rest);
      Regroup(b, rest);
    }
  }

  lemma Regroup(a: seq<Entry>, rest: seq<Entry>)
    requires rest != []
    ensures a + [rest[0]] + rest[1..] == a + rest
  {
  }

  /** Entries that are neither files nor directories make no difference. */
  lemma OthersSkipped(env: Env, es: seq<Entry>, other: Entry, rest: seq<Entry>)
    requires other.kind == TypeOther && !Unsafe(Clean(other.name))
    ensures Replayed(env, es + [other] + rest) == Replayed(env, es + rest)
  {
    SkippedOnce(env, es, other);
    SameRest(env, es + [other], es, rest);
  }

  /** A second entry of a name rewrites a file its owner may write, but not its mode, and a directory not at all. */
  lemma SecondEntry(env: Env, fs: Fs, k: string, m: Mode, data: Bytes)
    requires IsRelative(k) && !HasPrefix(k, "..") && k in fs && !fs[k].Special? && IsDir(fs, Parent(k))
    ensures WriteEntry(env, fs, Entry(k + "/", TypeDir, m, [])) == if fs[k].Dir? then Ok(fs) else Err
    ensures WriteEntry(env, fs, Entry(k, TypeReg, m, data)) ==
            if fs[k].File? && (env.privileged || fs[k].mode & 0x80 != 0) then Ok(fs[k := File(fs[k].mode, data)])
            else Err
  {
    CleanRelative(k);
    assert MkdirAll(env, fs, Parent(k), DEFAULT_DIR) == Ok(fs);
    WriteBit(fs[k].mode);
  }

  lemma WriteBit(m: Mode)
    ensures m & 0x80 == 0x80 <==> m & 0x80 != 0
  {
  }

  /** q is p or one of the directories above it. */
  predicate Above(q: string, p: string)
    decreases |p|
  {
    q != "" && (q == p || (p != "" && Above(q, Parent(p))))
  }

  lemma {:induction false} AboveShorter(q: string, p: string)
    requires Above(q, p)
    ensures |q| <= |p|
    decreases |p|
  {
    if q != p {
      AboveShorter(q, Parent(p));
    }
  }

  /** May the owner of a directory created with mode m write into it and search it? */
  predicate OwnerEnters(env: Env, m: Mode) {
    m & !env.umask & 0x80 != 0 && m & !env.umask & 0x40 != 0
  }

  lemma EntersBits(env: Env, m: Mode)
    ensures MayCreateIn(env, m & !env.umask) <==> env.privileged || OwnerEnters(env, m)
  {
  }

  /** The directories from p upwards, all made with mode m. */
  ghost predicate FreshChain(env: Env, fs: Fs, p: string, m: Mode) {
    forall q :: (q in fs <==> Above(q, p)) && (q in fs ==> fs[q] == Dir(m & !env.umask))
  }

  lemma NotAboveParent(p: string)
    requires p != ""
    ensures !Above(p, Parent(p)) && (Parent(p) != "" ==> Above(Parent(p), Parent(p)))
  {
    if Above(p, Parent(p)) {
      AboveShorter(p, Parent(p));
    }
  }

  /** Can whoever extracts go on below the root, and below directories made with mode m? */
  predicate Proceeds(env: Env, m: Mode) {
    env.privileged || (OwnerEnters(env, 0x1ED) && OwnerEnters(env, m))
  }

  lemma ParentOpen(env: Env, fs: Fs, p: string, m: Mode)
    requires p != "" && FreshChain(env, fs, Parent(p), m) && Proceeds(env, m)
    ensures IsDir(fs, Parent(p)) && MayCreateIn(env, DirMode(env, fs, Parent(p)))
  {
    EntersBits(env, 0x1ED);
    EntersBits(env, m);
    NotAboveParent(p);
  }

  lemma FreshStep(env: Env, fs: Fs, p: string, m: Mode)
    requires p != "" && FreshChain(env, fs, Parent(p), m) && Proceeds(env, m)
    ensures p !in fs && Mkdir(env, fs, p, m) == Ok(fs[p := Dir(m & !env.umask)])
  {
    ParentOpen(env, fs, p, m);
    NotAboveParent(p);
  }

  lemma ChainStep(env: Env, fs: Fs, p: string, m: Mode)
    requires p != "" && FreshChain(env, fs, Parent(p), m)
    ensures FreshChain(env, fs[p := Dir(m & !env.umask)], p, m)
  {
  }

  lemma {:induction false} MkdirAllFresh(env: Env, p: string, m: Mode)
    requires Proceeds(env, m)
    ensures var r := MkdirAll(env, map[], p, m); r.Ok? && FreshChain(env, r.value, p, m)
    decreases |p|
  {
    if p != "" {
      MkdirAllFresh(env, Parent(p), m);
      FreshStep(env, MkdirAll(env, map[], Parent(p), m).value, p, m);
      ChainStep(env, MkdirAll(env, map[], Parent(p), m).value, p, m);
    }
  }

  lemma FreshParent(env: Env, k: string)
    requires k != "" && Proceeds(env, 0x1ED)
    ensures var fs := MkdirAll(env, map[], Parent(k), DEFAULT_DIR);
      fs.Ok? && k !in fs.value && IsDir(fs.value, Parent(k)) && DirMode(env, fs.value, Parent(k)) == 0x1ED & !env.umask
  {
    MkdirAllFresh(env, Parent(k), DEFAULT_DIR);
    NotAboveParent(k);
  }

  lemma NewFile(env: Env, fs: Fs, k: string, m: Mode, data: Bytes)
    requires k != "" && k !in fs && IsDir(fs, Parent(k)) && DirMode(env, fs, Parent(k)) == 0x1ED & !env.umask
    requires env.privileged || OwnerEnters(env, 0x1ED)
    ensures WriteFile(env, fs, k, m, data) == Ok(fs[k := File(m & !env.umask, data)])
  {
    EntersBits(env, 0x1ED);
  }

  lemma LoneEntry(env: Env, k: string, m: Mode, data: Bytes)
    requires IsRelative(k) && !HasPrefix(k, "..")
    ensures Replayed(env, [Entry(k, TypeReg, m, data)]) == WriteTarget(env, map[], k, Entry(k, TypeReg, m, data))
  {
    var e := Entry(k, TypeReg, m, data);
    ReplayedSnoc(env, [], e);
    assert [] + [e] == [e];
    CleanRelative(k);
  }

  lemma LoneTarget(env: Env, k: string, m: Mode, data: Bytes)
    requires k != "" && (env.privileged || OwnerEnters(env, 0x1ED))
    ensures var r := WriteTarget(env, map[], k, Entry(k, TypeReg, m, data));
      r.Ok? && forall q ::
        (q in r.value <==> Above(q, k)) &&
        (q in r.value ==>
           r.value[q] == if q == k then File(m & 0x1FF & !env.umask, data) else Dir(0x1ED & !env.umask))
  {
    FreshParent(env, k);
    NewFile(env, MkdirAll(env, map[], Parent(k), DEFAULT_DIR).value, k, Perm(m), data);
    MkdirAllFresh(env, Parent(k), DEFAULT_DIR);
  }

  /** A file alone in its archive: the directories above it, which nobody named, get mode 0755 under the umask. */
  lemma LoneFile(env: Env, k: string, m: Mode, data: Bytes)
    requires IsRelative(k) && !HasPrefix(k, "..") && (env.privileged || OwnerEnters(env, 0x1ED))
    ensures var r := Replayed(env, [Entry(k, TypeReg, m, data)]);
      r.Ok? && forall q ::
        (q in r.value <==> Above(q, k)) &&
        (q in r.value ==>
           r.value[q] == if q == k then File(m & 0x1FF & !env.umask, data) else Dir(0x1ED & !env.umask))
  {
    RelativeStart(k);
    LoneEntry(env, k, m, data);
    LoneTarget(env, k, m, data);
  }

  /** A directory alone in its archive: the directories above it get its own mode. */
  lemma LoneDirectory(env: Env, k: string, m: Mode)
    requires IsRelative(k) && !HasPrefix(k, "..") && Proceeds(env, m & 0x1FF)
    ensures var r := Replayed(env, [Entry(k + "/", TypeDir, m, [])]);
      r.Ok? && forall q ::
        (q in r.value <==> Above(q, k)) && (q in r.value ==> r.value[q] == Dir(m & 0x1FF & !env.umask))
  {
    var e := Entry(k + "/", TypeDir, m, []);
    ReplayedSnoc(env, [], e);
    assert [] + [e] == [e];
    CleanRelative(k);
    MkdirAllFresh(env, k, m & 0x1FF);
  }

  // ----------------------------------------------------------------- round trip

  /** What is left of a node once the umask has been applied to its permissions. */
  function Landed(env: Env, s: Stat): Stat {
    match s
    case File(m, data) => File(Created(env, Perm(m)), data)
    case Dir(m) => Dir(Created(env, Perm(m)))
    case Special => Special
  }

  /** The tree as it arrives: every path, every byte, the permission bits under the umask. */
  function Arriving(env: Env, c: map<string, Stat>): Fs {
    map k | k in c :: Landed(env, c[k])
  }

  /** The mode that the directory holding k has by the time k is written. */
  function HolderMode(env: Env, c: map<string, Stat>, k: string): Mode {
    if Parent(k) == "" || Parent(k) !in c || c[Parent(k)].Special? then Created(env, DEFAULT_DIR)
    else Created(env, Perm(c[Parent(k)].mode))
  }

  /** Does path k get through? */
  predicate Admissible(env: Env, c: map<string, Stat>, k: string) {
    !HasPrefix(k, "..") && MayCreateIn(env, HolderMode(env, c, k))
  }

  /** Contents whose parents are themselves directories among the contents. */
  ghost predicate Closed(c: map<string, Stat>) {
    forall k | k in c ::
      !c[k].Special? && IsRelative(k) && (Parent(k) != "" ==> Parent(k) in c && c[Parent(k)].Dir?)
  }

  lemma ContentsClosed(host: Host, n: Node)
    requires Named(n)
    ensures Closed(Contents(host, n))
  {
    var c := Contents(host, n);
    forall k | k in c
      ensures !c[k].Special? && IsRelative(k) && (Parent(k) != "" ==> Parent(k) in c && c[Parent(k)].Dir?)
    {
      WalkedParent(n, k);
      if Parent(k) != "" {
        WalkedResolves(host, n, Split(Parent(k)));
      }
    }
  }

  /** A directory sorts before everything in it. */
  lemma ParentFirst(ks: seq<string>, i: nat)
    requires SortedBy(Lexicographic(), ks) && Distinct(ks) && i < |ks| && ks[i] != "" && Parent(ks[i]) in ks
    ensures Parent(ks[i]) in ks[..i]
  {
    var p := Parent(ks[i]);
    LexPrefix(p, ks[i]);
    var j :| 0 <= j < |ks| && ks[j] == p;
    if j > i {
      assert Lexicographic()(ks[i], ks[j]);
      LexAntisymmetric(p, ks[i]);
    }
    assert ks[..i][j] == p;
  }

  /** The first i paths, as they arrive. */
  function Part(env: Env, c: map<string, Stat>, ks: seq<string>): Fs {
    map k | k in c && k in ks :: Landed(env, c[k])
  }

  lemma TargetAt(env: Env, fs: Fs, k: string, s: Stat)
    requires k != "" && !s.Special? && k !in fs && IsDir(fs, Parent(k))
    ensures WriteTarget(env, fs, k, EntryOf(k, s)) ==
            if MayCreateIn(env, DirMode(env, fs, Parent(k))) then Ok(fs[k := Landed(env, s)]) else Err
  {
    assert Perm(Perm(s.mode)) == Perm(s.mode);
    assert MkdirAll(env, fs, Parent(k), DEFAULT_DIR) == Ok(fs);
    assert MkdirAll(env, fs, Parent(k), Perm(s.mode)) == Ok(fs);
  }

  /** Writing one packed node into a directory that is there. */
  lemma WriteAt(env: Env, fs: Fs, k: string, s: Stat)
    requires IsRelative(k) && !s.Special? && k !in fs && IsDir(fs, Parent(k))
    ensures WriteEntry(env, fs, EntryOf(k, s)) ==
            if !HasPrefix(k, "..") && MayCreateIn(env, DirMode(env, fs, Parent(k))) then Ok(fs[k := Landed(env, s)])
            else Err
  {
    CleanRelative(k);
    TargetAt(env, fs, k, s);
  }

  /** When its turn comes, a packed path is absent and its parent is there with its own mode. */
  lemma HolderReady(env: Env, c: map<string, Stat>, ks: seq<string>, i: nat)
    requires Closed(c) && Lists(c, ks) && i < |ks|
    ensures ks[i] in c && !c[ks[i]].Special? && IsRelative(ks[i])
    ensures var fs := Part(env, c, ks[..i]);
      ks[i] !in fs && IsDir(fs, Parent(ks[i])) && DirMode(env, fs, Parent(ks[i])) == HolderMode(env, c, ks[i])
  {
    var k, fs := ks[i], Part(env, c, ks[..i]);
    assert k in ks && k in c;
    assert k !in ks[..i];
    if Parent(k) != "" {
      ParentFirst(ks, i);
      assert Parent(k) in fs && fs[Parent(k)].Dir?;
    }
  }

  lemma PartGrows(env: Env, c: map<string, Stat>, ks: seq<string>, i: nat)
    requires i < |ks| && ks[i] in c
    ensures Part(env, c, ks[..i + 1]) == Part(env, c, ks[..i])[ks[i] := Landed(env, c[ks[i]])]
  {
    assert ks[..i + 1] == ks[..i] + [ks[i]];
  }

  /** One entry of a packed tree, written after all those before it. */
  lemma EntryLands(env: Env, c: map<string, Stat>, ks: seq<string>, i: nat)
    requires Closed(c) && Lists(c, ks) && i < |ks| && ks[i] in c && !c[ks[i]].Special?
    ensures WriteEntry(env, Part(env, c, ks[..i]), EntryOf(ks[i], c[ks[i]])) ==
            if Admissible(env, c, ks[i]) then Ok(Part(env, c, ks[..i + 1])) else Err
  {
    HolderReady(env, c, ks, i);
    WriteAt(env, Part(env, c, ks[..i]), ks[i], c[ks[i]]);
    PartGrows(env, c, ks, i);
  }

  lemma ReplayedNext(env: Env, es: seq<Entry>, i: nat)
    requires i < |es|
    ensures Replayed(env, es[..i + 1]) ==
            match Replayed(env, es[..i]) case Err => Err case Ok(fs) => WriteEntry(env, fs, es[i])
  {
    assert es[..i + 1][..i] == es[..i];
  }

  /** An archive that fails at an entry fails as a whole. */
  lemma {:induction false} ReplayFails(env: Env, es: seq<Entry>, i: nat, j: nat)
    requires i <= j <= |es| && Replayed(env, es[..i]).Err?
    ensures Replayed(env, es[..j]).Err?
    decreases j - i
  {
    if i < j {
      StillFails(env, es, i);
      ReplayFails(env, es, i + 1, j);
    }
  }

  lemma StillFails(env: Env, es: seq<Entry>, i: nat)
    requires i < |es| && Replayed(env, es[..i]).Err?
    ensures Replayed(env, es[..i + 1]).Err?
  {
    assert es[..i + 1][..i] == es[..i];
  }

  predicate AllAdmissible(env: Env, c: map<string, Stat>, ks: seq<string>) {
    forall k | k in ks :: Admissible(env, c, k)
  }

  lemma AllAdmissibleNext(env: Env, c: map<string, Stat>, ks: seq<string>, i: nat)
    requires i < |ks|
    ensures AllAdmissible(env, c, ks[..i + 1]) <==> AllAdmissible(env, c, ks[..i]) && Admissible(env, c, ks[i])
  {
    assert ks[..i + 1] == ks[..i] + [ks[i]];
    assert ks[i] in ks[..i + 1];
  }

  /** Entry i, when everything before it has landed. */
  lemma NextLands(env: Env, c: map<string, Stat>, ks: seq<string>, es: seq<Entry>, i: nat)
    requires Closed(c) && IsArchive(c, ks, es) && i < |ks|
    requires Replayed(env, es[..i]) == Ok(Part(env, c, ks[..i]))
    ensures Replayed(env, es[..i + 1]) == if Admissible(env, c, ks[i]) then Ok(Part(env, c, ks[..i + 1])) else Err
  {
    ReplayedNext(env, es, i);
    HolderReady(env, c, ks, i);
    EntryLands(env, c, ks, i);
  }

  lemma {:induction false} PrefixLands(env: Env, c: map<string, Stat>, ks: seq<string>, es: seq<Entry>, i: nat)
    requires Closed(c) && IsArchive(c, ks, es) && i <= |ks|
    ensures Replayed(env, es[..i]) ==
            if AllAdmissible(env, c, ks[..i]) then Ok(Part(env, c, ks[..i])) else Err
    decreases i
  {
    if i == 0 {
      assert Part(env, c, ks[..0]) == map[];
    } else {
      PrefixLands(env, c, ks, es, i - 1);
      AllAdmissibleNext(env, c, ks, i - 1);
      if AllAdmissible(env, c, ks[..i - 1]) {
        NextLands(env, c, ks, es, i - 1);
      } else {
        StillFails(env, es, i - 1);
      }
    }
  }

  predicate AllGetIn(env: Env, c: map<string, Stat>) {
    forall k | k in c :: Admissible(env, c, k)
  }

  /** Replaying a packed tree rebuilds it exactly, and it succeeds exactly when every path is admissible. */
  lemma RoundTrip(env: Env, c: map<string, Stat>, ks: seq<string>, es: seq<Entry>)
    requires Closed(c) && IsArchive(c, ks, es)
    ensures Replayed(env, es) == if AllGetIn(env, c) then Ok(Arriving(env, c)) else Err
  {
    PrefixLands(env, c, ks, es, |es|);
    assert es[..|es|] == es && ks[..|ks|] == ks;
    assert Part(env, c, ks) == Arriving(env, c);
  }

  /** Does the umask leave these mode bits alone, and are there none beyond the permissions? */
  predicate Survives(env: Env, s: Stat) {
    s.Special? || Created(env, Perm(s.mode)) == s.mode
  }

  lemma ModeBits(env: Env, m: Mode)
    ensures Created(env, Perm(m)) == m <==> Untouched(env, m)
    ensures MayCreateIn(env, Created(env, Perm(m))) <==> env.privileged || OwnerEnters(env, m)
    ensures MayCreateIn(env, Created(env, DEFAULT_DIR)) <==> env.privileged || OwnerEnters(env, 0x1ED)
  {
  }

  /** Bit by bit: path k gets past the guard and into its directory. */
  predicate GetsThrough(env: Env, c: map<string, Stat>, k: string) {
    !HasPrefix(k, "..") &&
    (env.privileged ||
     OwnerEnters(env, if Parent(k) in c && !c[Parent(k)].Special? then c[Parent(k)].mode else 0x1ED))
  }

  /** Bit by bit: the umask clears none of m, and none of m lies beyond rwxrwxrwx. */
  predicate Untouched(env: Env, m: Mode) {
    m & !(0x1FF as Mode) == 0 && m & env.umask == 0
  }

  lemma BitsAgree(env: Env, c: map<string, Stat>)
    requires Closed(c)
    ensures AllGetIn(env, c) && AllSurvive(env, c) <==>
            forall k | k in c :: GetsThrough(env, c, k) && !c[k].Special? && Untouched(env, c[k].mode)
  {
    forall k | k in c
      ensures Admissible(env, c, k) <==> GetsThrough(env, c, k)
      ensures !c[k].Special? && (Survives(env, c[k]) <==> Untouched(env, c[k].mode))
    {
      AdmissibleBits(env, c, k);
      ModeBits(env, c[k].mode);
    }
  }

  predicate AllSurvive(env: Env, c: map<string, Stat>) {
    forall k | k in c :: Survives(env, c[k])
  }

  lemma ClosedExactIff(env: Env, c: map<string, Stat>, ks: seq<string>, es: seq<Entry>)
    requires Closed(c) && IsArchive(c, ks, es)
    ensures Replayed(env, es) == Ok(c) <==> AllGetIn(env, c) && AllSurvive(env, c)
  {
    RoundTrip(env, c, ks, es);
    ArrivesUnchangedIff(env, c);
  }

  /**
   What was walked comes back unchanged exactly when no path begins with two dots, every directory that
   something lies in lets its owner write and search, and no mode has a bit that the umask clears or one
   beyond rwxrwxrwx.
   */
  lemma RoundTripExactIff(env: Env, host: Host, n: Node, ks: seq<string>, es: seq<Entry>)
    requires Named(n) && IsArchive(Contents(host, n), ks, es)
    ensures var c := Contents(host, n);
      Replayed(env, es) == Ok(c) <==>
      forall k | k in c :: GetsThrough(env, c, k) && !c[k].Special? && Untouched(env, c[k].mode)
  {
    ContentsClosed(host, n);
    ClosedExactIff(env, Contents(host, n), ks, es);
    BitsAgree(env, Contents(host, n));
  }

  lemma AdmissibleBits(env: Env, c: map<string, Stat>, k: string)
    requires Closed(c) && k in c
    ensures Admissible(env, c, k) <==> GetsThrough(env, c, k)
  {
    ModeBits(env, if Parent(k) in c && !c[Parent(k)].Special? then c[Parent(k)].mode else 0x1ED);
    if "" in c {
      CleanRelative("");
    }
  }

  lemma ArrivesUnchangedIff(env: Env, c: map<string, Stat>)
    ensures Arriving(env, c) == c <==> AllSurvive(env, c)
  {
    forall k | k in c ensures Arriving(env, c)[k] == c[k] <==> Survives(env, c[k]) {
    }
  }

  /** A link to a directory arrives, as a directory with nothing in it. */
  lemma LinkedDirectoryArrivesEmpty(env: Env, host: Host, n: Node, k: string, child: string)
    requires Named(n) && Lstat(n, Split(k)).Ok? && Lstat(n, Split(k)).value.Symlink?
    requires Resolve(host, n, Split(k)).Ok? && Resolve(host, n, Split(k)).value.Folder?
    ensures k in Arriving(env, Contents(host, n)) && Arriving(env, Contents(host, n))[k].Dir?
    ensures child in Arriving(env, Contents(host, n)) ==> Parent(child) != k
  {
    NameIff(n, k);
    if child in Contents(host, n) {
      NothingBelowLinks(host, n, k, child);
    }
  }

  /** Bit by bit: how a node that resolves arrives. */
  ghost predicate LandsAs(env: Env, n: Node, s: Stat) {
    match n
    case Plain(mode, body) => body.Ok? ==> s == File(mode & 0x1FF & !env.umask, body.value)
    case Folder(mode, _) => s == Dir(mode & 0x1FF & !env.umask)
    case _ => false
  }

  lemma NodeLands(env: Env, n: Node)
    requires n.Plain? || n.Folder?
    ensures LandsAs(env, n, Landed(env, StatOf(n)))
  {
  }

  /** From node to node: which walked paths arrive, with what mode, and with what in them. */
  lemma ArrivesAs(env: Env, host: Host, n: Node, k: string, r: Result<Node>)
    requires r == Resolve(host, n, Split(k))
    ensures k in Arriving(env, Contents(host, n)) <==> k in Names(n) && r.Ok? && !r.value.Device?
    ensures k in Arriving(env, Contents(host, n)) ==> LandsAs(env, r.value, Arriving(env, Contents(host, n))[k])
  {
    if Packable(r) {
      NodeLands(env, r.value);
    }
  }

  // ------------------------------------------------------- what packs but never extracts

  lemma OneFile(host: Host, n: Node, name: string)
    requires n == Folder(0x1ED, map[name := Plain(0x1A4, Ok([]))]) && IsEntryName(name)
    ensures Named(n) && IsArchive(Contents(host, n), [name], [EntryOf(name, File(0x1A4, []))])
  {
    OneContent(host, n, name);
    assert n.children[name] == Plain(0x1A4, Ok([]));
    assert forall k :: k in [name] <==> k == name;
  }

  /** A file whose name merely begins with two dots packs, and its bundle extracts nowhere. */
  lemma DottedFileStuck(env: Env, host: Host, n: Node)
    requires n == Folder(0x1ED, map["..a" := Plain(0x1A4, Ok([]))])
    ensures Named(n) && IsArchive(Contents(host, n), ["..a"], [EntryOf("..a", File(0x1A4, []))])
    ensures Replayed(env, [EntryOf("..a", File(0x1A4, []))]).Err?
  {
    OneFile(host, n, "..a");
    ContentsClosed(host, n);
    DottedStuck(env, Contents(host, n), ["..a"], [EntryOf("..a", File(0x1A4, []))], "..a");
  }

  lemma DottedStuck(env: Env, c: map<string, Stat>, ks: seq<string>, es: seq<Entry>, k: string)
    requires Closed(c) && IsArchive(c, ks, es) && k in ks && HasPrefix(k, "..")
    ensures Replayed(env, es).Err?
  {
    RoundTrip(env, c, ks, es);
    assert k in c && !Admissible(env, c, k);
  }

  /** A file in a directory its owner may not write into packs, and extracts only for the privileged. */
  lemma ReadOnlyDirectoryStuck(env: Env, host: Host, n: Node, ks: seq<string>, es: seq<Entry>)
    requires n == Folder(0x1ED, map["d" := Folder(0x16D, map["x" := Plain(0x1A4, Ok([]))])])
    requires IsArchive(Contents(host, n), ks, es) && !env.privileged
    ensures Named(n) && Replayed(env, es).Err?
  {
    var c, k := Contents(host, n), Join(["d"] + ["x"]);
    ReadOnlyHolder(host, n);
    ContentsClosed(host, n);
    RoundTrip(env, c, ks, es);
    assert !Admissible(env, c, k) by {
      NoWriteBit(env, 0x16D);
    }
  }

  lemma ReadOnlyHolder(host: Host, n: Node)
    requires n == Folder(0x1ED, map["d" := Folder(0x16D, map["x" := Plain(0x1A4, Ok([]))])])
    ensures Named(n) && Join(["d"] + ["x"]) in Contents(host, n) && Parent(Join(["d"] + ["x"])) == "d"
    ensures "d" in Contents(host, n) && Contents(host, n)["d"] == Dir(0x16D)
  {
    var at := ["d"] + ["x"];
    assert at[..1] == ["d"];
    SplitJoin(at);
    SplitParent(Join(at));
    JoinSplit(Parent(Join(at)));
    OneLevel(host, n, "d");
    assert Lstat(n, at) == Ok(n.children["d"].children["x"]);
    NameIff(n, Join(at));
    WalkedResolves(host, n, at);
    SplitName("d");
    NameIff(n, "d");
  }

  lemma NoWriteBit(env: Env, m: Mode)
    requires m & 0x80 == 0
    ensures Created(env, Perm(m)) & 0xC0 != 0xC0
  {
  }

  // --------------------------------------------------------------- determinism

  /** What identifies a bundle: paths, bytes and permissions, but no other mode bit. */
  function Identity(c: map<string, Stat>): map<string, Stat> {
    map k | k in c ::
      match c[k]
      case File(m, data) => File(Perm(m), data)
      case Dir(m) => Dir(Perm(m))
      case Special => Special
  }

  lemma ListingUnique(c: map<string, Stat>, ks: seq<string>, ks': seq<string>)
    requires Lists(c, ks) && Lists(c, ks')
    ensures ks == ks'
  {
    LexIsOrder();
    SameMultiset(ks, ks');
    SortUnique(Lexicographic(), ks, ks');
  }

  lemma NameRecovers(k: string, s: Stat, k': string, s': Stat)
    requires IsRelative(k) && IsRelative(k') && !s.Special? && !s'.Special? && EntryOf(k, s) == EntryOf(k', s')
    ensures k == k' && s.File? == s'.File? && Perm(s.mode) == Perm(s'.mode) && (s.File? ==> s.data == s'.data)
  {
    if s.Dir? {
      assert (k + "/")[..|k|] == k && (k' + "/")[..|k'|] == k';
    }
  }

  lemma SameIdentity(c: map<string, Stat>, ks: seq<string>, es: seq<Entry>,
                     c': map<string, Stat>, ks': seq<string>, es': seq<Entry>)
    requires IsArchive(c, ks, es) && IsArchive(c', ks', es') && Identity(c) == Identity(c')
    ensures es == es'
  {
    assert c.Keys == Identity(c).Keys && c'.Keys == Identity(c').Keys;
    ListingUnique(c, ks, ks');
    forall i | 0 <= i < |ks| ensures es[i] == es'[i] {
      assert Identity(c)[ks[i]] == Identity(c')[ks[i]];
    }
  }

  lemma SameArchive(c: map<string, Stat>, ks: seq<string>, es: seq<Entry>, c': map<string, Stat>, ks': seq<string>)
    requires Closed(c) && Closed(c') && IsArchive(c, ks, es) && IsArchive(c', ks', es)
    ensures Identity(c) == Identity(c')
  {
    forall i | 0 <= i < |ks| ensures ks[i] == ks'[i] && Identity(c)[ks[i]] == Identity(c')[ks[i]] {
      NameRecovers(ks[i], c[ks[i]], ks'[i], c'[ks'[i]]);
    }
    assert ks == ks';
    forall k ensures k in c <==> k in c' {
      assert k in ks <==> k in ks';
    }
    forall k | k in c ensures Identity(c)[k] == Identity(c')[k] {
      assert k in ks;
    }
  }

  /** Two trees pack to the same archive exactly when they have the same identity, however they were walked. */
  lemma ArchiveIffIdentity(c: map<string, Stat>, ks: seq<string>, es: seq<Entry>,
                           c': map<string, Stat>, ks': seq<string>, es': seq<Entry>)
    requires Closed(c) && Closed(c') && IsArchive(c, ks, es) && IsArchive(c', ks', es')
    ensures es == es' <==> Identity(c) == Identity(c')
  {
    if Identity(c) == Identity(c') {
      SameIdentity(c, ks, es, c', ks', es');
    }
    if es == es' {
      SameArchive(c, ks, es, c', ks');
    }
  }

  /** The same bit by bit: paths, kinds and bytes agree, and modes in all nine permission bits. */
  lemma ArchiveIffSame(c: map<string, Stat>, ks: seq<string>, es: seq<Entry>,
                       c': map<string, Stat>, ks': seq<string>, es': seq<Entry>)
    requires Closed(c) && Closed(c') && IsArchive(c, ks, es) && IsArchive(c', ks', es')
    ensures es == es' <==>
      c.Keys == c'.Keys &&
      forall k | k in c && k in c' ::
        match (c[k], c'[k])
        case (File(m, data), File(m', data')) => data == data' && m & 0x1FF == m' & 0x1FF
        case (Dir(m), Dir(m')) => m & 0x1FF == m' & 0x1FF
        case _ => false
  {
    ArchiveIffIdentity(c, ks, es, c', ks', es');
    assert Identity(c).Keys == c.Keys && Identity(c').Keys == c'.Keys;
    forall k | k in c && k in c'
      ensures Identity(c)[k] == Identity(c')[k] <==>
        match (c[k], c'[k])
        case (File(m, data), File(m', data')) => data == data' && m & 0x1FF == m' & 0x1FF
        case (Dir(m), Dir(m')) => m & 0x1FF == m' & 0x1FF
        case _ => false
    {
    }
  }
}
