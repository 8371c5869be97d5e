/** The directory to be packed: what lies on disk, what a walk of it finds, and what following its links would find. */
module Sources {
  import opened Paths

  datatype Result<+T> = Ok(value: T) | Err

  type Bytes = seq<bv8>

  /** File mode bits: the low nine are permissions. */
  type Mode = bv16

  function Perm(m: Mode): Mode {
    m & 0x1FF
  }

  /** What stat reports, and for a file the bytes it holds. */
  datatype Stat = File(mode: Mode, data: Bytes) | Dir(mode: Mode) | Special

  /** A node on disk. A body is what opening and reading the file yields. */
  datatype Node =
    | Plain(mode: Mode, body: Result<Bytes>)
    | Folder(mode: Mode, children: map<string, Node>)
    | Device
    | Symlink(target: string)

  /** The rest of the machine: where a link leads once all links on the way are followed, maybe back here. */
  type Host = map<string, Node>

  /** Names as the kernel allows them. */
  ghost predicate Named(n: Node) {
    n.Folder? ==> forall c | c in n.children :: IsEntryName(c) && Named(n.children[c])
  }

  ghost predicate HostNamed(host: Host) {
    forall target | target in host :: Named(host[target])
  }

  function StatOf(n: Node): Stat {
    match n
    case Plain(mode, body) => File(mode, if body.Ok? then body.value else [])
    case Folder(mode, _) => Dir(mode)
    case _ => Special
  }

  // ------------------------------------------------------------------- look-up

  /** Follows n if it is a link; a dangling link leads nowhere. */
  function Follow(host: Host, n: Node): (r: Result<Node>)
    ensures r.Ok? ==> !r.value.Symlink?
  {
    if !n.Symlink? then Ok(n)
    else if n.target in host && !host[n.target].Symlink? then Ok(host[n.target])
    else Err
  }

  function Child(d: Node, c: string): Result<Node> {
    if d.Folder? && c in d.children then Ok(d.children[c]) else Err
  }

  /** The node below n, through real directories only and itself not followed. */
  function Lstat(n: Node, at: seq<string>): Result<Node> {
    if at == [] then Ok(n)
    else
      match Lstat(n, at[..|at| - 1])
      case Err => Err
      case Ok(d) => Child(d, at[|at| - 1])
  }

  /** os.Stat: every link on the way, the first and the last included, is followed. */
  function Resolve(host: Host, n: Node, at: seq<string>): Result<Node> {
    if at == [] then Follow(host, n)
    else
      match Resolve(host, n, at[..|at| - 1])
      case Err => Err
      case Ok(d) =>
        match Child(d, at[|at| - 1])
        case Err => Err
        case Ok(m) => Follow(host, m)
  }

  /** Where no link stands in the way, both find the same node. */
  lemma {:induction false} WalkedResolves(host: Host, n: Node, at: seq<string>)
    requires Lstat(n, at).Ok?
    ensures Resolve(host, n, at) == Follow(host, Lstat(n, at).value)
    decreases |at|
  {
    if at != [] {
      WalkedResolves(host, n, at[..|at| - 1]);
    }
  }

  // ------------------------------------------------------------------ the walk

  /** The paths that WalkDir visits from n: it enters real directories, and nothing else. */
  function Walk(n: Node): set<seq<string>> {
    {[]} + if n.Folder? then set c, at | c in n.children && at in Walk(n.children[c]) :: [c] + at else {}
  }

  lemma {:induction false} Lower(n: Node, at: seq<string>)
    requires at != []
    ensures Lstat(n, at) == match Child(n, at[0]) case Err => Err case Ok(m) => Lstat(m, at[1..])
    decreases |at|
  {
    var init := at[..|at| - 1];
    if init == [] {
      assert Lstat(n, init) == Ok(n);
    } else {
      Lower(n, init);
      assert init[1..] == at[1..][..|at| - 2];
    }
  }

  lemma {:induction false} WalkIffLstat(n: Node, at: seq<string>)
    ensures at in Walk(n) <==> Lstat(n, at).Ok?
    decreases |at|
  {
    if at != [] {
      Lower(n, at);
      assert at == [at[0]] + at[1..];
      if n.Folder? && at[0] in n.children {
        WalkIffLstat(n.children[at[0]], at[1..]);
      }
    }
  }

  /** The walked paths as collect lists them, relative to the root and without it. */
  function Names(n: Node): set<string> {
    set at | at in Walk(n) && at != [] :: Join(at)
  }

  lemma {:induction false} LstatNamed(n: Node, at: seq<string>)
    requires Named(n) && Lstat(n, at).Ok?
    ensures Named(Lstat(n, at).value) && forall i | 0 <= i < |at| :: IsEntryName(at[i])
    decreases |at|
  {
    if at != [] {
      LstatNamed(n, at[..|at| - 1]);
    }
  }

  lemma NamesSplit(n: Node, at: seq<string>)
    requires Named(n) && at in Walk(n) && at != []
    ensures Split(Join(at)) == at
  {
    WalkIffLstat(n, at);
    LstatNamed(n, at);
    SplitJoin(at);
  }

  lemma NameIff(n: Node, k: string)
    requires Named(n)
    ensures k in Names(n) <==> Lstat(n, Split(k)).Ok?
  {
    if k in Names(n) {
      var at :| at in Walk(n) && at != [] && Join(at) == k;
      NamesSplit(n, at);
    }
    WalkIffLstat(n, Split(k));
    JoinSplit(k);
  }

  /** A walked path is relative, and its parent is the root or a real directory that was walked too. */
  lemma WalkedParent(n: Node, k: string)
    requires Named(n) && k in Names(n)
    ensures IsRelative(k)
    ensures Lstat(n, Split(k)[..|Split(k)| - 1]).Ok? && Lstat(n, Split(k)[..|Split(k)| - 1]).value.Folder?
    ensures Parent(k) != "" ==>
      Parent(k) in Names(n) && Split(Parent(k)) == Split(k)[..|Split(k)| - 1]
  {
    NameIff(n, k);
    LstatNamed(n, Split(k));
    SplitParent(k);
    NameIff(n, Parent(k));
  }

  // --------------------------------------------------------- what there is to pack

  predicate Packable(r: Result<Node>) {
    r.Ok? && !r.value.Device?
  }

  /** The regular files and directories among the walked paths, as os.Stat reports them. */
  function Contents(host: Host, n: Node): map<string, Stat> {
    map k | k in Names(n) && Packable(Resolve(host, n, Split(k))) :: StatOf(Resolve(host, n, Split(k)).value)
  }

  /** The same for all paths that lead anywhere, links followed wherever they stand: endless if they lead in circles. */
  ghost function Resolved(host: Host, n: Node): imap<string, Stat> {
    imap k | Packable(Resolve(host, n, Split(k))) :: StatOf(Resolve(host, n, Split(k)).value)
  }

  /** A walked path, or the root, is a link to a directory with something in it that could be packed. */
  ghost predicate HidesChild(host: Host, n: Node, at: seq<string>, c: string) {
    Lstat(n, at).Ok? && Lstat(n, at).value.Symlink? && Resolve(host, n, at).Ok? &&
    var inside := Child(Resolve(host, n, at).value, c);
    inside.Ok? && Packable(Follow(host, inside.value))
  }

  ghost predicate Hides(host: Host, n: Node) {
    exists at, c :: HidesChild(host, n, at, c)
  }

  lemma {:induction false} NothingHidden(host: Host, n: Node, at: seq<string>)
    requires !Hides(host, n) && Packable(Resolve(host, n, at))
    ensures Lstat(n, at).Ok?
    decreases |at|
  {
    if at != [] {
      var up, c := at[..|at| - 1], at[|at| - 1];
      NothingHidden(host, n, up);
      WalkedResolves(host, n, up);
      assert !HidesChild(host, n, up, c);
    }
  }

  lemma FollowedName(host: Host, n: Node, c: string)
    requires Named(n) && HostNamed(host) && Follow(host, n).Ok? && Child(Follow(host, n).value, c).Ok?
    ensures IsEntryName(c)
  {
  }

  lemma HiddenPath(host: Host, n: Node, at: seq<string>, c: string)
    requires Named(n) && HostNamed(host) && HidesChild(host, n, at, c)
    ensures var k := Join(at + [c]); k in Resolved(host, n) && k !in Names(n)
  {
    var path := at + [c];
    assert path[..|at|] == at;
    LstatNamed(n, at);
    WalkedResolves(host, n, at);
    FollowedName(host, Lstat(n, at).value, c);
    SplitJoin(path);
    NameIff(n, Join(path));
  }

  /** "Symlinks are followed" is true of a directory exactly when no link, the root included, has anything behind it. */
  lemma LinksFollowedIff(host: Host, n: Node)
    requires Named(n) && HostNamed(host)
    ensures (imap k | k in Contents(host, n) :: Contents(host, n)[k]) == Resolved(host, n) <==> !Hides(host, n)
  {
    var walked := imap k | k in Contents(host, n) :: Contents(host, n)[k];
    if Hides(host, n) {
      var at, c :| HidesChild(host, n, at, c);
      HiddenPath(host, n, at, c);
      assert Join(at + [c]) !in walked;
    } else {
      AllWalked(host, n);
      assert walked.Keys == Resolved(host, n).Keys;
    }
  }

  lemma AllWalked(host: Host, n: Node)
    requires Named(n) && !Hides(host, n)
    ensures forall k | k in Resolved(host, n) :: k in Contents(host, n)
  {
    forall k | k in Resolved(host, n) ensures k in Contents(host, n) {
      NothingHidden(host, n, Split(k));
      NameIff(n, k);
    }
  }

  /** Nothing that is packed lies below a link. */
  lemma NothingBelowLinks(host: Host, n: Node, k: string, child: string)
    requires Named(n) && Lstat(n, Split(k)).Ok? && Lstat(n, Split(k)).value.Symlink?
    requires child in Contents(host, n)
    ensures k in Names(n) && Parent(child) != k
  {
    WalkedParent(n, child);
    NameIff(n, k);
    LstatNamed(n, Split(k));
  }

  /** A machine with one directory that links lead to, and one file in it. */
  function Elsewhere(): Host {
    map["elsewhere" := Folder(0x1ED, map["x" := Plain(0x1A4, Ok([]))])]
  }

  lemma ElsewhereFollowed(link: Node)
    requires link == Symlink("elsewhere")
    ensures HostNamed(Elsewhere()) && Follow(Elsewhere(), link).Ok?
    ensures var d := Follow(Elsewhere(), link).value;
      d.Folder? && StatOf(d) == Dir(0x1ED) && Child(d, "x").Ok? && Packable(Follow(Elsewhere(), Child(d, "x").value))
  {
    assert IsEntryName("x");
  }

  /** A link as the root: nothing at all is packed. */
  lemma LinkedRootLoses(n: Node)
    requires n == Symlink("elsewhere")
    ensures HostNamed(Elsewhere()) && HidesChild(Elsewhere(), n, [], "x")
    ensures Contents(Elsewhere(), n) == map[] && Join([] + ["x"]) in Resolved(Elsewhere(), n)
  {
    ElsewhereFollowed(n);
    assert HidesChild(Elsewhere(), n, [], "x");
    HiddenPath(Elsewhere(), n, [], "x");
    assert Names(n) == {};
  }

  /** A directory holding one link: the directory it leads to is packed, and the file there is not. */
  lemma LinkedDirectoryLoses(n: Node)
    requires n == Folder(0x1ED, map["d" := Symlink("elsewhere")])
    ensures Named(n) && HostNamed(Elsewhere()) && HidesChild(Elsewhere(), n, ["d"], "x")
    ensures Contents(Elsewhere(), n) == map["d" := Dir(0x1ED)] && Join(["d"] + ["x"]) in Resolved(Elsewhere(), n)
  {
    ElsewhereFollowed(n.children["d"]);
    OneLevel(Elsewhere(), n, "d");
    OneContent(Elsewhere(), n, "d");
    assert HidesChild(Elsewhere(), n, ["d"], "x");
    HiddenPath(Elsewhere(), n, ["d"], "x");
  }

  lemma OneContent(host: Host, n: Node, c: string)
    requires n.Folder? && n.children.Keys == {c} && !n.children[c].Folder? && '/' !in c
    requires Packable(Follow(host, n.children[c]))
    ensures Contents(host, n) == map[c := StatOf(Follow(host, n.children[c]).value)]
  {
    SplitName(c);
    OneEntry(c, n);
    OneLevel(host, n, c);
  }

  lemma OneLevel(host: Host, n: Node, c: string)
    requires n.Folder? && c in n.children
    ensures Lstat(n, [c]) == Ok(n.children[c]) && Resolve(host, n, [c]) == Follow(host, n.children[c])
  {
    assert [c][..0] == [];
  }

  /** A directory with one entry that is no directory. */
  lemma OneEntry(c: string, n: Node)
    requires n.Folder? && n.children.Keys == {c} && !n.children[c].Folder?
    ensures Names(n) == {c}
  {
    assert c in n.children && Walk(n.children[c]) == {[]};
    assert [c] + [] == [c];
    assert [c] in Walk(n) by {
      assert [] in Walk(n.children[c]);
    }
    forall at | at in Walk(n) && at != [] ensures at == [c] {
      var d, rest :| d in n.children && rest in Walk(n.children[d]) && at == [d] + rest;
      assert d == c;
    }
    assert Join([c]) == c;
  }
}
