/** Challenge bundles: a directory tree packed into an archive and replayed into an empty directory. */
module Bundle {
  import opened Sorting
  import opened Paths
  import opened Sources
  import opened Choice

  // ------------------------------------------------------------------- packing

  datatype Kind = TypeReg | TypeDir | TypeOther

  datatype Entry = Entry(name: string, kind: Kind, mode: Mode, data: Bytes)

  function EntryOf(k: string, s: Stat): Entry
    requires !s.Special?
  {
    match s
    case File(mode, data) => Entry(k, TypeReg, Perm(mode), data)
    case Dir(mode) => Entry(k + "/", TypeDir, Perm(mode), [])
  }

  /** ks is the sorted listing of what there is to pack. */
  ghost predicate Lists(c: map<string, Stat>, ks: seq<string>) {
    SortedBy(Lexicographic(), ks) && Distinct(ks) && forall k :: k in ks <==> k in c
  }

  ghost predicate IsArchive(c: map<string, Stat>, ks: seq<string>, es: seq<Entry>) {
    Lists(c, ks) && |es| == |ks| &&
    forall i | 0 <= i < |ks| :: ks[i] in c && !c[ks[i]].Special? && es[i] == EntryOf(ks[i], c[ks[i]])
  }

  /** Entry by entry: a slash marks a directory, nine mode bits go along, and the paths ascend in byte order. */
  lemma ArchiveReads(c: map<string, Stat>, ks: seq<string>, es: seq<Entry>, i: nat)
    requires IsArchive(c, ks, es) && i < |es|
    ensures ks[i] in c &&
      match c[ks[i]]
      case File(mode, data) => es[i] == Entry(ks[i], TypeReg, mode & 0x1FF, data)
      case Dir(mode) => es[i] == Entry(ks[i] + "/", TypeDir, mode & 0x1FF, [])
      case Special => false
    ensures forall j | 0 <= j < i ::
      ks[j] < ks[i] || exists d :: FirstDifference(ks[j], ks[i], d) && ks[j][d] < ks[i][d]
  {
    forall j | 0 <= j < i
      ensures ks[j] < ks[i] || exists d :: FirstDifference(ks[j], ks[i], d) && ks[j][d] < ks[i][d]
    {
      assert Lexicographic()(ks[j], ks[i]) && ks[j] != ks[i];
      LexMeans(ks[j], ks[i]);
      WholePrefix(ks[j], ks[i]);
    }
  }

  lemma WholePrefix(a: string, b: string)
    ensures a <= b && |a| == |b| ==> a == b
  {
    if a <= b && |a| == |b| {
      assert b[..|a|] == b;
    }
  }

  /** The archive after the first i of the sorted paths. */
  ghost predicate Packed(c: map<string, Stat>, entries: seq<string>, i: nat, ks: seq<string>, es: seq<Entry>)
    requires i <= |entries|
  {
    |es| == |ks| && SortedBy(Lexicographic(), ks) && Distinct(ks) &&
    (forall j | 0 <= j < |ks| :: ks[j] in c && !c[ks[j]].Special? && es[j] == EntryOf(ks[j], c[ks[j]])) &&
    (forall k :: k in ks <==> k in entries[..i] && k in c)
  }

  /** Does the loop stop at path k: a link that leads nowhere, or a file that cannot be read? */
  predicate Stops(host: Host, root: Node, k: string) {
    match Resolve(host, root, Split(k))
    case Err => true
    case Ok(m) => m.Plain? && m.body.Err?
  }

  /** Packs what lies under root, or fails: on a root that is no directory, or on a path that stops the loop. */
  method Pack(host: Host, root: Node) returns (r: Result<seq<Entry>>, ghost ks: seq<string>)
    requires Named(root)
    ensures r.Err? <==> Follow(host, root).Err? || !Follow(host, root).value.Folder? ||
                        exists k :: k in Names(root) && Stops(host, root, k)
    ensures r.Ok? ==> IsArchive(Contents(host, root), ks, r.value)
  {
    ks := [];
    var info := Follow(host, root);
    if info.Err? || !info.value.Folder? {
      return Err, ks;
    }
    var found := Collect(root);
    var entries := SortStrings(found);
    r, ks := Write(host, root, entries);
  }

  /** Pack's loop over the sorted paths. */
  method Write(host: Host, root: Node, entries: seq<string>) returns (r: Result<seq<Entry>>, ghost ks: seq<string>)
    requires SortedBy(Lexicographic(), entries) && Distinct(entries) && forall k :: k in entries <==> k in Names(root)
    ensures r.Err? <==> exists k :: k in Names(root) && Stops(host, root, k)
    ensures r.Ok? ==> IsArchive(Contents(host, root), ks, r.value)
  {
    ks := [];
    var out: seq<Entry> := [];
    ghost var c := Contents(host, root);
    for i := 0 to |entries|
      invariant forall k | k in entries[..i] :: !Stops(host, root, k)
      invariant Packed(c, entries, i, ks, out)
    {
      var rel := entries[i];
      var fi := Resolve(host, root, Split(rel));
      AtTurn(host, root, entries, i, fi);
      if fi.Err? {
        return Err, ks;
      }
      if fi.value.Device? {
        Skipped(c, entries, i, ks, out);
      } else {
        if fi.value.Plain? && fi.value.body.Err? {
          return Err, ks;
        }
        Appended(c, entries, i, ks, out);
        out := out + [EntryOf(rel, StatOf(fi.value))];
        ks := ks + [rel];
      }
    }
    assert entries[..|entries|] == entries;
    return Ok(out), ks;
  }

  lemma AtTurn(host: Host, root: Node, entries: seq<string>, i: nat, fi: Result<Node>)
    requires i < |entries| && fi == Resolve(host, root, Split(entries[i])) && entries[i] in Names(root)
    ensures entries[i] in Contents(host, root) <==> Packable(fi)
    ensures Packable(fi) ==> Contents(host, root)[entries[i]] == StatOf(fi.value) && !StatOf(fi.value).Special?
    ensures Stops(host, root, entries[i]) <==> fi.Err? || (fi.value.Plain? && fi.value.body.Err?)
    ensures forall k :: k in entries[..i + 1] <==> k in entries[..i] || k == entries[i]
  {
    assert entries[..i + 1] == entries[..i] + [entries[i]];
  }

  /** The walk, relative to the root and without it. */
  method Collect(root: Node) returns (out: seq<string>)
    requires Named(root)
    ensures Distinct(out) && forall k :: k in out <==> k in Names(root)
  {
    ghost var paths: seq<seq<string>>;
    out, paths := WalkDir(root, []);
    forall at ensures at in paths <==> at in Walk(root) && at != [] {
      assert at in paths <==> Visited(root, [], {}, at);
      assert at[0..] == at;
    }
    forall i, j | 0 <= i < j < |out| ensures out[i] != out[j] {
      assert paths[i] in paths && paths[j] in paths;
      NamesSplit(root, paths[i]);
      NamesSplit(root, paths[j]);
    }
    forall k ensures k in out <==> k in Names(root) {
      if k in out {
        var i :| 0 <= i < |out| && out[i] == k;
        assert paths[i] in paths;
      }
      if k in Names(root) {
        var at :| at in Walk(root) && at != [] && Join(at) == k;
        assert at in paths;
      }
    }
  }

  /** Has the walk of n, which stands at `at`, reached p when the children in todo are still to come? */
  predicate Visited(n: Node, at: seq<string>, todo: set<string>, p: seq<string>) {
    p != [] && at <= p && p[|at|..] in Walk(n) && (p == at || p[|at|] !in todo)
  }

  ghost predicate Listed(n: Node, at: seq<string>, todo: set<string>, paths: seq<seq<string>>) {
    Distinct(paths) && forall p :: p in paths <==> Visited(n, at, todo, p)
  }

  predicate Spelled(out: seq<string>, paths: seq<seq<string>>) {
    |out| == |paths| && forall i | 0 <= i < |out| :: out[i] == Join(paths[i])
  }

  /** WalkDir with collect's callback: notes where it is, unless that is the root, and enters real directories only. */
  method WalkDir(n: Node, at: seq<string>) returns (out: seq<string>, ghost paths: seq<seq<string>>)
    ensures Spelled(out, paths) && Listed(n, at, {}, paths)
    decreases n
  {
    out, paths := [], [];
    if at != [] {
      out, paths := [Join(at)], [at];
    }
    Here(n, at);
    if !n.Folder? {
      return;
    }
    var todo := n.children.Keys;
    while todo != {}
      invariant todo <= n.children.Keys && Spelled(out, paths) && Listed(n, at, todo, paths)
      decreases |todo|
    {
      var c := Any(todo);
      var below: seq<string>;
      ghost var deeper: seq<seq<string>>;
      below, deeper := WalkDir(n.children[c], at + [c]);
      Deeper(n, at, c, todo, paths, deeper);
      out, paths := out + below, paths + deeper;
      todo := todo - {c};
    }
  }

  lemma WalkCons(n: Node, at: seq<string>)
    requires at != []
    ensures at in Walk(n) <==> n.Folder? && at[0] in n.children && at[1..] in Walk(n.children[at[0]])
  {
    Lower(n, at);
    WalkIffLstat(n, at);
    if n.Folder? && at[0] in n.children {
      WalkIffLstat(n.children[at[0]], at[1..]);
    }
  }

  /** Before any child, the walk has been where it stands. */
  lemma Here(n: Node, at: seq<string>)
    ensures Listed(n, at, if n.Folder? then n.children.Keys else {}, if at == [] then [] else [at])
  {
    var todo, paths := if n.Folder? then n.children.Keys else {}, if at == [] then [] else [at];
    forall p ensures p in paths <==> Visited(n, at, todo, p) {
      if p == at {
        assert p[|at|..] == [];
      } else if at <= p && p[|at|..] in Walk(n) {
        WalkCons(n, p[|at|..]);
      }
    }
  }

  lemma Below(n: Node, at: seq<string>, c: string, p: seq<string>)
    requires n.Folder? && c in n.children
    ensures Visited(n.children[c], at + [c], {}, p) <==> at < p && p[|at|] == c && p[|at|..] in Walk(n)
  {
    if at < p && p[|at|] == c {
      WalkCons(n, p[|at|..]);
      assert p[|at|..][1..] == p[|at + [c]|..];
      assert at + [c] <= p;
    }
  }

  lemma Deeper(n: Node, at: seq<string>, c: string, todo: set<string>,
               paths: seq<seq<string>>, deeper: seq<seq<string>>)
    requires n.Folder? && c in todo && todo <= n.children.Keys
    requires Listed(n, at, todo, paths) && Listed(n.children[c], at + [c], {}, deeper)
    ensures Listed(n, at, todo - {c}, paths + deeper)
  {
    forall p ensures p in paths + deeper <==> Visited(n, at, todo - {c}, p) {
      Below(n, at, c, p);
      assert p in paths <==> Visited(n, at, todo, p);
    }
    forall i, j | 0 <= i < |paths| && 0 <= j < |deeper| ensures paths[i] != deeper[j] {
      assert paths[i] in paths && deeper[j] in deeper;
      Below(n, at, c, deeper[j]);
    }
    forall i, j | 0 <= i < j < |paths + deeper| ensures (paths + deeper)[i] != (paths + deeper)[j] {
      if |paths| <= i {
        assert deeper[i - |paths|] != deeper[j - |paths|];
      }
    }
  }

  method SortStrings(found: seq<string>) returns (entries: seq<string>)
    requires Distinct(found)
    ensures SortedBy(Lexicographic(), entries) && Distinct(entries) && forall k :: k in entries <==> k in found
  {
    LexIsOrder();
    entries := Sort(found, Lexicographic());
    SameElements(found, entries);
  }

  lemma Skipped(c: map<string, Stat>, entries: seq<string>, i: nat, ks: seq<string>, es: seq<Entry>)
    requires i < |entries| && entries[i] !in c && Packed(c, entries, i, ks, es)
    ensures Packed(c, entries, i + 1, ks, es)
  {
    assert entries[..i + 1] == entries[..i] + [entries[i]];
  }

  lemma Appended(c: map<string, Stat>, entries: seq<string>, i: nat, ks: seq<string>, es: seq<Entry>)
    requires i < |entries| && Distinct(entries) && SortedBy(Lexicographic(), entries)
    requires entries[i] in c && !c[entries[i]].Special? && Packed(c, entries, i, ks, es)
    ensures Packed(c, entries, i + 1, ks + [entries[i]], es + [EntryOf(entries[i], c[entries[i]])])
  {
    forall j | 0 <= j < |ks| ensures ks[j] != entries[i] && Lexicographic()(ks[j], entries[i]) {
      assert ks[j] in ks;
      var m :| 0 <= m < i && entries[m] == ks[j];
    }
    assert entries[..i + 1] == entries[..i] + [entries[i]];
  }
}
