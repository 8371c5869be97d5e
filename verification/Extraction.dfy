/** Extract: unpack beside the destination, then rename into place — alone, and with any number of rivals. */
module Extraction {
  import opened Tables
  import opened Sources
  import opened Bundle
  import opened Replay

  /** Archive bytes as the reader yields them: entries, then end of file or a read error. */
  datatype Archive = Archive(entries: seq<Entry>, corrupt: bool)

  /** The complete tree, if there is one. */
  function Full(env: Env, a: Archive): Result<Fs> {
    if a.corrupt then Err else Replayed(env, a.entries)
  }

  // ------------------------------------------------------------------- alone

  class Disk {
    var dest: Option<Fs>
    var tmps: map<string, Fs>

    constructor ()
      ensures dest == None && tmps == map[]
    {
      dest, tmps := None, map[];
    }

    /**
     All or nothing: an existing destination is left alone, and no temporary tree stays behind unless it is
     one that the process may not remove.
     */
    method Extract(env: Env, a: Archive, tmp: string, removable: bool) returns (ok: bool)
      requires tmp !in tmps
      modifies this
      ensures ok || removable ==> tmps == old(tmps)
      ensures !ok ==> tmps.Keys == old(tmps).Keys + (if removable then {} else {tmp}) && tmps - {tmp} == old(tmps)
      ensures ok <==> old(dest).Some? || Full(env, a).Ok?
      ensures dest == if old(dest).None? && ok then Some(Full(env, a).value) else old(dest)
    {
      if dest.Some? {
        return true;
      }
      tmps := tmps[tmp := map[]];
      ok := Unpack(env, a.entries, tmp);
      ok := ok && !a.corrupt;
      if ok {
        dest := Some(tmps[tmp]);
        tmps := tmps - {tmp};
      } else if removable {
        tmps := tmps - {tmp};
      }
    }

    /** Writes entries until one fails; only the one temporary tree changes. */
    method Unpack(env: Env, es: seq<Entry>, tmp: string) returns (ok: bool)
      requires tmp in tmps && tmps[tmp] == map[]
      modifies this`tmps
      ensures tmp in tmps && tmps == old(tmps)[tmp := tmps[tmp]]
      ensures Replayed(env, es) == if ok then Ok(tmps[tmp]) else Err
    {
      var root := tmps[tmp];
      for i := 0 to |es|
        invariant tmps == old(tmps)[tmp := root] && Replayed(env, es[..i]) == Ok(root)
      {
        ReplayedEntry(env, es, i, root);
        var r := WriteEntry(env, root, es[i]);
        if r.Err? {
          return false;
        }
        MapTwice(old(tmps), tmp, root, r.value);
        root := r.value;
        tmps := tmps[tmp := root];
      }
      assert es[..|es|] == es;
      ok := true;
    }
  }

  lemma MapTwice<K, V>(m: map<K, V>, k: K, u: V, v: V)
    ensures m[k := u][k := v] == m[k := v]
  {
  }

  lemma ReplayedEntry(env: Env, es: seq<Entry>, i: nat, root: Fs)
    requires i < |es| && Replayed(env, es[..i]) == Ok(root)
    ensures match WriteEntry(env, root, es[i])
            case Err => Replayed(env, es).Err?
            case Ok(fs) => Replayed(env, es[..i + 1]) == Ok(fs)
  {
    ReplayedNext(env, es, i);
    if WriteEntry(env, root, es[i]).Err? {
      ReplayFails(env, es, i + 1, |es|);
      assert es[..|es|] == es;
    }
  }

  // --------------------------------------------------------------- with rivals

  /** Where an extractor stands between two system calls. */
  datatype Phase =
    | Checking            // about to stat the destination
    | Making              // the destination was absent
    | Writing(n: nat)     // n entries are in its temporary tree
    | Renaming            // all of them are, and os.Rename is about to look at the destination
    | Moving              // it saw none: about to rename(2)
    | Aborting            // an error: about to clean up and return it
    | Losing              // the rename failed: about to clean up
    | Rechecking          // … and to stat the destination again
    | Done(ok: bool)
    | Crashed

  datatype World = World(dest: Option<Fs>, tmps: map<int, Fs>, ps: map<int, Phase>)

  datatype Act =
    | Start(i: int)
    | Advance(i: int)
    | Fault(i: int, junk: Fs)   // its system call fails, leaving whatever it leaves in the temporary tree
    | Crash(i: int)

  /** rename(2) replaces an absent destination or an empty directory, and refuses anything else. */
  predicate Replaceable(dest: Option<Fs>) {
    dest.None? || dest.value == map[]
  }

  function At(w: World, i: int, p: Phase): World {
    w.(ps := w.ps[i := p])
  }

  function Cleaned(w: World, i: int): World {
    w.(tmps := w.tmps - {i})
  }

  predicate Running(w: World, i: int) {
    i in w.ps && !w.ps[i].Done? && !w.ps[i].Crashed? &&
    (w.ps[i].Writing? || w.ps[i].Moving? ==> i in w.tmps)
  }

  /** The next system call of extractor i, succeeding as a system call. */
  function Advanced(env: Env, a: Archive, w: World, i: int): World
    requires Running(w, i)
  {
    match w.ps[i]
    case Checking => At(w, i, if w.dest.Some? then Done(true) else Making)
    case Making => At(w.(tmps := w.tmps[i := map[]]), i, Writing(0))
    case Writing(n) =>
      if n < |a.entries| then
        (match WriteEntry(env, w.tmps[i], a.entries[n])
         case Ok(fs) => At(w.(tmps := w.tmps[i := fs]), i, Writing(n + 1))
         case Err => At(w, i, Aborting))
      else At(w, i, if a.corrupt then Aborting else Renaming)
    case Renaming => At(w, i, if w.dest.Some? then Losing else Moving)
    case Moving =>
      if Replaceable(w.dest) then At(Cleaned(w, i).(dest := Some(w.tmps[i])), i, Done(true)) else At(w, i, Losing)
    case Aborting => At(Cleaned(w, i), i, Done(false))
    case Losing => At(Cleaned(w, i), i, Rechecking)
    case Rechecking => At(w, i, Done(w.dest.Some?))
    case Done(_) => w
    case Crashed => w
  }

  function Faulted(w: World, i: int, junk: Fs): World
    requires Running(w, i)
  {
    match w.ps[i]
    case Writing(_) => At(w.(tmps := w.tmps[i := junk]), i, Aborting)
    case Renaming | Moving => At(w, i, Losing)
    case Losing => At(w, i, Rechecking)
    case _ => At(w, i, Done(false))
  }

  ghost predicate WorldStep(env: Env, a: Archive, w: World, act: Act, w': World) {
    match act
    case Start(i) => i !in w.ps && i !in w.tmps && w' == At(w, i, Checking)
    case Advance(i) => Running(w, i) && w' == Advanced(env, a, w, i)
    case Fault(i, junk) => Running(w, i) && w' == Faulted(w, i, junk)
    case Crash(i) => i in w.ps && w' == At(w, i, Crashed)
  }

  datatype History = History(worlds: seq<World>, acts: seq<Act>)

  /** Nobody has started; the destination is absent, or complete from before. */
  ghost predicate WorldInit(env: Env, a: Archive, w: World) {
    w.ps == map[] && (w.dest.Some? ==> Full(env, a) == Ok(w.dest.value))
  }

  ghost predicate ActAt(env: Env, a: Archive, h: History, k: int)
    requires 0 <= k < |h.acts| < |h.worlds|
  {
    WorldStep(env, a, h.worlds[k], h.acts[k], h.worlds[k + 1])
  }

  ghost predicate IsHistory(env: Env, a: Archive, h: History) {
    |h.worlds| == |h.acts| + 1 && WorldInit(env, a, h.worlds[0]) &&
    forall k | 0 <= k < |h.acts| :: ActAt(env, a, h, k)
  }

  // ---------------------------------------------------------- all or nothing

  ghost predicate PhaseOk(env: Env, a: Archive, w: World, i: int)
    requires i in w.ps
  {
    match w.ps[i]
    case Writing(n) => n <= |a.entries| && i in w.tmps && Replayed(env, a.entries[..n]) == Ok(w.tmps[i])
    case Renaming | Moving => i in w.tmps && Full(env, a) == Ok(w.tmps[i])
    case Done(ok) => ok ==> w.dest.Some?
    case _ => true
  }

  ghost predicate DestOk(env: Env, a: Archive, w: World) {
    w.dest.Some? ==> Full(env, a) == Ok(w.dest.value)
  }

  lemma PhaseStep(env: Env, a: Archive, w: World, act: Act, w': World, i: int)
    requires WorldStep(env, a, w, act, w') && i in w'.ps && (i in w.ps ==> PhaseOk(env, a, w, i))
    ensures PhaseOk(env, a, w', i)
  {
    if act == Advance(i) && w.ps[i].Writing? {
      WritingStep(env, a, w, i);
    } else if act == Advance(i) && w.ps[i].Making? {
      assert a.entries[..0] == [];
    } else if act.i != i {
      assert w'.ps[i] == w.ps[i] && (i in w'.tmps <==> i in w.tmps) && (i in w.tmps ==> w'.tmps[i] == w.tmps[i]);
    }
  }

  lemma WritingStep(env: Env, a: Archive, w: World, i: int)
    requires Running(w, i) && w.ps[i].Writing? && PhaseOk(env, a, w, i)
    ensures PhaseOk(env, a, Advanced(env, a, w, i), i)
  {
    var n := w.ps[i].n;
    if n < |a.entries| {
      ReplayedNext(env, a.entries, n);
    } else {
      assert a.entries[..n] == a.entries;
    }
  }

  lemma DestStep(env: Env, a: Archive, w: World, act: Act, w': World)
    requires WorldStep(env, a, w, act, w') && DestOk(env, a, w)
    requires act.i in w.ps ==> PhaseOk(env, a, w, act.i)
    ensures DestOk(env, a, w') && (w.dest.Some? ==> w'.dest == w.dest)
  {
  }

  lemma {:induction false} AlwaysOk(env: Env, a: Archive, h: History, k: nat, i: int)
    requires IsHistory(env, a, h) && k < |h.worlds|
    ensures DestOk(env, a, h.worlds[k])
    ensures i in h.worlds[k].ps ==> PhaseOk(env, a, h.worlds[k], i)
    decreases k
  {
    if k > 0 {
      assert ActAt(env, a, h, k - 1);
      AlwaysOk(env, a, h, k - 1, i);
      AlwaysOk(env, a, h, k - 1, h.acts[k - 1].i);
      DestStep(env, a, h.worlds[k - 1], h.acts[k - 1], h.worlds[k]);
      if i in h.worlds[k].ps {
        PhaseStep(env, a, h.worlds[k - 1], h.acts[k - 1], h.worlds[k], i);
      }
    }
  }

  /**
   However the extractors interleave, fail and crash: the destination is absent or the complete tree,
   and an extractor that has returned nil has it there.
   */
  lemma AllOrNothing(env: Env, a: Archive, h: History, k: nat, i: int)
    requires IsHistory(env, a, h) && k < |h.worlds|
    ensures h.worlds[k].dest.None? || Full(env, a) == Ok(h.worlds[k].dest.value)
    ensures i in h.worlds[k].ps && h.worlds[k].ps[i] == Done(true) ==>
            h.worlds[k].dest.Some? && Full(env, a) == Ok(h.worlds[k].dest.value)
  {
    AlwaysOk(env, a, h, k, i);
  }

  /** Once there, it stays. */
  lemma {:induction false} CompleteForEver(env: Env, a: Archive, h: History, j: nat, k: nat)
    requires IsHistory(env, a, h) && j <= k < |h.worlds| && h.worlds[j].dest.Some?
    ensures h.worlds[k].dest == h.worlds[j].dest
    decreases k
  {
    if j < k {
      CompleteForEver(env, a, h, j, k - 1);
      AlwaysOk(env, a, h, k - 1, h.acts[k - 1].i);
      assert ActAt(env, a, h, k - 1);
      DestStep(env, a, h.worlds[k - 1], h.acts[k - 1], h.worlds[k]);
    }
  }

  /** Has extractor i, in the first k steps, been kept from removing its temporary tree? */
  ghost predicate CleanupFailed(h: History, k: nat, i: int)
    requires k <= |h.acts| <= |h.worlds|
  {
    exists m | 0 <= m < k :: h.acts[m].Fault? && h.acts[m].i == i && i in h.worlds[m].ps &&
                             (h.worlds[m].ps[i].Aborting? || h.worlds[m].ps[i].Losing?)
  }

  ghost predicate Tidy(w: World, i: int) {
    i in w.ps && (w.ps[i].Done? || w.ps[i].Checking? || w.ps[i].Making? || w.ps[i].Rechecking?) ==> i !in w.tmps
  }

  /** An extractor that has returned, with or without an error, has left no temporary tree it could remove. */
  lemma {:induction false} NothingLeftBehind(env: Env, a: Archive, h: History, k: nat, i: int)
    requires IsHistory(env, a, h) && k <= |h.acts| && !CleanupFailed(h, k, i)
    ensures Tidy(h.worlds[k], i)
    decreases k
  {
    if k > 0 {
      assert ActAt(env, a, h, k - 1);
      assert !CleanupFailed(h, k - 1, i);
      NothingLeftBehind(env, a, h, k - 1, i);
      TidyStep(env, a, h.worlds[k - 1], h.acts[k - 1], h.worlds[k], i);
    }
  }

  lemma TidyStep(env: Env, a: Archive, w: World, act: Act, w': World, i: int)
    requires WorldStep(env, a, w, act, w') && Tidy(w, i)
    requires !(act.Fault? && act.i == i && i in w.ps && (w.ps[i].Aborting? || w.ps[i].Losing?))
    ensures Tidy(w', i)
  {
    if act.i != i {
      assert (i in w'.ps <==> i in w.ps) && (i in w'.tmps <==> i in w.tmps);
    }
  }

  /** What may still become of an extractor that finds the destination taken. */
  predicate Consoled(p: Phase) {
    p.Losing? || p.Rechecking? || p == Done(true) || p.Crashed?
  }

  lemma ConsoledStep(env: Env, a: Archive, w: World, act: Act, w': World, i: int)
    requires WorldStep(env, a, w, act, w') && i in w.ps && Consoled(w.ps[i]) && w.dest.Some?
    requires !(act.Fault? && act.i == i && w.ps[i].Rechecking?)
    ensures i in w'.ps && Consoled(w'.ps[i])
  {
  }

  /** An extractor that finds the destination taken when it would rename returns nil too, unless its last stat fails. */
  lemma {:induction false} LoserReturnsNil(env: Env, a: Archive, h: History, j: nat, k: nat, i: int)
    requires IsHistory(env, a, h) && j < k < |h.worlds|
    requires h.acts[j] == Advance(i) && h.worlds[j].dest.Some?
    requires i in h.worlds[j].ps && (h.worlds[j].ps[i].Renaming? || h.worlds[j].ps[i].Moving?)
    requires forall m | j < m < k && h.acts[m].Fault? && h.acts[m].i == i ::
      !(i in h.worlds[m].ps && h.worlds[m].ps[i].Rechecking?)
    ensures i in h.worlds[k].ps && Consoled(h.worlds[k].ps[i])
    decreases k
  {
    assert ActAt(env, a, h, k - 1);
    if j + 1 < k {
      LoserReturnsNil(env, a, h, j, k - 1, i);
      CompleteForEver(env, a, h, j, k - 1);
      ConsoledStep(env, a, h.worlds[k - 1], h.acts[k - 1], h.worlds[k], i);
    }
  }

  /** Whoever comes when the destination is there does nothing at all, and returns nil. */
  lemma {:induction false} LatecomerDoesNothing(env: Env, a: Archive, h: History, j: nat, k: nat, i: int)
    requires IsHistory(env, a, h) && j < k < |h.worlds|
    requires h.acts[j] == Advance(i) && i in h.worlds[j].ps && h.worlds[j].ps[i].Checking? && h.worlds[j].dest.Some?
    ensures i in h.worlds[k].ps && (h.worlds[k].ps[i] == Done(true) || h.worlds[k].ps[i] == Crashed)
    ensures i in h.worlds[k].tmps <==> i in h.worlds[j].tmps
    decreases k
  {
    assert ActAt(env, a, h, k - 1);
    if j + 1 < k {
      LatecomerDoesNothing(env, a, h, j, k - 1, i);
    }
  }

  /** A rename onto a destination with anything in it is refused, and both trees stay as they are. */
  lemma TakenIsRefused(env: Env, a: Archive, h: History, j: nat, i: int)
    requires IsHistory(env, a, h) && j < |h.acts| && h.acts[j] == Advance(i) && i in h.worlds[j].ps
    requires h.worlds[j].dest.Some?
    requires h.worlds[j].ps[i].Renaming? || (h.worlds[j].ps[i].Moving? && h.worlds[j].dest.value != map[])
    ensures h.worlds[j + 1] == h.worlds[j].(ps := h.worlds[j].ps[i := Losing])
  {
    assert ActAt(env, a, h, j);
  }

  /** None of the first k steps is a fault of extractor i's own. */
  ghost predicate Spared(h: History, k: nat, i: int)
    requires k <= |h.acts|
  {
    forall m | 0 <= m < k :: !(h.acts[m].Fault? && h.acts[m].i == i)
  }

  /** An extractor on its way to an error has a bad archive, and one that lost the race has a destination to find. */
  ghost predicate OnlyOwnTrouble(env: Env, a: Archive, w: World, i: int) {
    i in w.ps ==>
      match w.ps[i]
      case Aborting => Full(env, a).Err?
      case Losing | Rechecking => w.dest.Some?
      case Done(ok) => ok || Full(env, a).Err?
      case _ => true
  }

  lemma TroubleStep(env: Env, a: Archive, w: World, act: Act, w': World, i: int)
    requires WorldStep(env, a, w, act, w') && !(act.Fault? && act.i == i) && OnlyOwnTrouble(env, a, w, i)
    requires i in w.ps ==> PhaseOk(env, a, w, i)
    requires w.dest.Some? ==> w'.dest == w.dest
    ensures OnlyOwnTrouble(env, a, w', i)
  {
    if act.i != i {
      assert i in w'.ps <==> i in w.ps;
    } else if act.Advance? && w.ps[i].Writing? {
      TroubleWriting(env, a, w, i);
    }
  }

  lemma TroubleWriting(env: Env, a: Archive, w: World, i: int)
    requires Running(w, i) && w.ps[i].Writing? && PhaseOk(env, a, w, i)
    ensures OnlyOwnTrouble(env, a, Advanced(env, a, w, i), i)
  {
    if w.ps[i].n < |a.entries| {
      ReplayedEntry(env, a.entries, w.ps[i].n, w.tmps[i]);
    }
  }

  lemma {:induction false} NobodyElsesTrouble(env: Env, a: Archive, h: History, k: nat, i: int)
    requires IsHistory(env, a, h) && k <= |h.acts| && Spared(h, k, i)
    ensures OnlyOwnTrouble(env, a, h.worlds[k], i)
    decreases k
  {
    if k > 0 {
      NobodyElsesTrouble(env, a, h, k - 1, i);
      AlwaysOk(env, a, h, k - 1, i);
      AlwaysOk(env, a, h, k - 1, h.acts[k - 1].i);
      assert ActAt(env, a, h, k - 1);
      DestStep(env, a, h.worlds[k - 1], h.acts[k - 1], h.worlds[k]);
      TroubleStep(env, a, h.worlds[k - 1], h.acts[k - 1], h.worlds[k], i);
    }
  }

  /** Whatever rivals do, an extractor spared faults of its own returns nil exactly for a good archive. */
  lemma NilIffGood(env: Env, a: Archive, h: History, k: nat, i: int, ok: bool)
    requires IsHistory(env, a, h) && k <= |h.acts| && Spared(h, k, i)
    requires i in h.worlds[k].ps && h.worlds[k].ps[i] == Done(ok)
    ensures ok <==> Full(env, a).Ok?
  {
    NobodyElsesTrouble(env, a, h, k, i);
    AllOrNothing(env, a, h, k, i);
  }

  // ------------------------------------------------------------ from end to end

  /**
   A directory that packs to es, extracted by anyone anywhere: whoever returns nil has put, or found,
   everything walked in place, and if some path is inadmissible nobody ever does.
   */
  lemma PackThenExtract(env: Env, host: Host, n: Node, ks: seq<string>, es: seq<Entry>, h: History, k: nat, i: int)
    requires Named(n) && IsArchive(Contents(host, n), ks, es)
    requires IsHistory(env, Archive(es, false), h) && k < |h.worlds|
    requires i in h.worlds[k].ps && h.worlds[k].ps[i] == Done(true)
    ensures h.worlds[k].dest == Some(Arriving(env, Contents(host, n)))
    ensures forall p | p in Contents(host, n) :: Admissible(env, Contents(host, n), p)
  {
    AllOrNothing(env, Archive(es, false), h, k, i);
    ContentsClosed(host, n);
    RoundTrip(env, Contents(host, n), ks, es);
  }
}
