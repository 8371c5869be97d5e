/** The server together with its hub and the pages that watch it: which changes a page can miss, and which it cannot. */
module Wakeup {
  import opened Tables
  import opened Queue
  import opened Protocol
  import opened Hub
  import opened Choice

  /** A channel of the hub and the page it was opened for; broadcasts go by number. */
  datatype Sub = Sub(page: int, buf: seq<nat>, got: seq<nat>, since: nat)

  /** A page: the rows it last fetched, whether it is about to fetch, and the channel behind its event stream. */
  datatype Page = Page(view: Option<Runs>, due: bool, stream: Option<int>)

  /** owed counts the changes committed whose notify has not run; sent counts the broadcasts so far. */
  datatype Sys = Sys(q: State, owed: nat, sent: nat, subs: map<int, Sub>, closed: set<int>, pages: map<int, Page>)

  datatype SysEvent =
    | Serve(e: Event)
    | Notify
    | Subscribe(c: int, p: int)   // the stream of page p is registered, for the first time or after a reconnect
    | Unsubscribe(c: int)
    | Read(c: int)                // a message of channel c reaches its page, if that still listens
    | Mount(p: int)               // page p is shown, its first fetch under way
    | Load(p: int)                // a fetch of page p
    | Disconnect(p: int)          // page p loses its stream, and the server has yet to notice

  /** Does the code call notify after e? */
  predicate Owes(s: State, e: Event) {
    match e
    case Claim(_, pick) => pick.Some?
    case Result(_, _, _, _) => Lands(s, e)
    case Sweep => Reclaimed(s.runs, s.workers, s.now - s.timeout) != {}
    case Cancel(_) | Retry(_) | Prioritize(_) => true
    case Enqueue(_, announced) => announced
    case _ => false
  }

  /** Rows inserted by another process, which has no hub to tell. */
  predicate Silent(e: SysEvent) {
    e.Serve? && e.e.Enqueue? && !e.e.announced
  }

  ghost predicate SysInit(y: Sys) {
    Init(y.q) && y.owed == 0 && y.sent == 0 && y.subs == map[] && y.closed == {} && y.pages == map[]
  }

  ghost predicate SysEnabled(y: Sys, e: SysEvent) {
    match e
    case Serve(e) => Enabled(y.q, e)
    case Notify => 0 < y.owed
    case Subscribe(c, p) => c !in y.subs && c !in y.closed && p in y.pages
    case Read(c) => c in y.subs && y.subs[c].buf != []
    case Load(p) => p in y.pages
    case Disconnect(p) => p in y.pages
    case _ => true
  }

  predicate Listens(y: Sys, p: int, c: int) {
    p in y.pages && y.pages[p].stream == Some(c)
  }

  /** The pages once no stream leads through a channel in gone. */
  function CutOff(pages: map<int, Page>, gone: set<int>): map<int, Page> {
    map p | p in pages ::
      if pages[p].stream.Some? && pages[p].stream.value in gone then pages[p].(stream := None) else pages[p]
  }

  /** A restart takes the hub and all streams with it, and with the hub every notify still owed. */
  ghost function Served(y: Sys, e: Event): Sys
    requires Enabled(y.q, e)
  {
    var y1 := y.(q := Next(y.q, e));
    if e.Restart? then
      y1.(owed := 0, subs := map[], closed := y.closed + y.subs.Keys, pages := CutOff(y.pages, y.subs.Keys))
    else y1.(owed := y.owed + if Owes(y.q, e) then 1 else 0)
  }

  /** One message is delivered; the page it reaches sets its timer for a fetch. */
  function Delivered(y: Sys, c: int): Sys
    requires c in y.subs && y.subs[c].buf != []
  {
    var sub := y.subs[c];
    var y1 := y.(subs := y.subs[c := sub.(buf := sub.buf[1..], got := sub.got + [sub.buf[0]])]);
    if Listens(y, sub.page, c) then y1.(pages := y.pages[sub.page := y.pages[sub.page].(due := true)]) else y1
  }

  ghost function SysNext(y: Sys, e: SysEvent): Sys
    requires SysEnabled(y, e)
  {
    match e
    case Serve(e) => Served(y, e)
    case Notify =>
      y.(owed := y.owed - 1, sent := y.sent + 1,
         subs := map c | c in y.subs :: y.subs[c].(buf := Offered(y.subs[c].buf, y.sent)))
    case Subscribe(c, p) =>
      y.(subs := y.subs[c := Sub(p, [], [], y.sent)], pages := y.pages[p := y.pages[p].(stream := Some(c))])
    case Unsubscribe(c) =>
      if c in y.subs then y.(subs := y.subs - {c}, closed := y.closed + {c}, pages := CutOff(y.pages, {c})) else y
    case Read(c) => Delivered(y, c)
    case Mount(p) =>
      y.(pages := y.pages[p := Page(None, true, if p in y.pages then y.pages[p].stream else None)])
    case Load(p) => y.(pages := y.pages[p := y.pages[p].(view := Some(y.q.runs), due := false)])
    case Disconnect(p) => y.(pages := y.pages[p := y.pages[p].(stream := None)])
  }

  ghost predicate SysStep(y: Sys, e: SysEvent, y': Sys) {
    SysEnabled(y, e) && y' == SysNext(y, e)
  }

  datatype SysRun = SysRun(states: seq<Sys>, events: seq<SysEvent>)

  ghost predicate SysStepAt(r: SysRun, i: int)
    requires 0 <= i < |r.events| < |r.states|
  {
    SysStep(r.states[i], r.events[i], r.states[i + 1])
  }

  ghost predicate IsSysRun(r: SysRun) {
    |r.states| == |r.events| + 1 && SysInit(r.states[0]) && forall i | 0 <= i < |r.events| :: SysStepAt(r, i)
  }

  function Final(r: SysRun): Sys
    requires |r.states| > 0
  {
    r.states[|r.states| - 1]
  }

  /** One more event at the end of a run. */
  ghost function Extended(r: SysRun, e: SysEvent): (r': SysRun)
    requires IsSysRun(r) && SysEnabled(Final(r), e)
    ensures IsSysRun(r') && Final(r') == SysNext(Final(r), e) && r'.events == r.events + [e]
    ensures r.states <= r'.states && |r'.states| == |r.states| + 1
  {
    var r' := SysRun(r.states + [SysNext(Final(r), e)], r.events + [e]);
    assert forall i | 0 <= i < |r'.events| :: SysStepAt(r', i) by {
      forall i | 0 <= i < |r'.events| ensures SysStepAt(r', i) {
        if i < |r.events| {
          assert SysStepAt(r, i);
        }
      }
    }
    r'
  }

  // ----------------------------------------------------------------- listening

  /** Every stream leads through a registered channel of that very page. */
  ghost predicate StreamsOk(y: Sys) {
    forall p, c | Listens(y, p, c) :: c in y.subs && y.subs[c].page == p
  }

  lemma ListensStep(y: Sys, e: SysEvent, y': Sys, p: int, c: int)
    requires StreamsOk(y) && SysStep(y, e, y') && Listens(y', p, c)
    ensures c in y'.subs && y'.subs[c].page == p
    ensures e == Subscribe(c, p) || Listens(y, p, c)
  {
    if e != Subscribe(c, p) {
      assert Listens(y, p, c);
      assert c in y.subs && y.subs[c].page == p;
    }
  }

  lemma {:induction false} StreamsAlwaysOk(r: SysRun, i: nat)
    requires IsSysRun(r) && i < |r.states|
    ensures StreamsOk(r.states[i])
  {
    if i > 0 {
      StreamsAlwaysOk(r, i - 1);
      assert SysStepAt(r, i - 1);
      forall p, c | Listens(r.states[i], p, c) ensures c in r.states[i].subs && r.states[i].subs[c].page == p {
        ListensStep(r.states[i - 1], r.events[i - 1], r.states[i], p, c);
      }
    }
  }

  lemma {:induction false} WasRegistered(r: SysRun, i: nat, p: int, c: int) returns (m: nat)
    requires IsSysRun(r) && i < |r.states| && Listens(r.states[i], p, c)
    ensures m < i && r.events[m] == Subscribe(c, p)
  {
    StreamsAlwaysOk(r, i - 1);
    assert SysStepAt(r, i - 1);
    ListensStep(r.states[i - 1], r.events[i - 1], r.states[i], p, c);
    m := i - 1;
    if r.events[m] != Subscribe(c, p) {
      m := WasRegistered(r, i - 1, p, c);
    }
  }

  ghost predicate Registered(y: Sys, c: int) {
    c in y.subs || c in y.closed
  }

  /** A channel that was registered by step k and is listened to at step i was listened to all the while. */
  lemma {:induction false} ListenedSince(r: SysRun, k: nat, i: nat, p: int, c: int)
    requires IsSysRun(r) && k <= i < |r.states| && Registered(r.states[k], c) && Listens(r.states[i], p, c)
    ensures forall j | k <= j <= i :: Listens(r.states[j], p, c)
    decreases i
  {
    if k < i {
      StaysRegistered(r, k, i - 1, c);
      StreamsAlwaysOk(r, i - 1);
      assert SysStepAt(r, i - 1);
      ListensStep(r.states[i - 1], r.events[i - 1], r.states[i], p, c);
      ListenedSince(r, k, i - 1, p, c);
    }
  }

  lemma {:induction false} StaysRegistered(r: SysRun, k: nat, i: nat, c: int)
    requires IsSysRun(r) && k <= i < |r.states| && Registered(r.states[k], c)
    ensures Registered(r.states[i], c)
    decreases i
  {
    if k < i {
      StaysRegistered(r, k, i - 1, c);
      assert SysStepAt(r, i - 1);
    }
  }

  // ---------------------------------------------------------- no lost wakeup

  /** Every change of a run is followed by a notify, but for rows inserted behind the server's back. */
  lemma ChangesOwe(s: State, e: Event, s': State)
    requires Step(s, e, s') && s'.runs != s.runs
    ensures Owes(s, e) || Silent(Serve(e))
  {
    if e.Sweep? {
      SweepByRows(s.runs, s.workers, s.now - s.timeout);
    }
  }

  /** … and only so: a claim or a sweep that changes nothing, a refused report, and all the rest wake nobody. */
  lemma OwesOnlyFor(s: State, e: Event, s': State)
    requires Step(s, e, s')
    ensures e.Claim? || e.Sweep? ==> (Owes(s, e) <==> s'.runs != s.runs)
    ensures e.Result? ==> (Owes(s, e) <==> e.id in s.runs && Ends(s.runs[e.id].status, e.report.status))
    ensures e.Cancel? || e.Retry? || e.Prioritize? ==> Owes(s, e)
    ensures e.Enqueue? ==> (Owes(s, e) <==> e.announced)
    ensures e.Tick? || e.Arrive? || e.Record? || e.Leave? || e.Restart? ==> !Owes(s, e)
  {
    if e.Sweep? {
      SweepByRows(s.runs, s.workers, s.now - s.timeout);
    }
    if e.Result? && ParseTerminalStatus(e.report.status).Some? {
      ParsesIff(e.report.status, ParseTerminalStatus(e.report.status).value);
    }
  }

  ghost predicate LoadsBetween(r: SysRun, k: int, i: nat, p: int)
    requires i <= |r.events|
  {
    exists m: nat | k < m < i :: r.events[m] == Load(p)
  }

  lemma NoLoadStep(r: SysRun, k: int, i: nat, p: int)
    requires k < i < |r.events|
    ensures LoadsBetween(r, k, i + 1, p) <==> LoadsBetween(r, k, i, p) || r.events[i] == Load(p)
  {
  }

  /** Step k commits a change that the server announces. */
  ghost predicate OwesAt(r: SysRun, k: nat)
    requires k < |r.events| < |r.states|
  {
    r.events[k].Serve? && Owes(r.states[k].q, r.events[k].e)
  }

  /** Page p, listening on channel c, is about to fetch, or will be told to. */
  ghost predicate WillWake(y: Sys, p: int, c: int)
    requires p in y.pages && c in y.subs
  {
    y.pages[p].due || y.subs[c].buf != [] || 0 < y.owed
  }

  lemma WakeStep(y: Sys, e: SysEvent, y': Sys, p: int, c: int)
    requires StreamsOk(y) && SysStep(y, e, y') && e != Load(p) && Listens(y, p, c) && Listens(y', p, c)
    requires WillWake(y, p, c) || (e.Serve? && Owes(y.q, e.e))
    ensures c in y'.subs && WillWake(y', p, c)
  {
    ListensStep(y, e, y', p, c);
    if e == Read(c) {
      assert y'.pages[p].due;
    }
  }

  /** Dropped messages lose no wakeup: after an announced change a listening page has fetched, or will. */
  lemma {:induction false} WokenOrLoaded(r: SysRun, k: nat, i: nat, p: int, c: int)
    requires IsSysRun(r) && k < i < |r.states| && OwesAt(r, k)
    requires Registered(r.states[k], c) && Listens(r.states[i], p, c)
    ensures c in r.states[i].subs
    ensures LoadsBetween(r, k, i, p) || WillWake(r.states[i], p, c)
    decreases i
  {
    StreamsAlwaysOk(r, i);
    StreamsAlwaysOk(r, i - 1);
    ListenedSince(r, k, i, p, c);
    assert SysStepAt(r, i - 1);
    if k < i - 1 {
      WokenOrLoaded(r, k, i - 1, p, c);
      NoLoadStep(r, k, i - 1, p);
    }
    if !LoadsBetween(r, k, i, p) {
      WakeStep(r.states[i - 1], r.events[i - 1], r.states[i], p, c);
    }
  }

  /** Nothing outstanding for page p: no notify owed, no message unread on its channel c, no fetch to come. */
  ghost predicate Drained(y: Sys, p: int, c: int) {
    Listens(y, p, c) && c in y.subs && y.owed == 0 && y.subs[c].buf == [] && !y.pages[p].due
  }

  /**
   In every run: a drained page has fetched after every claim, accepted result, non-empty sweep and
   operator action since its channel was registered.
   */
  lemma NoLostWakeup(r: SysRun, k: nat, i: nat, p: int, c: int)
    requires IsSysRun(r) && k < i < |r.states| && OwesAt(r, k) && Registered(r.states[k], c)
    requires Drained(r.states[i], p, c)
    ensures LoadsBetween(r, k, i, p)
  {
    WokenOrLoaded(r, k, i, p, c);
  }

  // ------------------------------------------------------- what it does miss

  /** Rows seeded at step k, after which p has not fetched. */
  ghost predicate SeededUnseen(r: SysRun, k: nat, i: nat, p: int)
    requires k < i <= |r.events|
  {
    Silent(r.events[k]) && r.events[k].e.batch.Keys != {} && !LoadsBetween(r, k, i, p)
  }

  ghost predicate Behind(r: SysRun, i: nat, p: int)
    requires i <= |r.events|
  {
    exists k: nat | k < i :: SeededUnseen(r, k, i, p)
  }

  /** When step m registered its channel, p had other rows than there were, and it has not fetched since. */
  ghost predicate LateToListen(r: SysRun, m: nat, i: nat, p: int)
    requires m < i < |r.states| && |r.states| == |r.events| + 1
  {
    p in r.states[i].pages && !LoadsBetween(r, m, i, p) && r.states[i].pages[p].view != Some(r.states[m].q.runs)
  }

  lemma BehindStep(r: SysRun, i: nat, p: int)
    requires i < |r.events| && r.events[i] != Load(p)
    ensures Behind(r, i + 1, p) <==> Behind(r, i, p) || (Silent(r.events[i]) && r.events[i].e.batch.Keys != {})
  {
    if Behind(r, i, p) {
      var k: nat :| k < i && SeededUnseen(r, k, i, p);
      NoLoadStep(r, k, i, p);
      assert SeededUnseen(r, k, i + 1, p);
    } else if Silent(r.events[i]) && r.events[i].e.batch.Keys != {} {
      assert SeededUnseen(r, i, i + 1, p);
    } else if Behind(r, i + 1, p) {
      var k: nat :| k < i + 1 && SeededUnseen(r, k, i + 1, p);
      NoLoadStep(r, k, i, p);
      assert SeededUnseen(r, k, i, p);
    }
  }

  ghost predicate ViewOk(y: Sys, p: int) {
    p in y.pages && y.pages[p].view.Some? ==> y.pages[p].view.value.Keys <= y.q.runs.Keys
  }

  lemma ViewStep(y: Sys, e: SysEvent, y': Sys, p: int)
    requires SysStep(y, e, y') && ViewOk(y, p)
    ensures ViewOk(y', p) && y.q.runs.Keys <= y'.q.runs.Keys
    ensures e != Load(p) && p in y'.pages && y'.pages[p].view.Some? ==>
      p in y.pages && y'.pages[p].view == y.pages[p].view
  {
    if e.Serve? {
      forall id | id in y.q.runs ensures id in y'.q.runs {
        RowMoves(y.q, e.e, y'.q, id);
      }
    }
  }

  lemma {:induction false} AlwaysViewOk(r: SysRun, i: nat, p: int)
    requires IsSysRun(r) && i < |r.states|
    ensures ViewOk(r.states[i], p)
  {
    if i > 0 {
      assert SysStepAt(r, i - 1);
      AlwaysViewOk(r, i - 1, p);
      ViewStep(r.states[i - 1], r.events[i - 1], r.states[i], p);
    }
  }

  /** A seeded row stays out of p's view until p fetches. */
  lemma {:induction false} SeedStaysUnseen(r: SysRun, k: nat, i: nat, p: int, id: int)
    requires IsSysRun(r) && k < i < |r.states| && SeededUnseen(r, k, i, p) && id in r.events[k].e.batch
    ensures id in r.states[i].q.runs
    ensures p in r.states[i].pages && r.states[i].pages[p].view.Some? ==> id !in r.states[i].pages[p].view.value
    decreases i
  {
    assert SysStepAt(r, i - 1);
    AlwaysViewOk(r, i - 1, p);
    ViewStep(r.states[i - 1], r.events[i - 1], r.states[i], p);
    if k < i - 1 {
      NoLoadStep(r, k, i - 1, p);
      SeedStaysUnseen(r, k, i - 1, p, id);
    }
  }

  /** A step that owes nothing and seeds nothing leaves the rows alone. */
  lemma RowsKept(y: Sys, e: SysEvent, y': Sys)
    requires SysStep(y, e, y') && !(Silent(e) && e.e.batch.Keys != {}) && !(e.Serve? && Owes(y.q, e.e))
    ensures y'.q.runs == y.q.runs
  {
    if e.Serve? && y'.q.runs != y.q.runs {
      ChangesOwe(y.q, e.e, y'.q);
    }
  }

  /** Since its channel was registered p will be woken, or the rows are the same, or some were seeded. */
  lemma {:induction false} QuietSince(r: SysRun, m: nat, i: nat, p: int, c: int)
    requires IsSysRun(r) && m < i < |r.states| && r.events[m] == Subscribe(c, p)
    requires Listens(r.states[i], p, c) && !LoadsBetween(r, m, i, p)
    ensures c in r.states[i].subs
    ensures WillWake(r.states[i], p, c) || r.states[i].q.runs == r.states[m].q.runs || Behind(r, i, p)
    decreases i
  {
    assert SysStepAt(r, m) && SysStepAt(r, i - 1);
    StreamsAlwaysOk(r, i);
    if m < i - 1 {
      NoLoadStep(r, m, i - 1, p);
      ListenedSince(r, m + 1, i, p, c);
      StreamsAlwaysOk(r, i - 1);
      QuietSince(r, m, i - 1, p, c);
      QuietOn(r, i - 1, p, c);
    }
  }

  lemma QuietOn(r: SysRun, i: nat, p: int, c: int)
    requires IsSysRun(r) && i < |r.events| && r.events[i] != Load(p) && StreamsOk(r.states[i])
    requires Listens(r.states[i], p, c) && Listens(r.states[i + 1], p, c)
    ensures c in r.states[i].subs && c in r.states[i + 1].subs
    ensures WillWake(r.states[i], p, c) ==> WillWake(r.states[i + 1], p, c)
    ensures Behind(r, i, p) ==> Behind(r, i + 1, p)
    ensures WillWake(r.states[i + 1], p, c) || Behind(r, i + 1, p) || r.states[i + 1].q.runs == r.states[i].q.runs
  {
    assert SysStepAt(r, i);
    var y, e, y' := r.states[i], r.events[i], r.states[i + 1];
    ListensStep(y, e, y', p, c);
    BehindStep(r, i, p);
    if WillWake(y, p, c) || (e.Serve? && Owes(y.q, e.e)) {
      WakeStep(y, e, y', p, c);
    } else if !(Silent(e) && e.e.batch.Keys != {}) {
      RowsKept(y, e, y');
    }
  }

  /** A listening page is current, will be woken, has missed a seed, or was late to listen. */
  lemma {:induction false} CurrentOrNot(r: SysRun, m: nat, i: nat, p: int, c: int)
    requires IsSysRun(r) && m < i < |r.states| && r.events[m] == Subscribe(c, p) && Listens(r.states[i], p, c)
    ensures c in r.states[i].subs
    ensures r.states[i].pages[p].view == Some(r.states[i].q.runs) || WillWake(r.states[i], p, c) ||
            Behind(r, i, p) || LateToListen(r, m, i, p)
    decreases i
  {
    assert SysStepAt(r, m) && SysStepAt(r, i - 1);
    StreamsAlwaysOk(r, i);
    var e := r.events[i - 1];
    if m < i - 1 && e != Load(p) && e != Mount(p) {
      NoLoadStep(r, m, i - 1, p);
      ListenedSince(r, m + 1, i, p, c);
      StreamsAlwaysOk(r, i - 1);
      CurrentOrNot(r, m, i - 1, p, c);
      QuietOn(r, i - 1, p, c);
      ViewKept(r.states[i - 1], e, r.states[i], p);
    }
  }

  lemma ViewKept(y: Sys, e: SysEvent, y': Sys, p: int)
    requires SysStep(y, e, y') && p in y.pages && e != Load(p) && e != Mount(p)
    ensures p in y'.pages && y'.pages[p].view == y.pages[p].view
  {
  }

  lemma OutOfDateSince(r: SysRun, m: nat, i: nat, p: int, c: int)
    requires IsSysRun(r) && m < i < |r.states| && r.events[m] == Subscribe(c, p) && Drained(r.states[i], p, c)
    ensures r.states[i].pages[p].view != Some(r.states[i].q.runs) <==> Behind(r, i, p) || LateToListen(r, m, i, p)
  {
    CurrentOrNot(r, m, i, p, c);
    if Behind(r, i, p) {
      var k: nat :| k < i && SeededUnseen(r, k, i, p);
      SeedStaysUnseen(r, k, i, p, Pick(r.events[k].e.batch.Keys));
    } else if LateToListen(r, m, i, p) {
      QuietSince(r, m, i, p, c);
    }
  }

  /**
   In every run: a drained page is out of date exactly when another process has seeded rows since it last
   fetched, or when it was out of date already as its channel was registered and has not fetched since.
   */
  lemma OutOfDateIff(r: SysRun, i: nat, p: int, c: int)
    requires IsSysRun(r) && i < |r.states| && Drained(r.states[i], p, c)
    ensures r.states[i].pages[p].view != Some(r.states[i].q.runs) <==>
            Behind(r, i, p) ||
            exists m: nat | m < i :: r.events[m] == Subscribe(c, p) && LateToListen(r, m, i, p)
  {
    var first := WasRegistered(r, i, p, c);
    OutOfDateSince(r, first, i, p, c);
    forall m: nat | m < i && r.events[m] == Subscribe(c, p)
      ensures r.states[i].pages[p].view != Some(r.states[i].q.runs) <==> Behind(r, i, p) || LateToListen(r, m, i, p)
    {
      OutOfDateSince(r, m, i, p, c);
    }
  }

  /** Nothing has happened yet, but page 0 has been shown and fetched that there are no rows. */
  lemma FirstFetch() returns (r: SysRun)
    ensures IsSysRun(r) && r.events == [Mount(0), Load(0)]
    ensures var y := Final(r);
      Init(y.q) && y.owed == 0 && y.sent == 0 && y.subs == map[] && y.closed == {} &&
      y.pages == map[0 := Page(Some(map[]), false, None)]
  {
    var q := State(0, 0, map[], map[], map[], map[], map[], {});
    r := SysRun([Sys(q, 0, 0, map[], {}, map[])], []);
    r := Extended(r, Mount(0));
    r := Extended(r, Load(0));
  }

  function OneRow(announced: bool): SysEvent {
    Serve(Enqueue(map[1 := NewRun(0, 0, "seed", 0)], announced))
  }

  ghost predicate OutOfDate(y: Sys, p: int, c: int) {
    Drained(y, p, c) && y.pages[p].view != Some(y.q.runs)
  }

  /** A row seeded by another process, and a page that listens and never hears of it. */
  lemma SeedMissed() returns (r: SysRun)
    ensures IsSysRun(r) && r.events == [Mount(0), Load(0), Subscribe(0, 0), OneRow(false)]
    ensures OutOfDate(Final(r), 0, 0)
  {
    r := FirstFetch();
    r := Extended(r, Subscribe(0, 0));
    r := Extended(r, OneRow(false));
    assert 1 in Final(r).q.runs;
  }

  /** A change announced between a page's fetch and the registration of its channel is lost on it. */
  lemma FetchedTooEarly() returns (r: SysRun)
    ensures IsSysRun(r) && r.events == [Mount(0), Load(0), OneRow(true), Notify, Subscribe(0, 0)]
    ensures OutOfDate(Final(r), 0, 0)
  {
    r := FirstFetch();
    r := Extended(r, OneRow(true));
    r := Extended(r, Notify);
    r := Extended(r, Subscribe(0, 0));
    assert 1 in Final(r).q.runs;
  }

  lemma StreamLost() returns (r: SysRun)
    ensures IsSysRun(r) && r.events == [Mount(0), Load(0), Subscribe(0, 0), Unsubscribe(0)]
    ensures var y := Final(r);
      Init(y.q) && y.owed == 0 && y.sent == 0 && y.subs == map[] && y.closed == {0} &&
      y.pages == map[0 := Page(Some(map[]), false, None)]
  {
    r := FirstFetch();
    r := Extended(r, Subscribe(0, 0));
    r := Extended(r, Unsubscribe(0));
  }

  /** A stream that breaks and reconnects by itself has lost what was announced in between, and fetches nothing. */
  lemma ReconnectMisses() returns (r: SysRun)
    ensures IsSysRun(r)
    ensures r.events == [Mount(0), Load(0), Subscribe(0, 0), Unsubscribe(0), OneRow(true), Notify, Subscribe(1, 0)]
    ensures OutOfDate(Final(r), 0, 1)
  {
    r := StreamLost();
    r := Extended(r, OneRow(true));
    r := Extended(r, Notify);
    r := Extended(r, Subscribe(1, 0));
    assert 1 in Final(r).q.runs;
  }

  // ------------------------------------------------------- what a subscriber reads

  predicate Increasing(ns: seq<nat>) {
    forall i, j | 0 <= i < j < |ns| :: ns[i] < ns[j]
  }

  /** Read plus unread is an in-order selection of the broadcasts since subscribing, and the buffer is bounded. */
  ghost predicate StreamOk(y: Sys, c: int)
    requires c in y.subs
  {
    var all := y.subs[c].got + y.subs[c].buf;
    Increasing(all) && (forall i | 0 <= i < |all| :: y.subs[c].since <= all[i] < y.sent) &&
    y.subs[c].since <= y.sent && |y.subs[c].buf| <= 8 && c !in y.closed
  }

  lemma StreamStep(y: Sys, e: SysEvent, y': Sys, c: int)
    requires SysStep(y, e, y') && c in y'.subs && (c in y.subs ==> StreamOk(y, c))
    ensures StreamOk(y', c)
  {
    if c in y.subs {
      var sub, sub' := y.subs[c], y'.subs[c];
      if e == Read(c) {
        assert sub'.got + sub'.buf == sub.got + sub.buf;
      } else if e.Notify? && |sub.buf| < CAPACITY {
        assert sub'.got + sub'.buf == sub.got + sub.buf + [y.sent];
      } else {
        assert sub' == sub;
      }
    }
  }

  /** No send meets a closed channel, no buffer overflows, nothing is read out of order or twice. */
  lemma {:induction false} StreamsInOrder(r: SysRun, i: nat, c: int)
    requires IsSysRun(r) && i < |r.states| && c in r.states[i].subs
    ensures StreamOk(r.states[i], c)
  {
    if i > 0 {
      assert SysStepAt(r, i - 1);
      if c in r.states[i - 1].subs {
        StreamsInOrder(r, i - 1, c);
      }
      StreamStep(r.states[i - 1], r.events[i - 1], r.states[i], c);
    }
  }

  /** No step but its own reading and its end takes an unread message from a channel. */
  lemma UnreadKept(r: SysRun, i: nat, c: int)
    requires IsSysRun(r) && i < |r.events| && c in r.states[i].subs
    requires r.events[i] != Read(c) && r.events[i] != Unsubscribe(c)
    requires !(r.events[i].Serve? && r.events[i].e.Restart?)
    ensures c in r.states[i + 1].subs && r.states[i].subs[c].buf <= r.states[i + 1].subs[c].buf
  {
    assert SysStepAt(r, i);
  }

  /** Everything a channel was ever given, read or not. */
  function Given(y: Sys, c: int): seq<nat>
    requires c in y.subs
  {
    y.subs[c].got + y.subs[c].buf
  }

  lemma GivenStep(y: Sys, e: SysEvent, y': Sys, c: int)
    requires SysStep(y, e, y') && c in y.subs && c in y'.subs
    ensures Given(y', c) == Given(y, c) + if e.Notify? && |y.subs[c].buf| < 8 then [y.sent] else []
    ensures y'.sent == y.sent + if e.Notify? then 1 else 0
  {
    if e == Read(c) {
      var sub := y.subs[c];
      assert sub.got + [sub.buf[0]] + sub.buf[1..] == sub.got + sub.buf;
    } else if e.Notify? {
      assert Given(y', c) == y.subs[c].got + Offered(y.subs[c].buf, y.sent);
    }
  }

  lemma {:induction false} SentGrows(r: SysRun, k: nat, i: nat)
    requires IsSysRun(r) && k <= i < |r.states|
    ensures r.states[k].sent <= r.states[i].sent
    decreases i
  {
    if k < i {
      SentGrows(r, k, i - 1);
      assert SysStepAt(r, i - 1);
    }
  }

  /** What a channel was given it keeps, for good and in order; nothing comes in but broadcasts as they are sent. */
  lemma {:induction false} GivenLasts(r: SysRun, k: nat, i: nat, c: int)
    requires IsSysRun(r) && k <= i < |r.states| && c in r.states[k].subs && c in r.states[i].subs
    ensures Given(r.states[k], c) <= Given(r.states[i], c)
    ensures forall j | |Given(r.states[k], c)| <= j < |Given(r.states[i], c)| ::
      r.states[k].sent <= Given(r.states[i], c)[j]
    decreases i
  {
    if k < i {
      StaysSubscribed(r, k, i, c);
      GivenLasts(r, k, i - 1, c);
      assert SysStepAt(r, i - 1);
      GivenStep(r.states[i - 1], r.events[i - 1], r.states[i], c);
      SentGrows(r, k, i - 1);
    }
  }

  lemma StaysSubscribed(r: SysRun, k: nat, i: nat, c: int)
    requires IsSysRun(r) && k < i < |r.states| && c in r.states[k].subs && c in r.states[i].subs
    ensures c in r.states[i - 1].subs
  {
    StaysRegistered(r, k, i - 1, c);
    assert SysStepAt(r, i - 1);
  }

  /**
   The exact history: a broadcast sent while channel c was registered is missing from what c was given, then
   and for ever, exactly when eight messages were unread as it was sent.
   */
  lemma MissedIffEightUnread(r: SysRun, k: nat, i: nat, c: int)
    requires IsSysRun(r) && k < i < |r.states| && r.events[k].Notify?
    requires c in r.states[k].subs && c in r.states[i].subs
    ensures r.states[k].sent !in Given(r.states[i], c) <==> |r.states[k].subs[c].buf| == 8
  {
    var n := r.states[k].sent;
    assert SysStepAt(r, k);
    StreamsInOrder(r, k, c);
    GivenStep(r.states[k], r.events[k], r.states[k + 1], c);
    GivenLasts(r, k + 1, i, c);
    var was, next, now := Given(r.states[k], c), Given(r.states[k + 1], c), Given(r.states[i], c);
    if |r.states[k].subs[c].buf| < 8 {
      assert now[|was|] == next[|was|] == n;
    } else {
      forall j | 0 <= j < |now| ensures now[j] != n {
        if j < |next| {
          assert now[j] == next[j] == was[j];
        }
      }
    }
  }

  /** A broadcast misses a subscriber exactly when that one has a full buffer of unread messages. */
  lemma DropsIffFull(r: SysRun, i: nat, c: int)
    requires IsSysRun(r) && i < |r.events| && r.events[i].Notify? && c in r.states[i].subs
    ensures c in r.states[i + 1].subs
    ensures r.states[i].sent !in r.states[i + 1].subs[c].buf <==> |r.states[i].subs[c].buf| == 8
  {
    StreamsInOrder(r, i, c);
    assert SysStepAt(r, i);
    var sub, sub' := r.states[i].subs[c], r.states[i + 1].subs[c];
    if |sub.buf| == CAPACITY {
      forall k | 0 <= k < |sub.buf| ensures sub.buf[k] != r.states[i].sent {
        assert (sub.got + sub.buf)[|sub.got| + k] == sub.buf[k];
      }
    } else {
      assert sub'.buf[|sub.buf|] == r.states[i].sent;
    }
  }
}
