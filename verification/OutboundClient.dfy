/** Outbound connections: the handshake contexts of WebSocketClientContext.h and their owner of ClientApp.h, and who
  * tells and frees what.
  *
  * The handlers of the application are a script: each call takes the next reaction from it.  They may close the
  * application, start connections and end sockets; they may not destroy the application, which frees the contexts
  * their callers still use. */
module OutboundClient {
  import opened Bytes

  type Id = nat
  type User = nat

  /** What a handler does. */
  datatype Call =
    | CallClose
    | CallConnect(user: Option<User>, viaProxy: bool, starts: bool)
    | CallEnd(id: Id)

  /** Where the socket of a connection is: nowhere; being connected; in its TLS handshake before the open event; in the
    * exchange of heads; adopted by the frame context; closed. */
  datatype Place = Idle | Dialing | Securing | Shaking | Framed | Closed
  {
    predicate Over() { Idle? || Closed? }
    predicate Early() { Dialing? || Securing? || Shaking? }
  }

  /** The extension of a handshake context: `user`, `request` are those of its pending record. */
  datatype Ext = Ext(user: Option<User>, request: bool, isOpen: bool, notified: bool)

  /** The record in the extension of a socket. */
  datatype Held = Held(user: Option<User>, request: bool, tunnelling: bool)

  /** How often the open and the failed handler were called. */
  datatype Telling = Telling(opens: nat, fails: nat)

  /** How often the user data was moved into a socket, and released. */
  datatype Fate = Fate(moved: nat, released: nat)

  /** How often the connect request ended, and the deleters ran. */
  datatype Closing = Closing(ends: nat, deleted: nat)

  /** How often what happened. */
  datatype Ledger = Ledger(told: Telling, fate: Fate, closing: Closing)
  {
    function Open(moved: nat): Ledger
    {
      this.(told := told.(opens := told.opens + 1), fate := fate.(moved := fate.moved + moved))
    }

    function Fail(): Ledger { this.(told := told.(fails := told.fails + 1)) }

    function Release(n: nat): Ledger { this.(fate := fate.(released := fate.released + n)) }

    function End(): Ledger { this.(closing := closing.(ends := closing.ends + 1)) }

    function Delete(): Ledger { this.(closing := closing.(deleted := closing.deleted + 1)) }
  }

  /** The handshake contexts of a connection: `peer` is the second one of TLS through a proxy, and `inPeer` says that
    * the socket is there. */
  datatype Exts = Exts(main: Ext, peer: Option<Ext>, inPeer: bool)
  {
    function Here(): Ext
    {
      if inPeer && peer.Some? then peer.value else main
    }

    function WithHere(e: Ext): Exts
    {
      if inPeer && peer.Some? then this.(peer := Some(e)) else this.(main := e)
    }
  }

  /** A connection with its slot. `live`: the connect request is still owed its one end; `parking`: a failure to start
    * is to be reported later, with the user data kept in `parked`; `quiet`: nobody is told how it ended. */
  datatype Conn = Conn(exts: Exts, held: Option<Held>, place: Place, live: bool, secure: bool, proxied: bool,
                       started: bool,
                       done: bool, parking: bool, parked: Option<User>, given: Option<User>, quiet: bool,
                         ledger: Ledger)
  {
    function Here(): Ext { exts.Here() }
  }

  datatype Deferred = DeferSweep | DeferFailed(id: Id)

  /** A handler of the connection is running: told of its failure, of the end of its socket, or of a failed start. */
  datatype Stage = Emitting | Ending | Reporting

  datatype App = App(conns: map<Id, Conn>, slots: seq<Id>, sweepScheduled: bool, closed: bool, destroyed: bool,
                     queue: seq<Deferred>, busy: map<Id, Stage>, hung: bool, nextId: Id)

  // ---------------------------------------------------------------- one connection

  function One(x: Option<User>): nat { if x.Some? then 1 else 0 }

  function PeerUser(c: Conn): Option<User>
  {
    if c.exts.peer.Some? then c.exts.peer.value.user else None
  }

  /** How many hold the user data. */
  function Owners(c: Conn): nat
  {
    One(c.exts.main.user) + One(PeerUser(c)) + One(c.parked)
  }

  predicate Opened(c: Conn) { c.exts.main.isOpen || (c.exts.peer.Some? && c.exts.peer.value.isOpen) }

  predicate Notified(c: Conn) { c.exts.main.notified || (c.exts.peer.Some? && c.exts.peer.value.notified) }

  /** One pointer leads to the connect request as long as it lives; it ends once. */
  predicate RequestOk(c: Conn)
  {
    && (c.live <==> c.exts.main.request || (c.held.Some? && c.held.value.request))
      && (c.exts.main.request ==> c.held.None?)
    && (c.exts.peer.Some? ==> !c.exts.peer.value.request)
    && c.ledger.closing.ends + (if c.live then 1 else 0) == (if c.started then 1 else 0)
  }

  /** The user data has one owner, or was moved or released, once. */
  predicate UserOk(c: Conn)
  {
    && c.ledger.fate.moved + c.ledger.fate.released + Owners(c) == One(c.given)
    && (c.exts.main.user.Some? ==> c.exts.main.user == c.given) && (PeerUser(c).Some? ==> PeerUser(c) == c.given)
    && (c.parked.Some? ==> c.parked == c.given && c.parking)
    && (c.ledger.fate.moved > 0 ==> c.ledger.told.opens == 1)
    && (c.ledger.fate.released > 0 ==> c.ledger.told.opens == 0)
  }

  predicate Basics(c: Conn)
  {
    && RequestOk(c) && UserOk(c) && c.ledger.told.opens + c.ledger.told.fails <= 1 && c.ledger.closing.deleted <= 1
    && (c.ledger.told.opens > 0 ==> c.started)
    && (c.exts.inPeer ==> c.exts.peer.Some?) && (c.parking ==> c.place.Idle?)
    && (c.place.Idle? || c.place.Closed? || c.place.Framed? ==> !c.live)
    && (c.place.Dialing? || c.place.Securing? ==> c.exts.main.request && !c.exts.inPeer && !Opened(c))
    && (c.place.Shaking? ==> c.held.Some? && c.held.value.request && c.Here().isOpen)
    && (c.held.Some? ==> c.Here().isOpen) && (Opened(c) ==> c.Here().isOpen && c.held.Some?)
    && (c.exts.inPeer ==> !c.exts.main.isOpen && (c.held.Some? ==> !c.held.value.tunnelling))
      && (c.exts.peer.Some? && !c.exts.inPeer ==> !c.exts.peer.value.isOpen)
  }

  /** No handler of it is running. */
  predicate Steady(c: Conn)
  {
    && Basics(c)
    && (c.place.Early() ==>
          && c.ledger.told.opens == c.ledger.told.fails == c.ledger.closing.deleted == 0 && !Notified(c)
          && !c.done && !c.quiet
          && c.Here().user == c.given && (c.held.Some? ==> c.held.value.user == c.given))
    && (c.place.Framed? ==>
          c.ledger.told.opens == 1 && Owners(c) == 0 && !c.done && c.ledger.closing.deleted == 0 && !c.quiet)
    && (c.place.Framed? || c.place.Over() ==> c.held.None?)
    && (c.parking ==>
          && c.ledger.told.opens == c.ledger.told.fails == 0 && !c.quiet
          && c.exts.main.user.None? && PeerUser(c).None?)
    && (c.parking || c.place.Early() || c.place.Framed? ==> !c.done)
    && (c.place.Over() && !c.parking ==> c.ledger.told.opens + c.ledger.told.fails == if c.quiet then 0 else 1)
    && (c.place.Over() && !c.parking && !c.quiet ==> c.done && Owners(c) == 0)
    && (c.ledger.closing.deleted == 1 ==> c.place.Over() && c.exts.main.user.None? && PeerUser(c).None?)
    && (c.done ==> c.place.Over() && !c.parking && !c.quiet)
  }

  /** Its failure is known to no one yet: the next thing is to tell. */
  predicate Struck(c: Conn)
  {
    && Basics(c) && c.ledger.told.opens == c.ledger.told.fails == c.ledger.closing.deleted == 0
    && !Notified(c) && !c.done && !c.quiet
    && !c.parking
    && c.Here().user == c.given && !c.place.Framed? && !c.place.Dialing?
  }

  predicate Fits(c: Conn, stage: Option<Stage>)
  {
    match stage
    case None => Steady(c)
    case Some(Emitting) =>
      && Basics(c) && c.ledger.told.fails == 1 && c.ledger.closing.deleted == 0 && c.Here().notified
      && !c.done && !c.quiet
      && !c.parking
      && c.Here().user == c.given && !c.place.Framed? && !c.place.Dialing?
    case Some(Ending) =>
      && Basics(c) && c.place.Closed? && c.held.None? && c.ledger.told.opens == 1
      && c.ledger.closing.deleted == 0 && Owners(c) == 0
      && !c.done && !c.quiet && !c.parking
    case Some(Reporting) =>
      && Basics(c) && c.parking && c.held.None? && c.ledger.told.fails == 1 && c.ledger.closing.deleted == 0
      && !c.done && !c.quiet
      && c.exts.main.user.None? && PeerUser(c).None?
  }

  // ---------------------------------------------------------------- its steps

  function Dialled(given: Option<User>, viaProxy: bool, ssl: bool, starts: bool): Conn
  {
    var e := Ext(None, false, false, false);
    Conn(Exts(e.(user := if starts then given else None, request := starts), if viaProxy && ssl then Some(e)
      else None, false), None,
         if starts then Dialing else Idle, starts, ssl && !viaProxy, viaProxy, starts, false, !starts,
         if starts then None else given, given, false, Ledger(Telling(0, 0), Fate(0, 0), Closing(0, 0)))
  }

  /** `us_connect_request_cancel`: the request is freed, a socket without its open event closed without an event. */
  function Cancelled(c: Conn): Conn
  {
    if !c.exts.main.request then c
    else c.(exts := c.exts.(main := c.exts.main.(request := false)), live := false, place := if c.place.Dialing? then
      Idle else Closed,
            quiet := !c.Here().notified, ledger := c.ledger.End())
  }

  /** The socket is closed and the request released. */
  function Unplugged(c: Conn): Conn
  {
    if c.held.Some? then
      c.(held := Some(c.held.value.(request := false)), live := false, place := Closed, ledger :=
        c.ledger.End())
    else
      c.(exts := c.exts.(main := c.exts.main.(request := false)), live := false, place := Closed, ledger :=
        c.ledger.End())
  }

  /** The record in the socket is destroyed. */
  function Bare(c: Conn): Conn
  {
    c.(exts := c.exts.WithHere(c.Here().(isOpen := false)), held := None)
  }

  /** `failed` is delivered. */
  function Told(c: Conn): Conn
  {
    c.(exts := c.exts.WithHere(c.Here().(notified := true)), ledger := c.ledger.Fail())
  }

  /** The user data is released and the slot retired. */
  function Retired(c: Conn): Conn
  {
    c.(exts := c.exts.WithHere(c.Here().(user := None)), done := true, ledger :=
      c.ledger.Release(One(c.Here().user)))
  }

  /** What closing the application does to a connection whose handler is running. */
  function Hung(c: Conn): Conn
  {
    if c.exts.main.request then Cancelled(c)
    else if c.place.Shaking? then Bare(Unplugged(c))
    else c
  }

  /** on_open: the record is built from the pending one. */
  function Entered(c: Conn): Conn
  {
    c.(held := Some(Held(c.exts.main.user, c.exts.main.request, c.proxied)), place := Shaking,
       exts := c.exts.(main := c.exts.main.(request := false, isOpen := true)))
  }

  /** `proxyStartTls`: the socket and all it owns go over to the second context. */
  function HandedOver(c: Conn): Conn
    requires c.held.Some? && c.exts.peer.Some?
  {
    c.(exts := Exts(c.exts.main.(user := None, isOpen := false),
      Some(c.exts.peer.value.(user := c.held.value.user, isOpen := true)), true),
       held := Some(c.held.value.(tunnelling := false)))
  }

  /** `adoptToFrame` up to the open event: the request is released and the user data moved into the socket. */
  function Adopted(c: Conn): Conn
    requires c.held.Some?
  {
    c.(exts := c.exts.WithHere(c.Here().(isOpen := false, user := None)), held := None, place := Framed, live := false,
      ledger := c.ledger.End().Open(One(c.held.value.user)))
  }

  /** The deleters: both extensions release what they still own. */
  function Deleted(c: Conn): Conn
  {
    c.(exts := Exts(c.exts.main.(user := None), if c.exts.peer.Some? then Some(c.exts.peer.value.(user := None))
      else None, c.exts.inPeer),
       ledger := c.ledger.Release(One(c.exts.main.user) + One(PeerUser(c))).Delete())
  }

  /** The report of a failed start, told or not. */
  function Reported(c: Conn, done: bool): Conn
  {
    c.(parking := false, parked := None, done := done, quiet := !done,
       ledger := c.ledger.Release(One(c.parked)))
  }

  lemma DialledSteady(given: Option<User>, viaProxy: bool, ssl: bool, starts: bool)
    ensures var c := Dialled(given, viaProxy, ssl, starts);
              Steady(c) && c.ledger.closing.deleted == 0 && !c.done && c.parking == !starts && !c.quiet
  {
  }

  lemma CancelledSteady(c: Conn)
    requires Steady(c)
    ensures Steady(Cancelled(c)) && !Cancelled(c).exts.main.request && (c.place.Over() ==> Cancelled(c) == c)
    ensures Cancelled(c).place.Early() ==> Cancelled(c).place.Shaking?
  {
  }

  lemma HungEmitting(c: Conn)
    requires Fits(c, Some(Emitting))
    ensures Fits(Hung(c), Some(Emitting)) && Hung(Hung(c)) == Hung(c) && Hung(c).place.Over()
    ensures Hung(c) == if c.exts.main.request then Cancelled(c) else if c.place.Shaking? then Bare(Unplugged(c)) else c
    ensures c.place.Shaking? ==> !c.exts.main.request
  {
  }

  lemma HungOther(c: Conn, stage: Stage)
    requires Fits(c, Some(stage)) && !stage.Emitting?
    ensures Hung(c) == Cancelled(c) == c && c.place.Over()
  {
  }

  lemma UnpluggedStruck(c: Conn)
    requires Steady(c) && (c.place.Shaking? || c.place.Securing?)
    ensures Struck(Unplugged(c)) && !c.Here().notified
  {
  }

  lemma ToldEmitting(c: Conn)
    requires Struck(c)
    ensures Fits(Told(c), Some(Emitting)) && !c.Here().notified
  {
  }

  /** Closed at last, it is settled. */
  lemma RetiredSteady(c: Conn)
    requires Fits(c, Some(Emitting))
    ensures c.place.Over() && c.held.None? ==> Steady(Retired(c))
    ensures c.place.Closed? && c.held.Some? ==> Steady(Bare(Retired(c)))
    ensures c.place.Shaking? || c.place.Securing? ==> Steady(Bare(Unplugged(Retired(c))))
    ensures Retired(c).Here().notified && Retired(c).place == c.place && Retired(c).held == c.held
    ensures Retired(c).Here().isOpen == c.Here().isOpen
  {
  }

  lemma EnteredSteady(c: Conn)
    requires Steady(c) && (c.place.Dialing? || c.place.Securing?)
    ensures Steady(Entered(c))
  {
  }

  lemma HandedOverSteady(c: Conn)
    requires Steady(c) && c.place.Shaking? && c.exts.peer.Some? && !c.exts.inPeer
    ensures Steady(HandedOver(c))
  {
  }

  lemma AdoptedSteady(c: Conn)
    requires Steady(c) && c.place.Shaking?
    ensures Steady(Adopted(c))
  {
  }

  lemma DeletedSteady(c: Conn)
    requires Steady(c) && c.place.Over() && c.ledger.closing.deleted == 0
    ensures Steady(Deleted(c)) && (c.done ==> Deleted(c).ledger.fate.released == c.ledger.fate.released)
  {
  }

  lemma ReportedSteady(c: Conn)
    ensures Fits(c, Some(Reporting)) ==> Steady(Reported(c, true))
    ensures Steady(c) && c.parking ==> Steady(Reported(c, false))
  {
  }

  /** on_connect_error: the request has freed itself. */
  function Lapsed(c: Conn): Conn
  {
    c.(exts := c.exts.(main := c.exts.main.(request := false)), live := false, place := Idle, ledger :=
      c.ledger.End())
  }

  lemma LapsedStruck(c: Conn)
    requires Steady(c) && c.place.Dialing?
    ensures Struck(Lapsed(c))
  {
  }

  lemma EarlyStruck(c: Conn)
    requires Steady(c) && (c.place.Securing? || c.place.Shaking?)
    ensures Struck(c)
  {
  }

  lemma PromotedSteady(c: Conn)
    requires Steady(c) && c.place.Dialing?
    ensures Steady(c.(place := Securing))
  {
  }

  /** The socket of the frame context is closed; then its slot is retired. */
  lemma FrameEnds(c: Conn)
    requires Steady(c) && c.place.Framed?
    ensures var e := c.(place := Closed); Fits(e, Some(Ending)) && Steady(e.(done := true))
  {
  }

  lemma ReportStarts(c: Conn)
    requires Steady(c) && c.parking && c.ledger.closing.deleted == 0
    ensures Fits(c.(ledger := c.ledger.Fail()), Some(Reporting))
  {
  }

  // ---------------------------------------------------------------- the application

  function StageOf(x: App, id: Id): Option<Stage>
  {
    if id in x.busy then Some(x.busy[id]) else None
  }

  /** The failures to start that have not been reported are queued once each. */
  ghost predicate QueueOk(x: App)
  {
    && (forall id :: DeferFailed(id) in x.queue <==>
      id in x.conns && x.conns[id].parking && StageOf(x, id) != Some(Reporting))
    && OnceEach(x.queue)
  }

  ghost predicate OnceEach(queue: seq<Deferred>)
  {
    forall i, j :: 0 <= i < j < |queue| && queue[i] == queue[j] ==> queue[i].DeferSweep?
  }

  lemma OnceMore(queue: seq<Deferred>, d: Deferred)
    requires OnceEach(queue) && (d.DeferSweep? || d !in queue)
    ensures OnceEach(queue + [d])
  {
  }

  /** The slots are those whose deleters have not run; after `close` no socket is left and none comes; unless closed,
    * everyone is told. */
  ghost predicate AppCore(x: App)
  {
    && (forall i, j :: 0 <= i < j < |x.slots| ==> x.slots[i] != x.slots[j])
    && (forall id :: id in x.slots <==> id in x.conns && x.conns[id].ledger.closing.deleted == 0)
    && (forall id :: id in x.conns ==> id < x.nextId && (x.conns[id].quiet ==> x.closed))
    && (x.destroyed ==> x.slots == [] && x.hung)
    && (x.sweepScheduled && !x.destroyed ==> DeferSweep in x.queue)
    && QueueOk(x) && x.busy.Keys <= x.conns.Keys
    && (x.hung ==> x.closed && forall id :: id in x.conns ==> x.conns[id].place.Over())
  }

  /** Those retired are about to be swept, and nobody else's deleters have run. */
  ghost predicate Due(x: App)
  {
    forall id :: id in x.conns ==>
      && (x.conns[id].done && x.conns[id].ledger.closing.deleted == 0 ==> x.sweepScheduled)
      && (!x.destroyed && x.conns[id].ledger.closing.deleted != 0 ==> x.conns[id].done)
  }

  ghost predicate AppOk(x: App) { AppCore(x) && Due(x) }

  ghost predicate InvBut(x: App, but: Option<Id>)
  {
    AppOk(x) && forall id :: id in x.conns && Some(id) != but ==> Fits(x.conns[id], StageOf(x, id))
  }

  ghost predicate Inv(x: App) { InvBut(x, None) }

  /** Time goes on: nothing over begins again, nothing told is untold, no slot goes; once closed no slot comes. */
  ghost predicate Later(a: App, b: App)
  {
    && a.slots <= b.slots && b.destroyed == a.destroyed && (a.hung ==> b.hung) && (a.closed ==> b.closed)
    && (a.closed ==> b.slots == a.slots && b.conns.Keys == a.conns.Keys) && (b.closed && !a.closed ==> b.hung)
    && forall id :: id in a.conns ==> id in b.conns && Onward(a.conns[id], b.conns[id])
  }

  predicate Onward(c: Conn, d: Conn)
  {
    && (c.place.Over() ==> d.place.Over()) && (c.done ==> d.done) && d.given == c.given && d.started == c.started
    && c.ledger.told.opens <= d.ledger.told.opens && c.ledger.told.fails <= d.ledger.told.fails
  }

  /** Connections whose handlers are running are left alone, but for closing their sockets. */
  ghost predicate Spared(a: App, b: App)
  {
    b.busy == a.busy && forall id :: id in a.busy && id in a.conns && id in b.conns ==>
      b.conns[id] == a.conns[id] || b.conns[id] == Hung(a.conns[id])
  }

  ghost predicate Goes(a: App, b: App) { Later(a, b) && Spared(a, b) }

  lemma GoesTrans(a: App, b: App, c: App)
    requires Goes(a, b) && Goes(b, c)
    ensures Goes(a, c)
  {
    forall id | id in a.busy && id in a.conns && id in c.conns
      ensures c.conns[id] == a.conns[id] || c.conns[id] == Hung(a.conns[id])
    {
      HungTwice(a.conns[id]);
    }
  }

  lemma HungTwice(c: Conn)
    ensures Hung(Hung(c)) == Hung(c)
  {
    hide Cancelled, Unplugged, Bare;
    if c.exts.main.request { CancelledOver(c); } else { UnpluggedOver(c); }
  }

  lemma CancelledOver(c: Conn)
    requires c.exts.main.request
    ensures !Cancelled(c).exts.main.request && !Cancelled(c).place.Shaking?
  {
  }

  lemma UnpluggedOver(c: Conn)
    requires !c.exts.main.request
    ensures !Bare(Unplugged(c)).exts.main.request && !Bare(Unplugged(c)).place.Shaking?
  {
    hide Bare;
    var d := Unplugged(c);
    assert !d.exts.main.request && d.place.Closed?;
    BareOver(d);
  }

  lemma BareOver(c: Conn)
    ensures Bare(c).exts.main.request == c.exts.main.request && Bare(c).place == c.place
  {
  }

  lemma GoesSelf(a: App)
    ensures Goes(a, a)
  {
  }

  function Put(x: App, id: Id, c: Conn): App
  {
    x.(conns := x.conns[id := c])
  }

  function Mark(x: App, id: Id, stage: Option<Stage>): App
  {
    x.(busy := if stage.Some? then x.busy[id := stage.value] else x.busy - {id})
  }

  /** `retire`: the slot is to be swept. */
  function Scheduled(x: App): App
  {
    if x.sweepScheduled then x else x.(sweepScheduled := true, queue := x.queue + [DeferSweep])
  }

  /** One connection takes a step; `stage` is what of it is running afterwards. */
  lemma StepKeeps(x: App, id: Id, c: Conn, stage: Option<Stage>)
    requires InvBut(x, Some(id)) && id in x.conns && c.ledger.closing.deleted == x.conns[id].ledger.closing.deleted
    requires (c.done ==> x.conns[id].done || x.sweepScheduled) && (x.conns[id].done ==> c.done)
    requires (c.quiet ==> x.closed)
    requires (c.parking && stage != Some(Reporting)) == (x.conns[id].parking && StageOf(x, id) != Some(Reporting))
    requires c.place.Over() || !x.hung
    ensures var y := Mark(Put(x, id, c), id, stage);
            InvBut(y, Some(id)) && StageOf(y, id) == stage && (Fits(c, stage) ==> Inv(y)) && y.conns[id] == c
  {
    hide Fits, QueueOk;
    var y := Mark(Put(x, id, c), id, stage);
    StepQueue(x, id, c, stage);
    StepFits(x, id, c, stage);
  }

  lemma StepFits(x: App, id: Id, c: Conn, stage: Option<Stage>)
    requires InvBut(x, Some(id)) && id in x.conns
    ensures var y := Mark(Put(x, id, c), id, stage);
            && (forall i :: i in y.conns && i != id ==> Fits(y.conns[i], StageOf(y, i))) && StageOf(y, id) == stage
  {
    hide Fits, AppOk;
    var y := Mark(Put(x, id, c), id, stage);
    forall i | i != id ensures StageOf(y, i) == StageOf(x, i) { StageElsewhere(x, y, id, i, stage); }
  }

  lemma StageElsewhere(x: App, y: App, id: Id, i: Id, stage: Option<Stage>)
    requires i != id && y.busy == if stage.Some? then x.busy[id := stage.value] else x.busy - {id}
    ensures StageOf(y, i) == StageOf(x, i)
  {
  }

  lemma StepQueue(x: App, id: Id, c: Conn, stage: Option<Stage>)
    requires QueueOk(x) && id in x.conns
    requires (c.parking && stage != Some(Reporting)) == (x.conns[id].parking && StageOf(x, id) != Some(Reporting))
    ensures QueueOk(Mark(Put(x, id, c), id, stage))
  {
    var y := Mark(Put(x, id, c), id, stage);
    forall i ensures DeferFailed(i) in y.queue <==>
      i in y.conns && y.conns[i].parking && StageOf(y, i) != Some(Reporting) {
      assert DeferFailed(i) in x.queue <==> i in x.conns && x.conns[i].parking && StageOf(x, i) != Some(Reporting);
    }
  }

  lemma ScheduledKeeps(x: App, but: Option<Id>)
    requires InvBut(x, but)
    ensures InvBut(Scheduled(x), but) && Scheduled(x).sweepScheduled && Scheduled(x).conns == x.conns
    ensures Scheduled(x).busy == x.busy
    ensures Scheduled(x).hung == x.hung && Later(x, Scheduled(x)) && Spared(x, Scheduled(x))
  {
    hide Fits;
    var y := Scheduled(x);
    OnceMore(x.queue, DeferSweep);
    assert forall d: Deferred :: d in y.queue <==> d in x.queue || (d == DeferSweep && !x.sweepScheduled);
    assert forall id :: StageOf(y, id) == StageOf(x, id);
  }

  lemma StepLater(x: App, id: Id, c: Conn, stage: Option<Stage>)
    requires id in x.conns && Onward(x.conns[id], c)
    ensures Later(x, Mark(Put(x, id, c), id, stage))
  {
  }
  // ---------------------------------------------------------------- the code

  class ClientApp {
    const ssl: bool
    var conns: map<Id, Conn>
    var slots: seq<Id>
    var sweepScheduled: bool
    var closed: bool
    var destroyed: bool
    /** What the loop was asked to run later. */
    var queue: seq<Deferred>
    /** How the handlers still to be called will react. */
    var script: seq<seq<Call>>
    var nextId: Id
    ghost var busy: map<Id, Stage>
    ghost var hung: bool

    ghost function Now(): App
      reads this
    {
      App(conns, slots, sweepScheduled, closed, destroyed, queue, busy, hung, nextId)
    }

    /** Between events no handler is running. */
    ghost predicate Ready()
      reads this
    {
      Inv(Now()) && busy == map[] && (closed ==> hung)
    }

    constructor (ssl: bool, script: seq<seq<Call>>)
      ensures Ready() && conns == map[] && !closed && !destroyed && queue == [] && this.script == script
      ensures this.ssl == ssl
    {
      this.ssl, this.script := ssl, script;
      conns, slots, sweepScheduled, closed, destroyed, queue, nextId := map[], [], false, false, false, [], 0;
      busy, hung := map[], false;
    }

    method Step(id: Id, c: Conn, ghost stage: Option<Stage>)
      modifies this`conns, this`busy
      ensures Now() == Mark(Put(old(Now()), id, c), id, stage)
    {
      conns := conns[id := c];
      busy := if stage.Some? then busy[id := stage.value] else busy - {id};
    }

    method Schedule()
      modifies this`sweepScheduled, this`queue
      ensures Now() == Scheduled(old(Now()))
    {
      if !sweepScheduled {
        sweepScheduled := true;
        queue := queue + [DeferSweep];
      }
    }

    /** A handler reacts. */
    method React()
      requires Inv(Now())
      modifies this
      ensures Inv(Now()) && Goes(old(Now()), Now()) && |script| <= old(|script|)
      decreases |script|, 0
    {
      hide Inv, Goes;
      ghost var x := Now();
      GoesSelf(x);
      if |script| > 0 {
        var calls := script[0];
        script := script[1..];
        for k := 0 to |calls|
          invariant Inv(Now()) && Goes(x, Now()) && |script| < old(|script|)
        {
          ghost var y := Now();
          Perform(calls[k]);
          GoesTrans(x, y, Now());
        }
      }
    }

    method Perform(call: Call)
      requires Inv(Now())
      modifies this
      ensures Inv(Now()) && Goes(old(Now()), Now()) && |script| <= old(|script|)
      decreases |script|, 6
    {
      hide Inv, Goes;
      GoesSelf(Now());
      match call {
        case CallClose => Close();
        case CallConnect(user, viaProxy, starts) =>
          var _, _ := Connect(user, viaProxy, starts);
        case CallEnd(id) =>
          if id in conns && conns[id].place.Framed? {
            FrameClosed(id);
          }
      }
    }

    /** `connect`, refused once closed; a request that cannot be started is reported later. */
    method Connect(user: Option<User>, viaProxy: bool, starts: bool) returns (ok: bool, id: Id)
      requires Inv(Now())
      modifies this
      ensures Inv(Now()) && Goes(old(Now()), Now()) && script == old(script)
      ensures ok == !old(closed) && (!ok ==> Now() == old(Now()))
      ensures ok ==>
                && id !in old(conns) && conns == old(conns)[id := Dialled(user, viaProxy, ssl, starts)]
                && slots == old(slots) + [id]
      decreases |script|, 0
    {
      hide Inv, Goes, Steady, Fits, Dialled;
      ghost var x := Now();
      ok, id := !closed, nextId;
      if !ok {
        GoesSelf(x);
        return;
      }
      DialledSteady(user, viaProxy, ssl, starts);
      ConnectedKeeps(x, Dialled(user, viaProxy, ssl, starts), starts);
      nextId := nextId + 1;
      slots := slots + [id];
      conns := conns[id := Dialled(user, viaProxy, ssl, starts)];
      if !starts {
        queue := queue + [DeferFailed(id)];
      }
    }

    /** `emitFailed`: told once; then the user data is released and the slot retired. */
    method EmitFailed(id: Id)
      requires InvBut(Now(), Some(id)) && id in conns
      requires conns[id].Here().notified || (Struck(conns[id]) && id !in busy)
      modifies this
      ensures InvBut(Now(), Some(id)) && |script| <= old(|script|) && id in conns
      ensures old(conns[id].Here().notified) ==> Now() == old(Now())
      ensures !old(conns[id].Here().notified) ==>
                && Goes(old(Now()), Now()) && id !in busy && sweepScheduled
                && var c := Told(old(conns)[id]);
                   (conns[id] == Retired(c) || conns[id] == Retired(Hung(c))) && Fits(c, Some(Emitting))
                     && Fits(Hung(c), Some(Emitting))
      decreases |script|, 1
    {
      hide Inv, InvBut, Fits, Goes, Struck, Told, Retired, Hung;
      if conns[id].Here().notified {
        return;
      }
      ghost var x, c := Now(), conns[id];
      TellKeeps(x, id);
      Step(id, Told(conns[id]), Some(Emitting));
      ghost var y := Now();
      React();
      ghost var z := Now();
      ToldReacted(x, y, z, id);
      Step(id, Retired(conns[id]), None);
      Schedule();
    }

    /** on_close before adoption: the request is released, the failure told unless it has been, and the record goes. */
    method OnClose(id: Id)
      requires InvBut(Now(), Some(id)) && id in conns && (conns[id].place.Shaking? || conns[id].place.Securing?)
      requires conns[id].Here().notified || (Steady(conns[id]) && id !in busy)
      modifies this
      ensures |script| <= old(|script|)
      ensures old(conns[id].Here().notified) ==> Now() == old(Put(Now(), id, Bare(Unplugged(conns[id]))))
      ensures !old(conns[id].Here().notified) ==>
                Inv(Now()) && Goes(old(Now()), Now()) && id in conns && conns[id].place.Closed? && Failed(conns[id])
      decreases |script|, 2
    {
      hide Inv, InvBut, Fits, Goes, Struck, Unplugged, Bare, Basics, Steady, Told, Retired, Hung;
      ghost var x, c := Now(), conns[id];
      UnplugKeeps(x, id);
      conns := conns[id := Unplugged(conns[id])];
      ghost var y := Now();
      if !conns[id].Here().notified {
        EmitFailed(id);
        ClosedSteady(x, y, Now(), id);
      }
      conns := conns[id := Bare(conns[id])];
    }

    /** The transport of a frame socket is closed: its handler is told, then the slot retired. */
    method FrameClosed(id: Id)
      requires Inv(Now()) && id in conns && conns[id].place.Framed?
      modifies this
      ensures Inv(Now()) && Goes(old(Now()), Now()) && |script| <= old(|script|)
      ensures id in conns && conns[id] == old(conns)[id].(place := Closed, done := true)
      decreases |script|, 2
    {
      hide Inv, Goes, Fits;
      ghost var x, c := Now(), conns[id];
      EndKeeps(x, id);
      Step(id, conns[id].(place := Closed), Some(Ending));
      ghost var y := Now();
      React();
      ghost var z := Now();
      EndReacted(x, y, z, id);
      Step(id, conns[id].(done := true), None);
      Schedule();
    }

    /** What `close` does to one slot: the request is cancelled, then the contexts closed. */
    method HangUp(id: Id)
      requires Inv(Now()) && id in slots && closed
      modifies this
      ensures Inv(Now()) && Goes(old(Now()), Now()) && |script| <= old(|script|) && id in conns
      ensures conns[id].place.Over()
      decreases |script|, 3
    {
      hide Inv, Goes, Fits, Cancelled, Steady, Hung, Bare, Unplugged;
      ghost var x := Now();
      CancelKeeps(x, id);
      conns := conns[id := Cancelled(conns[id])];
      ghost var y := Now();
      if conns[id].place.Framed? {
        FrameClosed(id);
        GoesTrans(x, y, Now());
      } else if conns[id].place.Shaking? {
        ShakingCloses(y, id);
        OnClose(id);
        HungUp(x, y, Now(), id);
      }
    }

    /** `close`: no slot comes while the loop runs, and in the end no socket is left. */
    method Close()
      requires Inv(Now())
      modifies this
      ensures Inv(Now()) && Goes(old(Now()), Now()) && |script| <= old(|script|) && hung && slots == old(slots)
      decreases |script|, 4
    {
      hide Inv, Goes, Fits;
      ghost var x := Now();
      CloseStarts(x);
      closed := true;
      ghost var y := Now();
      GoesSelf(y);
      for i := 0 to |slots|
        invariant Inv(Now()) && Goes(y, Now()) && |script| <= old(|script|) && slots == y.slots && closed
        invariant forall j :: 0 <= j < i ==> slots[j] in conns && conns[slots[j]].place.Over()
      {
        ghost var z := Now();
        HangUp(slots[i]);
        GoesTrans(y, z, Now());
        GoesSlots(z, Now());
      }
      CloseEnds(x, y, Now());
      hung := true;
    }

    // -------------------------------------------------------------- events

    /** The name could not be resolved, or no address connected to: the request has freed itself. */
    method OnConnectError(id: Id)
      requires Ready() && id in conns && conns[id].place.Dialing?
      modifies this
      ensures Ready() && id in conns && Failed(conns[id])
    {
      hide Inv, InvBut, Goes, Fits, Struck, Lapsed, Told, Retired, Hung, Failed;
      ghost var x := Now();
      LapseKeeps(x, id);
      conns := conns[id := Lapsed(conns[id])];
      ghost var y := Now();
      EmitFailed(id);
      LapseSettled(x, y, Now(), id);
      ReadyStays(x, Now());
    }

    /** The TCP connection of a TLS one is up. */
    method OnPromoted(id: Id)
      requires Ready() && id in conns && conns[id].place.Dialing? && conns[id].secure
      modifies this
      ensures Ready() && conns == old(conns)[id := old(conns)[id].(place := Securing)]
    {
      hide Inv, Goes, Fits, Steady;
      ghost var x := Now();
      PromoteKeeps(x, id);
      conns := conns[id := conns[id].(place := Securing)];
      ReadyStays(x, Now());
    }

    /** on_open: the record in the socket takes over from the pending one, and the first request is written. */
    method OnOpen(id: Id)
      requires Ready() && id in conns
      requires (if conns[id].secure then conns[id].place.Securing? else conns[id].place.Dialing?)
      modifies this
      ensures Ready() && conns == old(conns)[id := Entered(old(conns)[id])]
    {
      hide Inv, Goes, Fits, Steady, Entered;
      ghost var x := Now();
      EnterKeeps(x, id);
      conns := conns[id := Entered(conns[id])];
      ReadyStays(x, Now());
    }

    /** on_data: `answer` is what the response head comes to: incomplete, refused, or what was asked for. */
    method OnData(id: Id, answer: Option<bool>)
      requires Ready() && id in conns && conns[id].place.Shaking? && conns[id].held.Some?
      modifies this
      ensures Ready() && id in conns
      ensures answer.None? ==> conns == old(conns)
      ensures answer == Some(false) ==> Failed(conns[id])
      ensures answer == Some(true) && old(conns)[id].held.value.tunnelling ==>
                conns[id].place.Shaking? && conns[id].held.Some? && !conns[id].held.value.tunnelling
                && conns[id].exts.inPeer == old(conns)[id].exts.peer.Some? && conns[id].ledger == old(conns)[id].ledger
      ensures answer == Some(true) && !old(conns)[id].held.value.tunnelling ==> Delivered(conns[id])
    {
      hide Inv, InvBut, Failed, Delivered;
      match answer {
        case None =>
        case Some(false) => FailAndClose(id);
        case Some(true) =>
          if conns[id].held.value.tunnelling {
            LeaveTunnel(id);
          } else {
            AdoptToFrame(id);
          }
      }
    }

    /** The tunnel is up: TLS is started on the second context, or the upgrade request follows. */
    method LeaveTunnel(id: Id)
      requires Ready() && id in conns && conns[id].place.Shaking? && conns[id].held.Some?
      requires conns[id].held.value.tunnelling
      modifies this
      ensures Ready() && id in conns && conns[id].place.Shaking? && conns[id].held.Some?
      ensures !conns[id].held.value.tunnelling
      ensures conns[id].exts.inPeer == old(conns)[id].exts.peer.Some? && conns[id].ledger == old(conns)[id].ledger
    {
      hide Inv, InvBut, Goes, Fits, Steady, HandedOver;
      ghost var x := Now();
      TunnelKeeps(x, id);
      if conns[id].exts.peer.Some? && !conns[id].exts.inPeer {
        conns := conns[id := HandedOver(conns[id])];
      } else {
        conns := conns[id := conns[id].(held := Some(conns[id].held.value.(tunnelling := false)))];
      }
      ReadyStays(x, Now());
    }

    /** The upgrade is agreed on: the frame context adopts the socket, and its open handler is called. */
    method AdoptToFrame(id: Id)
      requires Ready() && id in conns && conns[id].place.Shaking? && conns[id].held.Some?
      modifies this
      ensures Ready() && id in conns && Delivered(conns[id])
    {
      hide Inv, InvBut, Goes, Fits, Steady, Delivered, Adopted;
      ghost var x := Now();
      AdoptKeeps(x, id);
      conns := conns[id := Adopted(conns[id])];
      ghost var y := Now();
      React();
      OpenReacted(x, y, Now(), id);
      ReadyStays(x, Now());
    }

    /** on_timeout: the timer of the connect request. */
    method OnTimeout(id: Id)
      requires Ready() && id in conns && (conns[id].place.Shaking? || conns[id].place.Securing?)
      modifies this
      ensures Ready() && id in conns && Failed(conns[id])
    {
      FailAndClose(id);
    }

    /** `emitFailed`, then `us_socket_close`, which does nothing if a handler has closed the socket. */
    method FailAndClose(id: Id)
      requires Ready() && id in conns && (conns[id].place.Shaking? || conns[id].place.Securing?)
      modifies this
      ensures Ready() && id in conns && Failed(conns[id])
    {
      hide Inv, InvBut, Goes, Fits, Struck, Told, Retired, Hung, Failed, Steady, Bare, Unplugged;
      ghost var x := Now();
      FailStarts(x, id);
      EmitFailed(id);
      ghost var y := Now();
      FailTold(x, y, id);
      if conns[id].place.Shaking? || conns[id].place.Securing? {
        OnClose(id);
      }
      ReadyStays(x, Now());
    }

    /** The socket is closed or ended by the other side. */
    method OnPeerClosed(id: Id)
      requires Ready() && id in conns && (conns[id].place.Shaking? || conns[id].place.Securing?)
      modifies this
      ensures Ready() && id in conns && Failed(conns[id])
    {
      hide Inv, InvBut, Goes, Fits, Steady, Failed;
      ghost var x := Now();
      CloseArrives(x, id);
      OnClose(id);
      ReadyStays(x, Now());
    }

    /** The transport of an adopted socket is gone. */
    method OnFrameClosed(id: Id)
      requires Ready() && id in conns && conns[id].place.Framed?
      modifies this
      ensures Ready() && id in conns && conns[id].done && Delivered(conns[id])
    {
      hide Inv, Goes, Fits, Delivered;
      ghost var x := Now();
      FrameClosed(id);
      ReadyStays(x, Now());
      DoneDelivered(x, Now(), id);
    }

    /** Called by the application: no socket is left open, and no connection under way. */
    method CloseAll()
      requires Ready()
      modifies this
      ensures Ready() && closed && slots == old(slots) && forall id :: id in conns ==> conns[id].place.Over()
    {
      hide Fits, Goes, Steady;
      ghost var x := Now();
      Close();
      ReadyStays(x, Now());
    }

    /** The deleters of one slot. */
    method Delete(i: nat)
      requires i < |slots| && slots[i] in conns
      modifies this`conns, this`slots
      ensures Now() == old(Erased(Now(), i)) && |slots| == old(|slots|) - 1
    {
      var id := slots[i];
      conns := conns[id := Deleted(conns[id])];
      slots := slots[..i] + slots[i + 1..];
    }

    /** `sweep`: the slots retired are deleted, with nothing left in them, and no others. */
    method Sweep()
      requires busy == map[] && Restful(Now()) && (closed ==> hung) && !destroyed
      modifies this
      ensures Ready() && !sweepScheduled && !destroyed && queue == old(queue)
      ensures conns == old(SweptConns(Now())) && forall id :: id in slots <==> id in old(slots) && !old(conns)[id].done
    {
      hide Restful, Erased, Deleted;
      ghost var x := Now();
      sweepScheduled := false;
      SweepStarts(x);
      var i := 0;
      while i < |slots|
        invariant i <= |slots| && Sweeping(x, Now(), i)
        decreases |slots| - i
      {
        SweepNext(x, Now(), i);
        if conns[slots[i]].done {
          Delete(i);
        } else {
          i := i + 1;
        }
      }
      SweepEnds(x, Now());
    }

    /** The loop runs what was asked of it first.  What captured a destroyed application does nothing, but for the user
      * data it owns. */
    method RunDeferred()
      requires Ready() && queue != []
      modifies this
      ensures Ready() && destroyed == old(destroyed) && (destroyed ==> queue == old(queue)[1..])
      ensures old(queue)[0].DeferFailed? ==>
                var id := old(queue)[0].id;
                id in conns && !conns[id].parking && conns[id].ledger.fate.released == One(conns[id].given)
                  && conns[id].ledger.told.opens == 0
                && conns[id].ledger.told.fails == if destroyed then 0 else 1
    {
      hide Inv, InvBut, Goes, Fits, Steady, Restful, Reported;
      ghost var x := Now();
      var d := queue[0];
      queue := queue[1..];
      match d {
        case DeferSweep =>
          SweepPopped(x);
          if !destroyed {
            Sweep();
          }
        case DeferFailed(id) =>
          if destroyed {
            DropKeeps(x, id);
            conns := conns[id := Reported(conns[id], false)];
            ReadyStays(x, Now());
          } else {
            ReportKeeps(x, id);
            Step(id, conns[id].(ledger := conns[id].ledger.Fail()), Some(Reporting));
            ghost var y := Now();
            React();
            ghost var z := Now();
            ReportReacted(x, y, z, id);
            Schedule();
            Step(id, Reported(conns[id], true), None);
            ReadyStays(x, Now());
          }
      }
    }

    /** The last reference goes: everything is closed, then every slot deleted. */
    method Destroy()
      requires Ready() && !destroyed
      modifies this
      ensures Ready() && destroyed && slots == []
      ensures forall id :: id in conns ==> Accounted(conns[id]) || conns[id].parking
    {
      hide Inv, Goes, Fits, Steady, Deleted, Erased, Fading, Accounted;
      ghost var x := Now();
      if !closed {
        Close();
        ReadyStays(x, Now());
      }
      ghost var y := Now();
      FadingStarts(y);
      while slots != []
        invariant Fading(Now())
        decreases |slots|
      {
        FadingNext(Now());
        Delete(0);
      }
      FadingEnds(Now());
      destroyed := true;
    }

    /** One event, if it can come to the connection where it is. */
    method Take(event: Event)
      requires Ready()
      modifies this
      ensures Ready()
    {
      hide Inv, Failed, Delivered, Goes, Accounted, Entered, Steady;
      ghost var x := Now();
      match event {
        case Connects(user, viaProxy, starts) =>
          if !destroyed {
            var _, _ := Connect(user, viaProxy, starts);
            ReadyStays(x, Now());
          }
        case ConnectFails(id) =>
          if id in conns && conns[id].place.Dialing? { OnConnectError(id); }
        case Promotes(id) =>
          if id in conns && conns[id].place.Dialing? && conns[id].secure { OnPromoted(id); }
        case Opens(id) =>
          if id in conns && if conns[id].secure then conns[id].place.Securing? else conns[id].place.Dialing? {
            OnOpen(id);
          }
        case Answers(id, answer) =>
          if id in conns && conns[id].place.Shaking? && conns[id].held.Some? { OnData(id, answer); }
        case TimesOut(id) =>
          if id in conns && (conns[id].place.Shaking? || conns[id].place.Securing?) { OnTimeout(id); }
        case PeerCloses(id) =>
          if id in conns && (conns[id].place.Shaking? || conns[id].place.Securing?) { OnPeerClosed(id); }
        case FrameCloses(id) =>
          if id in conns && conns[id].place.Framed? { OnFrameClosed(id); }
        case Closes =>
          if !destroyed { CloseAll(); }
        case RunsDeferred =>
          if queue != [] { RunDeferred(); }
      }
    }

    /** The application goes, and the loop runs what it was asked: for every connection there ever was, the user data
      * went somewhere once, the request ended once, and the deleters ran once. */
    method Finish()
      requires Ready()
      modifies this
      ensures Ready() && destroyed && queue == [] && forall id :: id in conns ==> Accounted(conns[id])
    {
      hide Inv, Accounted;
      if !destroyed {
        Destroy();
      }
      while queue != []
        invariant Ready() && destroyed
        decreases |queue|
      {
        RunDeferred();
      }
      forall id | id in conns ensures Accounted(conns[id]) { NothingLeft(Now(), id); }
    }
  }

  /** What the application, the connect requests and the sockets bring about. */
  datatype Event =
    | Connects(user: Option<User>, viaProxy: bool, starts: bool)
    | ConnectFails(id: Id)
    | Promotes(id: Id)
    | Opens(id: Id)
    | Answers(id: Id, answer: Option<bool>)
    | TimesOut(id: Id)
    | PeerCloses(id: Id)
    | FrameCloses(id: Id)
    | Closes
    | RunsDeferred

  /** Any run of an application, to its end, whatever its handlers do. */
  method Play(ssl: bool, script: seq<seq<Call>>, events: seq<Event>) returns (app: ClientApp)
    ensures fresh(app) && app.destroyed && app.queue == [] && forall id :: id in app.conns ==> Accounted(app.conns[id])
    ensures forall id :: id in app.conns ==> Outcome(app.conns[id])
  {
    hide Inv, Accounted, Outcome;
    app := new ClientApp(ssl, script);
    for i := 0 to |events|
      invariant fresh(app) && app.Ready()
    {
      app.Take(events[i]);
    }
    app.Finish();
    forall id | id in app.conns ensures Outcome(app.conns[id]) { OneOutcome(app.Now(), id); }
  }

  // ---------------------------------------------------------------- its steps on the state

  lemma LaterTrans(a: App, b: App, c: App)
    requires Later(a, b) && Later(b, c)
    ensures Later(a, c)
  {
  }

  lemma ConnectedKeeps(x: App, c: Conn, starts: bool)
    requires Inv(x) && !x.closed && Steady(c) && c.ledger.closing.deleted == 0 && !c.done
      && c.parking == !starts && !c.quiet
    ensures x.nextId !in x.conns
    ensures var y := x.(conns := x.conns[x.nextId := c], slots := x.slots + [x.nextId], nextId := x.nextId + 1,
                        queue := if starts then x.queue else x.queue + [DeferFailed(x.nextId)]);
            Inv(y) && Goes(x, y)
  {
    hide Fits, Steady, Goes, QueueOk;
    var id := x.nextId;
    var y := x.(conns := x.conns[id := c], slots := x.slots + [id], nextId := id + 1,
                queue := if starts then x.queue else x.queue + [DeferFailed(id)]);
    assert id !in x.busy;
    FitsNone(c);
    ConnectedQueue(x, y, c, starts);
    assert forall i :: StageOf(y, i) == StageOf(x, i);
    ConnectedGoes(x, y, c);
  }

  lemma ConnectedGoes(x: App, y: App, c: Conn)
    requires !x.closed && y.slots == x.slots + [x.nextId] && y.conns == x.conns[x.nextId := c] && x.nextId !in x.conns
    requires y.closed == x.closed && y.hung == x.hung && y.destroyed == x.destroyed && y.busy == x.busy
    ensures Goes(x, y)
  {
    hide Onward, Hung;
    forall i | i in x.conns ensures i in y.conns && Onward(x.conns[i], y.conns[i]) { OnwardSelf(x.conns[i]); }
  }

  lemma FitsNone(c: Conn)
    ensures Fits(c, None) == Steady(c)
  {
  }

  lemma OnwardSelf(c: Conn)
    ensures Onward(c, c)
  {
  }

  lemma ConnectedQueue(x: App, y: App, c: Conn, starts: bool)
    requires QueueOk(x) && x.nextId !in x.conns && x.nextId !in x.busy && y.busy == x.busy
    requires y.conns == x.conns[x.nextId := c]
    requires c.parking == !starts && y.queue == if starts then x.queue else x.queue + [DeferFailed(x.nextId)]
    ensures QueueOk(y)
  {
    assert DeferFailed(x.nextId) !in x.queue;
    forall i ensures DeferFailed(i) in y.queue <==>
      i in y.conns && y.conns[i].parking && StageOf(y, i) != Some(Reporting) {
      assert DeferFailed(i) in x.queue <==> i in x.conns && x.conns[i].parking && StageOf(x, i) != Some(Reporting);
      assert DeferFailed(i) in y.queue <==> DeferFailed(i) in x.queue || (!starts && i == x.nextId);
    }
    OnceMore(x.queue, DeferFailed(x.nextId));
  }

  lemma ToldFrame(c: Conn)
    ensures var d := Told(c);
            && d.place == c.place && d.done == c.done && d.parking == c.parking
            && d.ledger.closing.deleted == c.ledger.closing.deleted && Onward(c, d)
            && d.quiet == c.quiet
  {
  }

  lemma RetiredFrame(c: Conn)
    ensures var d := Retired(c);
            && d.place == c.place && d.done && d.parking == c.parking
            && d.ledger.closing.deleted == c.ledger.closing.deleted
            && Onward(c, d)
            && d.quiet == c.quiet
  {
  }

  lemma UnpluggedFrame(c: Conn)
    ensures var d := Unplugged(c);
            && d.place.Closed? && d.done == c.done && d.parking == c.parking
            && d.ledger.closing.deleted == c.ledger.closing.deleted
            && Onward(c, d)
            && d.Here().notified == c.Here().notified && d.quiet == c.quiet
  {
  }

  lemma BareFrame(c: Conn)
    ensures var d := Bare(c);
            && d.place == c.place && d.done == c.done && d.parking == c.parking && d.ledger == c.ledger && Onward(c, d)
            && d.quiet == c.quiet
  {
    var d := Bare(c);
    assert d.place == c.place && d.done == c.done && d.parking == c.parking && d.ledger == c.ledger;
    assert d.given == c.given && d.started == c.started;
  }

  lemma EmittingFacts(c: Conn)
    requires Fits(c, Some(Emitting))
    ensures !c.done && !c.parking && c.ledger.closing.deleted == 0 && !c.quiet
  {
  }

  lemma TellKeeps(x: App, id: Id)
    requires InvBut(x, Some(id)) && id in x.conns && Struck(x.conns[id]) && id !in x.busy
    ensures !x.conns[id].Here().notified && Fits(Told(x.conns[id]), Some(Emitting))
    ensures var y := Mark(Put(x, id, Told(x.conns[id])), id, Some(Emitting));
              Inv(y) && Later(x, y) && id in y.conns && y.conns[id] == Told(x.conns[id])
  {
    hide Fits, Struck, Told, Inv, Onward, Later;
    var c := x.conns[id];
    ToldEmitting(c);
    ToldFrame(c);
    OverOrNot(x, id);
    StepKeeps(x, id, Told(c), Some(Emitting));
    StepLater(x, id, Told(c), Some(Emitting));
  }

  lemma OverOrNot(x: App, id: Id)
    requires AppOk(x) && id in x.conns
    ensures x.conns[id].place.Over() || !x.hung
  {
  }

  lemma GoesOne(y: App, z: App, id: Id)
    requires Goes(y, z) && id in y.busy && id in y.conns
    ensures id in z.conns && (z.conns[id] == y.conns[id] || z.conns[id] == Hung(y.conns[id])) && Later(y, z)
    ensures z.busy == y.busy
  {
  }

  lemma SparedRest(x: App, y: App, z: App, w: App, id: Id, stage: Stage)
    requires y.busy == x.busy[id := stage] && id !in x.busy && id in y.conns && y.conns == x.conns[id := y.conns[id]]
    requires Goes(y, z)
    requires w.busy == z.busy - {id} && id in w.conns && w.conns == z.conns[id := w.conns[id]]
    ensures Spared(x, w)
  {
    hide Hung, Later;
    assert w.busy == x.busy;
    forall i | i in x.busy && i in x.conns && i in w.conns
      ensures w.conns[i] == x.conns[i] || w.conns[i] == Hung(x.conns[i])
    {
      assert i != id && i in y.busy && i in z.conns;
    }
  }

  lemma ToldReacted(x: App, y: App, z: App, id: Id)
    requires InvBut(x, Some(id)) && id in x.conns && Struck(x.conns[id]) && id !in x.busy && Inv(z) && Goes(y, z)
    requires y == Mark(Put(x, id, Told(x.conns[id])), id, Some(Emitting))
    ensures id in z.conns && (z.conns[id] == Told(x.conns[id]) || z.conns[id] == Hung(Told(x.conns[id])))
    ensures var w := Scheduled(Mark(Put(z, id, Retired(z.conns[id])), id, None));
            && InvBut(w, Some(id)) && Goes(x, w) && id !in w.busy && w.sweepScheduled && id in w.conns
            && w.conns[id] == Retired(z.conns[id])
    ensures Fits(Told(x.conns[id]), Some(Emitting)) && Fits(Hung(Told(x.conns[id])), Some(Emitting))
  {
    hide Fits, Struck, Told, Retired, Hung, Onward, AppOk, Later, Spared, Scheduled;
    var c := Told(x.conns[id]);
    TellKeeps(x, id);
    HungEmitting(c);
    GoesOne(y, z, id);
    var d := z.conns[id];
    RetiredFrame(d);
    EmittingFacts(d);
    var v := Scheduled(z);
    ScheduledKeeps(z, None);
    OverOrNot(v, id);
    InvIsBut(v, id);
    assert StageOf(v, id) == Some(Emitting);
    StepKeeps(v, id, Retired(d), None);
    StepLater(v, id, Retired(d), None);
    var w := Mark(Put(v, id, Retired(d)), id, None);
    ScheduleLater(z, id, Retired(d));
    LaterTrans(x, y, z);
    LaterTrans(x, z, v);
    LaterTrans(x, v, w);
    SparedRest(x, y, z, w, id, Emitting);
  }

  lemma ScheduleLater(x: App, id: Id, c: Conn)
    ensures Scheduled(Mark(Put(x, id, c), id, None)) == Mark(Put(Scheduled(x), id, c), id, None)
  {
  }

  lemma InvIsBut(x: App, id: Id)
    requires Inv(x)
    ensures InvBut(x, Some(id)) && (id in x.conns ==> Fits(x.conns[id], StageOf(x, id)))
  {
    hide Fits, AppOk;
  }

  lemma UnplugKeeps(x: App, id: Id)
    requires InvBut(x, Some(id)) && id in x.conns && (x.conns[id].place.Shaking? || x.conns[id].place.Securing?)
    requires x.conns[id].Here().notified || (Steady(x.conns[id]) && id !in x.busy)
    ensures Unplugged(x.conns[id]).Here().notified == x.conns[id].Here().notified
    ensures !x.conns[id].Here().notified ==>
              && Struck(Unplugged(x.conns[id])) && InvBut(Put(x, id, Unplugged(x.conns[id])), Some(id))
              && Goes(x, Put(x, id, Unplugged(x.conns[id])))
  {
    hide Fits, Struck, Unplugged, Steady, AppOk, Later, Onward, QueueOk;
    var c := x.conns[id];
    UnpluggedFrame(c);
    if !c.Here().notified {
      UnpluggedStruck(c);
      StepKeeps(x, id, Unplugged(c), None);
      StepLater(x, id, Unplugged(c), None);
      assert x.busy - {id} == x.busy;
    }
  }

  lemma BareNothing(c: Conn)
    requires c.held.None? && !c.Here().isOpen
    ensures Bare(c) == c
  {
  }

  lemma ClosedRetired(c: Conn)
    requires Fits(c, Some(Emitting)) && c.place.Closed?
    ensures Hung(c) == c && Steady(Bare(Retired(c))) && Bare(Retired(c)).place.Closed? && Failed(Bare(Retired(c)))
  {
    hide Bare, Retired, Steady, Fits, Failed;
    HungEmitting(c);
    RetiredSteady(c);
    RetiredFrame(c);
    BareFrame(Retired(c));
    ClosedFacts(c);
    if c.held.None? { BareNothing(Retired(c)); }
    FailedBy(Bare(Retired(c)));
  }

  /** It never opened; `failed` was delivered, and the user data released. */
  predicate Failed(c: Conn)
  {
    && c.place.Over() && c.done && c.ledger.told.opens == 0 && c.ledger.told.fails == 1 && c.ledger.fate.moved == 0
    && c.ledger.fate.released == One(c.given) && Owners(c) == 0 && c.ledger.closing.ends == if c.started then 1 else 0
  }

  /** It opened, and the socket has the user data. */
  predicate Delivered(c: Conn)
  {
    c.ledger.told.opens == 1 && c.ledger.told.fails == 0 && c.ledger.fate.moved == One(c.given)
      && c.ledger.fate.released == 0
      && c.ledger.closing.ends == 1
  }

  lemma FailedBy(c: Conn)
    requires Steady(c) && c.done && c.ledger.told.fails > 0
    ensures Failed(c)
  {
  }

  lemma DeliveredBy(c: Conn, stage: Option<Stage>)
    requires Fits(c, stage) && c.ledger.told.opens > 0 && (stage.None? || stage == Some(Ending))
    ensures Delivered(c)
  {
  }

  lemma ClosedFacts(c: Conn)
    requires Fits(c, Some(Emitting)) && c.place.Closed?
    ensures c.held.None? ==> !c.Here().isOpen
    ensures !c.exts.main.request
  {
  }

  lemma ClosedSteady(x: App, y: App, z: App, id: Id)
    requires InvBut(x, Some(id)) && id in x.conns && y == Put(x, id, Unplugged(x.conns[id])) && Goes(x, y) && Goes(y, z)
    requires InvBut(z, Some(id)) && id in z.conns && id !in z.busy
    requires var c := Told(Unplugged(x.conns[id]));
             Fits(c, Some(Emitting)) && (z.conns[id] == Retired(c) || z.conns[id] == Retired(Hung(c)))
    requires z.sweepScheduled
    ensures var w := Put(z, id, Bare(z.conns[id]));
              Inv(w) && Goes(x, w) && w.conns[id].place.Closed? && Failed(w.conns[id])
  {
    hide Fits, Told, Unplugged, Retired, Hung, Bare, Steady, AppOk, Later, Spared, Onward, QueueOk;
    var c := Told(Unplugged(x.conns[id]));
    UnpluggedFrame(x.conns[id]);
    ToldFrame(Unplugged(x.conns[id]));
    ClosedRetired(c);
    EmittingFacts(c);
    RetiredFrame(c);
    BareFrame(Retired(c));
    FitsNone(Bare(Retired(c)));
    StepKeeps(z, id, Bare(Retired(c)), None);
    StepLater(z, id, Bare(Retired(c)), None);
    assert z.busy - {id} == z.busy;
    var w := Put(z, id, Bare(z.conns[id]));
    GoesTrans(x, y, z);
    GoesTrans(x, z, w);
  }

  lemma EndKeeps(x: App, id: Id)
    requires Inv(x) && id in x.conns && x.conns[id].place.Framed?
    ensures id !in x.busy && Steady(x.conns[id])
    ensures var y := Mark(Put(x, id, x.conns[id].(place := Closed)), id, Some(Ending)); Inv(y) && Later(x, y)
  {
    hide Steady, AppOk, Later, QueueOk;
    var c := x.conns[id];
    InvIsBut(x, id);
    FrameEnds(c);
    StepKeeps(x, id, c.(place := Closed), Some(Ending));
    StepLater(x, id, c.(place := Closed), Some(Ending));
  }

  lemma EndReacted(x: App, y: App, z: App, id: Id)
    requires Inv(x) && id in x.conns && x.conns[id].place.Framed? && Inv(z) && Goes(y, z)
    requires y == Mark(Put(x, id, x.conns[id].(place := Closed)), id, Some(Ending))
    ensures id in z.conns && z.conns[id] == x.conns[id].(place := Closed)
    ensures var w := Scheduled(Mark(Put(z, id, z.conns[id].(done := true)), id, None));
              Inv(w) && Goes(x, w) && id in w.conns
  {
    hide Fits, Steady, Hung, Onward, AppOk, Later, Spared;
    EndKeeps(x, id);
    var c := x.conns[id];
    FrameEnds(c);
    var e := c.(place := Closed);
    HungOther(e, Ending);
    GoesOne(y, z, id);
    var v := Scheduled(z);
    ScheduledKeeps(z, None);
    InvIsBut(v, id);
    assert StageOf(v, id) == Some(Ending);
    FitsNone(e.(done := true));
    StepKeeps(v, id, e.(done := true), None);
    StepLater(v, id, e.(done := true), None);
    var w := Mark(Put(v, id, e.(done := true)), id, None);
    ScheduleLater(z, id, e.(done := true));
    LaterTrans(x, y, z);
    LaterTrans(x, z, v);
    LaterTrans(x, v, w);
    SparedRest(x, y, z, w, id, Ending);
  }

  lemma CancelFits(c: Conn, stage: Option<Stage>)
    requires Fits(c, stage)
    ensures var d := Cancelled(c);
            && Fits(d, stage) && (stage.Some? ==> d == c || d == Hung(c)) && !d.exts.main.request && Onward(c, d)
            && d.done == c.done && d.parking == c.parking && d.ledger.closing.deleted == c.ledger.closing.deleted
            && (d.place.Early() ==> d == c && d.place.Shaking?)
            && (c.place.Over() ==> d.place.Over())
  {
    hide Steady, Hung, Basics;
    match stage
    case None => CancelledSteady(c); CancelFrame(c);
    case Some(Emitting) => HungEmitting(c); CancelFrame(c); EmittingEarly(c);
    case Some(other) => HungOther(c, other);
  }

  lemma CancelFrame(c: Conn)
    ensures var d := Cancelled(c);
            && !d.exts.main.request && Onward(c, d) && d.done == c.done && d.parking == c.parking
            && d.ledger.closing.deleted == c.ledger.closing.deleted
            && (c.place.Over() ==> d.place.Over()) && (d.place.Early() ==> d == c)
  {
  }

  lemma EmittingEarly(c: Conn)
    requires Fits(c, Some(Emitting))
    ensures Cancelled(c).place.Early() ==> Cancelled(c).place.Shaking?
  {
  }

  lemma CancelKeeps(x: App, id: Id)
    requires Inv(x) && id in x.slots && x.closed
    ensures id in x.conns
    ensures var y := Put(x, id, Cancelled(x.conns[id]));
            && Inv(y) && Goes(x, y) && (y.conns[id].place.Early() ==> y == x && y.conns[id].place.Shaking?)
  {
    hide Fits, Cancelled, Later, Onward, QueueOk, Hung, Spared;
    var c := x.conns[id];
    InvIsBut(x, id);
    CancelFits(c, StageOf(x, id));
    CancelSpared(x, id, Cancelled(c));
    StepKeeps(x, id, Cancelled(c), StageOf(x, id));
    StepLater(x, id, Cancelled(c), StageOf(x, id));
    MarkSame(x, id, Cancelled(c));
    assert Put(x, id, c) == x;
  }

  lemma CancelSpared(x: App, id: Id, d: Conn)
    requires id in x.conns && (id in x.busy ==> d == x.conns[id] || d == Hung(x.conns[id]))
    ensures Spared(x, Put(x, id, d))
  {
    hide Hung;
  }

  lemma MarkSame(x: App, id: Id, c: Conn)
    ensures Mark(Put(x, id, c), id, StageOf(x, id)) == Put(x, id, c)
  {
    if id in x.busy { assert x.busy[id := x.busy[id]] == x.busy; } else { assert x.busy - {id} == x.busy; }
  }

  lemma ShakingCloses(x: App, id: Id)
    requires Inv(x) && id in x.conns && x.conns[id].place.Shaking?
    ensures InvBut(x, Some(id)) && (x.conns[id].Here().notified || (Steady(x.conns[id]) && id !in x.busy))
    ensures x.conns[id].Here().notified ==> StageOf(x, id) == Some(Emitting)
  {
    hide AppOk;
    InvIsBut(x, id);
  }

  lemma HungUp(x: App, y: App, z: App, id: Id)
    requires Inv(x) && Inv(y) && y == x && id in y.conns && y.conns[id].place.Shaking?
    requires if y.conns[id].Here().notified then z == Put(y, id, Bare(Unplugged(y.conns[id])))
             else Inv(z) && Goes(y, z) && id in z.conns && z.conns[id].place.Closed?
    ensures Inv(z) && Goes(x, z) && id in z.conns && z.conns[id].place.Over()
  {
    hide Fits, Bare, Unplugged, Later, Onward, QueueOk, Hung, AppOk;
    ShakingCloses(y, id);
    if y.conns[id].Here().notified {
      var c := y.conns[id];
      InvIsBut(y, id);
      HungEmitting(c);
      EmittingFacts(c);
      EmittingFacts(Hung(c));
      UnpluggedFrame(c);
      BareFrame(Unplugged(c));
      OnwardTrans(c, Unplugged(c), Bare(Unplugged(c)));
      StepKeeps(y, id, Hung(c), Some(Emitting));
      StepLater(y, id, Hung(c), Some(Emitting));
      MarkSame(y, id, Hung(c));
    }
  }

  lemma OnwardTrans(c: Conn, d: Conn, e: Conn)
    requires Onward(c, d) && Onward(d, e)
    ensures Onward(c, e)
  {
  }

  lemma CloseStarts(x: App)
    requires Inv(x)
    ensures Inv(x.(closed := true))
  {
    hide Fits;
    var y := x.(closed := true);
    assert forall id :: StageOf(y, id) == StageOf(x, id);
    assert QueueOk(y);
  }

  lemma GoesSlots(z: App, w: App)
    requires Goes(z, w) && z.closed
    ensures w.slots == z.slots && w.closed
    ensures forall id :: id in z.conns && z.conns[id].place.Over() ==> id in w.conns && w.conns[id].place.Over()
  {
  }

  lemma CloseEnds(x: App, y: App, z: App)
    requires Inv(x) && y == x.(closed := true) && Inv(z) && Goes(y, z)
    requires forall j :: 0 <= j < |z.slots| ==> z.slots[j] in z.conns && z.conns[z.slots[j]].place.Over()
    ensures var w := z.(hung := true); Inv(w) && Goes(x, w) && w.slots == x.slots
  {
    hide Fits, Onward, Hung, Steady;
    var w := z.(hung := true);
    forall id | id in z.conns ensures z.conns[id].place.Over() {
      if z.conns[id].ledger.closing.deleted != 0 { DeletedOver(z, id); }
    }
    assert forall id :: StageOf(w, id) == StageOf(z, id);
    assert QueueOk(w);
  }

  lemma DeletedOver(x: App, id: Id)
    requires Inv(x) && id in x.conns && x.conns[id].ledger.closing.deleted != 0
    ensures x.conns[id].place.Over()
  {
    hide AppOk;
    InvIsBut(x, id);
  }

  // ---------------------------------------------------------------- events on the state

  lemma ReadyStays(x: App, y: App)
    requires Goes(x, y) && x.busy == map[] && (x.closed ==> x.hung)
    ensures y.busy == map[] && (y.closed ==> y.hung) && y.destroyed == x.destroyed
  {
  }

  lemma NoStage(x: App, id: Id)
    requires Inv(x) && id in x.conns && x.busy == map[]
    ensures Steady(x.conns[id]) && StageOf(x, id) == None && x.busy - {id} == x.busy && AppOk(x)
  {
    hide AppOk, Steady;
    InvIsBut(x, id);
    FitsNone(x.conns[id]);
  }

  /** Between events a connection may take any step that leaves it in order. */
  lemma QuietStep(x: App, id: Id, c: Conn)
    requires Inv(x) && id in x.conns && x.busy == map[] && Onward(x.conns[id], c)
    requires c.ledger.closing.deleted == x.conns[id].ledger.closing.deleted
    requires c.done == x.conns[id].done && c.parking == x.conns[id].parking && c.quiet == x.conns[id].quiet
    requires c.place.Over() || !x.hung
    ensures var y := Put(x, id, c); InvBut(y, Some(id)) && Goes(x, y) && (Steady(c) ==> Inv(y))
  {
    hide Fits, Steady, Onward, QueueOk, Later;
    NoStage(x, id);
    InvIsBut(x, id);
    FitsNone(c);
    StepKeeps(x, id, c, None);
    StepLater(x, id, c, None);
  }

  lemma EarlyNotHung(x: App, id: Id)
    requires AppOk(x) && id in x.conns && !x.conns[id].place.Over()
    ensures !x.hung
  {
  }

  lemma LapsedFrame(c: Conn)
    requires Steady(c) && c.place.Dialing?
    ensures var d := Lapsed(c);
            && Onward(c, d) && d.ledger.closing.deleted == c.ledger.closing.deleted && d.done == c.done
            && d.parking == c.parking
            && d.quiet == c.quiet
            && d.place.Idle? && d.held.None? && !d.exts.main.request
  {
  }

  lemma LapseKeeps(x: App, id: Id)
    requires Inv(x) && id in x.conns && x.busy == map[] && x.conns[id].place.Dialing?
    ensures var y := Put(x, id, Lapsed(x.conns[id]));
              InvBut(y, Some(id)) && Goes(x, y) && Struck(y.conns[id]) && !y.conns[id].Here().notified
  {
    hide InvBut, Fits, Steady, Struck, Lapsed, Onward, Goes;
    NoStage(x, id);
    LapsedStruck(x.conns[id]);
    ToldEmitting(Lapsed(x.conns[id]));
    LapsedFrame(x.conns[id]);
    QuietStep(x, id, Lapsed(x.conns[id]));
  }

  lemma ToldIdle(c: Conn)
    requires Struck(c) && c.place.Idle? && c.held.None?
    ensures var d := Told(c); Fits(d, Some(Emitting)) && Hung(d) == d && Steady(Retired(d)) && Failed(Retired(d))
  {
    hide Steady, Failed;
    var d := Told(c);
    ToldEmitting(c);
    ToldFrame(c);
    HungEmitting(d);
    RetiredSteady(d);
    RetiredFrame(d);
    FailedBy(Retired(d));
  }

  lemma LapseSettled(x: App, y: App, z: App, id: Id)
    requires Inv(x) && id in x.conns && x.busy == map[] && x.conns[id].place.Dialing?
    requires y == Put(x, id, Lapsed(x.conns[id]))
    requires InvBut(z, Some(id)) && Goes(y, z) && id in z.conns
    requires var c := Told(Lapsed(x.conns[id])); z.conns[id] == Retired(c) || z.conns[id] == Retired(Hung(c))
    ensures Inv(z) && Goes(x, z) && Failed(z.conns[id])
  {
    hide Fits, Steady, Struck, Lapsed, Onward, Told, Retired, Hung, Failed, AppOk, Later;
    LapseKeeps(x, id);
    NoStage(x, id);
    LapsedFrame(x.conns[id]);
    ToldIdle(Lapsed(x.conns[id]));
    GoesTrans(x, y, z);
    Complete(z, id);
  }

  /** The last one fits, too. */
  lemma Complete(x: App, id: Id)
    requires InvBut(x, Some(id)) && id in x.conns && Steady(x.conns[id]) && id !in x.busy
    ensures Inv(x)
  {
    hide AppOk, Steady;
    FitsNone(x.conns[id]);
  }

  lemma PromoteKeeps(x: App, id: Id)
    requires Inv(x) && id in x.conns && x.busy == map[] && x.conns[id].place.Dialing?
    ensures var y := Put(x, id, x.conns[id].(place := Securing)); Inv(y) && Goes(x, y)
  {
    hide InvBut, Fits, Steady, Goes, AppOk;
    NoStage(x, id);
    PromotedSteady(x.conns[id]);
    EarlyNotHung(x, id);
    QuietStep(x, id, x.conns[id].(place := Securing));
  }

  lemma EnteredFrame(c: Conn)
    requires c.place.Early()
    ensures var d := Entered(c);
            Onward(c, d) && d.ledger.closing.deleted == c.ledger.closing.deleted && d.done == c.done
              && d.parking == c.parking
              && d.quiet == c.quiet
  {
  }

  lemma EnterKeeps(x: App, id: Id)
    requires Inv(x) && id in x.conns && x.busy == map[] && (x.conns[id].place.Dialing? || x.conns[id].place.Securing?)
    ensures var y := Put(x, id, Entered(x.conns[id])); Inv(y) && Goes(x, y)
  {
    hide InvBut, Fits, Steady, Goes, AppOk, Entered, Onward;
    NoStage(x, id);
    EnteredSteady(x.conns[id]);
    EnteredFrame(x.conns[id]);
    EarlyNotHung(x, id);
    QuietStep(x, id, Entered(x.conns[id]));
  }

  lemma HandedOverFrame(c: Conn)
    requires Steady(c) && c.place.Shaking? && c.exts.peer.Some? && !c.exts.inPeer
    ensures var d := HandedOver(c);
            && Onward(c, d) && d.ledger == c.ledger && d.done == c.done && d.parking == c.parking && d.quiet == c.quiet
            && d.place.Shaking? && d.held.Some? && !d.held.value.tunnelling && d.exts.inPeer
  {
  }

  /** A tunnel is only ever asked for on the first context. */
  lemma TunnelKeeps(x: App, id: Id)
    requires Inv(x) && id in x.conns && x.busy == map[] && x.conns[id].place.Shaking? && x.conns[id].held.Some?
    requires x.conns[id].held.value.tunnelling
    ensures var c := x.conns[id];
            if c.exts.peer.Some? && !c.exts.inPeer then
              var d := HandedOver(c);
              && Inv(Put(x, id, d)) && Goes(x, Put(x, id, d)) && d.ledger == c.ledger
              && d.place.Shaking? && d.held.Some? && !d.held.value.tunnelling && d.exts.inPeer
            else
              var d := c.(held := Some(c.held.value.(tunnelling := false)));
              Inv(Put(x, id, d)) && Goes(x, Put(x, id, d)) && !c.exts.inPeer
  {
    hide InvBut, Fits, Goes, AppOk, HandedOver, Onward;
    var c := x.conns[id];
    NoStage(x, id);
    EarlyNotHung(x, id);
    if c.exts.peer.Some? && !c.exts.inPeer {
      HandedOverSteady(c);
      HandedOverFrame(c);
      QuietStep(x, id, HandedOver(c));
    } else {
      TunnelledOnward(c);
      QuietStep(x, id, c.(held := Some(c.held.value.(tunnelling := false))));
    }
  }

  lemma TunnelledOnward(c: Conn)
    requires c.held.Some?
    ensures Onward(c, c.(held := Some(c.held.value.(tunnelling := false))))
  {
  }

  lemma AdoptedFrame(c: Conn)
    requires Steady(c) && c.place.Shaking? && c.held.Some?
    ensures var d := Adopted(c);
            && Onward(c, d) && d.ledger.closing.deleted == c.ledger.closing.deleted && d.done == c.done
            && d.parking == c.parking
            && d.quiet == c.quiet
            && d.ledger.told.opens == 1
  {
  }

  lemma AdoptKeeps(x: App, id: Id)
    requires Inv(x) && id in x.conns && x.busy == map[] && x.conns[id].place.Shaking? && x.conns[id].held.Some?
    ensures var y := Put(x, id, Adopted(x.conns[id])); Inv(y) && Goes(x, y) && y.conns[id].ledger.told.opens == 1
  {
    hide InvBut, Fits, Steady, Goes, AppOk, Adopted, Onward;
    NoStage(x, id);
    AdoptedSteady(x.conns[id]);
    AdoptedFrame(x.conns[id]);
    EarlyNotHung(x, id);
    QuietStep(x, id, Adopted(x.conns[id]));
  }

  lemma OpenReacted(x: App, y: App, z: App, id: Id)
    requires Goes(x, y) && id in y.conns && y.conns[id].ledger.told.opens == 1 && Inv(z) && Goes(y, z)
      && x.busy == map[]
    ensures Goes(x, z) && id in z.conns && Delivered(z.conns[id])
  {
    hide Inv, Fits, Steady, Delivered, Hung;
    GoesTrans(x, y, z);
    NoStage(z, id);
    FitsNone(z.conns[id]);
    DeliveredBy(z.conns[id], None);
  }

  lemma DoneDelivered(x: App, z: App, id: Id)
    requires Inv(x) && id in x.conns && x.busy == map[] && x.conns[id].place.Framed? && Inv(z) && z.busy == map[]
    requires id in z.conns && z.conns[id] == x.conns[id].(place := Closed, done := true)
    ensures Delivered(z.conns[id])
  {
    hide Inv, Fits, Delivered;
    NoStage(x, id);
    NoStage(z, id);
    FitsNone(z.conns[id]);
    DeliveredBy(z.conns[id], None);
  }

  lemma FailStarts(x: App, id: Id)
    requires Inv(x) && id in x.conns && x.busy == map[] && (x.conns[id].place.Shaking? || x.conns[id].place.Securing?)
    ensures InvBut(x, Some(id)) && Struck(x.conns[id]) && !x.conns[id].Here().notified
  {
    hide Inv, InvBut, Fits, Steady, Struck;
    NoStage(x, id);
    InvIsBut(x, id);
    EarlyStruck(x.conns[id]);
    ToldEmitting(x.conns[id]);
  }

  lemma ToldEarly(c: Conn)
    requires Struck(c) && (c.place.Shaking? || c.place.Securing?)
    ensures var d := Told(c);
            && Steady(Retired(Hung(d))) && Failed(Retired(Hung(d))) && Retired(Hung(d)).place.Over()
            && Steady(Bare(Unplugged(Retired(d)))) && Failed(Bare(Unplugged(Retired(d))))
            && Retired(d).Here().notified && Retired(d).place == c.place
            && Fits(d, Some(Emitting)) && Retired(Hung(d)).Here().notified
  {
    hide Steady, Failed, Told, Retired, Hung, Bare, Unplugged, Struck, Fits;
    var d := Told(c);
    ToldEmitting(c);
    ToldFrame(c);
    HungEmitting(d);
    HungBare(d);
    RetiredSteady(d);
    RetiredSteady(Hung(d));
    RetiredFrame(d);
    RetiredFrame(Hung(d));
    UnpluggedFrame(Retired(d));
    BareFrame(Unplugged(Retired(d)));
    FailedBy(Retired(Hung(d)));
    FailedBy(Bare(Unplugged(Retired(d))));
  }

  lemma HungBare(c: Conn)
    requires Fits(c, Some(Emitting)) && (c.place.Shaking? || c.place.Securing?)
    ensures Hung(c).held.None?
  {
  }

  lemma FailTold(x: App, y: App, id: Id)
    requires InvBut(x, Some(id)) && id in x.conns && Struck(x.conns[id])
    requires (x.conns[id].place.Shaking? || x.conns[id].place.Securing?)
    requires InvBut(y, Some(id)) && Goes(x, y) && id in y.conns && id !in y.busy && y.sweepScheduled
    requires var c := Told(x.conns[id]); y.conns[id] == Retired(c) || y.conns[id] == Retired(Hung(c))
    ensures y.conns[id].Here().notified
    ensures if y.conns[id].place.Shaking? || y.conns[id].place.Securing? then
              var z := Put(y, id, Bare(Unplugged(y.conns[id]))); Inv(z) && Goes(x, z) && Failed(z.conns[id])
            else Inv(y) && Failed(y.conns[id])
  {
    hide Fits, Steady, Struck, Told, Retired, Hung, Bare, Unplugged, Failed, AppOk, Goes, Onward, QueueOk;
    ToldEarly(x.conns[id]);
    var e := y.conns[id];
    if e.place.Shaking? || e.place.Securing? {
      var d := Bare(Unplugged(e));
      UnpluggedFrame(e);
      BareFrame(Unplugged(e));
      OnwardTrans(e, Unplugged(e), d);
      CloseTold(y, id, d);
      GoesTrans(x, y, Put(y, id, d));
    } else {
      Complete(y, id);
    }
  }

  lemma CloseTold(y: App, id: Id, d: Conn)
    requires InvBut(y, Some(id)) && id in y.conns && id !in y.busy && y.sweepScheduled && Steady(d)
    requires Onward(y.conns[id], d)
    requires d.ledger.closing.deleted == y.conns[id].ledger.closing.deleted
      && d.parking == y.conns[id].parking && d.place.Over()
    requires d.quiet == y.conns[id].quiet && d.done == y.conns[id].done
    ensures Inv(Put(y, id, d)) && Goes(y, Put(y, id, d))
  {
    hide Fits, Steady, Onward, QueueOk, Later;
    FitsNone(d);
    StepKeeps(y, id, d, None);
    StepLater(y, id, d, None);
    assert y.busy - {id} == y.busy;
  }

  lemma CloseArrives(x: App, id: Id)
    requires Inv(x) && id in x.conns && x.busy == map[] && (x.conns[id].place.Shaking? || x.conns[id].place.Securing?)
    ensures InvBut(x, Some(id)) && Steady(x.conns[id]) && !x.conns[id].Here().notified
  {
    hide Inv, InvBut, Fits, Steady;
    NoStage(x, id);
    InvIsBut(x, id);
    UnpluggedStruck(x.conns[id]);
  }

  // ---------------------------------------------------------------- sweeping and the end

  /** Everything is in order but for the sweep that is going on. */
  ghost predicate Restful(x: App)
  {
    && AppCore(x.(sweepScheduled := false)) && x.busy == map[]
    && forall id :: id in x.conns ==>
          Steady(x.conns[id]) && (x.conns[id].ledger.closing.deleted != 0 ==> x.conns[id].done)
  }

  function Erased(x: App, i: nat): App
    requires i < |x.slots| && x.slots[i] in x.conns
  {
    x.(conns := x.conns[x.slots[i] := Deleted(x.conns[x.slots[i]])], slots := x.slots[..i] + x.slots[i + 1..])
  }

  function SweptConns(x: App): map<Id, Conn>
  {
    map id | id in x.conns :: if x.conns[id].done && x.conns[id].ledger.closing.deleted == 0 then Deleted(x.conns[id])
      else x.conns[id]
  }

  ghost predicate Sweeping(x: App, y: App, i: nat)
  {
    && Restful(y) && y == x.(conns := y.conns, slots := y.slots, sweepScheduled := false)
    && y.conns.Keys == x.conns.Keys
    && i <= |y.slots| && (forall j :: 0 <= j < i ==> y.slots[j] in y.conns && !y.conns[y.slots[j]].done)
    && (forall id :: id in x.slots <==> id in x.conns && x.conns[id].ledger.closing.deleted == 0)
    && (forall id :: id in x.conns ==>
      y.conns[id] == if id in x.slots && id !in y.slots then Deleted(x.conns[id]) else x.conns[id])
    && (forall id :: id in y.slots ==> id in x.slots)
      && (forall id :: id in x.slots && id !in y.slots ==> x.conns[id].done)
  }

  lemma SweepStarts(x: App)
    requires Restful(x)
    ensures Sweeping(x, x.(sweepScheduled := false), 0)
  {
    hide Steady, QueueOk;
  }

  lemma WithoutOne(slots: seq<Id>, i: nat)
    requires i < |slots| && forall j, k :: 0 <= j < k < |slots| ==> slots[j] != slots[k]
    ensures var rest := slots[..i] + slots[i + 1..];
            && (forall j, k :: 0 <= j < k < |rest| ==> rest[j] != rest[k])
            && (forall id :: id in rest <==> id in slots && id != slots[i])
            && (forall j :: 0 <= j < i ==> rest[j] == slots[j])
  {
    var rest := slots[..i] + slots[i + 1..];
    assert forall j :: 0 <= j < |rest| ==> rest[j] == slots[if j < i then j else j + 1];
    forall id | id in slots && id != slots[i] ensures id in rest {
      var j :| 0 <= j < |slots| && slots[j] == id;
      assert rest[if j < i then j else j - 1] == id;
    }
  }

  lemma DeletedFrame(c: Conn)
    ensures var d := Deleted(c);
            && d.place == c.place && d.done == c.done && d.parking == c.parking && d.quiet == c.quiet
            && d.ledger.closing.deleted == c.ledger.closing.deleted + 1
  {
  }

  lemma ErasedCore(x: App, i: nat)
    requires AppCore(x) && x.busy == map[] && i < |x.slots|
    ensures x.slots[i] in x.conns && AppCore(Erased(x, i))
    ensures forall id :: id in Erased(x, i).slots <==> id in x.slots && id != x.slots[i]
    ensures !x.destroyed
  {
    hide Deleted, QueueOk;
    var id := x.slots[i];
    assert id in x.slots;
    DeletedFrame(x.conns[id]);
    WithoutOne(x.slots, i);
    ErasedQueue(x, i);
  }

  lemma ErasedQueue(x: App, i: nat)
    requires QueueOk(x) && i < |x.slots| && x.slots[i] in x.conns
    ensures QueueOk(Erased(x, i))
  {
    hide Deleted;
    var y := Erased(x, i);
    DeletedFrame(x.conns[x.slots[i]]);
    forall id ensures DeferFailed(id) in y.queue <==>
      id in y.conns && y.conns[id].parking && StageOf(y, id) != Some(Reporting) {
      assert DeferFailed(id) in x.queue <==> id in x.conns && x.conns[id].parking && StageOf(x, id) != Some(Reporting);
    }
  }

  lemma SweepNext(x: App, y: App, i: nat)
    requires Sweeping(x, y, i) && i < |y.slots|
    ensures y.slots[i] in y.conns
    ensures if y.conns[y.slots[i]].done then y.conns[y.slots[i]].place.Over() && Sweeping(x, Erased(y, i), i)
              else Sweeping(x, y, i + 1)
  {
    hide Steady, Deleted, AppCore;
    var id := y.slots[i];
    assert id in y.slots;
    ErasedCore(y, i);
    SlotsLive(y, id);
    if y.conns[id].done { SweepDone(x, y, i); }
  }

  lemma SweepDone(x: App, y: App, i: nat)
    requires Sweeping(x, y, i) && i < |y.slots| && y.slots[i] in y.conns && y.conns[y.slots[i]].done
    ensures y.conns[y.slots[i]].place.Over() && Sweeping(x, Erased(y, i), i)
  {
    hide Steady, Deleted, AppCore, Restful, Erased;
    var id := y.slots[i];
    RestfulParts(y, id);
    DoneOver(y.conns[id]);
    StillRestful(y, i);
    ErasedParts(y, i);
  }

  /** Exactly one slot goes, and with it the deleters of its connection run. */
  lemma ErasedParts(y: App, i: nat)
    requires Restful(y) && y == y.(sweepScheduled := false) && i < |y.slots| && y.slots[i] in y.conns
    requires y.conns[y.slots[i]].done
    ensures var id, z := y.slots[i], Erased(y, i);
            && z == y.(conns := z.conns, slots := z.slots) && z.conns == y.conns[id := Deleted(y.conns[id])]
            && z.slots == y.slots[..i] + y.slots[i + 1..] && |z.slots| == |y.slots| - 1
            && forall k :: k in z.slots <==> k in y.slots && k != id
  {
    hide Steady, Deleted, QueueOk;
    WithoutOne(y.slots, i);
  }

  lemma StillRestful(y: App, i: nat)
    requires Restful(y) && y == y.(sweepScheduled := false) && i < |y.slots| && y.slots[i] in y.conns
    requires y.conns[y.slots[i]].done
    ensures Restful(Erased(y, i))
  {
    hide Steady, Deleted, AppCore;
    var id := y.slots[i];
    ErasedCore(y, i);
    SlotsLive(y, id);
    DoneOver(y.conns[id]);
    DeletedSteady(y.conns[id]);
    DeletedFrame(y.conns[id]);
  }

  lemma RestfulParts(y: App, id: Id)
    requires Restful(y) && id in y.conns
    ensures AppCore(y.(sweepScheduled := false)) && y.busy == map[] && Steady(y.conns[id])
  {
    hide Steady, AppCore;
  }

  lemma SlotsLive(x: App, id: Id)
    requires AppCore(x) && id in x.slots
    ensures id in x.conns && x.conns[id].ledger.closing.deleted == 0
  {
  }

  lemma DoneOver(c: Conn)
    requires Steady(c) && c.done
    ensures c.place.Over()
  {
  }

  lemma SweepEnds(x: App, y: App)
    requires Sweeping(x, y, |y.slots|) && !y.destroyed
    ensures Inv(y) && y.conns == SweptConns(x) && forall id :: id in y.slots <==> id in x.slots && !x.conns[id].done
  {
    hide Steady, Deleted, QueueOk;
    assert y == y.(sweepScheduled := false);
    forall id | id in y.conns ensures Fits(y.conns[id], StageOf(y, id)) { FitsNone(y.conns[id]); }
    forall id | id in y.slots ensures !y.conns[id].done {
      var j :| 0 <= j < |y.slots| && y.slots[j] == id;
    }
    forall id | id in x.conns ensures y.conns[id] == SweptConns(x)[id] { }
    assert y.conns.Keys == SweptConns(x).Keys;
  }

  lemma SweepPopped(x: App)
    requires Inv(x) && x.busy == map[] && x.queue != [] && x.queue[0] == DeferSweep
    ensures var y := x.(queue := x.queue[1..]); if x.destroyed then Inv(y) else Restful(y)
  {
    hide Steady;
    var y := x.(queue := x.queue[1..]);
    forall id ensures DeferFailed(id) in y.queue <==> DeferFailed(id) in x.queue { TailHas(x.queue, DeferFailed(id)); }
    assert OnceEach(y.queue);
    forall id | id in x.conns ensures Steady(x.conns[id]) && StageOf(y, id) == StageOf(x, id) == None {
      NoStage(x, id);
    }
    assert QueueOk(y);
  }

  lemma TailHas(queue: seq<Deferred>, d: Deferred)
    requires queue != []
    ensures d in queue <==> d == queue[0] || d in queue[1..]
  {
    if d in queue && d != queue[0] {
      var i :| 0 <= i < |queue| && queue[i] == d;
      assert queue[1..][i - 1] == d;
    }
  }

  /** The first in the queue is off it. */
  lemma ReportPopped(x: App, id: Id)
    requires Inv(x) && x.busy == map[] && x.queue != [] && x.queue[0] == DeferFailed(id)
    ensures id in x.conns && x.conns[id].parking && Steady(x.conns[id])
    ensures (!x.destroyed ==> x.conns[id].ledger.closing.deleted == 0)
    ensures forall i :: DeferFailed(i) in x.queue[1..] <==> DeferFailed(i) in x.queue && i != id
    ensures OnceEach(x.queue[1..]) && (DeferSweep in x.queue ==> DeferSweep in x.queue[1..])
  {
    hide Steady;
    assert DeferFailed(id) in x.queue;
    NoStage(x, id);
    ParkedNotDone(x.conns[id]);
    OnceHead(x.queue);
    forall i ensures DeferFailed(i) in x.queue[1..] <==> DeferFailed(i) in x.queue && i != id {
      TailHas(x.queue, DeferFailed(i));
    }
    TailHas(x.queue, DeferSweep);
  }

  lemma OnceHead(queue: seq<Deferred>)
    requires OnceEach(queue) && queue != [] && queue[0].DeferFailed?
    ensures queue[0] !in queue[1..]
  {
    forall k | 0 <= k < |queue[1..]| ensures queue[1..][k] != queue[0] {
      assert queue[1..][k] == queue[k + 1];
    }
  }

  lemma ParkedNotDone(c: Conn)
    requires Steady(c) && c.parking
    ensures !c.done && !c.quiet && c.place.Over()
  {
  }

  lemma ReportedFrame(c: Conn, done: bool)
    ensures var d := Reported(c, done);
            d.place == c.place && d.done == done && !d.parking && d.ledger.closing.deleted == c.ledger.closing.deleted
              && d.quiet == !done
            && d.ledger.told.fails == c.ledger.told.fails && d.ledger.told.opens == c.ledger.told.opens
            && d.given == c.given
            && d.started == c.started
  {
  }

  lemma ReportedPays(c: Conn, done: bool)
    requires (Steady(c) || Fits(c, Some(Reporting))) && c.parking
    ensures Reported(c, done).ledger.fate.released == One(c.given) && c.ledger.told.opens == 0
    ensures c.ledger.told.fails == if Steady(c) then 0 else 1
  {
  }

  lemma DropKeeps(x: App, id: Id)
    requires Inv(x) && x.busy == map[] && x.queue != [] && x.queue[0] == DeferFailed(id) && x.destroyed
    ensures id in x.conns
    ensures var d := Reported(x.conns[id], false);
            var y := x.(queue := x.queue[1..], conns := x.conns[id := d]);
            Inv(y) && Goes(x, y) && !d.parking && d.ledger.fate.released == One(d.given) && d.ledger.told.opens == 0
              && d.ledger.told.fails == 0
  {
    hide Steady, Reported, Fits, QueueOk, Goes;
    ReportPopped(x, id);
    var c := x.conns[id];
    var d := Reported(c, false);
    ReportedFrame(c, false);
    ReportedPays(c, false);
    ReportedSteady(c);
    ParkedNotDone(c);
    FitsNone(d);
    var y := x.(queue := x.queue[1..], conns := x.conns[id := d]);
    DropQueue(x, y, id, d);
    DropFits(x, y, id, d);
    DropGoes(x, y, id, d);
  }

  lemma DropQueue(x: App, y: App, id: Id, d: Conn)
    requires QueueOk(x) && x.busy == map[] && id in x.conns && x.queue != [] && !d.parking
    requires y == x.(queue := x.queue[1..], conns := x.conns[id := d])
    requires forall i :: DeferFailed(i) in x.queue[1..] <==> DeferFailed(i) in x.queue && i != id
    requires OnceEach(x.queue[1..])
    ensures QueueOk(y)
  {
    forall i
      ensures DeferFailed(i) in y.queue <==> i in y.conns && y.conns[i].parking && StageOf(y, i) != Some(Reporting)
    {
      assert DeferFailed(i) in x.queue <==> i in x.conns && x.conns[i].parking && StageOf(x, i) != Some(Reporting);
    }
  }

  lemma DropFits(x: App, y: App, id: Id, d: Conn)
    requires Inv(x) && x.busy == map[] == y.busy && id in x.conns && y.conns == x.conns[id := d] && Fits(d, None)
    ensures forall i :: i in y.conns ==> Fits(y.conns[i], StageOf(y, i))
  {
    hide Fits, AppOk;
    forall i | i in y.conns ensures Fits(y.conns[i], StageOf(y, i)) {
      if i != id { InvIsBut(x, i); }
    }
  }

  lemma DropGoes(x: App, y: App, id: Id, d: Conn)
    requires x.busy == map[] && id in x.conns && x.queue != []
    requires y == x.(queue := x.queue[1..], conns := x.conns[id := d])
    requires !x.conns[id].done && d.place == x.conns[id].place && d.given == x.conns[id].given
    requires d.started == x.conns[id].started && d.ledger.told.opens == x.conns[id].ledger.told.opens
    requires d.ledger.told.fails == x.conns[id].ledger.told.fails
    ensures Goes(x, y)
  {
    hide Hung;
  }

  lemma ReportKeeps(x: App, id: Id)
    requires Inv(x) && x.busy == map[] && x.queue != [] && x.queue[0] == DeferFailed(id) && !x.destroyed
    ensures id in x.conns
    ensures var d := x.conns[id].(ledger := x.conns[id].ledger.Fail());
            var y := Mark(Put(x.(queue := x.queue[1..]), id, d), id, Some(Reporting));
            Inv(y) && Later(x, y) && Fits(d, Some(Reporting))
  {
    hide Steady, Fits, QueueOk, AppOk, Later;
    ReportPopped(x, id);
    var c := x.conns[id];
    ReportStarts(c);
    ParkedNotDone(c);
    var d := c.(ledger := c.ledger.Fail());
    var y := Mark(Put(x.(queue := x.queue[1..]), id, d), id, Some(Reporting));
    ReportCore(x, y, id, d);
    NobodyElse(x, y, id, d);
  }

  lemma ReportCore(x: App, y: App, id: Id, d: Conn)
    requires AppOk(x) && x.busy == map[] && id in x.conns && !x.destroyed && x.queue != [] && x.conns[id].parking
    requires y == Mark(Put(x.(queue := x.queue[1..]), id, d), id, Some(Reporting))
    requires d == x.conns[id].(ledger := d.ledger) && d.ledger.closing.deleted == x.conns[id].ledger.closing.deleted
    requires x.conns[id].ledger.told.opens <= d.ledger.told.opens
      && x.conns[id].ledger.told.fails <= d.ledger.told.fails
    requires DeferSweep in x.queue ==> DeferSweep in x.queue[1..]
    requires forall i :: DeferFailed(i) in x.queue[1..] <==> DeferFailed(i) in x.queue && i != id
    requires OnceEach(x.queue[1..])
    ensures AppOk(y) && Later(x, y)
  {
    hide QueueOk, OnceEach;
    ReportQueue(x, y, id, d);
  }

  lemma ReportQueue(x: App, y: App, id: Id, d: Conn)
    requires QueueOk(x) && x.busy == map[] && id in x.conns && x.conns[id].parking && d.parking && x.queue != []
    requires y == Mark(Put(x.(queue := x.queue[1..]), id, d), id, Some(Reporting))
    requires forall i :: DeferFailed(i) in x.queue[1..] <==> DeferFailed(i) in x.queue && i != id
    requires OnceEach(x.queue[1..])
    ensures QueueOk(y)
  {
    forall i ensures DeferFailed(i) in y.queue <==>
      i in y.conns && y.conns[i].parking && StageOf(y, i) != Some(Reporting) {
      assert DeferFailed(i) in x.queue <==> i in x.conns && x.conns[i].parking && StageOf(x, i) != Some(Reporting);
    }
  }

  lemma NobodyElse(x: App, y: App, id: Id, d: Conn)
    requires Inv(x) && x.busy == map[] && id in x.conns && y.conns == x.conns[id := d]
    requires y.busy == x.busy[id := Reporting]
    requires Fits(d, Some(Reporting))
    ensures forall i :: i in y.conns ==> Fits(y.conns[i], StageOf(y, i))
  {
    hide Fits, AppOk;
    forall i | i in y.conns ensures Fits(y.conns[i], StageOf(y, i)) {
      if i != id { InvIsBut(x, i); }
    }
  }

  lemma ReportReacted(x: App, y: App, z: App, id: Id)
    requires Inv(x) && x.busy == map[] && x.queue != [] && x.queue[0] == DeferFailed(id) && !x.destroyed
    requires id in x.conns
    requires y == Mark(Put(x.(queue := x.queue[1..]), id,
               x.conns[id].(ledger := x.conns[id].ledger.Fail())),
                       id, Some(Reporting))
    requires Inv(z) && Goes(y, z)
    ensures id in z.conns
    ensures var d := Reported(z.conns[id], true);
            var w := Mark(Put(Scheduled(z), id, d), id, None);
            && Inv(w) && Goes(x, w) && !d.parking && d.ledger.fate.released == One(d.given) && d.ledger.told.opens == 0
            && d.ledger.told.fails == 1
  {
    hide Steady, Fits, Reported, Scheduled, AppOk, Later, Onward, Hung, Spared;
    ReportKeeps(x, id);
    var c := y.conns[id];
    HungOther(c, Reporting);
    GoesOne(y, z, id);
    assert z.conns[id] == c;
    ReportedFrame(c, true);
    ReportingFacts(c);
    ReportedPays(c, true);
    ReportedSteady(c);
    FitsNone(Reported(c, true));
    var v := Scheduled(z);
    ScheduledKeeps(z, None);
    InvIsBut(v, id);
    assert StageOf(v, id) == Some(Reporting);
    StepKeeps(v, id, Reported(c, true), None);
    StepLater(v, id, Reported(c, true), None);
    var w := Mark(Put(v, id, Reported(c, true)), id, None);
    LaterTrans(x, y, z);
    LaterTrans(x, z, v);
    LaterTrans(x, v, w);
    assert w.busy == map[] && x.busy == map[];
    SparedNobody(x, w);
  }

  lemma SparedNobody(x: App, w: App)
    requires x.busy == map[] == w.busy
    ensures Spared(x, w)
  {
  }

  lemma ReportingFacts(c: Conn)
    requires Fits(c, Some(Reporting))
    ensures !c.done && c.parking && !c.quiet && c.place.Over() && !Steady(c)
  {
  }

  /** Everything is closed, and slot after slot is deleted. */
  ghost predicate Fading(x: App)
  {
    AppCore(x) && x.busy == map[] && x.hung && !x.destroyed && forall id :: id in x.conns ==> Steady(x.conns[id])
  }

  lemma FadingStarts(x: App)
    requires Inv(x) && x.busy == map[] && x.hung && !x.destroyed
    ensures Fading(x)
  {
    hide Steady, AppCore;
    forall id | id in x.conns ensures Steady(x.conns[id]) { NoStage(x, id); }
  }

  lemma FadingNext(x: App)
    requires Fading(x) && x.slots != []
    ensures x.slots[0] in x.conns && Fading(Erased(x, 0)) && |Erased(x, 0).slots| < |x.slots|
  {
    hide Steady, AppCore, Deleted;
    ErasedCore(x, 0);
    var id := x.slots[0];
    SlotsLive(x, id);
    HungOver(x, id);
    DeletedSteady(x.conns[id]);
  }

  lemma HungOver(x: App, id: Id)
    requires AppCore(x) && x.hung && id in x.conns
    ensures x.conns[id].place.Over()
  {
  }

  /** The user data went somewhere once, the deleters ran once, and the request ended once. */
  predicate Accounted(c: Conn)
  {
    c.ledger.fate.moved + c.ledger.fate.released == One(c.given) && c.ledger.closing.deleted == 1
      && c.ledger.closing.ends == if c.started then 1 else 0
  }

  lemma AccountedBy(c: Conn)
    requires Steady(c) && c.ledger.closing.deleted != 0 && !c.parking
    ensures Accounted(c)
  {
  }

  lemma FadingEnds(x: App)
    requires Fading(x) && x.slots == []
    ensures Inv(x.(destroyed := true)) && x.busy == map[] && x.hung
    ensures forall id :: id in x.conns ==> Accounted(x.conns[id]) || x.conns[id].parking
  {
    hide Steady, Fits, Accounted;
    var y := x.(destroyed := true);
    forall id | id in x.conns ensures Accounted(x.conns[id]) || x.conns[id].parking {
      assert x.conns[id].ledger.closing.deleted != 0;
      if !x.conns[id].parking { AccountedBy(x.conns[id]); }
    }
    forall id | id in y.conns ensures Fits(y.conns[id], StageOf(y, id)) { FitsNone(y.conns[id]); }
    forall id ensures StageOf(y, id) == StageOf(x, id) { }
    assert QueueOk(y);
  }

  // ---------------------------------------------------------------- over every run

  predicate Outcome(c: Conn)
  {
    var l := c.ledger;
    && l.told.opens + l.told.fails <= 1 && l.fate.moved + l.fate.released <= One(c.given)
    && l.closing.ends <= 1 && l.closing.deleted <= 1
    && (l.fate.moved > 0 ==> l.told.opens == 1) && (l.fate.released > 0 ==> l.told.opens == 0)
  }

  /** At most one of open and failed; the user data moved by the one, released by the other or by nobody's telling; the
    * request ends once, the deleters run once. */
  lemma OneOutcome(x: App, id: Id)
    requires Inv(x) && id in x.conns
    ensures Outcome(x.conns[id])
  {
    hide AppOk;
    InvIsBut(x, id);
  }

  /** What is over has been told, once, unless the application was closed first; and nothing of it is left. */
  lemma ToldOnce(x: App, id: Id)
    requires Inv(x) && x.busy == map[] && id in x.conns && x.conns[id].place.Over() && !x.conns[id].parking && !x.closed
    ensures x.conns[id].ledger.told.opens + x.conns[id].ledger.told.fails == 1 && x.conns[id].done
    ensures Failed(x.conns[id]) || Delivered(x.conns[id])
  {
    hide Fits;
    NoStage(x, id);
    var c := x.conns[id];
    assert !c.quiet;
    if c.ledger.told.fails > 0 {
      FailedBy(c);
    } else {
      FitsNone(c);
      DeliveredBy(c, None);
    }
  }

  /** A retired slot is deleted by a sweep the loop has been asked for. */
  lemma SweepIsComing(x: App, id: Id)
    requires Inv(x) && !x.destroyed && id in x.conns && x.conns[id].done
    ensures x.conns[id].ledger.closing.deleted == 1 || (id in x.slots && DeferSweep in x.queue)
  {
    InvIsBut(x, id);
  }

  /** When the application is gone and the loop has run what it was asked, everything has been paid. */
  lemma NothingLeft(x: App, id: Id)
    requires Inv(x) && x.busy == map[] && x.destroyed && id in x.conns && DeferFailed(id) !in x.queue
    ensures Accounted(x.conns[id])
  {
    hide Fits, Steady;
    NoStage(x, id);
    assert x.conns[id].ledger.closing.deleted != 0;
    AccountedBy(x.conns[id]);
  }
}
