/**
 Order submission as a state machine: the signal processor, the venue, the orphan catcher of the
 fill reconciler, the clock and crashes, interleaved at every database write and network call.
 The processor is in Paper or Live mode.
 */
module Submission {
  import opened Prelude
  import opened MarketData
  import opened OrderBuilder
  import opened OrderFills
  import Stamps

  /** The cooldown after an uncertain outcome, in microseconds. */
  const COOLDOWN: nat := 90_000_000

  datatype SignalStatus = Pending | Processed | Refused

  /** A row of `signals`. The cooldown is stored as a stamp; `retryAfter` is the instant it prints. */
  datatype SignalRow = SignalRow(signal: Signal, status: SignalStatus, arrived: nat,
                                 expires: Option<nat>, retryAfter: Option<nat>)

  /** What one attempt goes by: the market snapshot and the portfolio it loaded. */
  datatype Basis = Basis(market: MarketSnapshot, positions: seq<OpenPosition>)

  /** A row of `orders`; `brokerId` is the venue's number for the order, `basis` what its terms were built from. */
  datatype OrderRow = OrderRow(signal: nat, cli: string, terms: Terms, basis: Basis, brokerId: Option<nat>, status: Status)

  /** A submission handed to the network: it may arrive late, more than once, or never. */
  datatype Request = Request(signal: nat, row: nat, terms: Terms, basis: Basis, checked: nat, at: nat)

  datatype Origin = FromRequest(attempt: nat) | External

  datatype VenueOrder = VenueOrder(terms: Terms, origin: Origin, resting: bool)

  /** Where the processor is between two atomic steps; `checked` is when the expiry guard passed. */
  datatype Pc =
    | Idle
    | Gated(sig: nat, checked: nat)
    | Cleared(sig: nat, checked: nat, basis: Basis)
    | LookingUp(sig: nat, checked: nat, basis: Basis, row: nat)
    | Building(sig: nat, checked: nat, basis: Basis, into: Option<nat>)
    | Inserting(sig: nat, checked: nat, basis: Basis, order: Order)
    | Sending(sig: nat, checked: nat, basis: Basis, row: nat, order: Order)
    | Awaiting(sig: nat, row: nat, attempt: nat)
    | Recording(sig: nat, row: nat, number: nat, reported: Status)
    | MarkingUncertain(sig: nat, row: nat)
    | MarkingFailed(sig: nat, row: nat)
    | Cooling(sig: nat, until: nat)
    | Adopting(sig: nat, row: nat, number: nat)
    | Finishing(sig: nat, row: nat)
    | Clearing(sig: nat)
    | Refusing(sig: nat)

  /**
   The durable world: the database, the network and the venue. A crash touches none of it. `refused` are the
   submissions the venue has answered without placing an order; they are dead.
   */
  datatype Tables = Tables(signals: seq<SignalRow>, rows: seq<OrderRow>, wire: seq<Request>, venue: seq<VenueOrder>,
                           refused: set<nat>)

  datatype State = State(now: nat, db: Tables, queue: seq<nat>, pc: Pc)

  const Start: State := State(0, Tables([], [], [], [], {}), [], Idle)

  datatype Event =
    // the environment
    | Tick(micros: nat)
    | Arrive(signal: Signal, lifetime: Option<nat>)
    | VenueAccepts(attempt: nat)
    | VenueRefuses(attempt: nat)
    | VenueCloses(order: nat)
    | VenueTakesExternal(terms: Terms)
    // the orphan catcher and the fill reconciler
    | Backfill(row: nat, order: nat)
    | FillApplied(row: nat, full: bool)
    // the processor
    | Poll(picked: seq<nat>)
    | Take
    | Gate(feeds: Feeds, positions: seq<OpenPosition>, approved: bool)
    | FindOrder
    | LookupFinds(order: nat)
    | LookupFindsNone
    | LookupFails
    | Build
    | Insert
    | Send
    | Accepted(order: nat, reported: Status)
    | Uncertainty
    | Refusal
    | BrokerError
    | Write
    // failures
    | Abort
    | Crash

  // ---------------------------------------------------------------------------
  // Steps
  // ---------------------------------------------------------------------------

  /** The due test of the poll query: stamps compared as text. */
  predicate Due(r: SignalRow, now: nat) {
    r.status == Pending && (r.retryAfter.None? || Stamps.TextAtMost(Stamps.Stamp(r.retryAfter.value), Stamps.Stamp(now)))
  }

  predicate InFlight(status: Status) {
    status == PendingSubmission || status == Uncertain || status == Acknowledged
    || status == Submitted || status == PartiallyFilled
  }

  /** The youngest in-flight order row of a signal, or -1. */
  function PendingOrder(rows: seq<OrderRow>, sig: nat): (i: int)
    ensures -1 <= i < |rows|
    ensures i >= 0 ==> rows[i].signal == sig && InFlight(rows[i].status)
  {
    if rows == [] then -1
    else if rows[|rows| - 1].signal == sig && InFlight(rows[|rows| - 1].status) then |rows| - 1
    else PendingOrder(rows[..|rows| - 1], sig)
  }

  predicate CliTaken(rows: seq<OrderRow>, cli: string) {
    exists i :: 0 <= i < |rows| && rows[i].cli == cli
  }

  predicate VenueKnows(venue: seq<VenueOrder>, cli: string) {
    exists k :: 0 <= k < |venue| && venue[k].terms.cli == cli
  }

  predicate VenueLists(venue: seq<VenueOrder>, cli: string) {
    exists k :: 0 <= k < |venue| && venue[k].terms.cli == cli && venue[k].resting
  }

  predicate WasPlaced(venue: seq<VenueOrder>, attempt: nat) {
    exists k :: 0 <= k < |venue| && venue[k].origin == FromRequest(attempt)
  }

  predicate BrokerStatus(status: Status) {
    status != PendingSubmission && status != Uncertain && status != Failed
  }

  function WithStatus(d: Tables, sig: nat, status: SignalStatus): Tables
    requires sig < |d.signals|
  {
    d.(signals := d.signals[sig := d.signals[sig].(status := status)])
  }

  function WithRetry(d: Tables, sig: nat, retry: Option<nat>): Tables
    requires sig < |d.signals|
  {
    d.(signals := d.signals[sig := d.signals[sig].(retryAfter := retry)])
  }

  function WithRow(d: Tables, i: nat, brokerId: Option<nat>, status: Status): Tables
    requires i < |d.rows|
  {
    d.(rows := d.rows[i := d.rows[i].(brokerId := brokerId, status := status)])
  }

  /** `backfill_broker_order_id`: only where no id is known yet. */
  function WithAdoption(d: Tables, i: nat, order: nat): Tables
    requires i < |d.rows|
  {
    var row := d.rows[i];
    if row.brokerId.Some? then d
    else
      WithRow(d, i, Some(order),
              if row.status == PendingSubmission || row.status == Uncertain then Acknowledged else row.status)
  }

  /** The venue, the strategy and the fill reconciler acting on the durable world. */
  ghost function Outside(d: Tables, now: nat, e: Event): Tables {
    match e
    case Arrive(signal, lifetime) =>
      d.(signals := d.signals + [SignalRow(signal.(id := |d.signals|), Pending, now,
                                           if lifetime.None? then None else Some(now + lifetime.value), None)])
    case VenueAccepts(attempt) =>
      if attempt < |d.wire| && attempt !in d.refused && !VenueKnows(d.venue, d.wire[attempt].terms.cli) then
        d.(venue := d.venue + [VenueOrder(d.wire[attempt].terms, FromRequest(attempt), true)])
      else d
    case VenueRefuses(attempt) =>
      if attempt < |d.wire| && !WasPlaced(d.venue, attempt) then d.(refused := d.refused + {attempt}) else d
    case VenueCloses(k) =>
      if k < |d.venue| then d.(venue := d.venue[k := d.venue[k].(resting := false)]) else d
    case VenueTakesExternal(terms) =>
      if !VenueKnows(d.venue, terms.cli) && (forall g {:trigger ClientId(g)} :: terms.cli != ClientId(g)) then
        d.(venue := d.venue + [VenueOrder(terms, External, true)])
      else d
    case Backfill(i, k) =>
      if i < |d.rows| && k < |d.venue| && d.venue[k].terms.cli == d.rows[i].cli then WithAdoption(d, i, k) else d
    case FillApplied(i, full) =>
      if i < |d.rows| && d.rows[i].brokerId.Some? then
        WithRow(d, i, d.rows[i].brokerId, if full || d.rows[i].status == Filled then Filled else PartiallyFilled)
      else d
    case _ => d
  }

  /** Reads and decisions of the processor: where it goes next. */
  ghost function Decide(s: State, e: Event): Pc {
    match e
    case Gate(feeds, positions, approved) =>
      if s.pc.Gated? && s.pc.sig < |s.db.signals| then
        var signal := s.db.signals[s.pc.sig].signal;
        match SnapshotForSignal(signal.symbol, signal.metadata, feeds)
        case Err(_) => Refusing(s.pc.sig)
        case Ok(market) =>
          if approved && signal.sleeve == CryptoLeverage
          then Cleared(s.pc.sig, s.pc.checked, Basis(market, positions)) else Refusing(s.pc.sig)
      else s.pc
    case FindOrder =>
      if s.pc.Cleared? then
        var i := PendingOrder(s.db.rows, s.pc.sig);
        if i < 0 then Building(s.pc.sig, s.pc.checked, s.pc.basis, None)
        else if s.db.rows[i].status == Uncertain then LookingUp(s.pc.sig, s.pc.checked, s.pc.basis, i)
        else if s.db.rows[i].status == PendingSubmission then Idle
        else Finishing(s.pc.sig, i)
      else s.pc
    case LookupFinds(k) =>
      if s.pc.LookingUp? && s.pc.row < |s.db.rows| && k < |s.db.venue| && s.db.venue[k].resting
         && s.db.venue[k].terms.cli == s.db.rows[s.pc.row].cli
      then Adopting(s.pc.sig, s.pc.row, k) else s.pc
    case LookupFindsNone =>
      if s.pc.LookingUp? && s.pc.row < |s.db.rows| && !VenueLists(s.db.venue, s.db.rows[s.pc.row].cli)
      then Building(s.pc.sig, s.pc.checked, s.pc.basis, Some(s.pc.row)) else s.pc
    case LookupFails =>
      if s.pc.LookingUp? then Cooling(s.pc.sig, s.now + COOLDOWN) else s.pc
    case Build =>
      if s.pc.Building? && s.pc.sig < |s.db.signals| then
        match BuildOrder(s.db.signals[s.pc.sig].signal, s.pc.basis.market, s.pc.basis.positions)
        case Err(_) => Refusing(s.pc.sig)
        case Ok(o) =>
          if s.pc.into.None? then Inserting(s.pc.sig, s.pc.checked, s.pc.basis, o)
          else Sending(s.pc.sig, s.pc.checked, s.pc.basis, s.pc.into.value, o)
      else s.pc
    case Accepted(k, reported) =>
      if s.pc.Awaiting? && k < |s.db.venue| && s.db.venue[k].origin == FromRequest(s.pc.attempt) && BrokerStatus(reported)
      then Recording(s.pc.sig, s.pc.row, k, reported) else s.pc
    case Uncertainty =>
      if s.pc.Awaiting? then MarkingUncertain(s.pc.sig, s.pc.row) else s.pc
    case Refusal =>
      if s.pc.Awaiting? && s.pc.attempt in s.db.refused then MarkingFailed(s.pc.sig, s.pc.row) else s.pc
    case BrokerError =>
      if s.pc.Awaiting? then MarkingFailed(s.pc.sig, s.pc.row) else s.pc
    case Abort => Idle
    case Crash => Idle
    case _ => s.pc
  }

  /** The poll query, and the expiry guard on the next signal it returned. */
  ghost function Fetch(s: State, e: Event): State {
    match e
    case Poll(picked) =>
      if s.pc == Idle && s.queue == []
         && (forall a :: 0 <= a < |picked| ==> picked[a] < |s.db.signals| && Due(s.db.signals[picked[a]], s.now))
         && (forall a, b :: 0 <= a < b < |picked| ==> picked[a] != picked[b])
      then s.(queue := picked) else s
    case Take =>
      if s.pc == Idle && s.queue != [] && s.queue[0] < |s.db.signals| then
        var sig := s.queue[0];
        var expired := s.db.signals[sig].expires.Some? && s.db.signals[sig].expires.value <= s.now;
        s.(queue := s.queue[1..], pc := if expired then Refusing(sig) else Gated(sig, s.now))
      else s
    case _ => s
  }

  /** One database write of the processor, chosen by where it is. */
  function WriteStep(s: State): State {
    match s.pc
    case Recording(sig, i, k, reported) =>
      if i < |s.db.rows| then s.(db := WithRow(s.db, i, Some(k), reported), pc := Finishing(sig, i)) else s
    case MarkingUncertain(sig, i) =>
      if i < |s.db.rows| then
        s.(db := WithRow(s.db, i, s.db.rows[i].brokerId, Uncertain), pc := Cooling(sig, s.now + COOLDOWN))
      else s
    case MarkingFailed(sig, i) =>
      if i < |s.db.rows| then s.(db := WithRow(s.db, i, s.db.rows[i].brokerId, Failed), pc := Refusing(sig)) else s
    case Adopting(sig, i, k) =>
      if i < |s.db.rows| then s.(db := WithAdoption(s.db, i, k), pc := Finishing(sig, i)) else s
    case Cooling(sig, until) =>
      if sig < |s.db.signals| then s.(db := WithRetry(s.db, sig, Some(until)), pc := Idle) else s
    case Finishing(sig, _) =>
      if sig < |s.db.signals| then s.(db := WithStatus(s.db, sig, Processed), pc := Clearing(sig)) else s
    case Clearing(sig) =>
      if sig < |s.db.signals| then s.(db := WithRetry(s.db, sig, None), pc := Idle) else s
    case Refusing(sig) =>
      if sig < |s.db.signals| then s.(db := WithStatus(s.db, sig, Refused), pc := Idle) else s
    case _ => s
  }

  /** The row goes in before the network is touched; the unique index refuses a second row with the client id. */
  function InsertStep(s: State): State {
    if s.pc.Inserting? then
      if CliTaken(s.db.rows, s.pc.order.cli) then s.(pc := Idle)
      else
        var row := OrderRow(s.pc.sig, s.pc.order.cli, TermsOf(s.pc.order), s.pc.basis, None, PendingSubmission);
        s.(db := s.db.(rows := s.db.rows + [row]),
           pc := Sending(s.pc.sig, s.pc.checked, s.pc.basis, |s.db.rows|, s.pc.order))
    else s
  }

  function SendStep(s: State): State {
    if s.pc.Sending? then
      var request := Request(s.pc.sig, s.pc.row, TermsOf(s.pc.order), s.pc.basis, s.pc.checked, s.now);
      s.(db := s.db.(wire := s.db.wire + [request]), pc := Awaiting(s.pc.sig, s.pc.row, |s.db.wire|))
    else s
  }

  predicate IsOutside(e: Event) {
    e.Arrive? || e.VenueAccepts? || e.VenueRefuses? || e.VenueCloses? || e.VenueTakesExternal? || e.Backfill? || e.FillApplied?
  }

  /** Steps that leave the durable world alone. */
  ghost function ReadStep(s: State, e: Event): State {
    match e
    case Tick(micros) =>
      if s.now + micros + COOLDOWN < Stamps.EndOfStamps() then s.(now := s.now + micros) else s
    case Poll(_) => Fetch(s, e)
    case Take => Fetch(s, e)
    case Crash => s.(pc := Idle, queue := [])
    case _ => s.(pc := Decide(s, e))
  }

  ghost function Step(s: State, e: Event): State {
    if IsOutside(e) then s.(db := Outside(s.db, s.now, e))
    else if e.Insert? then InsertStep(s)
    else if e.Send? then SendStep(s)
    else if e.Write? then WriteStep(s)
    else ReadStep(s, e)
  }

  /** Where a step that only reads leaves the processor. */
  lemma ReadPc(s: State, e: Event)
    ensures ReadStep(s, e).pc == if e.Poll? || e.Take? then Fetch(s, e).pc else if e.Tick? then s.pc else Decide(s, e)
  {
  }

  ghost function Run(events: seq<Event>): State {
    if events == [] then Start else Step(Run(events[..|events| - 1]), events[|events| - 1])
  }

  // ---------------------------------------------------------------------------
  // What every step keeps
  // ---------------------------------------------------------------------------

  predicate OwnCli(d: Tables, sig: nat, cli: string) {
    sig < |d.signals| && cli == ClientId(sig)
  }

  ghost predicate SignalsOk(d: Tables) {
    forall g :: 0 <= g < |d.signals| ==> d.signals[g].signal.id == g
  }

  predicate RowOk(d: Tables, row: OrderRow) {
    && row.cli == row.terms.cli
    && OwnCli(d, row.signal, row.cli)
    && (row.brokerId.Some? ==> row.brokerId.value < |d.venue| && d.venue[row.brokerId.value].terms.cli == row.cli)
    && (BrokerStatus(row.status) ==> row.brokerId.Some?)
  }

  ghost predicate RowsOk(d: Tables) {
    && (forall i :: 0 <= i < |d.rows| ==> RowOk(d, d.rows[i]))
    && (forall i, j :: 0 <= i < j < |d.rows| ==> d.rows[i].cli != d.rows[j].cli)
  }

  predicate RowFor(d: Tables, sig: nat, row: nat) {
    sig < |d.signals| && row < |d.rows| && d.rows[row].signal == sig
  }

  ghost predicate WireOk(d: Tables) {
    forall a :: 0 <= a < |d.wire| ==>
      OwnCli(d, d.wire[a].signal, d.wire[a].terms.cli) && RowFor(d, d.wire[a].signal, d.wire[a].row)
  }

  ghost predicate OriginOk(d: Tables, o: VenueOrder) {
    match o.origin
    case FromRequest(attempt) => attempt < |d.wire| && o.terms == d.wire[attempt].terms
    case External => forall g {:trigger ClientId(g)} :: o.terms.cli != ClientId(g)
  }

  ghost predicate VenueOk(d: Tables) {
    && (forall k :: 0 <= k < |d.venue| ==> OriginOk(d, d.venue[k]))
    && (forall k, l :: 0 <= k < l < |d.venue| ==> d.venue[k].terms.cli != d.venue[l].terms.cli)
  }

  predicate Confirmed(d: Tables, sig: nat) {
    exists i :: 0 <= i < |d.rows| && d.rows[i].signal == sig && d.rows[i].brokerId.Some?
  }

  ghost predicate ProcessedOk(d: Tables) {
    forall g :: 0 <= g < |d.signals| && d.signals[g].status == Processed ==> Confirmed(d, g)
  }

  /** A refused submission was sent and has no order. */
  ghost predicate RefusedOk(d: Tables) {
    && (forall a :: a in d.refused ==> a < |d.wire|)
    && (forall k :: 0 <= k < |d.venue| && d.venue[k].origin.FromRequest? ==> d.venue[k].origin.attempt !in d.refused)
  }

  ghost predicate TablesOk(d: Tables) {
    SignalsOk(d) && RowsOk(d) && WireOk(d) && VenueOk(d) && RefusedOk(d) && ProcessedOk(d)
  }

  predicate VenueFor(d: Tables, row: nat, order: nat) {
    row < |d.rows| && order < |d.venue| && d.venue[order].terms.cli == d.rows[row].cli
  }

  predicate PcOk(d: Tables, pc: Pc) {
    match pc
    case Idle => true
    case Gated(sig, _) => sig < |d.signals|
    case Cleared(sig, _, _) => sig < |d.signals|
    case LookingUp(sig, _, _, row) => RowFor(d, sig, row)
    case Building(sig, _, _, into) => sig < |d.signals| && (into.Some? ==> RowFor(d, sig, into.value))
    case Inserting(sig, _, _, o) => OwnCli(d, sig, o.cli)
    case Sending(sig, _, _, row, o) => OwnCli(d, sig, o.cli) && RowFor(d, sig, row)
    case Awaiting(sig, row, attempt) =>
      RowFor(d, sig, row) && attempt < |d.wire| && d.wire[attempt].signal == sig
    case Recording(sig, row, order, reported) => RowFor(d, sig, row) && VenueFor(d, row, order) && BrokerStatus(reported)
    case MarkingUncertain(sig, row) => RowFor(d, sig, row)
    case MarkingFailed(sig, row) => RowFor(d, sig, row)
    case Cooling(sig, _) => sig < |d.signals|
    case Adopting(sig, row, order) => RowFor(d, sig, row) && VenueFor(d, row, order)
    case Finishing(sig, row) => RowFor(d, sig, row) && d.rows[row].brokerId.Some?
    case Clearing(sig) => sig < |d.signals|
    case Refusing(sig) => sig < |d.signals|
  }

  ghost predicate Inv(s: State) {
    && TablesOk(s.db) && PcOk(s.db, s.pc)
    && (forall a :: 0 <= a < |s.queue| ==> s.queue[a] < |s.db.signals|)
  }

  /** Nothing the durable world has recorded is taken back: rows keep their identity and their broker id. */
  ghost predicate Grows(d: Tables, e: Tables) {
    && |d.signals| <= |e.signals| && |d.rows| <= |e.rows| && |d.wire| <= |e.wire| && |d.venue| <= |e.venue|
    && d.refused <= e.refused
    && (forall g :: 0 <= g < |d.signals| ==> e.signals[g].signal == d.signals[g].signal)
    && (forall i :: 0 <= i < |d.rows| ==>
          && e.rows[i].signal == d.rows[i].signal && e.rows[i].cli == d.rows[i].cli
          && e.rows[i].terms == d.rows[i].terms && e.rows[i].basis == d.rows[i].basis
          && (d.rows[i].brokerId.Some? ==> e.rows[i].brokerId.Some?))
    && (forall a :: 0 <= a < |d.wire| ==> e.wire[a] == d.wire[a])
    && (forall k :: 0 <= k < |d.venue| ==> e.venue[k].terms == d.venue[k].terms && e.venue[k].origin == d.venue[k].origin)
  }

  lemma PcStaysOk(d: Tables, e: Tables, pc: Pc)
    requires PcOk(d, pc) && Grows(d, e)
    ensures PcOk(e, pc)
  {
  }

  lemma ProcessedStays(d: Tables, e: Tables)
    requires ProcessedOk(d) && Grows(d, e)
    requires forall g :: 0 <= g < |e.signals| && e.signals[g].status == Processed ==>
               Confirmed(e, g) || (g < |d.signals| && d.signals[g].status == Processed)
    ensures ProcessedOk(e)
  {
  }

  /** Rewriting one row's broker id and status, truthfully, keeps the tables in order. */
  lemma RowWriteOk(d: Tables, i: nat, brokerId: Option<nat>, status: Status)
    requires TablesOk(d) && i < |d.rows|
    requires d.rows[i].brokerId.Some? ==> brokerId.Some?
    requires brokerId.Some? ==> brokerId.value < |d.venue| && d.venue[brokerId.value].terms.cli == d.rows[i].cli
    requires BrokerStatus(status) ==> brokerId.Some?
    ensures TablesOk(WithRow(d, i, brokerId, status)) && Grows(d, WithRow(d, i, brokerId, status))
  {
    ProcessedStays(d, WithRow(d, i, brokerId, status));
  }

  lemma AdoptionOk(d: Tables, i: nat, order: nat)
    requires TablesOk(d) && i < |d.rows| && VenueFor(d, i, order)
    ensures TablesOk(WithAdoption(d, i, order)) && Grows(d, WithAdoption(d, i, order))
    ensures WithAdoption(d, i, order).rows[i].brokerId.Some?
  {
    if d.rows[i].brokerId.None? {
      var d' := WithAdoption(d, i, order);
      RowWriteOk(d, i, Some(order), d'.rows[i].status);
    }
  }

  lemma SignalWriteOk(d: Tables, d': Tables)
    requires TablesOk(d) && d' == d.(signals := d'.signals) && |d'.signals| == |d.signals|
    requires forall g :: 0 <= g < |d.signals| ==>
               && d'.signals[g].signal == d.signals[g].signal
               && (d'.signals[g].status == Processed ==> d.signals[g].status == Processed || Confirmed(d, g))
    ensures TablesOk(d') && Grows(d, d')
  {
    assert forall g :: Confirmed(d, g) ==> Confirmed(d', g);
    ProcessedStays(d, d');
  }

  lemma VenueGrowthOk(d: Tables, o: VenueOrder)
    requires TablesOk(d) && OriginOk(d, o) && !VenueKnows(d.venue, o.terms.cli)
    requires o.origin.FromRequest? ==> o.origin.attempt !in d.refused
    ensures TablesOk(d.(venue := d.venue + [o])) && Grows(d, d.(venue := d.venue + [o]))
  {
    ProcessedStays(d, d.(venue := d.venue + [o]));
  }

  lemma VenueRefusalOk(d: Tables, attempt: nat)
    requires TablesOk(d) && attempt < |d.wire| && !WasPlaced(d.venue, attempt)
    ensures TablesOk(d.(refused := d.refused + {attempt})) && Grows(d, d.(refused := d.refused + {attempt}))
  {
    ProcessedStays(d, d.(refused := d.refused + {attempt}));
  }

  lemma VenueCloseOk(d: Tables, k: nat)
    requires TablesOk(d) && k < |d.venue|
    ensures var d' := d.(venue := d.venue[k := d.venue[k].(resting := false)]);
            TablesOk(d') && Grows(d, d')
  {
    ProcessedStays(d, d.(venue := d.venue[k := d.venue[k].(resting := false)]));
  }

  lemma ArrivalOk(d: Tables, row: SignalRow)
    requires TablesOk(d) && row.signal.id == |d.signals| && row.status == Pending
    ensures TablesOk(d.(signals := d.signals + [row])) && Grows(d, d.(signals := d.signals + [row]))
  {
    ProcessedStays(d, d.(signals := d.signals + [row]));
  }

  lemma OutsideKeeps(d: Tables, now: nat, e: Event)
    requires TablesOk(d)
    ensures TablesOk(Outside(d, now, e)) && Grows(d, Outside(d, now, e))
  {
    var d' := Outside(d, now, e);
    if d' != d {
      match e
      case Arrive(_, _) => ArrivalOk(d, d'.signals[|d.signals|]);
      case VenueAccepts(attempt) => VenueGrowthOk(d, VenueOrder(d.wire[attempt].terms, FromRequest(attempt), true));
      case VenueRefuses(attempt) => VenueRefusalOk(d, attempt);
      case VenueTakesExternal(terms) => VenueGrowthOk(d, VenueOrder(terms, External, true));
      case VenueCloses(k) => VenueCloseOk(d, k);
      case Backfill(i, k) => AdoptionOk(d, i, k);
      case FillApplied(i, _) => RowWriteOk(d, i, d.rows[i].brokerId, d'.rows[i].status);
      case _ =>
    }
  }

  lemma AcceptanceNamesTheRow(s: State, e: Event)
    requires Inv(s) && e.Accepted? && s.pc.Awaiting? && Decide(s, e).Recording?
    ensures PcOk(s.db, Decide(s, e))
  {
    var k := e.order;
    assert OriginOk(s.db, s.db.venue[k]);
    assert s.db.venue[k].terms.cli == ClientId(s.pc.sig);
    assert RowOk(s.db, s.db.rows[s.pc.row]);
  }

  lemma FindingKeeps(s: State)
    requires Inv(s) && s.pc.Cleared?
    ensures PcOk(s.db, Decide(s, FindOrder))
  {
    var i := PendingOrder(s.db.rows, s.pc.sig);
    if i >= 0 {
      assert RowOk(s.db, s.db.rows[i]);
    }
  }

  lemma DecideKeeps(s: State, e: Event)
    requires Inv(s)
    ensures PcOk(s.db, Decide(s, e))
  {
    if e.Accepted? && s.pc.Awaiting? && Decide(s, e).Recording? {
      AcceptanceNamesTheRow(s, e);
    } else if e.FindOrder? && s.pc.Cleared? {
      FindingKeeps(s);
    }
  }

  lemma OrderWriteKeeps(s: State)
    requires Inv(s) && (s.pc.Recording? || s.pc.MarkingUncertain? || s.pc.MarkingFailed? || s.pc.Adopting?)
    ensures Inv(WriteStep(s)) && Grows(s.db, WriteStep(s).db)
  {
    var d := s.db;
    match s.pc
    case Recording(_, i, k, reported) => RowWriteOk(d, i, Some(k), reported);
    case MarkingUncertain(_, i) => RowWriteOk(d, i, d.rows[i].brokerId, Uncertain);
    case MarkingFailed(_, i) => RowWriteOk(d, i, d.rows[i].brokerId, Failed);
    case Adopting(_, i, k) => AdoptionOk(d, i, k);
  }

  lemma WriteKeeps(s: State)
    requires Inv(s)
    ensures Inv(WriteStep(s)) && Grows(s.db, WriteStep(s).db)
  {
    if s.pc.Recording? || s.pc.MarkingUncertain? || s.pc.MarkingFailed? || s.pc.Adopting? {
      OrderWriteKeeps(s);
    } else {
      if s.pc.Finishing? {
        assert s.db.rows[s.pc.row].signal == s.pc.sig;
      }
      SignalWriteOk(s.db, WriteStep(s).db);
    }
  }

  lemma InsertKeeps(s: State)
    requires Inv(s)
    ensures Inv(InsertStep(s)) && Grows(s.db, InsertStep(s).db)
  {
    ProcessedStays(s.db, InsertStep(s).db);
  }

  lemma SendKeeps(s: State)
    requires Inv(s)
    ensures Inv(SendStep(s)) && Grows(s.db, SendStep(s).db)
  {
    ProcessedStays(s.db, SendStep(s).db);
  }

  lemma OutsideStepKeeps(s: State, e: Event)
    requires Inv(s) && IsOutside(e)
    ensures Inv(Step(s, e)) && Grows(s.db, Step(s, e).db)
  {
    var d := Outside(s.db, s.now, e);
    OutsideKeeps(s.db, s.now, e);
    PcStaysOk(s.db, d, s.pc);
    assert Step(s, e) == s.(db := d);
  }

  lemma FetchKeeps(s: State, e: Event)
    requires Inv(s) && (e.Poll? || e.Take?)
    ensures Inv(Fetch(s, e)) && Fetch(s, e).db == s.db
  {
  }

  /** Every other step of the processor only reads the durable world. */
  lemma ReadStepKeeps(s: State, e: Event)
    requires Inv(s)
    ensures Inv(ReadStep(s, e)) && ReadStep(s, e).db == s.db
  {
    if e.Poll? || e.Take? {
      FetchKeeps(s, e);
    } else {
      DecideKeeps(s, e);
    }
  }

  lemma StepKeeps(s: State, e: Event)
    requires Inv(s)
    ensures Inv(Step(s, e)) && Grows(s.db, Step(s, e).db)
  {
    if IsOutside(e) {
      OutsideStepKeeps(s, e);
    } else if e.Insert? {
      InsertKeeps(s);
    } else if e.Send? {
      SendKeeps(s);
    } else if e.Write? {
      WriteKeeps(s);
    } else {
      ReadStepKeeps(s, e);
    }
  }

  lemma {:induction false} RunKeeps(events: seq<Event>)
    ensures Inv(Run(events))
  {
    if events != [] {
      RunKeeps(events[..|events| - 1]);
      StepKeeps(Run(events[..|events| - 1]), events[|events| - 1]);
    }
  }

  // ---------------------------------------------------------------------------
  // At most one venue order per signal
  // ---------------------------------------------------------------------------

  /**
   In every reachable state: a signal has at most one order row; every submission carries the signal's own
   client id and belongs to the signal's row; the venue holds at most one order for the signal; and a
   processed signal has a row whose broker id names that order.
   */
  lemma OneOrderPerSignal(events: seq<Event>)
    ensures var d := Run(events).db;
            && (forall i, j :: 0 <= i < j < |d.rows| ==> d.rows[i].signal != d.rows[j].signal)
            && (forall a :: 0 <= a < |d.wire| ==>
                  d.wire[a].terms.cli == ClientId(d.wire[a].signal) && RowFor(d, d.wire[a].signal, d.wire[a].row))
            && (forall g, k, l :: 0 <= k < l < |d.venue| ==>
                  !(d.venue[k].terms.cli == ClientId(g) && d.venue[l].terms.cli == ClientId(g)))
            && (forall g :: 0 <= g < |d.signals| && d.signals[g].status == Processed ==>
                  exists i: nat :: RowFor(d, g, i) && d.rows[i].brokerId.Some? && d.rows[i].brokerId.value < |d.venue|
                              && d.venue[d.rows[i].brokerId.value].terms.cli == ClientId(g))
  {
    RunKeeps(events);
    var d := Run(events).db;
    forall i, j | 0 <= i < j < |d.rows| ensures d.rows[i].signal != d.rows[j].signal {
      assert RowOk(d, d.rows[i]) && RowOk(d, d.rows[j]);
    }
    forall g | 0 <= g < |d.signals| && d.signals[g].status == Processed
      ensures exists i: nat :: RowFor(d, g, i) && d.rows[i].brokerId.Some? && d.rows[i].brokerId.value < |d.venue|
                          && d.venue[d.rows[i].brokerId.value].terms.cli == ClientId(g)
    {
      assert Confirmed(d, g);
      var i: nat :| 0 <= i < |d.rows| && d.rows[i].signal == g && d.rows[i].brokerId.Some?;
      assert RowOk(d, d.rows[i]) && RowFor(d, g, i);
    }
  }

  /** Only `Send` hands anything to the network. */
  lemma OnlySendSends(s: State, e: Event)
    requires Inv(s) && !e.Send?
    ensures Step(s, e).db.wire == s.db.wire
  {
    if IsOutside(e) {
      OutsideAddsNone(s.db, s.now, e);
    } else if !e.Insert? && !e.Write? {
      ReadStepKeeps(s, e);
    }
  }

  lemma SendUsesTheRow(s: State)
    requires PcOk(s.db, s.pc) && s.pc.Sending?
    ensures SendStep(s).db.wire[..|s.db.wire|] == s.db.wire && |SendStep(s).db.wire| == |s.db.wire| + 1
    ensures var request := SendStep(s).db.wire[|s.db.wire|];
            RowFor(s.db, request.signal, request.row)
  {
  }

  /** The row is in the table before the submission leaves. */
  lemma RowPrecedesSubmission(events: seq<Event>, e: Event)
    ensures var before, sent := Run(events).db, Step(Run(events), e).db.wire;
            sent != before.wire ==>
              && |sent| == |before.wire| + 1
              && sent[..|before.wire|] == before.wire
              && RowFor(before, sent[|before.wire|].signal, sent[|before.wire|].row)
  {
    var s := Run(events);
    RunKeeps(events);
    if e.Send? {
      if s.pc.Sending? {
        SendUsesTheRow(s);
      }
    } else {
      OnlySendSends(s, e);
    }
  }

  // ---------------------------------------------------------------------------
  // Terms
  // ---------------------------------------------------------------------------

  /** The basis is one that the market-data service gives for this signal. */
  predicate Quoted(g: Signal, b: Basis) {
    g.sleeve == CryptoLeverage && Readable(g.metadata) && ExtractFx(g.metadata) == Ok(b.market.fx)
  }

  /** The terms are exactly what the builder makes of the basis. */
  predicate Fits(g: Signal, b: Basis, terms: Terms) {
    && Quoted(g, b)
    && BuildOrder(g, b.market, b.positions).Ok?
    && terms == TermsOf(BuildOrder(g, b.market, b.positions).value)
  }

  ghost predicate StoredTermsFit(d: Tables) {
    && (forall i :: 0 <= i < |d.rows| ==>
          d.rows[i].signal < |d.signals| && Fits(d.signals[d.rows[i].signal].signal, d.rows[i].basis, d.rows[i].terms))
    && (forall a :: 0 <= a < |d.wire| ==>
          d.wire[a].signal < |d.signals| && Fits(d.signals[d.wire[a].signal].signal, d.wire[a].basis, d.wire[a].terms))
  }

  predicate PcFits(d: Tables, pc: Pc) {
    pc != Idle && pc.sig < |d.signals| ==>
      var g := d.signals[pc.sig].signal;
      && (pc.Cleared? || pc.LookingUp? || pc.Building? ==> Quoted(g, pc.basis))
      && (pc.Inserting? || pc.Sending? ==> Fits(g, pc.basis, TermsOf(pc.order)))
  }

  ghost predicate Faithful(s: State) {
    StoredTermsFit(s.db) && PcFits(s.db, s.pc)
  }

  lemma GateQuotes(s: State, e: Event)
    requires e.Gate? && s.pc.Gated? && s.pc.sig < |s.db.signals|
    ensures Decide(s, e).Refusing? || Decide(s, e).Cleared?
    ensures Decide(s, e).sig == s.pc.sig
    ensures Decide(s, e).Cleared? ==> Quoted(s.db.signals[s.pc.sig].signal, Decide(s, e).basis)
  {
    var signal := s.db.signals[s.pc.sig].signal;
    SnapshotIff(signal.symbol, signal.metadata, e.feeds);
  }

  lemma DecideStaysFaithful(s: State, e: Event)
    requires Inv(s) && PcFits(s.db, s.pc)
    ensures PcFits(s.db, Decide(s, e))
  {
    if e.Gate? && s.pc.Gated? {
      GateQuotes(s, e);
    }
  }

  /** Rows and submissions that exist keep their terms, and so does the signal they were built for. */
  lemma OldTermsStayFit(d: Tables, e: Tables)
    requires StoredTermsFit(d) && Grows(d, e) && |e.rows| == |d.rows| && |e.wire| == |d.wire|
    ensures StoredTermsFit(e)
  {
  }

  lemma InsertStaysFaithful(s: State)
    requires Inv(s) && Faithful(s)
    ensures Faithful(InsertStep(s))
  {
  }

  lemma SendStaysFaithful(s: State)
    requires Inv(s) && Faithful(s)
    ensures Faithful(SendStep(s))
  {
  }

  lemma OutsideAddsNone(d: Tables, now: nat, e: Event)
    ensures |Outside(d, now, e).rows| == |d.rows| && Outside(d, now, e).wire == d.wire
    ensures !e.Arrive? ==> Outside(d, now, e).signals == d.signals
  {
  }

  lemma PcStaysFit(d: Tables, e: Tables, pc: Pc)
    requires PcOk(d, pc) && PcFits(d, pc) && Grows(d, e)
    ensures PcFits(e, pc)
  {
  }

  lemma WriteAddsNone(s: State)
    ensures |WriteStep(s).db.rows| == |s.db.rows| && WriteStep(s).db.wire == s.db.wire
    ensures var pc := WriteStep(s).pc;
            pc == s.pc || pc == Idle || pc.Finishing? || pc.Cooling? || pc.Refusing? || pc.Clearing?
  {
  }

  lemma StepStaysFaithful(s: State, e: Event)
    requires Inv(s) && Faithful(s)
    ensures Faithful(Step(s, e))
  {
    StepKeeps(s, e);
    if IsOutside(e) {
      OutsideAddsNone(s.db, s.now, e);
      OldTermsStayFit(s.db, Outside(s.db, s.now, e));
      PcStaysFit(s.db, Outside(s.db, s.now, e), s.pc);
    } else if e.Insert? {
      InsertStaysFaithful(s);
    } else if e.Send? {
      SendStaysFaithful(s);
    } else if e.Write? {
      WriteAddsNone(s);
      OldTermsStayFit(s.db, WriteStep(s).db);
      PcStaysFit(s.db, WriteStep(s).db, s.pc);
    } else {
      ReadStepKeeps(s, e);
      ReadStaysFaithful(s, e);
    }
  }

  lemma ReadStaysFaithful(s: State, e: Event)
    requires Inv(s) && PcFits(s.db, s.pc)
    ensures PcFits(s.db, ReadStep(s, e).pc)
  {
    if e.Poll? || e.Take? {
      assert Fetch(s, e).pc == s.pc || Fetch(s, e).pc.Gated? || Fetch(s, e).pc.Refusing?;
    } else {
      DecideStaysFaithful(s, e);
    }
  }

  lemma {:induction false} RunIsFaithful(events: seq<Event>)
    ensures Faithful(Run(events)) && Inv(Run(events))
  {
    RunKeeps(events);
    if events != [] {
      RunIsFaithful(events[..|events| - 1]);
      StepStaysFaithful(Run(events[..|events| - 1]), events[|events| - 1]);
    }
  }

  /** One signal's terms, built from two bases: entries always agree, exits when the position has the same size. */
  lemma TermsAgreeIff(g: Signal, b: Basis, c: Basis)
    requires Quoted(g, b) && Quoted(g, c)
    requires BuildOrder(g, b.market, b.positions).Ok? && BuildOrder(g, c.market, c.positions).Ok?
    ensures TermsOf(BuildOrder(g, b.market, b.positions).value) == TermsOf(BuildOrder(g, c.market, c.positions).value)
            <==> (g.kind == TrendExit ==> ClosingSize(g, b.positions) == ClosingSize(g, c.positions))
  {
    if g.kind == TrendExit {
      ExitTerms(g, b.positions);
      ExitTerms(g, c.positions);
    } else {
      EntryTermsAgreeIff(g, b.market, c.market);
    }
  }

  /**
   The venue's order for a signal came from one of its submissions. It has the terms of the stored row always for an
   entry, however often it was resubmitted, and for an exit exactly when the position that submission was built from
   had the size of the one the row was built from.
   */
  lemma VenueHoldsTheStoredTerms(events: seq<Event>, k: nat, i: nat)
    requires k < |Run(events).db.venue| && i < |Run(events).db.rows|
    requires Run(events).db.venue[k].terms.cli == Run(events).db.rows[i].cli
    ensures var d := Run(events).db;
            && d.venue[k].origin.FromRequest? && d.venue[k].origin.attempt < |d.wire|
            && d.wire[d.venue[k].origin.attempt].signal == d.rows[i].signal < |d.signals|
            && (d.venue[k].terms == d.rows[i].terms <==>
                  var g := d.signals[d.rows[i].signal].signal;
                  g.kind == TrendExit ==>
                    ClosingSize(g, d.wire[d.venue[k].origin.attempt].basis.positions)
                    == ClosingSize(g, d.rows[i].basis.positions))
  {
    RunIsFaithful(events);
    var d := Run(events).db;
    assert RowOk(d, d.rows[i]) && OriginOk(d, d.venue[k]);
    assert d.rows[i].cli == ClientId(d.rows[i].signal);
    var r := d.wire[d.venue[k].origin.attempt];
    ClientIdInjective(d.rows[i].signal, r.signal);
    TermsAgreeIff(d.signals[r.signal].signal, r.basis, d.rows[i].basis);
  }
}
