/** The position ledger: for each symbol, the ordered list of position
    records. Opening appends an open record; closing settles the open records
    a call selects with side-aware profit and loss and whole-day holding time;
    the forced-close sweep settles records held for too long; the queries list
    the open records and tally the outcomes. Clock readings are parameters:
    `now` in microseconds since the epoch, `stamp` its
    `%Y%m%d_%H%M%S` rendering. */
module PositionLedger {
  import opened Series

  const MicrosPerDay: int := 86_400_000_000
  const LongSide: string := "买入"

  datatype Status = Open | Closed | ForcedClose

  datatype Position = Position(
    id: string,
    symbol: string,
    signalType: string,
    entryPrice: real,
    entryTime: int,
    exitPrice: Option<real>,
    exitTime: Option<int>,
    signalStrength: real,
    signalLevel: string,
    status: Status,
    profitLoss: Option<real>,
    profitLossPct: Option<real>,
    holdingDays: int)

  /** `timedelta.days` of `to - from`: whole days, rounded down. */
  function WholeDays(from: int, to: int): (d: int)
    ensures d * MicrosPerDay <= to - from < (d + 1) * MicrosPerDay
  {
    (to - from) / MicrosPerDay
  }

  /** Profit of a long (`signalType` "买入") or short position; a position gains
      exactly when the price moved its way. */
  function ProfitLoss(signalType: string, entry: real, exit: real): (pl: real)
    ensures pl > 0.0 <==> if signalType == LongSide then exit > entry else exit < entry
    ensures pl == 0.0 <==> exit == entry
  {
    if signalType == LongSide then exit - entry else entry - exit
  }

  /** A long and a short position over the same prices have opposite outcomes. */
  lemma ProfitLossSides(short: string, entry: real, exit: real)
    requires short != LongSide
    ensures ProfitLoss(short, entry, exit) == -ProfitLoss(LongSide, entry, exit)
  {
  }

  /** The record `open_position` appends. */
  function Opened(id: string, symbol: string, signalType: string, entryPrice: real, strength: real,
                  level: string, now: int): Position
  {
    Position(id, symbol, signalType, entryPrice, now, None, None, strength, level, Open, None, None, 0)
  }

  /** Whether `close_position` with `id` touches `p`: only open records, and,
      when an id is given, only that one. An empty id counts as none given. */
  predicate Selects(p: Position, id: Option<string>) {
    p.status == Open && (id.None? || id.value == "" || p.id == id.value)
  }

  /** `q` records the same entry as `p`. */
  predicate SameEntry(p: Position, q: Position) {
    q.id == p.id && q.symbol == p.symbol && q.signalType == p.signalType &&
    q.entryPrice == p.entryPrice && q.entryTime == p.entryTime &&
    q.signalStrength == p.signalStrength && q.signalLevel == p.signalLevel
  }

  /** `p` settled at `exit` at time `now`. */
  function Closing(p: Position, exit: real, now: int, forced: bool): (q: Position)
    requires p.entryPrice != 0.0
    ensures SameEntry(p, q)
    ensures q.status != Open && (q.status == ForcedClose <==> forced)
    ensures q.exitPrice == Some(exit) && q.exitTime == Some(now)
    ensures q.profitLoss == Some(ProfitLoss(p.signalType, p.entryPrice, exit))
    ensures q.profitLossPct == Some(ProfitLoss(p.signalType, p.entryPrice, exit) / p.entryPrice * 100.0)
    ensures q.holdingDays == WholeDays(p.entryTime, now)
  {
    var pl := ProfitLoss(p.signalType, p.entryPrice, exit);
    p.(exitPrice := Some(exit), exitTime := Some(now), status := if forced then ForcedClose else Closed,
       profitLoss := Some(pl), profitLossPct := Some(pl / p.entryPrice * 100.0),
       holdingDays := WholeDays(p.entryTime, now))
  }

  /** The records a call would settle can be divided by. */
  predicate SelectedPriced(list: seq<Position>, id: Option<string>) {
    forall i :: 0 <= i < |list| && Selects(list[i], id) ==> list[i].entryPrice != 0.0
  }

  /** Every open record can be divided by. */
  predicate OpenPriced(list: seq<Position>) {
    forall i :: 0 <= i < |list| && list[i].status == Open ==> list[i].entryPrice != 0.0
  }

  /** The symbol's list after `close_position`: the selected records settled,
      the others as they were. Nothing the call selects is left. */
  function CloseList(list: seq<Position>, id: Option<string>, exit: real, now: int, forced: bool)
    : (after: seq<Position>)
    requires SelectedPriced(list, id)
    ensures |after| == |list|
    ensures forall i :: 0 <= i < |list| ==>
      after[i] == if Selects(list[i], id) then Closing(list[i], exit, now, forced) else list[i]
    ensures forall i :: 0 <= i < |list| ==> !Selects(after[i], id)
    ensures OpenPriced(list) ==> OpenPriced(after)
  {
    seq(|list|, i requires 0 <= i < |list| =>
      if Selects(list[i], id) then Closing(list[i], exit, now, forced) else list[i])
  }

  /** The list `close_position` returns: the settled records, in list order. */
  function ClosedOf(list: seq<Position>, id: Option<string>, exit: real, now: int, forced: bool)
    : (closed: seq<Position>)
    requires SelectedPriced(list, id)
    ensures |closed| <= |list|
    ensures forall k :: 0 <= k < |closed| ==> closed[k].status != Open
  {
    if |list| == 0 then []
    else
      var init := list[..|list| - 1];
      assert forall i :: 0 <= i < |init| ==> init[i] == list[i];
      var last := list[|list| - 1];
      ClosedOf(init, id, exit, now, forced) + (if Selects(last, id) then [Closing(last, exit, now, forced)] else [])
  }

  /** The records of `after` that differ from their counterpart in `before`. */
  function Changed(before: seq<Position>, after: seq<Position>): seq<Position>
    requires |before| == |after|
  {
    if |before| == 0 then []
    else
      Changed(before[..|before| - 1], after[..|after| - 1])
        + (if before[|before| - 1] != after[|after| - 1] then [after[|after| - 1]] else [])
  }

  /** The list `close_position` returns is exactly the records it changed. */
  lemma {:induction false} ClosedAreChanged(list: seq<Position>, id: Option<string>, exit: real, now: int,
                                             forced: bool)
    requires SelectedPriced(list, id)
    ensures ClosedOf(list, id, exit, now, forced) == Changed(list, CloseList(list, id, exit, now, forced))
  {
    if |list| > 0 {
      var init := list[..|list| - 1];
      CloseListInit(list, id, exit, now, forced);
      ClosedAreChanged(init, id, exit, now, forced);
    }
  }

  /** Closing a list and dropping its last record is closing the list
      without it. */
  lemma CloseListInit(list: seq<Position>, id: Option<string>, exit: real, now: int, forced: bool)
    requires |list| > 0 && SelectedPriced(list, id)
    ensures SelectedPriced(list[..|list| - 1], id)
    ensures CloseList(list, id, exit, now, forced)[..|list| - 1]
         == CloseList(list[..|list| - 1], id, exit, now, forced)
  {
    var init := list[..|list| - 1];
    assert forall i :: 0 <= i < |init| ==> init[i] == list[i];
  }

  /** A list in which nothing is selected settles nothing. */
  lemma {:induction false} NothingSelected(list: seq<Position>, id: Option<string>, exit: real, now: int,
                                            forced: bool)
    requires forall i :: 0 <= i < |list| ==> !Selects(list[i], id)
    ensures ClosedOf(list, id, exit, now, forced) == []
  {
    if |list| > 0 {
      NothingSelected(list[..|list| - 1], id, exit, now, forced);
    }
  }

  /** Closing is idempotent: a second identical call changes nothing and
      returns nothing. */
  lemma CloseTwice(list: seq<Position>, id: Option<string>, exit: real, now: int, forced: bool)
    requires SelectedPriced(list, id)
    ensures var once := CloseList(list, id, exit, now, forced);
      CloseList(once, id, exit, now, forced) == once && ClosedOf(once, id, exit, now, forced) == []
  {
    var once := CloseList(list, id, exit, now, forced);
    NothingSelected(once, id, exit, now, forced);
  }

  /** When exactly one record is selected, exactly that record is settled. */
  lemma {:induction false} ClosedOfSingle(list: seq<Position>, id: Option<string>, exit: real, now: int,
                                           forced: bool, k: int)
    requires 0 <= k < |list| && SelectedPriced(list, id)
    requires forall i :: 0 <= i < |list| ==> (Selects(list[i], id) <==> i == k)
    ensures ClosedOf(list, id, exit, now, forced) == [Closing(list[k], exit, now, forced)]
  {
    var init := list[..|list| - 1];
    if k == |list| - 1 {
      NothingSelected(init, id, exit, now, forced);
    } else {
      assert SelectedPriced(init, id);
      ClosedOfSingle(init, id, exit, now, forced, k);
    }
  }

  /** The records of a list that are open, in order. */
  function OpenOf(list: seq<Position>): (open: seq<Position>)
    ensures |open| <= |list|
    ensures forall k :: 0 <= k < |open| ==> open[k].status == Open
    ensures forall i :: 0 <= i < |list| && list[i].status == Open ==> list[i] in open
  {
    if |list| == 0 then []
    else
      var init := list[..|list| - 1];
      assert forall i :: 0 <= i < |init| ==> init[i] == list[i];
      OpenOf(init) + (if list[|list| - 1].status == Open then [list[|list| - 1]] else [])
  }

  /** Appending a record adds it to the open ones exactly when it is open. */
  lemma OpenOfAppend(list: seq<Position>, p: Position)
    ensures OpenOf(list + [p]) == OpenOf(list) + (if p.status == Open then [p] else [])
  {
    assert (list + [p])[..|list|] == list;
  }

  /** A list without open records has none to report. */
  lemma {:induction false} NoneOpen(list: seq<Position>)
    requires forall i :: 0 <= i < |list| ==> list[i].status != Open
    ensures OpenOf(list) == []
  {
    if |list| > 0 {
      NoneOpen(list[..|list| - 1]);
    }
  }

  /** Closing without an id leaves the symbol with no open record. */
  lemma CloseAllLeavesNoneOpen(list: seq<Position>, exit: real, now: int, forced: bool)
    requires SelectedPriced(list, None)
    ensures OpenOf(CloseList(list, None, exit, now, forced)) == []
  {
    NoneOpen(CloseList(list, None, exit, now, forced));
  }

  /** `open_position` itself does not refuse a second open record: opening
      twice leaves two more open records. Only a caller that checks for open
      records first keeps a symbol to a single one. */
  lemma OpenTwiceTwoOpen(list: seq<Position>, a: Position, b: Position)
    requires a.status == Open && b.status == Open
    ensures |OpenOf(list + [a] + [b])| == |OpenOf(list)| + 2
  {
    OpenOfAppend(list, a);
    OpenOfAppend(list + [a], b);
  }

  lemma GuardedOpenKeepsOne(list: seq<Position>, a: Position)
    requires OpenOf(list) == [] && a.status == Open
    ensures OpenOf(list + [a]) == [a]
  {
    OpenOfAppend(list, a);
  }

  /** Whether the forced-close sweep at `now` settles `p`. */
  predicate Aged(p: Position, now: int, maxDays: int) {
    p.status == Open && WholeDays(p.entryTime, now) >= maxDays
  }

  /** The age limit is reached at exactly `maxDays` whole days and not one
      microsecond earlier. */
  lemma AgeBoundary(p: Position, maxDays: int)
    requires p.status == Open
    ensures Aged(p, p.entryTime + maxDays * MicrosPerDay, maxDays)
    ensures !Aged(p, p.entryTime + maxDays * MicrosPerDay - 1, maxDays)
  {
    assert WholeDays(p.entryTime, p.entryTime + maxDays * MicrosPerDay) == maxDays;
    assert WholeDays(p.entryTime, p.entryTime + maxDays * MicrosPerDay - 1) == maxDays - 1;
  }

  datatype Sweep = Sweep(list: seq<Position>, closed: seq<Position>)

  /** Every record the sweep at `now` may settle can be divided by: for each
      aged open record, the records `close_position` with its id selects. An
      open record that is not aged and shares no id with an aged one may have
      any entry price. */
  predicate SweepPriced(list: seq<Position>, maxDays: int, now: int) {
    forall j :: 0 <= j < |list| && Aged(list[j], now, maxDays) ==> SelectedPriced(list, Some(list[j].id))
  }

  /** The aged open records can be divided by. */
  predicate AgedPriced(list: seq<Position>, maxDays: int, now: int) {
    forall i :: 0 <= i < |list| && Aged(list[i], now, maxDays) ==> list[i].entryPrice != 0.0
  }

  /** Closing by the id of an aged record keeps the sweep's records priced:
      every record still open afterwards is as it was. */
  lemma SweepPricedClose(list: seq<Position>, n: nat, maxDays: int, price: real, now: int)
    requires n < |list| && SweepPriced(list, maxDays, now) && Aged(list[n], now, maxDays)
    ensures SelectedPriced(list, Some(list[n].id))
    ensures SweepPriced(CloseList(list, Some(list[n].id), price, now, true), maxDays, now)
  {
    var after := CloseList(list, Some(list[n].id), price, now, true);
    forall j | 0 <= j < |after| && Aged(after[j], now, maxDays)
      ensures SelectedPriced(after, Some(after[j].id))
    {
      assert after[j] == list[j];
      forall i | 0 <= i < |after| && Selects(after[i], Some(after[j].id))
        ensures after[i].entryPrice != 0.0
      {
        assert after[i] == list[i];
      }
    }
  }

  /** The forced-close sweep after visiting the first `n` records: each visited
      record that is still open and aged is closed by id, as `close_position`
      with that id would. */
  function SweepOf(start: seq<Position>, n: nat, maxDays: int, price: real, now: int): (r: Sweep)
    requires n <= |start| && SweepPriced(start, maxDays, now)
    ensures |r.list| == |start| && SweepPriced(r.list, maxDays, now)
  {
    if n == 0 then Sweep(start, [])
    else
      var prev := SweepOf(start, n - 1, maxDays, price, now);
      var p := prev.list[n - 1];
      if Aged(p, now, maxDays) then
        SweepPricedClose(prev.list, n - 1, maxDays, price, now);
        Sweep(CloseList(prev.list, Some(p.id), price, now, true),
              prev.closed + ClosedOf(prev.list, Some(p.id), price, now, true))
      else prev
  }

  /** No two records share an id, and none has the empty id. */
  predicate DistinctIds(list: seq<Position>) {
    (forall i :: 0 <= i < |list| ==> list[i].id != "") &&
    (forall i, j :: 0 <= i < j < |list| ==> list[i].id != list[j].id)
  }

  /** The aged open records, each settled as a forced close, in list order. */
  function AgedClosed(list: seq<Position>, maxDays: int, price: real, now: int): seq<Position>
    requires AgedPriced(list, maxDays, now)
  {
    if |list| == 0 then []
    else
      var init := list[..|list| - 1];
      assert forall i :: 0 <= i < |init| ==> init[i] == list[i];
      var last := list[|list| - 1];
      AgedClosed(init, maxDays, price, now) + (if Aged(last, now, maxDays) then [Closing(last, price, now, true)] else [])
  }

  /** One more record of the list adds its forced close when it is aged. */
  lemma AgedClosedStep(list: seq<Position>, n: nat, maxDays: int, price: real, now: int)
    requires 0 < n <= |list| && AgedPriced(list, maxDays, now)
    ensures AgedPriced(list[..n], maxDays, now) && AgedPriced(list[..n - 1], maxDays, now)
    ensures AgedClosed(list[..n], maxDays, price, now)
         == AgedClosed(list[..n - 1], maxDays, price, now)
            + (if Aged(list[n - 1], now, maxDays) then [Closing(list[n - 1], price, now, true)] else [])
  {
    assert list[..n][..n - 1] == list[..n - 1];
  }

  /** With distinct non-empty ids, the first `n` steps of the sweep have closed
      exactly the aged records among the first `n`, and nothing else. */
  lemma {:induction false} SweepPrefix(start: seq<Position>, n: nat, maxDays: int, price: real, now: int)
    requires n <= |start| && SweepPriced(start, maxDays, now) && DistinctIds(start)
    ensures forall j :: 0 <= j < |start| ==>
      SweepOf(start, n, maxDays, price, now).list[j]
        == if j < n && Aged(start[j], now, maxDays) then Closing(start[j], price, now, true) else start[j]
    ensures SweepOf(start, n, maxDays, price, now).closed == AgedClosed(start[..n], maxDays, price, now)
  {
    if n > 0 {
      SweepPrefix(start, n - 1, maxDays, price, now);
      var prev := SweepOf(start, n - 1, maxDays, price, now);
      var p := prev.list[n - 1];
      assert p == start[n - 1];
      AgedClosedStep(start, n, maxDays, price, now);
      if Aged(p, now, maxDays) {
        forall j | 0 <= j < |start|
          ensures Selects(prev.list[j], Some(p.id)) <==> j == n - 1
        {
          assert prev.list[j].id == start[j].id;
        }
        ClosedOfSingle(prev.list, Some(p.id), price, now, true, n - 1);
      }
    }
  }

  /** `check_forced_close`, with distinct non-empty ids: the records settled are
      precisely the open records aged at least `maxDays` whole days, settled as
      forced closes and returned in list order; all other records are kept. */
  lemma SweepClosesAged(start: seq<Position>, maxDays: int, price: real, now: int)
    requires AgedPriced(start, maxDays, now) && DistinctIds(start)
    ensures SweepPriced(start, maxDays, now)
    ensures forall j :: 0 <= j < |start| ==>
      SweepOf(start, |start|, maxDays, price, now).list[j]
        == if Aged(start[j], now, maxDays) then Closing(start[j], price, now, true) else start[j]
    ensures SweepOf(start, |start|, maxDays, price, now).closed == AgedClosed(start, maxDays, price, now)
  {
    forall j | 0 <= j < |start| && Aged(start[j], now, maxDays)
      ensures SelectedPriced(start, Some(start[j].id))
    {
      forall i | 0 <= i < |start| && Selects(start[i], Some(start[j].id))
        ensures start[i].entryPrice != 0.0
      {
        assert i == j;
      }
    }
    SweepPrefix(start, |start|, maxDays, price, now);
    assert start[..|start|] == start;
  }

  /** The ledger as persisted: its symbols in insertion order and their lists. */
  datatype Store = Store(order: seq<string>, lists: map<string, seq<Position>>)

  ghost predicate ValidStore(s: Store) {
    (forall i, j :: 0 <= i < j < |s.order| ==> s.order[i] != s.order[j]) &&
    (forall sym :: sym in s.lists <==> sym in s.order)
  }

  function ListOf(m: map<string, seq<Position>>, symbol: string): seq<Position> {
    if symbol in m then m[symbol] else []
  }

  /** The symbols a query visits: the one given, or every symbol when none (or
      the empty name) is given. */
  function Queried(symbol: Option<string>, all: seq<string>): seq<string> {
    if symbol.None? || symbol.value == "" then all else [symbol.value]
  }

  /** The open records of the first `n` visited symbols, symbol by symbol; an
      unknown symbol contributes nothing. */
  function OpenAcross(syms: seq<string>, n: nat, m: map<string, seq<Position>>): (open: seq<Position>)
    requires n <= |syms|
    ensures forall k :: 0 <= k < |open| ==> open[k].status == Open
  {
    if n == 0 then [] else OpenAcross(syms, n - 1, m) + OpenOf(ListOf(m, syms[n - 1]))
  }

  datatype Tally = Tally(total: nat, closed: nat, open: nat, wins: nat, losses: nat, profit: real)

  /** A closed record whose recorded profit is positive. */
  predicate IsWin(p: Position) {
    p.status != Open && p.profitLoss.Some? && p.profitLoss.value > 0.0
  }

  /** A closed record whose recorded profit is zero or negative: a break-even
      counts as a loss. */
  predicate IsLoss(p: Position) {
    p.status != Open && p.profitLoss.Some? && p.profitLoss.value <= 0.0
  }

  /** One record added to a running tally: it is counted once, as open or as
      closed; a closed record with a recorded profit adds that profit and is a
      win when the profit is positive and a loss otherwise. */
  function Count(t: Tally, p: Position): (r: Tally)
    ensures r.total == t.total + 1
    ensures r.open == t.open + (if p.status == Open then 1 else 0)
    ensures r.closed == t.closed + (if p.status == Open then 0 else 1)
    ensures r.wins == t.wins + (if IsWin(p) then 1 else 0)
    ensures r.losses == t.losses + (if IsLoss(p) then 1 else 0)
    ensures r.profit == t.profit + (if p.status != Open && p.profitLoss.Some? then p.profitLoss.value else 0.0)
    ensures Balanced(t) ==> Balanced(r)
  {
    if p.status == Open then t.(total := t.total + 1, open := t.open + 1)
    else if p.profitLoss.None? then t.(total := t.total + 1, closed := t.closed + 1)
    else if p.profitLoss.value > 0.0 then
      t.(total := t.total + 1, closed := t.closed + 1, wins := t.wins + 1, profit := t.profit + p.profitLoss.value)
    else
      t.(total := t.total + 1, closed := t.closed + 1, losses := t.losses + 1, profit := t.profit + p.profitLoss.value)
  }

  predicate Balanced(t: Tally) {
    t.total == t.open + t.closed && t.wins + t.losses <= t.closed
  }

  /** `acc` with the first `n` records of `list` counted in. */
  function TallyFrom(acc: Tally, list: seq<Position>, n: nat): (t: Tally)
    requires n <= |list|
    ensures t.total == acc.total + n
    ensures Balanced(acc) ==> Balanced(t)
  {
    if n == 0 then acc else Count(TallyFrom(acc, list, n - 1), list[n - 1])
  }

  /** The tally over the lists of the first `n` visited symbols; an unknown
      symbol contributes nothing. */
  function TallyAcross(syms: seq<string>, n: nat, m: map<string, seq<Position>>): (t: Tally)
    requires n <= |syms|
  {
    if n == 0 then Tally(0, 0, 0, 0, 0, 0.0)
    else
      var list := ListOf(m, syms[n - 1]);
      TallyFrom(TallyAcross(syms, n - 1, m), list, |list|)
  }

  /** The winning records of a list, counted one by one. */
  function Wins(list: seq<Position>): (n: nat)
    ensures n <= |list|
  {
    if |list| == 0 then 0 else Wins(list[..|list| - 1]) + (if IsWin(list[|list| - 1]) then 1 else 0)
  }

  /** The losing records of a list, counted one by one. */
  function Losses(list: seq<Position>): (n: nat)
    ensures n <= |list|
  {
    if |list| == 0 then 0 else Losses(list[..|list| - 1]) + (if IsLoss(list[|list| - 1]) then 1 else 0)
  }

  /** The recorded profits of the closed records of a list, summed. */
  function ClosedProfit(list: seq<Position>): real {
    if |list| == 0 then 0.0
    else
      var p := list[|list| - 1];
      ClosedProfit(list[..|list| - 1]) + (if p.status != Open && p.profitLoss.Some? then p.profitLoss.value else 0.0)
  }

  /** Every record of the first `n` visited symbols, symbol by symbol. */
  function Records(syms: seq<string>, n: nat, m: map<string, seq<Position>>): (all: seq<Position>)
    requires n <= |syms|
  {
    if n == 0 then [] else Records(syms, n - 1, m) + ListOf(m, syms[n - 1])
  }

  /** Wins, losses and profit of two lists together are those of each added. */
  lemma {:induction false} OutcomesAppend(a: seq<Position>, b: seq<Position>)
    ensures Wins(a + b) == Wins(a) + Wins(b)
    ensures Losses(a + b) == Losses(a) + Losses(b)
    ensures ClosedProfit(a + b) == ClosedProfit(a) + ClosedProfit(b)
  {
    if |b| == 0 {
      assert a + b == a;
    } else {
      var init := b[..|b| - 1];
      OutcomesAppend(a, init);
      assert (a + b)[..|a + b| - 1] == a + init;
    }
  }

  /** Counting the first `n` records of a list adds their wins, losses and
      profit to the tally. */
  lemma {:induction false} TallyFromOutcomes(acc: Tally, list: seq<Position>, n: nat)
    requires n <= |list|
    ensures TallyFrom(acc, list, n).wins == acc.wins + Wins(list[..n])
    ensures TallyFrom(acc, list, n).losses == acc.losses + Losses(list[..n])
    ensures TallyFrom(acc, list, n).profit == acc.profit + ClosedProfit(list[..n])
  {
    if n > 0 {
      TallyFromOutcomes(acc, list, n - 1);
      assert list[..n][..n - 1] == list[..n - 1];
    }
  }

  /** The tally's wins, losses and profit are those of the queried symbols'
      records counted directly. */
  lemma {:induction false} TallyOutcomes(syms: seq<string>, n: nat, m: map<string, seq<Position>>)
    requires n <= |syms|
    ensures TallyAcross(syms, n, m).wins == Wins(Records(syms, n, m))
    ensures TallyAcross(syms, n, m).losses == Losses(Records(syms, n, m))
    ensures TallyAcross(syms, n, m).profit == ClosedProfit(Records(syms, n, m))
  {
    if n > 0 {
      TallyOutcomes(syms, n - 1, m);
      var list := ListOf(m, syms[n - 1]);
      TallyFromOutcomes(TallyAcross(syms, n - 1, m), list, |list|);
      assert list[..|list|] == list;
      OutcomesAppend(Records(syms, n - 1, m), list);
    }
  }

  /** `get_statistics` over the queried symbols: the wins are the closed
      records with a positive profit, the losses those with a profit of at most
      0, the total profit their sum, and the win rate the wins per closed
      record in percent. */
  lemma StatisticsOutcomes(syms: seq<string>, m: map<string, seq<Position>>)
    ensures var s := StatsOf(TallyAcross(syms, |syms|, m));
      var all := Records(syms, |syms|, m);
      && s.winTrades == Wins(all) && s.lossTrades == Losses(all) && s.totalProfit == ClosedProfit(all)
      && (s.closedTrades > 0 ==> s.winRate == Wins(all) as real / s.closedTrades as real * 100.0)
  {
    TallyOutcomes(syms, |syms|, m);
  }

  /** Every record is counted once, as open or as closed, and no closed
      record is both a win and a loss. */
  lemma {:induction false} TallyBalanced(syms: seq<string>, n: nat, m: map<string, seq<Position>>)
    requires n <= |syms|
    ensures Balanced(TallyAcross(syms, n, m))
  {
    if n > 0 {
      TallyBalanced(syms, n - 1, m);
    }
  }

  /** Counting a list adds its open records to the open count. */
  lemma {:induction false} TallyFromCountsOpen(acc: Tally, list: seq<Position>, n: nat)
    requires n <= |list|
    ensures TallyFrom(acc, list, n).open == acc.open + |OpenOf(list[..n])|
  {
    if n > 0 {
      TallyFromCountsOpen(acc, list, n - 1);
      assert list[..n][..n - 1] == list[..n - 1];
    }
  }

  /** The open count `get_statistics` reports is the number of records
      `get_open_positions` returns for the same query. */
  lemma {:induction false} OpenCountsAgree(syms: seq<string>, n: nat, m: map<string, seq<Position>>)
    requires n <= |syms|
    ensures TallyAcross(syms, n, m).open == |OpenAcross(syms, n, m)|
  {
    if n > 0 {
      OpenCountsAgree(syms, n - 1, m);
      var list := ListOf(m, syms[n - 1]);
      TallyFromCountsOpen(TallyAcross(syms, n - 1, m), list, |list|);
      assert list[..|list|] == list;
    }
  }

  datatype Statistics = Statistics(
    totalTrades: nat,
    closedTrades: nat,
    openTrades: nat,
    winTrades: nat,
    lossTrades: nat,
    winRate: real,
    totalProfit: real,
    avgProfitPerTrade: real)

  lemma PercentBound(part: nat, whole: nat)
    requires whole > 0
    ensures part <= whole ==> 0.0 <= part as real / whole as real * 100.0 <= 100.0
  {
    if part <= whole {
      UnitRatio(part as real, whole as real);
    }
  }

  /** The statistics reported for a tally: its counts and profit as they are,
      the win rate as wins per closed record in percent, and rates of 0
      without closed records. */
  function StatsOf(t: Tally): (s: Statistics)
    ensures s.totalTrades == t.total && s.openTrades == t.open && s.closedTrades == t.closed
    ensures s.winTrades == t.wins && s.lossTrades == t.losses && s.totalProfit == t.profit
    ensures t.closed > 0 ==> s.winRate == t.wins as real / t.closed as real * 100.0
    ensures Balanced(t) ==> s.totalTrades == s.openTrades + s.closedTrades
    ensures Balanced(t) ==> s.winTrades + s.lossTrades <= s.closedTrades
    ensures Balanced(t) ==> 0.0 <= s.winRate <= 100.0
    ensures s.closedTrades == 0 ==> s.winRate == 0.0 && s.avgProfitPerTrade == 0.0
    ensures s.closedTrades > 0 ==> s.avgProfitPerTrade == s.totalProfit / s.closedTrades as real
  {
    if t.closed > 0 then
      PercentBound(t.wins, t.closed);
      Statistics(t.total, t.closed, t.open, t.wins, t.losses, t.wins as real / t.closed as real * 100.0,
                 t.profit, t.profit / t.closed as real)
    else
      Statistics(t.total, t.closed, t.open, t.wins, t.losses, 0.0, t.profit, 0.0)
  }

  /** `get_statistics` is consistent: every record is open or closed, wins and
      losses are among the closed records, the win rate is a percentage, and
      the open count is what `get_open_positions` returns for the same
      symbols. */
  lemma StatisticsConsistent(syms: seq<string>, m: map<string, seq<Position>>)
    ensures var s := StatsOf(TallyAcross(syms, |syms|, m));
      && s.totalTrades == s.openTrades + s.closedTrades
      && s.winTrades + s.lossTrades <= s.closedTrades
      && 0.0 <= s.winRate <= 100.0
      && s.openTrades == |OpenAcross(syms, |syms|, m)|
  {
    TallyBalanced(syms, |syms|, m);
    OpenCountsAgree(syms, |syms|, m);
  }

  class PositionManager {
    var maxHoldingDays: int
    /** The ledger's symbols in insertion order (the dictionary's key order). */
    var symbols: seq<string>
    var positions: map<string, seq<Position>>

    ghost predicate Valid()
      reads this
    {
      ValidStore(Store(symbols, positions))
    }

    /** A missing or unreadable store leaves the ledger empty. */
    constructor (maxHoldingDays: int, store: Option<Store>)
      requires store.Some? ==> ValidStore(store.value)
      ensures Valid() && this.maxHoldingDays == maxHoldingDays
      ensures store.None? ==> symbols == [] && positions == map[]
      ensures store.Some? ==> symbols == store.value.order && positions == store.value.lists
    {
      this.maxHoldingDays := maxHoldingDays;
      if store.Some? {
        symbols := store.value.order;
        positions := store.value.lists;
      } else {
        symbols := [];
        positions := map[];
      }
    }

    /** `open_position`: appends one open record to the symbol's list, creating
        the list when the symbol is new; no other list changes. */
    method OpenPosition(symbol: string, signalType: string, entryPrice: real, strength: real, level: string,
                        stamp: string, now: int) returns (id: string)
      requires Valid()
      modifies this
      ensures Valid() && maxHoldingDays == old(maxHoldingDays)
      ensures id == symbol + "_" + stamp
      ensures positions == old(positions)[symbol :=
        ListOf(old(positions), symbol) + [Opened(id, symbol, signalType, entryPrice, strength, level, now)]]
      ensures symbols == if symbol in old(positions) then old(symbols) else old(symbols) + [symbol]
    {
      id := symbol + "_" + stamp;
      var p := Opened(id, symbol, signalType, entryPrice, strength, level, now);
      if symbol !in positions {
        positions := positions[symbol := []];
        symbols := symbols + [symbol];
      }
      positions := positions[symbol := positions[symbol] + [p]];
    }

    /** `close_position`: settles the open records the call selects, in list
        order, and returns them; an unknown symbol changes nothing. */
    method ClosePosition(symbol: string, exitPrice: real, id: Option<string>, forced: bool, now: int)
      returns (closed: seq<Position>)
      requires Valid() && (symbol in positions ==> SelectedPriced(positions[symbol], id))
      modifies this
      ensures Valid() && symbols == old(symbols) && maxHoldingDays == old(maxHoldingDays)
      ensures symbol !in old(positions) ==> closed == [] && positions == old(positions)
      ensures symbol in old(positions) ==>
        && positions == old(positions)[symbol := CloseList(old(positions)[symbol], id, exitPrice, now, forced)]
        && closed == ClosedOf(old(positions)[symbol], id, exitPrice, now, forced)
    {
      closed := [];
      if symbol in positions {
        var updated;
        updated, closed := CloseRecords(positions[symbol], id, exitPrice, now, forced);
        positions := positions[symbol := updated];
      }
    }

    /** `check_forced_close`: visits the symbol's records in order and closes,
        by id and as forced, each one still open whose age at `now` has reached
        `maxHoldingDays` whole days. */
    method CheckForcedClose(symbol: string, price: real, now: int) returns (forced: seq<Position>)
      requires Valid() && (symbol in positions ==> SweepPriced(positions[symbol], maxHoldingDays, now))
      modifies this
      ensures Valid() && symbols == old(symbols) && maxHoldingDays == old(maxHoldingDays)
      ensures symbol !in old(positions) ==> forced == [] && positions == old(positions)
      ensures symbol in old(positions) ==>
        var r := SweepOf(old(positions)[symbol], |old(positions)[symbol]|, maxHoldingDays, price, now);
        positions == old(positions)[symbol := r.list] && forced == r.closed
    {
      forced := [];
      if symbol in positions {
        var swept;
        swept, forced := SweepRecords(positions[symbol], maxHoldingDays, price, now);
        positions := positions[symbol := swept];
      }
    }

    /** `get_open_positions`: the open records of the given symbol, or of every
        symbol in insertion order. */
    method GetOpenPositions(symbol: Option<string>) returns (open: seq<Position>)
      ensures var syms := Queried(symbol, symbols); open == OpenAcross(syms, |syms|, positions)
    {
      open := CollectOpen(Queried(symbol, symbols), positions);
    }

    /** `get_statistics` over the given symbol, or over every symbol. */
    method GetStatistics(symbol: Option<string>) returns (stats: Statistics)
      ensures var syms := Queried(symbol, symbols); stats == StatsOf(TallyAcross(syms, |syms|, positions))
    {
      var tally := CountSymbols(Queried(symbol, symbols), positions);
      stats := StatsOf(tally);
    }
  }

  /** One more record of the list settles as `ClosedOf` says. */
  lemma ClosedOfStep(list: seq<Position>, i: int, id: Option<string>, exit: real, now: int, forced: bool)
    requires 0 <= i < |list| && SelectedPriced(list, id)
    ensures SelectedPriced(list[..i], id) && SelectedPriced(list[..i + 1], id)
    ensures ClosedOf(list[..i + 1], id, exit, now, forced)
         == ClosedOf(list[..i], id, exit, now, forced)
            + (if Selects(list[i], id) then [Closing(list[i], exit, now, forced)] else [])
  {
    assert list[..i + 1][..i] == list[..i];
  }

  /** The loop of `close_position` over one symbol's records: each selected
      record is settled in place and collected. */
  method CloseRecords(list: seq<Position>, id: Option<string>, exitPrice: real, now: int, forced: bool)
    returns (updated: seq<Position>, closed: seq<Position>)
    requires SelectedPriced(list, id)
    ensures updated == CloseList(list, id, exitPrice, now, forced)
    ensures closed == ClosedOf(list, id, exitPrice, now, forced)
  {
    updated := list;
    closed := [];
    var i := 0;
    while i < |list|
      invariant 0 <= i <= |list| && |updated| == |list|
      invariant forall j :: 0 <= j < i ==>
        updated[j] == if Selects(list[j], id) then Closing(list[j], exitPrice, now, forced) else list[j]
      invariant forall j :: i <= j < |list| ==> updated[j] == list[j]
      invariant SelectedPriced(list[..i], id) && closed == ClosedOf(list[..i], id, exitPrice, now, forced)
    {
      ClosedOfStep(list, i, id, exitPrice, now, forced);
      var p := list[i];
      if Selects(p, id) {
        var q := Closing(p, exitPrice, now, forced);
        updated := updated[i := q];
        closed := closed + [q];
      }
      i := i + 1;
    }
    assert list[..|list|] == list;
  }

  /** The loop of `check_forced_close` over one symbol's records: the record
      at each index, as the earlier closes left it, is closed by its id when
      it is still open and aged; this is what `close_position` with that id
      does to the list. */
  method SweepRecords(list: seq<Position>, maxDays: int, price: real, now: int)
    returns (swept: seq<Position>, forced: seq<Position>)
    requires SweepPriced(list, maxDays, now)
    ensures swept == SweepOf(list, |list|, maxDays, price, now).list
    ensures forced == SweepOf(list, |list|, maxDays, price, now).closed
  {
    swept := list;
    forced := [];
    var i := 0;
    while i < |list|
      invariant 0 <= i <= |list|
      invariant swept == SweepOf(list, i, maxDays, price, now).list
      invariant forced == SweepOf(list, i, maxDays, price, now).closed
    {
      var p := swept[i];
      if p.status == Open && WholeDays(p.entryTime, now) >= maxDays {
        var closed;
        swept, closed := CloseRecords(swept, Some(p.id), price, now, true);
        forced := forced + closed;
      }
      i := i + 1;
    }
  }

  /** The loops of `get_open_positions`: the open records of each visited
      symbol that has a list. */
  method CollectOpen(syms: seq<string>, m: map<string, seq<Position>>) returns (open: seq<Position>)
    ensures open == OpenAcross(syms, |syms|, m)
  {
    open := [];
    var k := 0;
    while k < |syms|
      invariant 0 <= k <= |syms| && open == OpenAcross(syms, k, m)
    {
      assert OpenAcross(syms, k + 1, m) == open + OpenOf(ListOf(m, syms[k]));
      if syms[k] in m {
        var more := OpenRecords(m[syms[k]]);
        open := open + more;
      } else {
        assert open + OpenOf(ListOf(m, syms[k])) == open;
      }
      k := k + 1;
    }
  }

  method OpenRecords(list: seq<Position>) returns (open: seq<Position>)
    ensures open == OpenOf(list)
  {
    open := [];
    var j := 0;
    while j < |list|
      invariant 0 <= j <= |list| && open == OpenOf(list[..j])
    {
      assert list[..j + 1][..j] == list[..j];
      if list[j].status == Open {
        open := open + [list[j]];
      }
      j := j + 1;
    }
    assert list[..|list|] == list;
  }

  /** The outer loop of `get_statistics`: every record of every visited
      symbol counted. */
  method CountSymbols(syms: seq<string>, m: map<string, seq<Position>>) returns (tally: Tally)
    ensures tally == TallyAcross(syms, |syms|, m)
  {
    tally := Tally(0, 0, 0, 0, 0, 0.0);
    var k := 0;
    while k < |syms|
      invariant 0 <= k <= |syms| && tally == TallyAcross(syms, k, m)
    {
      tally := CountAll(tally, ListOf(m, syms[k]));
      k := k + 1;
    }
  }

  /** The inner loop of `get_statistics`: `acc` with each record of `list`
      counted in. */
  method CountAll(acc: Tally, list: seq<Position>) returns (t: Tally)
    ensures t == TallyFrom(acc, list, |list|)
  {
    t := acc;
    var j := 0;
    while j < |list|
      invariant 0 <= j <= |list| && t == TallyFrom(acc, list, j)
    {
      t := Count(t, list[j]);
      j := j + 1;
    }
  }

  /** The closing of a long AR/USDT position opened at 5.50: at 5.60 it gains
      0.10, or 20/11 percent; at 5.05 it loses 0.45, or 90/11 percent. */
  lemma LongCloseExample(p: Position, now: int)
    requires p.signalType == LongSide && p.entryPrice == 5.5 && p.status == Open
    ensures Closing(p, 5.6, now, false).profitLoss == Some(0.1)
    ensures Closing(p, 5.6, now, false).profitLossPct == Some(20.0 / 11.0)
    ensures Closing(p, 5.05, now, false).profitLoss == Some(-0.45)
    ensures Closing(p, 5.05, now, false).profitLossPct == Some(-90.0 / 11.0)
  {
  }
}
