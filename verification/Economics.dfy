/** Usage accounting as operations on finite tables: captures, model prices and daily usage
    rows. Money is exact. The calendar day of a capture without a start time is the day on
    which it is accounted, a parameter here. */
module Economics {
  import opened Wrappers

  datatype Capture = Capture(
    model: Option<string>, inputTokens: Option<int>, outputTokens: Option<int>, cacheReadTokens: Option<int>,
    cacheCreationTokens: Option<int>, thinkingTokens: Option<int>, usageMissing: bool, startedOn: Option<string>, accounted: bool)

  datatype Price = Price(input: real, output: real, cacheRead: real, known: bool)

  datatype Row = Row(
    requests: int, inputTokens: int, outputTokens: int, cacheReadTokens: int, cacheCreationTokens: int, thinkingTokens: int,
    costInput: real, costOutput: real, costCacheRead: real, costCacheCreation: real, costTotal: real, known: bool)

  datatype Key = Key(date: string, model: string)

  datatype Db = Db(captures: map<int, Capture>, pricing: map<string, Price>, daily: map<Key, Row>)

  function OrZero(v: Option<int>): int { if v.Some? then v.value else 0 }

  function Cost(tokens: int, perMillion: real): real { tokens as real / 1000000.0 * perMillion }

  // ------------------------------------------------------------ one capture

  /** A capture that carries usage of a named model. */
  predicate Counts(c: Capture) { c.model.Some? && c.model.value != "" && !c.usageMissing }

  function KeyOf(c: Capture, today: string): Key
    requires c.model.Some?
  {
    Key(if c.startedOn.Some? then c.startedOn.value else today, c.model.value)
  }

  /** Prices of a model; a model without a row costs nothing and is not known. */
  function PriceOf(pricing: map<string, Price>, model: string): Price {
    if model in pricing then pricing[model] else Price(0.0, 0.0, 0.0, false)
  }

  /** What a capture adds to its day at a price; cache creation is billed at the input rate. */
  function Contribution(c: Capture, p: Price): Row {
    var costInput, costOutput := Cost(OrZero(c.inputTokens), p.input), Cost(OrZero(c.outputTokens), p.output);
    var costRead, costCreation := Cost(OrZero(c.cacheReadTokens), p.cacheRead), Cost(OrZero(c.cacheCreationTokens), p.input);
    Row(1, OrZero(c.inputTokens), OrZero(c.outputTokens), OrZero(c.cacheReadTokens), OrZero(c.cacheCreationTokens),
        OrZero(c.thinkingTokens), costInput, costOutput, costRead, costCreation,
        costInput + costOutput + costRead + costCreation, p.known)
  }

  /** Accumulation on conflict; the flag is the newcomer's. */
  function Add(a: Row, b: Row): Row {
    Row(a.requests + b.requests, a.inputTokens + b.inputTokens, a.outputTokens + b.outputTokens,
        a.cacheReadTokens + b.cacheReadTokens, a.cacheCreationTokens + b.cacheCreationTokens, a.thinkingTokens + b.thinkingTokens,
        a.costInput + b.costInput, a.costOutput + b.costOutput, a.costCacheRead + b.costCacheRead,
        a.costCacheCreation + b.costCacheCreation, a.costTotal + b.costTotal, b.known)
  }

  function Upsert(daily: map<Key, Row>, k: Key, r: Row): map<Key, Row> {
    daily[k := if k in daily then Add(daily[k], r) else r]
  }

  /** The row update one capture causes, if it counts at all. */
  function Book(daily: map<Key, Row>, c: Capture, pricing: map<string, Price>, today: string): map<Key, Row> {
    if Counts(c) then Upsert(daily, KeyOf(c, today), Contribution(c, PriceOf(pricing, c.model.value))) else daily
  }

  predicate Open(db: Db, id: int) { id in db.captures && !db.captures[id].accounted }

  function AccountOne(db: Db, id: int, today: string): Db {
    if !Open(db, id) then db
    else db.(daily := Book(db.daily, db.captures[id], db.pricing, today),
             captures := db.captures[id := db.captures[id].(accounted := true)])
  }

  function AccountEach(db: Db, ids: seq<int>, today: string): Db {
    if ids == [] then db else AccountOne(AccountEach(db, ids[..|ids| - 1], today), ids[|ids| - 1], today)
  }

  // ------------------------------------------------------------ the batch

  /** The rows a store may return for an id list: each open capture once, in any order. */
  ghost predicate Selects(db: Db, ids: seq<int>, rows: seq<int>) {
    && NoRepeats(rows)
    && (forall id :: id in rows <==> id in ids && Open(db, id))
  }

  function BookId(db: Db, daily: map<Key, Row>, id: int, today: string): map<Key, Row> {
    if id in db.captures then Book(daily, db.captures[id], db.pricing, today) else daily
  }

  function BookAll(db: Db, rows: seq<int>, today: string): map<Key, Row> {
    if rows == [] then db.daily else BookId(db, BookAll(db, rows[..|rows| - 1], today), rows[|rows| - 1], today)
  }

  function Marked(captures: map<int, Capture>, rows: seq<int>): map<int, Capture> {
    map id | id in captures :: if id in rows then captures[id].(accounted := true) else captures[id]
  }

  function AccountBatch(db: Db, rows: seq<int>, today: string): Db {
    db.(daily := BookAll(db, rows, today), captures := Marked(db.captures, rows))
  }

  // ------------------------------------------------------------ batch equals fold

  /** Two bookings commute: rows add up, and one model has one price flag. */
  lemma BookCommutes(daily: map<Key, Row>, c: Capture, d: Capture, pricing: map<string, Price>, today: string)
    ensures Book(Book(daily, c, pricing, today), d, pricing, today) == Book(Book(daily, d, pricing, today), c, pricing, today)
  {
    if Counts(c) && Counts(d) {
      var k, l := KeyOf(c, today), KeyOf(d, today);
      var x, y := Contribution(c, PriceOf(pricing, c.model.value)), Contribution(d, PriceOf(pricing, d.model.value));
      if k == l { AddCommutes(daily, k, x, y); }
    }
  }

  lemma AddCommutes(daily: map<Key, Row>, k: Key, x: Row, y: Row)
    requires x.known == y.known
    ensures Upsert(Upsert(daily, k, x), k, y) == Upsert(Upsert(daily, k, y), k, x)
  {
  }

  /** A booking in the middle can be made last. */
  lemma {:induction false} BookLast(db: Db, a: seq<int>, x: int, b: seq<int>, today: string)
    ensures BookAll(db, a + [x] + b, today) == BookId(db, BookAll(db, a + b, today), x, today)
    decreases |b|
  {
    if b == [] {
      assert a + [x] + b == a + [x] && (a + [x])[..|a|] == a && a + b == a;
    } else {
      var init, y := b[..|b| - 1], b[|b| - 1];
      assert (a + [x] + b)[..|a + [x] + b| - 1] == a + [x] + init;
      assert (a + b)[..|a + b| - 1] == a + init;
      BookLast(db, a, x, init, today);
      if x in db.captures && y in db.captures {
        BookCommutes(BookAll(db, a + init, today), db.captures[x], db.captures[y], db.pricing, today);
      }
    }
  }

  ghost predicate NoRepeats(s: seq<int>) {
    forall i, j :: 0 <= i < j < |s| ==> s[i] != s[j]
  }

  ghost function Members(s: seq<int>): set<int> { set id | id in s }

  lemma NonEmptyMembers(s: seq<int>)
    ensures s != [] ==> Members(s) != {}
  {
    if s != [] { assert s[0] in Members(s); }
  }

  /** The order in which the store returns the rows does not matter. */
  lemma {:induction false} OrderIsIrrelevant(db: Db, a: seq<int>, b: seq<int>, today: string)
    requires NoRepeats(a) && NoRepeats(b) && Members(a) == Members(b)
    ensures BookAll(db, a, today) == BookAll(db, b, today)
    decreases |a|
  {
    if a == [] {
      NonEmptyMembers(b);
    } else {
      var init, x := a[..|a| - 1], a[|a| - 1];
      assert x in Members(a);
      var i :| 0 <= i < |b| && b[i] == x;
      assert b == b[..i] + [x] + b[i + 1..];
      RemoveBoth(a, b, i);
      BookLast(db, b[..i], x, b[i + 1..], today);
      OrderIsIrrelevant(db, init, b[..i] + b[i + 1..], today);
    }
  }

  lemma RemoveBoth(a: seq<int>, b: seq<int>, i: nat)
    requires a != [] && NoRepeats(a) && NoRepeats(b) && Members(a) == Members(b)
    requires i < |b| && b[i] == a[|a| - 1]
    ensures NoRepeats(a[..|a| - 1]) && NoRepeats(b[..i] + b[i + 1..])
    ensures Members(a[..|a| - 1]) == Members(b[..i] + b[i + 1..])
  {
    var init, x, rest := a[..|a| - 1], a[|a| - 1], b[..i] + b[i + 1..];
    assert forall n :: 0 <= n < |rest| ==> rest[n] == b[if n < i then n else n + 1];
    assert a == init + [x] && b == b[..i] + [x] + b[i + 1..];
    assert Members(a) == Members(init) + {x} && x !in Members(init);
    assert Members(b) == Members(rest) + {x} && x !in Members(rest);
  }

  /** The ids a one-by-one accounting really accounts, each at its first occurrence. */
  ghost function Firsts(db: Db, ids: seq<int>): seq<int> {
    if ids == [] then []
    else
      var init, x := Firsts(db, ids[..|ids| - 1]), ids[|ids| - 1];
      if Open(db, x) && x !in init then init + [x] else init
  }

  lemma {:induction false} FirstsSelect(db: Db, ids: seq<int>)
    ensures NoRepeats(Firsts(db, ids))
    ensures forall id :: id in Firsts(db, ids) <==> id in ids && Open(db, id)
  {
    if ids != [] {
      FirstsSelect(db, ids[..|ids| - 1]);
      assert ids == ids[..|ids| - 1] + [ids[|ids| - 1]];
    }
  }

  lemma {:induction false} EachIsBatchOfFirsts(db: Db, ids: seq<int>, today: string)
    ensures AccountEach(db, ids, today) == AccountBatch(db, Firsts(db, ids), today)
  {
    FirstsSelect(db, ids);
    if ids == [] {
      assert Marked(db.captures, []) == db.captures;
    } else {
      var init, x := ids[..|ids| - 1], ids[|ids| - 1];
      EachIsBatchOfFirsts(db, init, today);
      FirstsSelect(db, init);
      var done := Firsts(db, init);
      var mid := AccountBatch(db, done, today);
      if Open(db, x) && x !in done {
        assert (done + [x])[..|done|] == done;
        assert Marked(db.captures, done + [x]) == mid.captures[x := db.captures[x].(accounted := true)];
      }
    }
  }

  /** The batch, on any id list with duplicates in any order, and whatever order the store
      returns the open captures in, leaves the same tables as accounting them one by one. */
  lemma BatchEqualsEach(db: Db, ids: seq<int>, rows: seq<int>, today: string)
    requires Selects(db, ids, rows)
    ensures AccountBatch(db, rows, today) == AccountEach(db, ids, today)
  {
    EachIsBatchOfFirsts(db, ids, today);
    FirstsSelect(db, ids);
    forall id ensures id in Members(Firsts(db, ids)) <==> id in Members(rows) {
      assert id in rows <==> id in ids && Open(db, id);
    }
    assert Members(Firsts(db, ids)) == Members(rows);
    OrderIsIrrelevant(db, Firsts(db, ids), rows, today);
    assert Marked(db.captures, Firsts(db, ids)) == Marked(db.captures, rows);
  }

  // ------------------------------------------------------------ pricing sync

  datatype Model = Model(id: string, pricing: Option<(real, real)>)

  function Round(x: real): int { (x + 0.5).Floor }

  function EstimatedCacheRead(input: real): real { Round(input * 0.186 * 1000.0) as real / 1000.0 }

  function SyncOne(pricing: map<string, Price>, m: Model): map<string, Price> {
    if m.pricing.None? then pricing
    else
      var (input, output) := m.pricing.value;
      var estimate := EstimatedCacheRead(input);
      if m.id in pricing then
        var current := pricing[m.id];
        var offered := if current.cacheRead > 0.0 then current.cacheRead else estimate;
        pricing[m.id := Price(input, output, if !current.known || current.cacheRead == 0.0 then offered else current.cacheRead, true)]
      else pricing[m.id := Price(input, output, estimate, true)]
  }

  function SyncPrices(pricing: map<string, Price>, models: seq<Model>): map<string, Price> {
    if models == [] then pricing else SyncOne(SyncPrices(pricing, models[..|models| - 1]), models[|models| - 1])
  }

  /** A whole row recomputed at one price, and known from then on. */
  function Reprice(r: Row, p: Price): Row {
    var costInput, costOutput := Cost(r.inputTokens, p.input), Cost(r.outputTokens, p.output);
    var costRead, costCreation := Cost(r.cacheReadTokens, p.cacheRead), Cost(r.cacheCreationTokens, p.input);
    r.(costInput := costInput, costOutput := costOutput, costCacheRead := costRead, costCacheCreation := costCreation,
       costTotal := costInput + costOutput + costRead + costCreation, known := true)
  }

  function BackfillRow(k: Key, r: Row, pricing: map<string, Price>): Row {
    if !r.known && k.model in pricing then Reprice(r, pricing[k.model]) else r
  }

  function Backfill(daily: map<Key, Row>, pricing: map<string, Price>): map<Key, Row> {
    map k | k in daily :: BackfillRow(k, daily[k], pricing)
  }

  /** The rows a backfill concerns. */
  function Unpriced(daily: map<Key, Row>, pricing: map<string, Price>): set<Key> {
    set k | k in daily && !daily[k].known && k.model in pricing
  }

  /** How many of the models come with a price. */
  function Priced(models: seq<Model>): nat {
    if models == [] then 0 else Priced(models[..|models| - 1]) + (if models[|models| - 1].pricing.Some? then 1 else 0)
  }

  function Sync(db: Db, models: seq<Model>): Db {
    var pricing := SyncPrices(db.pricing, models);
    db.(pricing := pricing, daily := Backfill(db.daily, pricing))
  }

  // ------------------------------------------------------------ the program's loops

  class Ledger {
    var captures: map<int, Capture>
    var pricing: map<string, Price>
    var daily: map<Key, Row>

    ghost function State(): Db
      reads this
    {
      Db(captures, pricing, daily)
    }

    constructor (db: Db)
      ensures State() == db
    {
      captures, pricing, daily := db.captures, db.pricing, db.daily;
    }

    method AccountCapture(id: int, today: string)
      modifies this
      ensures State() == AccountOne(old(State()), id, today)
    {
      if id !in captures || captures[id].accounted { return; }
      var c := captures[id];
      if Counts(c) {
        daily := Upsert(daily, KeyOf(c, today), Contribution(c, PriceOf(pricing, c.model.value)));
      }
      captures := captures[id := c.(accounted := true)];
    }

    /** The batch form: `rows` is what the store selected for `ids`. */
    method AccountCaptures(ids: seq<int>, rows: seq<int>, today: string)
      requires Selects(State(), ids, rows)
      modifies this
      ensures State() == AccountEach(old(State()), ids, today)
    {
      ghost var db := State();
      BatchEqualsEach(db, ids, rows, today);
      for n := 0 to |rows|
        invariant captures == db.captures && pricing == db.pricing
        invariant daily == BookAll(db, rows[..n], today)
      {
        assert rows[..n + 1][..n] == rows[..n] && rows[n] in rows;
        var c := captures[rows[n]];
        if Counts(c) {
          daily := Upsert(daily, KeyOf(c, today), Contribution(c, PriceOf(pricing, c.model.value)));
        }
      }
      assert rows[..|rows|] == rows;
      captures := map id | id in captures :: if id in rows then captures[id].(accounted := true) else captures[id];
    }

    method SyncPricing(models: seq<Model>) returns (updated: nat, inserted: nat, backfilled: nat)
      modifies this
      ensures State() == Sync(old(State()), models)
      ensures updated + inserted == Priced(models)
      ensures inserted == |pricing.Keys| - |old(pricing).Keys|
      ensures backfilled == |Unpriced(old(daily), pricing)|
    {
      updated, inserted := 0, 0;
      for n := 0 to |models|
        invariant captures == old(captures) && daily == old(daily)
        invariant pricing == SyncPrices(old(pricing), models[..n])
        invariant updated + inserted == Priced(models[..n])
        invariant inserted == |pricing.Keys| - |old(pricing).Keys|
      {
        assert models[..n + 1][..n] == models[..n];
        if models[n].pricing.Some? {
          if models[n].id in pricing { updated := updated + 1; } else { inserted := inserted + 1; }
        }
        assert models[n].pricing.Some? ==> SyncOne(pricing, models[n]).Keys == pricing.Keys + {models[n].id};
        pricing := SyncOne(pricing, models[n]);
      }
      assert models[..|models|] == models;
      backfilled := BackfillUnpriced();
    }

    /** Reprices, one by one, the rows that were booked without a known price, and counts them. */
    method BackfillUnpriced() returns (n: nat)
      modifies this`daily
      ensures daily == Backfill(old(daily), pricing)
      ensures n == |Unpriced(old(daily), pricing)|
    {
      var todo := Unpriced(daily, pricing);
      n := 0;
      while todo != {}
        invariant n + |todo| == |Unpriced(old(daily), pricing)|
        invariant daily.Keys == old(daily).Keys
        invariant todo <= daily.Keys
        invariant forall k :: k in todo ==> daily[k] == old(daily)[k] && !daily[k].known && k.model in pricing
        invariant forall k :: k in daily.Keys - todo ==> daily[k] == BackfillRow(k, old(daily)[k], pricing)
        decreases |todo|
      {
        var k :| k in todo;
        daily := daily[k := Reprice(daily[k], pricing[k.model])];
        todo := todo - {k};
        n := n + 1;
      }
    }
  }

  // ------------------------------------------------------------ costs add up and freeze

  datatype Op = AccountOp(id: int, today: string) | SyncOp(models: seq<Model>)

  function Apply(db: Db, op: Op): Db {
    match op
    case AccountOp(id, today) => AccountOne(db, id, today)
    case SyncOp(models) => Sync(db, models)
  }

  function Run(db: Db, ops: seq<Op>): Db {
    if ops == [] then db else Apply(Run(db, ops[..|ops| - 1]), ops[|ops| - 1])
  }

  predicate Balanced(r: Row) {
    r.costTotal == r.costInput + r.costOutput + r.costCacheRead + r.costCacheCreation
  }

  /** Totals are the sums of their parts, and every row of a model whose price is known is
      itself marked known. */
  ghost predicate Kept(db: Db) {
    && (forall k :: k in db.daily ==> Balanced(db.daily[k]))
    && (forall k :: k in db.daily && PriceOf(db.pricing, k.model).known ==> db.daily[k].known)
  }

  lemma StepKept(db: Db, op: Op)
    requires Kept(db)
    ensures Kept(Apply(db, op))
  {
  }

  lemma {:induction false} PriceStaysKnown(pricing: map<string, Price>, models: seq<Model>, m: string)
    ensures m in pricing ==> m in SyncPrices(pricing, models)
    ensures PriceOf(pricing, m).known ==> PriceOf(SyncPrices(pricing, models), m).known
  {
    if models != [] { PriceStaysKnown(pricing, models[..|models| - 1], m); }
  }

  lemma {:induction false} KeptOverRuns(db: Db, ops: seq<Op>)
    requires Kept(db)
    ensures Kept(Run(db, ops))
    ensures forall m :: PriceOf(db.pricing, m).known ==> PriceOf(Run(db, ops).pricing, m).known
  {
    if ops != [] {
      var init, op := ops[..|ops| - 1], ops[|ops| - 1];
      KeptOverRuns(db, init);
      StepKept(Run(db, init), op);
      if op.SyncOp? {
        forall m | PriceOf(db.pricing, m).known ensures PriceOf(Run(db, ops).pricing, m).known {
          PriceStaysKnown(Run(db, init).pricing, op.models, m);
        }
      }
    }
  }

  function CostAt(db: Db, k: Key): real { if k in db.daily then db.daily[k].costTotal else 0.0 }

  /** The cost an operation books on a row, at the price of that moment. */
  function Booked(db: Db, op: Op, k: Key): real {
    if op.AccountOp? && Open(db, op.id) && Counts(db.captures[op.id]) && KeyOf(db.captures[op.id], op.today) == k
    then Contribution(db.captures[op.id], PriceOf(db.pricing, k.model)).costTotal else 0.0
  }

  function BookedOver(db: Db, ops: seq<Op>, k: Key): real {
    if ops == [] then 0.0
    else BookedOver(db, ops[..|ops| - 1], k) + Booked(Run(db, ops[..|ops| - 1]), ops[|ops| - 1], k)
  }

  /** Costs freeze: once a model's price is known, the cost of each of its days is what it was
      plus what each later capture cost at the price in force when it was accounted. No sync,
      however prices move, changes what is already recorded. */
  lemma {:induction false} CostsFreeze(db: Db, ops: seq<Op>, k: Key)
    requires Kept(db) && PriceOf(db.pricing, k.model).known
    ensures CostAt(Run(db, ops), k) == CostAt(db, k) + BookedOver(db, ops, k)
  {
    if ops != [] {
      var init, op := ops[..|ops| - 1], ops[|ops| - 1];
      CostsFreeze(db, init, k);
      KeptOverRuns(db, init);
    }
  }

  // ------------------------------------------------------------ usage is counted once

  datatype Usage = Usage(requests: int, input: int, output: int, cacheRead: int, cacheCreation: int, thinking: int)
  {
    function Plus(u: Usage): Usage {
      Usage(requests + u.requests, input + u.input, output + u.output, cacheRead + u.cacheRead,
            cacheCreation + u.cacheCreation, thinking + u.thinking)
    }
  }

  const NOTHING := Usage(0, 0, 0, 0, 0, 0)

  function UsageOf(c: Capture): Usage {
    Usage(1, c.inputTokens.GetOr(0), c.outputTokens.GetOr(0), c.cacheReadTokens.GetOr(0), c.cacheCreationTokens.GetOr(0),
          c.thinkingTokens.GetOr(0))
  }

  function UsageAt(db: Db, k: Key): Usage {
    if k !in db.daily then NOTHING
    else
      var r := db.daily[k];
      Usage(r.requests, r.inputTokens, r.outputTokens, r.cacheReadTokens, r.cacheCreationTokens, r.thinkingTokens)
  }

  ghost predicate Mentioned(ops: seq<Op>, id: int) {
    exists op :: op in ops && op.AccountOp? && op.id == id
  }

  /** The capture has usage of a named model, and row `k` is that model's on the day it started,
      or on the day it is accounted if no start is recorded. */
  predicate DueOn(c: Capture, today: string, k: Key) {
    && !c.usageMissing && c.model == Some(k.model) && k.model != ""
    && k.date == c.startedOn.GetOr(today)
  }

  /** What the operations owe row `k`, told from the first state alone: every open capture with
      usage that they name, once, on the day of its first mention. */
  ghost function UsageDue(db: Db, ops: seq<Op>, k: Key): Usage {
    if ops == [] then NOTHING
    else
      var init, op := ops[..|ops| - 1], ops[|ops| - 1];
      if op.AccountOp? && op.id in db.captures && !db.captures[op.id].accounted && !Mentioned(init, op.id)
         && DueOn(db.captures[op.id], op.today, k)
      then UsageDue(db, init, k).Plus(UsageOf(db.captures[op.id]))
      else UsageDue(db, init, k)
  }

  lemma {:induction false} CapturesAfter(db: Db, ops: seq<Op>, id: int)
    ensures id in Run(db, ops).captures <==> id in db.captures
    ensures id in db.captures ==>
              Run(db, ops).captures[id] == db.captures[id].(accounted := db.captures[id].accounted || Mentioned(ops, id))
  {
    if ops != [] {
      var init, op := ops[..|ops| - 1], ops[|ops| - 1];
      CapturesAfter(db, init, id);
      assert ops == init + [op];
      assert Mentioned(ops, id) <==> Mentioned(init, id) || (op.AccountOp? && op.id == id);
    }
  }

  /** What one operation adds to row `k`. */
  function UsageStep(db: Db, op: Op, k: Key): Usage {
    if op.AccountOp? && Open(db, op.id) && Counts(db.captures[op.id]) && KeyOf(db.captures[op.id], op.today) == k
    then UsageOf(db.captures[op.id]) else NOTHING
  }

  lemma SyncMovesNoUsage(db: Db, models: seq<Model>, k: Key)
    ensures UsageAt(Sync(db, models), k) == UsageAt(db, k)
  {
    if k in db.daily {
      assert Sync(db, models).daily[k] == BackfillRow(k, db.daily[k], SyncPrices(db.pricing, models));
    }
  }

  lemma StepAddsUsage(db: Db, op: Op, k: Key)
    ensures UsageAt(Apply(db, op), k) == UsageAt(db, k).Plus(UsageStep(db, op, k))
  {
    if op.SyncOp? { SyncMovesNoUsage(db, op.models, k); }
  }

  /** What an operation adds is what it was due to add: the flags say who was mentioned. */
  lemma StepIsDue(db: Db, init: seq<Op>, op: Op, k: Key)
    ensures UsageDue(db, init + [op], k) == UsageDue(db, init, k).Plus(UsageStep(Run(db, init), op, k))
  {
    assert (init + [op])[..|init|] == init;
    if op.AccountOp? { CapturesAfter(db, init, op.id); }
  }

  lemma PlusAssociates(a: Usage, b: Usage, c: Usage)
    ensures a.Plus(b).Plus(c) == a.Plus(b.Plus(c))
  {
  }

  /** Usage is conserved: over any mix of accounting and syncing, each row has grown by exactly
      the requests and tokens of the captures due on it, each capture once; syncs move none. */
  lemma {:induction false} UsageIsConserved(db: Db, ops: seq<Op>, k: Key)
    ensures UsageAt(Run(db, ops), k) == UsageAt(db, k).Plus(UsageDue(db, ops, k))
  {
    if ops != [] {
      var init, op := ops[..|ops| - 1], ops[|ops| - 1];
      assert ops == init + [op];
      UsageIsConserved(db, init, k);
      StepAddsUsage(Run(db, init), op, k);
      StepIsDue(db, init, op, k);
      PlusAssociates(UsageAt(db, k), UsageDue(db, init, k), UsageStep(Run(db, init), op, k));
    }
  }

  // ------------------------------------------------------------ a late price is a fair price

  lemma CostIsAdditive(a: int, b: int, perMillion: real)
    ensures Cost(a + b, perMillion) == Cost(a, perMillion) + Cost(b, perMillion)
  {
    var x, y := a as real / 1000000.0, b as real / 1000000.0;
    assert (a + b) as real / 1000000.0 == x + y;
    assert (x + y) * perMillion == x * perMillion + y * perMillion;
  }

  /** Repricing a sum of contributions is summing the repriced ones, whatever price they were
      booked at. */
  lemma RepriceAdds(r: Row, c: Capture, booked: Price, p: Price)
    requires p.known
    ensures Reprice(Contribution(c, booked), p) == Contribution(c, p)
    ensures Reprice(Add(r, Contribution(c, booked)), p) == Add(Reprice(r, p), Contribution(c, p))
  {
    CostIsAdditive(r.inputTokens, OrZero(c.inputTokens), p.input);
    CostIsAdditive(r.outputTokens, OrZero(c.outputTokens), p.output);
    CostIsAdditive(r.cacheReadTokens, OrZero(c.cacheReadTokens), p.cacheRead);
    CostIsAdditive(r.cacheCreationTokens, OrZero(c.cacheCreationTokens), p.input);
  }

  /** Row `k` before and after the price became known. */
  ghost predicate Awaiting(unpriced: Db, priced: Db, k: Key, p: Price) {
    && unpriced.captures == priced.captures
    && (k in unpriced.daily <==> k in priced.daily)
    && (k in unpriced.daily ==> !unpriced.daily[k].known && Reprice(unpriced.daily[k], p) == priced.daily[k])
  }

  lemma AccountAwaiting(unpriced: Db, priced: Db, id: int, today: string, k: Key)
    requires Awaiting(unpriced, priced, k, PriceOf(priced.pricing, k.model))
    requires !PriceOf(unpriced.pricing, k.model).known && PriceOf(priced.pricing, k.model).known
    ensures Awaiting(AccountOne(unpriced, id, today), AccountOne(priced, id, today), k, PriceOf(priced.pricing, k.model))
  {
    if Open(unpriced, id) && Counts(unpriced.captures[id]) && KeyOf(unpriced.captures[id], today) == k {
      var c, p := unpriced.captures[id], PriceOf(priced.pricing, k.model);
      var r := if k in unpriced.daily then unpriced.daily[k] else Contribution(c, p);
      RepriceAdds(r, c, PriceOf(unpriced.pricing, k.model), p);
    }
  }

  ghost predicate OnlyAccounting(ops: seq<Op>) {
    forall op :: op in ops ==> op.AccountOp?
  }

  lemma {:induction false} RunAwaiting(unpriced: Db, priced: Db, ops: seq<Op>, k: Key)
    requires OnlyAccounting(ops)
    requires Awaiting(unpriced, priced, k, PriceOf(priced.pricing, k.model))
    requires !PriceOf(unpriced.pricing, k.model).known && PriceOf(priced.pricing, k.model).known
    ensures Run(unpriced, ops).pricing == unpriced.pricing && Run(priced, ops).pricing == priced.pricing
    ensures Awaiting(Run(unpriced, ops), Run(priced, ops), k, PriceOf(priced.pricing, k.model))
  {
    if ops != [] {
      var init, op := ops[..|ops| - 1], ops[|ops| - 1];
      assert op in ops;
      RunAwaiting(unpriced, priced, init, k);
      AccountAwaiting(Run(unpriced, init), Run(priced, init), op.id, op.today, k);
    }
  }

  /** A price that arrives late costs the same: captures accounted while the model's price was
      unknown and backfilled by the sync that learns it leave the row exactly as if that sync
      had come before all of them. */
  lemma LatePriceCostsTheSame(db: Db, ops: seq<Op>, models: seq<Model>, k: Key)
    requires OnlyAccounting(ops)
    requires !PriceOf(db.pricing, k.model).known && PriceOf(SyncPrices(db.pricing, models), k.model).known
    requires k in db.daily ==> !db.daily[k].known
    ensures var late, early := Sync(Run(db, ops), models), Run(Sync(db, models), ops);
            && late.captures == early.captures && late.pricing == early.pricing
            && (k in late.daily <==> k in early.daily)
            && (k in late.daily ==> late.daily[k] == early.daily[k])
  {
    RunAwaiting(db, Sync(db, models), ops, k);
  }

  lemma SyncedRow(db: Db, models: seq<Model>, k: Key)
    requires k in db.daily
    ensures Sync(db, models).daily[k] == BackfillRow(k, db.daily[k], SyncPrices(db.pricing, models))
  {
  }

  /** Exactly when the next sync leaves a row alone, whatever it brings: when it is marked known. */
  lemma FrozenIffKnown(db: Db, k: Key)
    requires k in db.daily
    ensures (forall models :: Sync(db, models).daily[k] == db.daily[k]) <==> db.daily[k].known
  {
    if db.daily[k].known {
      forall models ensures Sync(db, models).daily[k] == db.daily[k] {
        SyncedRow(db, models, k);
      }
    } else {
      var models := [Model(k.model, Some((1.0, 1.0)))];
      assert models[..0] == [];
      assert k.model in SyncPrices(db.pricing, models);
      SyncedRow(db, models, k);
    }
  }

  /** Accounting `c` can add to row `k`. */
  predicate Lands(c: Capture, k: Key) {
    Counts(c) && c.model.value == k.model && (c.startedOn.None? || c.startedOn.value == k.date)
  }

  /** The model's price is known, or no open capture can land on the row. */
  ghost predicate Safe(db: Db, k: Key) {
    PriceOf(db.pricing, k.model).known || forall id :: Open(db, id) ==> !Lands(db.captures[id], k)
  }

  ghost predicate KnownRow(db: Db, k: Key) {
    k in db.daily && db.daily[k].known
  }

  lemma StepStaysSafe(db: Db, op: Op, k: Key)
    requires KnownRow(db, k) && Safe(db, k)
    ensures KnownRow(Apply(db, op), k) && Safe(Apply(db, op), k)
    ensures CostAt(Apply(db, op), k) == CostAt(db, k) + Booked(db, op, k)
  {
    match op
    case AccountOp(id, today) =>
      var db' := AccountOne(db, id, today);
      forall x | Open(db', x) ensures Open(db, x) && db'.captures[x] == db.captures[x] {
      }
    case SyncOp(models) =>
      PriceStaysKnown(db.pricing, models, k.model);
      SyncedRow(db, models, k);
  }

  /** A safe row that is marked known stays so over every run, and its cost only grows by what
      later captures cost when they are accounted. */
  lemma {:induction false} SafeRowNeverRecomputed(db: Db, ops: seq<Op>, k: Key)
    requires KnownRow(db, k) && Safe(db, k)
    ensures KnownRow(Run(db, ops), k) && Safe(Run(db, ops), k)
    ensures CostAt(Run(db, ops), k) == CostAt(db, k) + BookedOver(db, ops, k)
  {
    if ops != [] {
      SafeRowNeverRecomputed(db, ops[..|ops| - 1], k);
      StepStaysSafe(Run(db, ops[..|ops| - 1]), ops[|ops| - 1], k);
    }
  }

  /** A row that is not safe is recomputed as a whole: one accounting and the sync that then
      brings a price of the model overwrite all of its recorded cost at that price. */
  lemma UnsafeRowIsRecomputed(db: Db, k: Key, id: int, models: seq<Model>)
    requires KnownRow(db, k) && !PriceOf(db.pricing, k.model).known
    requires Open(db, id) && Lands(db.captures[id], k) && k.model in SyncPrices(db.pricing, models)
    ensures var p := PriceOf(db.pricing, k.model);
            var later := Run(db, [AccountOp(id, k.date), SyncOp(models)]);
            && !KnownRow(Run(db, [AccountOp(id, k.date)]), k)
            && k in later.daily
            && later.daily[k] == Reprice(Add(db.daily[k], Contribution(db.captures[id], p)), SyncPrices(db.pricing, models)[k.model])
  {
    RunTwo(db, AccountOp(id, k.date), SyncOp(models));
    SyncedRow(AccountOne(db, id, k.date), models, k);
  }

  /** Exactly when a row marked known stays known, and so keeps its recorded cost, over every
      run of accountings and syncs: when the model's price is known or no open capture can land
      on the row. */
  lemma StaysKnownIffSafe(db: Db, k: Key)
    requires KnownRow(db, k)
    ensures (forall ops :: KnownRow(Run(db, ops), k)) <==> Safe(db, k)
  {
    if Safe(db, k) {
      forall ops ensures KnownRow(Run(db, ops), k) {
        SafeRowNeverRecomputed(db, ops, k);
      }
    } else {
      var id :| Open(db, id) && Lands(db.captures[id], k);
      var models := [Model(k.model, Some((1.0, 1.0)))];
      assert models[..0] == [];
      assert k.model in SyncPrices(db.pricing, models);
      UnsafeRowIsRecomputed(db, k, id, models);
    }
  }

  lemma {:induction false} UpperBound(s: set<int>) returns (n: int)
    ensures forall x :: x in s ==> x < n
    decreases |s|
  {
    if x :| x in s {
      var m := UpperBound(s - {x});
      n := if m > x then m else x + 1;
      forall y | y in s ensures y < n {
        assert y == x || y in s - {x};
      }
    } else {
      n := 0;
    }
  }

  /** Exactly when a row marked known stays known whatever further captures are stored before
      the run: when the model's price is known (or the row names no model at all, in which
      case nothing ever lands on it). */
  lemma StaysKnownWhateverArrivesIff(db: Db, k: Key)
    requires KnownRow(db, k)
    ensures (forall more: map<int, Capture>, ops :: KnownRow(Run(db.(captures := more + db.captures), ops), k)) <==>
            PriceOf(db.pricing, k.model).known || k.model == ""
  {
    if PriceOf(db.pricing, k.model).known || k.model == "" {
      forall more: map<int, Capture>, ops ensures KnownRow(Run(db.(captures := more + db.captures), ops), k) {
        SafeRowNeverRecomputed(db.(captures := more + db.captures), ops, k);
      }
    } else {
      var id := UpperBound(db.captures.Keys);
      var more := map[id := Capture(Some(k.model), None, None, None, None, None, false, Some(k.date), false)];
      var db' := db.(captures := more + db.captures);
      assert Open(db', id) && Lands(db'.captures[id], k);
      StaysKnownIffSafe(db', k);
    }
  }

  lemma RunTwo(db: Db, a: Op, b: Op)
    ensures Run(db, [a]) == Apply(db, a)
    ensures Run(db, [a, b]) == Apply(Apply(db, a), b)
  {
    assert [a, b][..1] == [a] && [a][..0] == [];
    assert Run(db, [a]) == Apply(Run(db, []), a);
  }

  const SEEDED := Price(1.0, 1.0, 1.0, false)
  const USE := Capture(Some("m"), Some(1000000), None, None, None, None, false, Some("d"), false)
  const DAY := Key("d", "m")

  lemma SeededRowSettles(db: Db)
    requires db == Db(map[1 := USE, 2 := USE], map["m" := SEEDED], map[])
    ensures var settled := Sync(AccountOne(db, 1, "d"), []);
            && settled.captures == map[1 := USE.(accounted := true), 2 := USE] && settled.pricing == db.pricing
            && settled.daily == map[DAY := Row(1, 1000000, 0, 0, 0, 0, 1.0, 0.0, 0.0, 0.0, 1.0, true)]
  {
    var db1 := AccountOne(db, 1, "d");
    assert db1.daily == map[DAY := Contribution(USE, SEEDED)];
    var settled := Sync(db1, []);
    assert settled.daily == map[DAY := Reprice(Contribution(USE, SEEDED), SEEDED)];
  }

  lemma SettledRowThaws(db: Db)
    requires db.captures == map[1 := USE.(accounted := true), 2 := USE] && db.pricing == map["m" := SEEDED]
    requires db.daily == map[DAY := Row(1, 1000000, 0, 0, 0, 0, 1.0, 0.0, 0.0, 0.0, 1.0, true)]
    ensures var later := Sync(AccountOne(db, 2, "d"), [Model("m", Some((5.0, 5.0)))]);
            DAY in later.daily && later.daily[DAY].costTotal == 10.0
  {
    var models := [Model("m", Some((5.0, 5.0)))];
    var db2 := AccountOne(db, 2, "d");
    assert db2.daily[DAY] == Add(db.daily[DAY], Contribution(USE, SEEDED));
    assert models[..0] == [];
    assert SyncPrices(db2.pricing, models)["m"].input == 5.0;
    SyncedRow(db2, models, DAY);
  }

  /** A seeded price is used for costs but not marked known, so a row that a sync has already
      settled becomes unknown again with the next capture, and a later price change then
      rewrites the whole day: 1.00 settled plus one capture at the same seed ends as 10.00. */
  lemma SeededRowThaws()
    ensures var db := Db(map[1 := USE, 2 := USE], map["m" := SEEDED], map[]);
            var settled := Run(db, [AccountOp(1, "d"), SyncOp([])]);
            var later := Run(settled, [AccountOp(2, "d"), SyncOp([Model("m", Some((5.0, 5.0)))])]);
            && DAY in settled.daily && settled.daily[DAY].known && settled.daily[DAY].costTotal == 1.0
            && DAY in later.daily && later.daily[DAY].costTotal == 10.0
  {
    var db := Db(map[1 := USE, 2 := USE], map["m" := SEEDED], map[]);
    RunTwo(db, AccountOp(1, "d"), SyncOp([]));
    SeededRowSettles(db);
    var settled := Sync(AccountOne(db, 1, "d"), []);
    RunTwo(settled, AccountOp(2, "d"), SyncOp([Model("m", Some((5.0, 5.0)))]));
    SettledRowThaws(settled);
  }

  // ------------------------------------------------------------ what a sync stores

  /** The last price the list brings for a model. */
  function LastPriced(models: seq<Model>, id: string): Option<(real, real)> {
    if models == [] then None
    else
      var m := models[|models| - 1];
      if m.id == id && m.pricing.Some? then m.pricing else LastPriced(models[..|models| - 1], id)
  }

  /** After a sync the last price brought for a model is its price, input as input and output as
      output, and known; a model that comes without a price keeps its row or stays without one;
      a positive cache-read price is never overwritten. */
  lemma {:induction false} SyncStoresLastPrice(pricing: map<string, Price>, models: seq<Model>, id: string)
    ensures var after, last := SyncPrices(pricing, models), LastPriced(models, id);
            && (id in after <==> id in pricing || last.Some?)
            && (last.None? && id in pricing ==> after[id] == pricing[id])
            && (last.Some? ==> after[id].input == last.value.0 && after[id].output == last.value.1 && after[id].known)
            && (id in pricing && (pricing[id].cacheRead > 0.0 || (pricing[id].known && pricing[id].cacheRead != 0.0)) ==>
                  after[id].cacheRead == pricing[id].cacheRead)
  {
    if models != [] { SyncStoresLastPrice(pricing, models[..|models| - 1], id); }
  }

  /** A model without a cache-read price gets the estimate from the input price it is listed at. */
  lemma {:induction false} CacheReadIsEstimated(pricing: map<string, Price>, models: seq<Model>, id: string, input: real)
    requires PriceOf(pricing, id).cacheRead == 0.0
    requires forall m :: m in models && m.id == id && m.pricing.Some? ==> m.pricing.value.0 == input
    ensures PriceOf(SyncPrices(pricing, models), id).cacheRead ==
            if LastPriced(models, id).Some? then EstimatedCacheRead(input) else 0.0
  {
    if models != [] {
      assert models[|models| - 1] in models;
      CacheReadIsEstimated(pricing, models[..|models| - 1], id, input);
      SyncStoresLastPrice(pricing, models[..|models| - 1], id);
    }
  }

  /** What a sync reports: how many of the models came with a price, and how many rows it made
      known. */
  lemma {:induction false} PricedIsCount(models: seq<Model>)
    ensures Priced(models) == |set n | 0 <= n < |models| && models[n].pricing.Some?|
  {
    if models != [] {
      var init, last := models[..|models| - 1], |models| - 1;
      PricedIsCount(init);
      var before := set n | 0 <= n < |init| && init[n].pricing.Some?;
      assert (set n | 0 <= n < |models| && models[n].pricing.Some?) == if models[last].pricing.Some? then before + {last} else before;
    }
  }

  lemma UnpricedIsWhatChanges(daily: map<Key, Row>, pricing: map<string, Price>)
    ensures Unpriced(daily, pricing) == set k | k in daily && !daily[k].known && Backfill(daily, pricing)[k].known
    ensures forall k :: k in daily && k !in Unpriced(daily, pricing) ==> Backfill(daily, pricing)[k] == daily[k]
  {
  }

  /** The estimate is 18.6 percent of the input price, to three decimals. */
  lemma EstimateIsClose(input: real)
    ensures -0.0005 <= EstimatedCacheRead(input) - 0.186 * input <= 0.0005
    ensures EstimatedCacheRead(input) * 1000.0 == (EstimatedCacheRead(input) * 1000.0).Floor as real
  {
    var n := Round(input * 0.186 * 1000.0);
    assert EstimatedCacheRead(input) * 1000.0 == n as real;
  }

  // ------------------------------------------------------------ costs are tokens times price

  /** Each part of the cost is its tokens at that price per million; cache creation is billed as
      input. */
  predicate PricedAt(r: Row, p: Price) {
    && r.costInput * 1000000.0 == r.inputTokens as real * p.input
    && r.costOutput * 1000000.0 == r.outputTokens as real * p.output
    && r.costCacheRead * 1000000.0 == r.cacheReadTokens as real * p.cacheRead
    && r.costCacheCreation * 1000000.0 == r.cacheCreationTokens as real * p.input
    && r.costTotal == r.costInput + r.costOutput + r.costCacheRead + r.costCacheCreation
  }

  lemma CostIsPrice(tokens: int, perMillion: real)
    ensures Cost(tokens, perMillion) * 1000000.0 == tokens as real * perMillion
  {
    var t := tokens as real;
    assert t / 1000000.0 * perMillion * 1000000.0 == t * perMillion;
  }

  lemma RepricedIsPriced(r: Row, p: Price)
    ensures PricedAt(Reprice(r, p), p)
  {
    CostIsPrice(r.inputTokens, p.input);
    CostIsPrice(r.outputTokens, p.output);
    CostIsPrice(r.cacheReadTokens, p.cacheRead);
    CostIsPrice(r.cacheCreationTokens, p.input);
  }

  lemma ContributionIsPriced(c: Capture, p: Price)
    ensures PricedAt(Contribution(c, p), p)
  {
    CostIsPrice(OrZero(c.inputTokens), p.input);
    CostIsPrice(OrZero(c.outputTokens), p.output);
    CostIsPrice(OrZero(c.cacheReadTokens), p.cacheRead);
    CostIsPrice(OrZero(c.cacheCreationTokens), p.input);
  }

  lemma ProductAdds(cost: real, cost': real, a: int, b: int, price: real)
    requires cost * 1000000.0 == a as real * price && cost' * 1000000.0 == b as real * price
    ensures (cost + cost') * 1000000.0 == (a + b) as real * price
  {
    assert (a + b) as real == a as real + b as real;
    assert (a as real + b as real) * price == a as real * price + b as real * price;
  }

  lemma SumIsPriced(a: Row, b: Row, p: Price)
    requires PricedAt(a, p) && PricedAt(b, p)
    ensures PricedAt(Add(a, b), p)
  {
    ProductAdds(a.costInput, b.costInput, a.inputTokens, b.inputTokens, p.input);
    ProductAdds(a.costOutput, b.costOutput, a.outputTokens, b.outputTokens, p.output);
    ProductAdds(a.costCacheRead, b.costCacheRead, a.cacheReadTokens, b.cacheReadTokens, p.cacheRead);
    ProductAdds(a.costCacheCreation, b.costCacheCreation, a.cacheCreationTokens, b.cacheCreationTokens, p.input);
  }

  /** While prices stand still a row's cost is its tokens at its model's price. */
  lemma {:induction false} CostsFollowTokens(db: Db, ops: seq<Op>, k: Key)
    requires OnlyAccounting(ops)
    requires k in db.daily ==> PricedAt(db.daily[k], PriceOf(db.pricing, k.model))
    ensures Run(db, ops).pricing == db.pricing
    ensures k in Run(db, ops).daily ==> PricedAt(Run(db, ops).daily[k], PriceOf(db.pricing, k.model))
  {
    if ops != [] {
      var init, op := ops[..|ops| - 1], ops[|ops| - 1];
      assert op in ops;
      CostsFollowTokens(db, init, k);
      var mid, p := Run(db, init), PriceOf(db.pricing, k.model);
      if Booked(mid, op, k) != 0.0 || Open(mid, op.id) {
        var c := mid.captures[op.id];
        ContributionIsPriced(c, p);
        if k in mid.daily { SumIsPriced(mid.daily[k], Contribution(c, p), p); }
      }
    }
  }

  /** Until a model has a price its days cost nothing more, and a row that grew is not known. */
  lemma {:induction false} UnpricedCostsNothing(db: Db, ops: seq<Op>, k: Key)
    requires k.model !in Run(db, ops).pricing
    ensures k.model !in db.pricing && CostAt(Run(db, ops), k) == CostAt(db, k)
    ensures k in db.daily ==> k in Run(db, ops).daily
    ensures k in Run(db, ops).daily && (k !in db.daily || Run(db, ops).daily[k] != db.daily[k]) ==> !Run(db, ops).daily[k].known
  {
    if ops != [] {
      var init, op := ops[..|ops| - 1], ops[|ops| - 1];
      if op.SyncOp? { PriceStaysKnown(Run(db, init).pricing, op.models, k.model); }
      UnpricedCostsNothing(db, init, k);
      if op.AccountOp? && Open(Run(db, init), op.id) {
        ContributionIsPriced(Run(db, init).captures[op.id], Price(0.0, 0.0, 0.0, false));
      }
    }
  }

  /** A sync leaves every row that was not marked known, of a model that has a price, at exactly
      that price, and every other row as it was. */
  lemma SyncPricesUnknownRows(db: Db, models: seq<Model>, k: Key)
    requires k in db.daily
    ensures var after := Sync(db, models);
            && k in after.daily
            && (!db.daily[k].known && k.model in after.pricing ==>
                  PricedAt(after.daily[k], after.pricing[k.model]) && after.daily[k].known)
            && (db.daily[k].known || k.model !in after.pricing ==> after.daily[k] == db.daily[k])
  {
    SyncedRow(db, models, k);
    var pricing := SyncPrices(db.pricing, models);
    if k.model in pricing { RepricedIsPriced(db.daily[k], pricing[k.model]); }
  }
}
