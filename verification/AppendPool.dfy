/** The append pool: worker threads append batches into private collections whose layout is
    a prefix of the published schema, padded lazily, and merged when the pool drains. */
module AppendPool {
  import opened Json
  import opened Inference
  import opened ColumnTypes
  import opened Filling
  import opened Fits
  import ShapeCache

  /** A column under its case-folded name. */
  datatype Col = Col(key: string, ty: LType)

  /** An extracted batch: per row, the value routed to each of its columns. */
  datatype Batch = Batch(cols: seq<Col>, rows: seq<seq<Option<Json>>>)

  /** Database services outside the model: string parsers and the cast used for column
      types the writer does not fill directly. */
  datatype Env = Env(t: Temporal, cast: (Cell, LType) -> Cell)

  type Row = seq<Cell>

  // ---------------------------------------------------------------------------
  // The reference: a sequential append against the table's columns, by name
  // ---------------------------------------------------------------------------

  ghost predicate DistinctKeys(cols: seq<Col>) {
    forall i, j :: 0 <= i < j < |cols| ==> cols[i].key != cols[j].key
  }

  ghost predicate ValidBatch(b: Batch) {
    DistinctKeys(b.cols) && forall r :: 0 <= r < |b.rows| ==> |b.rows[r]| == |b.cols|
  }

  function IndexOf(cols: seq<Col>, key: string): (r: Option<nat>)
    ensures r.Some? ==> r.value < |cols| && cols[r.value].key == key
    ensures r.None? ==> forall i :: 0 <= i < |cols| ==> cols[i].key != key
  {
    if cols == [] then None
    else if cols[|cols| - 1].key == key then Some(|cols| - 1)
    else IndexOf(cols[..|cols| - 1], key)
  }

  predicate Has(cols: seq<Col>, key: string) { IndexOf(cols, key).Some? }

  ghost predicate Covers(table: seq<Col>, b: Batch) {
    forall c :: 0 <= c < |b.cols| ==> Has(table, b.cols[c].key)
  }

  function CellFor(env: Env, val: Option<Json>, from: LType, to: LType): (c: Cell) {
    if FillSupported(to) then Fill(env.t, val, to) else env.cast(Fill(env.t, val, from), to)
  }

  /** One cell of the row sequential appending leaves: the value of the column of that
      name, NULL when the batch has none. */
  function TableCell(env: Env, b: Batch, r: nat, col: Col): (c: Cell)
    requires r < |b.rows| && |b.rows[r]| == |b.cols|
  {
    match IndexOf(b.cols, col.key)
    case Some(c) => CellFor(env, b.rows[r][c], b.cols[c].ty, col.ty)
    case None => NullCell
  }

  function TableRow(env: Env, b: Batch, r: nat, table: seq<Col>): (row: Row)
    requires r < |b.rows| && |b.rows[r]| == |b.cols|
    ensures |row| == |table|
  {
    seq(|table|, s requires 0 <= s < |table| => TableCell(env, b, r, table[s]))
  }

  function BatchRows(env: Env, b: Batch, table: seq<Col>): (rows: seq<Row>)
    requires forall r :: 0 <= r < |b.rows| ==> |b.rows[r]| == |b.cols|
    ensures |rows| == |b.rows|
  {
    seq(|b.rows|, r requires 0 <= r < |b.rows| => TableRow(env, b, r, table))
  }

  ghost predicate AllValid(bs: seq<Batch>) {
    forall i :: 0 <= i < |bs| ==> ValidBatch(bs[i])
  }

  /** What `AppendNative` leaves for a sequence of batches. */
  ghost function Appended(env: Env, bs: seq<Batch>, table: seq<Col>): (rows: seq<Row>)
    requires AllValid(bs)
  {
    if bs == [] then []
    else Appended(env, bs[..|bs| - 1], table) + BatchRows(env, bs[|bs| - 1], table)
  }

  // ---------------------------------------------------------------------------
  // What appended rows say about the values of the batch
  // ---------------------------------------------------------------------------

  /** A cell of table type `to` for a value that the payload's column has at type `from`. A type
      the writer does not fill gets the cast of a cell of the payload's own type. */
  ghost predicate CellSays(env: Env, cell: Cell, val: Option<Json>, from: LType, to: LType) {
    if FillSupported(to) then Stores(env.t, cell, val, to)
    else exists c :: cell == env.cast(c, to) && (FillSupported(from) ==> Stores(env.t, c, val, from))
  }

  /** Columns find their values by name; a column the batch does not have is NULL. */
  ghost predicate RowSays(env: Env, b: Batch, r: nat, table: seq<Col>, row: Row)
    requires r < |b.rows| && |b.rows[r]| == |b.cols|
  {
    && |row| == |table|
    && (forall s, c :: 0 <= s < |table| && 0 <= c < |b.cols| && b.cols[c].key == table[s].key ==>
          CellSays(env, row[s], b.rows[r][c], b.cols[c].ty, table[s].ty))
    && (forall s :: 0 <= s < |table| && !Has(b.cols, table[s].key) ==> row[s].NullCell?)
  }

  lemma CellForSays(env: Env, val: Option<Json>, from: LType, to: LType)
    ensures CellSays(env, CellFor(env, val, from, to), val, from, to)
  {
    if FillSupported(to) { FillStores(env.t, val, to); }
    else if FillSupported(from) { FillStores(env.t, val, from); }
  }

  lemma TableRowSays(env: Env, b: Batch, r: nat, table: seq<Col>)
    requires ValidBatch(b) && r < |b.rows|
    ensures RowSays(env, b, r, table, TableRow(env, b, r, table))
  {
    var row := TableRow(env, b, r, table);
    forall s, c | 0 <= s < |table| && 0 <= c < |b.cols| && b.cols[c].key == table[s].key
      ensures CellSays(env, row[s], b.rows[r][c], b.cols[c].ty, table[s].ty)
    {
      IndexOfKey(b.cols, c);
      CellForSays(env, b.rows[r][c], b.cols[c].ty, table[s].ty);
    }
  }

  /** The rows of the batches, batch by batch. */
  ghost predicate RowsSay(env: Env, bs: seq<Batch>, table: seq<Col>, rows: seq<Row>) {
    if bs == [] then rows == []
    else
      var init, last := bs[..|bs| - 1], bs[|bs| - 1];
      && ValidBatch(last) && |last.rows| <= |rows|
      && var n := |rows| - |last.rows|;
         RowsSay(env, init, table, rows[..n]) && BatchSays(env, last, table, rows[n..])
  }

  ghost predicate BatchSays(env: Env, b: Batch, table: seq<Col>, rows: seq<Row>)
    requires ValidBatch(b)
  {
    |rows| == |b.rows| && forall r :: 0 <= r < |b.rows| ==> RowSays(env, b, r, table, rows[r])
  }

  lemma {:induction false} AppendedSays(env: Env, bs: seq<Batch>, table: seq<Col>)
    requires AllValid(bs)
    ensures RowsSay(env, bs, table, Appended(env, bs, table))
    decreases |bs|
  {
    if bs != [] {
      var init, last := bs[..|bs| - 1], bs[|bs| - 1];
      AppendedSays(env, init, table);
      var front, rows := Appended(env, init, table), Appended(env, bs, table);
      var back := BatchRows(env, last, table);
      assert rows[..|front|] == front && rows[|front|..] == back;
      forall r | 0 <= r < |last.rows| ensures RowSays(env, last, r, table, back[r]) {
        TableRowSays(env, last, r, table);
      }
    }
  }

  // ---------------------------------------------------------------------------
  // Layouts: parallel type and slot tables, grown column by column
  // ---------------------------------------------------------------------------

  datatype Layout = Layout(types: seq<LType>, slots: map<string, nat>)

  /** Publishing columns, and a worker adding them, grow a layout the same way. */
  function AddCols(l: Layout, cols: seq<Col>): (r: Layout) {
    if cols == [] then l
    else
      var m := AddCols(l, cols[..|cols| - 1]);
      var last := cols[|cols| - 1];
      Layout(m.types + [last.ty], m.slots[last.key := |m.types|])
  }

  function LayoutOf(table: seq<Col>): (r: Layout) { AddCols(Layout([], map[]), table) }

  lemma {:induction false} LayoutGrows(table: seq<Col>, cols: seq<Col>)
    ensures LayoutOf(table + cols) == AddCols(LayoutOf(table), cols)
    decreases |cols|
  {
    if cols == [] {
      assert table + cols == table;
    } else {
      assert (table + cols)[..|table + cols| - 1] == table + cols[..|cols| - 1];
      LayoutGrows(table, cols[..|cols| - 1]);
    }
  }

  /** Slot tables say where each name sits, and types line up with the table. */
  lemma {:induction false} LayoutLookup(table: seq<Col>)
    requires DistinctKeys(table)
    ensures |LayoutOf(table).types| == |table|
    ensures forall s :: 0 <= s < |table| ==> LayoutOf(table).types[s] == table[s].ty
    ensures forall k :: k in LayoutOf(table).slots <==> Has(table, k)
    ensures forall k :: Has(table, k) ==> LayoutOf(table).slots[k] == IndexOf(table, k).value
    decreases |table|
  {
    if table != [] { LayoutLookup(table[..|table| - 1]); }
  }

  lemma IndexOfKey(cols: seq<Col>, i: nat)
    requires DistinctKeys(cols) && i < |cols|
    ensures IndexOf(cols, cols[i].key) == Some(i)
  {
  }

  /** The name whose slot is `s`; found by scanning the slot table. */
  ghost function NameOf(slots: map<string, nat>, s: nat): (k: string) {
    if exists k :: k in slots && slots[k] == s then
      var k :| k in slots && slots[k] == s;
      k
    else ""
  }

  /** The published columns a layout of width `n` has not added yet. */
  ghost function Missing(l: Layout, n: nat): (r: seq<Col>) {
    if n > |l.types| then [] else seq(|l.types| - n, i requires 0 <= i < |l.types| - n => Col(NameOf(l.slots, n + i), l.types[n + i]))
  }

  lemma NameOfSlot(table: seq<Col>, s: nat)
    requires DistinctKeys(table) && s < |table|
    ensures NameOf(LayoutOf(table).slots, s) == table[s].key
  {
    LayoutLookup(table);
    IndexOfKey(table, s);
    var slots := LayoutOf(table).slots;
    assert table[s].key in slots && slots[table[s].key] == s;
    var k := NameOf(slots, s);
    assert k in slots && slots[k] == s;
    assert IndexOf(table, k).value == s;
  }

  lemma MissingIsSuffix(table: seq<Col>, n: nat)
    requires DistinctKeys(table) && n <= |table|
    ensures |LayoutOf(table).types| == |table|
    ensures Missing(LayoutOf(table), n) == table[n..]
  {
    LayoutLookup(table);
    forall s: nat | n <= s < |table| ensures NameOf(LayoutOf(table).slots, s) == table[s].key {
      NameOfSlot(table, s);
    }
  }

  // ---------------------------------------------------------------------------
  // Writing one row through slots
  // ---------------------------------------------------------------------------

  /** What the payload hash sees of the columns: names and coarse type ids. */
  type Signature = seq<(string, ShapeCache.TypeId)>

  function SignatureOf(cols: seq<Col>): (r: Signature)
    ensures |r| == |cols|
    ensures forall c :: 0 <= c < |cols| ==> r[c].0 == cols[c].key
  {
    seq(|cols|, c requires 0 <= c < |cols| => (cols[c].key, ShapeCache.IdOf(cols[c].ty)))
  }

  datatype BatchLayout = BatchLayout(signature: Signature, slotOf: seq<nat>, covered: seq<bool>)

  /** Slots of the batch's columns, or `None` for the "missing from append pool schema" error. */
  function Resolve(b: Batch, l: Layout): (r: Option<BatchLayout>) {
    if exists c :: 0 <= c < |b.cols| && b.cols[c].key !in l.slots then None
    else
      var slotOf := seq(|b.cols|, c requires 0 <= c < |b.cols| => l.slots[b.cols[c].key]);
      Some(BatchLayout(SignatureOf(b.cols), slotOf,
                       seq(|l.types|, s requires 0 <= s < |l.types| => exists c :: 0 <= c < |slotOf| && slotOf[c] == s)))
  }

  /** What each column of the batch has written to its slot. */
  ghost predicate SlotsWritten(env: Env, b: Batch, r: nat, table: seq<Col>, bl: BatchLayout, row: Row, count: nat)
    requires r < |b.rows| && |b.rows[r]| == |b.cols|
  {
    && |row| == |table| && count <= |bl.slotOf|
    && forall k :: 0 <= k < count ==>
         bl.slotOf[k] < |table| && row[bl.slotOf[k]] == TableCell(env, b, r, table[bl.slotOf[k]])
  }

  /** The first chunk loop: every column writes its slot. */
  method WriteColumns(env: Env, b: Batch, r: nat, table: seq<Col>, bl: BatchLayout, chunk: Row) returns (row: Row)
    requires ValidBatch(b) && r < |b.rows| && DistinctKeys(table) && Covers(table, b)
    requires |chunk| == |table| && Resolve(b, LayoutOf(table)) == Some(bl)
    ensures SlotsWritten(env, b, r, table, bl, row, |b.cols|)
  {
    hide CellFor, LayoutOf, Covers;
    row := chunk;
    for c := 0 to |b.cols|
      invariant SlotsWritten(env, b, r, table, bl, row, c)
    {
      var slot := bl.slotOf[c];
      SlotsOfBatch(b, table, bl, c);
      row := row[slot := CellFor(env, b.rows[r][c], b.cols[c].ty, table[slot].ty)];
    }
  }

  /** The chunk loops: the columns, then NULL for the uncovered slots. Whatever the reused
      chunk held before, the row is the one appending by name gives. */
  method WriteRow(env: Env, b: Batch, r: nat, table: seq<Col>, bl: BatchLayout, chunk: Row) returns (row: Row)
    requires ValidBatch(b) && r < |b.rows| && DistinctKeys(table) && Covers(table, b)
    requires |chunk| == |table| && Resolve(b, LayoutOf(table)) == Some(bl)
    ensures row == TableRow(env, b, r, table)
    ensures RowSays(env, b, r, table, row)
  {
    LayoutLookup(table);
    TableRowSays(env, b, r, table);
    hide RowSays, CellFor, AddCols, Covers, SlotsWritten, TableCell;
    row := WriteColumns(env, b, r, table, bl, chunk);
    for slot := 0 to |table|
      invariant SlotsWritten(env, b, r, table, bl, row, |b.cols|)
      invariant forall s :: 0 <= s < slot ==> row[s] == TableCell(env, b, r, table[s])
    {
      SlotWritten(env, b, r, table, bl, row, slot);
      if !bl.covered[slot] { row := row[slot := NullCell]; }
    }
  }

  /** A covered slot has its value already; an uncovered one is free to be nulled. */
  lemma SlotWritten(env: Env, b: Batch, r: nat, table: seq<Col>, bl: BatchLayout, row: Row, slot: nat)
    requires ValidBatch(b) && r < |b.rows| && DistinctKeys(table) && Covers(table, b)
    requires Resolve(b, LayoutOf(table)) == Some(bl) && slot < |table| && |bl.covered| == |table|
    requires SlotsWritten(env, b, r, table, bl, row, |b.cols|)
    ensures |row| == |table|
    ensures bl.covered[slot] ==> row[slot] == TableCell(env, b, r, table[slot])
    ensures !bl.covered[slot] ==> TableCell(env, b, r, table[slot]) == NullCell
    ensures !bl.covered[slot] ==> SlotsWritten(env, b, r, table, bl, row[slot := NullCell], |b.cols|)
  {
    hide CellFor;
    if bl.covered[slot] {
      var c :| 0 <= c < |bl.slotOf| && bl.slotOf[c] == slot;
    } else {
      UncoveredSlot(b, table, bl, slot);
    }
  }

  lemma SlotsOfBatch(b: Batch, table: seq<Col>, bl: BatchLayout, c: nat)
    requires ValidBatch(b) && DistinctKeys(table) && Covers(table, b)
    requires Resolve(b, LayoutOf(table)) == Some(bl) && c < |b.cols|
    ensures bl.slotOf[c] < |table| && table[bl.slotOf[c]].key == b.cols[c].key
    ensures IndexOf(b.cols, table[bl.slotOf[c]].key) == Some(c)
  {
    LayoutLookup(table);
    IndexOfKey(b.cols, c);
    assert Has(table, b.cols[c].key);
  }

  lemma UncoveredSlot(b: Batch, table: seq<Col>, bl: BatchLayout, slot: nat)
    requires ValidBatch(b) && DistinctKeys(table) && Covers(table, b)
    requires Resolve(b, LayoutOf(table)) == Some(bl) && slot < |table| && |bl.covered| == |table| && !bl.covered[slot]
    ensures IndexOf(b.cols, table[slot].key).None?
  {
    if IndexOf(b.cols, table[slot].key).Some? { CoveredSlot(b, table, bl, slot); }
  }

  lemma CoveredSlot(b: Batch, table: seq<Col>, bl: BatchLayout, slot: nat)
    requires ValidBatch(b) && DistinctKeys(table)
    requires Resolve(b, LayoutOf(table)) == Some(bl) && slot < |table| && |bl.covered| == |table|
    requires IndexOf(b.cols, table[slot].key).Some?
    ensures bl.covered[slot]
  {
    var c := IndexOf(b.cols, table[slot].key).value;
    LayoutLookup(table);
    IndexOfKey(table, slot);
    assert bl.slotOf[c] == slot;
  }

  lemma KeyNotLater(table: seq<Col>, cols: seq<Col>, i: nat, key: string)
    requires DistinctKeys(table + cols) && i < |cols| && Has(table, key)
    ensures cols[i].key != key
  {
    var s := IndexOf(table, key).value;
    assert (table + cols)[s].key == key;
    assert (table + cols)[|table| + i] == cols[i];
  }

  /** Columns added later are NULL in rows appended earlier. */
  lemma LaterColumnsAreNull(env: Env, b: Batch, r: nat, table: seq<Col>, cols: seq<Col>)
    requires ValidBatch(b) && r < |b.rows| && Covers(table, b) && DistinctKeys(table + cols)
    ensures TableRow(env, b, r, table + cols) == TableRow(env, b, r, table) + seq(|cols|, _ => NullCell)
  {
    forall i | 0 <= i < |cols| ensures IndexOf(b.cols, cols[i].key).None? {
      forall c | 0 <= c < |b.cols| ensures b.cols[c].key != cols[i].key {
        KeyNotLater(table, cols, i, b.cols[c].key);
      }
    }
  }
}
