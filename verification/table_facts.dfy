/** What the lemmas assume of TBStable, as raw entries in bits: rows 0..26 by columns 0..99.  Everything that is assumed
    elsewhere of block sizes in bytes follows. */
module TableFacts {
  import opened TransportBlock
  import opened SlotControl
  import opened SlotExamples

  const ROWS: nat := 27
  const COLUMNS: nat := 100

  /** The first column. */
  function FirstColumn(row: nat): nat {
    match row
    case 0 => 16 case 1 => 24 case 2 => 32 case 3 => 40 case 4 => 56 case 5 => 72 case 6 => 328 case 7 => 104
    case 8 => 120 case 9 => 136 case 10 => 144 case 11 => 176 case 12 => 208 case 13 => 224 case 14 => 256
    case 15 => 280 case 16 => 328 case 17 => 336 case 18 => 376 case 19 => 408 case 20 => 440 case 21 => 488
    case 22 => 520 case 23 => 552 case 24 => 584 case 25 => 616 case _ => 712
  }

  ghost predicate RealEntries(t: TbsTable) {
    && (forall row :: 0 <= row < ROWS ==> t(row, 0) == FirstColumn(row))
    && (forall i, j, c :: 0 <= i <= j < ROWS && 1 <= c < COLUMNS ==> t(i, c) <= t(j, c))
    && (forall row, c :: 0 <= row < ROWS && 0 <= c < COLUMNS && 40 <= t(row, c) < 48 ==> row == 3)
    && (forall c :: 0 <= c < COLUMNS ==> t(0, c) <= 2792)
    && t(0, 3) == 88 && t(0, 99) == 2792 && t(26, 99) == 75376
    && t(26, 1) == 1480 && t(26, 2) == 2216 && t(26, 3) == 2984 && t(26, 4) == 3752 && t(26, 5) == 4392
  }

  lemma ColumnEntry(m: nat)
    requires m <= MAX_MCS
    ensures FirstColumn(GetITbs(m)) / 8 == OneRbBytes(m)
  {
  }

  lemma FirstColumnInBytes(t: TbsTable)
    requires RealEntries(t)
    ensures HasOneRbColumn(t)
  {
    forall m | 0 <= m <= MAX_MCS
      ensures GetTbsDl(t, m, 1) == OneRbBytes(m)
    {
      ColumnEntry(m);
      var row := GetITbs(m);
      assert t(row, 0) == FirstColumn(row);
    }
  }

  lemma GrowsInBytes(t: TbsTable, nb: nat)
    requires RealEntries(t) && 2 <= nb <= COLUMNS
    ensures MonotoneInMcs(t, nb)
  {
    forall i, j | 0 <= i <= j <= MAX_MCS
      ensures GetTbsDl(t, i, nb) <= GetTbsDl(t, j, nb)
    {
      assert GetITbs(i) <= GetITbs(j) < ROWS;
      assert t(GetITbs(i), nb - 1) <= t(GetITbs(j), nb - 1);
    }
  }

  /** Every hypothesis on block sizes in bytes is true of a table with these entries. */
  lemma EntriesInBytes(t: TbsTable)
    requires RealEntries(t)
    ensures HasOneRbColumn(t) && TableShape(t) && FiveBytesAtThree(t) && HasSixRbRows(t) && HasWideEnds(t)
  {
    FirstColumnInBytes(t);
    forall nb | 1 <= nb <= 100
      ensures ColumnShape(t, nb)
    {
      if nb > 1 {
        GrowsInBytes(t, nb);
      }
    }
    forall m, nb | 0 <= m <= MAX_MCS && 1 <= nb <= 100 && GetTbsDl(t, m, nb) == 5
      ensures m == 3
    {
      assert 40 <= t(GetITbs(m), nb - 1) < 48;
    }
    forall nb | 1 <= nb <= 100
      ensures GetTbsDl(t, 0, nb) <= 349
    {
      assert t(0, nb - 1) <= 2792;
    }
  }
}
