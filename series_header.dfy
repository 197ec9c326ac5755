/** Clean-up of the per-city ET table's header after it is read
    (app/app.py:128-129). First every column whose name contains `Unnamed` is
    dropped (these are index columns written by an earlier CSV export); then the
    column `Ensemble ET` is renamed `ET`, the value column the rest of the
    dashboard reads. Both steps change the table in place. Only the column
    labels are modelled. */
module SeriesHeader {

  const UnnamedMarker: string := "Unnamed"
  const SourceValueColumn: string := "Ensemble ET"
  const ValueColumn: string := "ET"

  /** `pattern` occurs in `name` starting at position `i`. */
  predicate OccursAt(name: string, pattern: string, i: nat) {
    i + |pattern| <= |name| && name[i..i + |pattern|] == pattern
  }

  /** A regular-expression search for a pattern without metacharacters: does
      `pattern` occur anywhere in `name`? */
  function Contains(name: string, pattern: string): (r: bool)
    ensures r <==> exists i: nat :: OccursAt(name, pattern, i)
    decreases |name|
  {
    if |name| < |pattern| then false
    else if name[..|pattern|] == pattern then
      assert OccursAt(name, pattern, 0);
      true
    else
      OccursLater(name, pattern);
      Contains(name[1..], pattern)
  }

  /** Without a match at the front, an occurrence in `name` is one in `name[1..]`. */
  lemma OccursLater(name: string, pattern: string)
    requires |pattern| <= |name| && name[..|pattern|] != pattern
    ensures (exists i: nat :: OccursAt(name, pattern, i)) <==> (exists j: nat :: OccursAt(name[1..], pattern, j))
  {
    if i: nat :| OccursAt(name, pattern, i) {
      assert i != 0;
      assert name[1..][i - 1..i - 1 + |pattern|] == name[i..i + |pattern|];
      assert OccursAt(name[1..], pattern, i - 1);
    }
    if j: nat :| OccursAt(name[1..], pattern, j) {
      assert name[1..][j..j + |pattern|] == name[j + 1..j + 1 + |pattern|];
      assert OccursAt(name, pattern, j + 1);
    }
  }

  /** Whether the filter at app/app.py:128 selects the column for dropping: its
      label contains `Unnamed` somewhere, which needs a capital `U`. */
  predicate IsUnnamed(name: string)
    ensures IsUnnamed(name) <==> exists i: nat :: OccursAt(name, UnnamedMarker, i)
    ensures IsUnnamed(name) ==> 'U' in name
  {
    if 'U' !in name then NoCapitalUIsNamed(name); false
    else Contains(name, UnnamedMarker)
  }

  /** The columns left after dropping those whose name contains `Unnamed`. */
  function DropUnnamed(columns: seq<string>): (r: seq<string>)
    ensures |r| <= |columns|
    ensures forall k :: 0 <= k < |r| ==> !IsUnnamed(r[k]) && r[k] in columns
    ensures forall c :: c in columns && !IsUnnamed(c) ==> c in r
  {
    if columns == [] then []
    else if IsUnnamed(columns[0]) then DropUnnamed(columns[1..])
    else [columns[0]] + DropUnnamed(columns[1..])
  }

  /** The label of one column after the rename at app/app.py:129, which maps only
      `Ensemble ET` to `ET`. */
  function RenameLabel(name: string): (r: string)
    ensures r == ValueColumn <==> name == SourceValueColumn || name == ValueColumn
    ensures name != SourceValueColumn ==> r == name
  {
    if name == SourceValueColumn then ValueColumn else name
  }

  /** The rename relabels every column and keeps their order and number. */
  function RenameColumns(columns: seq<string>): (r: seq<string>)
    ensures |r| == |columns|
    ensures forall k :: 0 <= k < |r| ==> r[k] == RenameLabel(columns[k])
    ensures SourceValueColumn !in r
  {
    seq(|columns|, k requires 0 <= k < |columns| => RenameLabel(columns[k]))
  }

  /** The header after both in-place steps: no label contains `Unnamed`, none is
      `Ensemble ET`, and no column is added. Which columns survive, under which
      label and in which order is fixed by NormaliseHeaderAppend and
      NormaliseHeaderSingle. */
  function NormaliseHeader(columns: seq<string>): (r: seq<string>)
    ensures |r| <= |columns|
    ensures forall k :: 0 <= k < |r| ==> !IsUnnamed(r[k])
    ensures SourceValueColumn !in r
  {
    EtIsNamed();
    RenameColumns(DropUnnamed(columns))
  }

  /** The ET table as the dashboard holds it, reduced to its column labels. */
  class EtData {
    var columns: seq<string>

    constructor (columns: seq<string>)
      ensures this.columns == columns
    {
      this.columns := columns;
    }

    /** Drops, in place, every column whose label contains `Unnamed` (app/app.py:128). */
    method DropUnnamedColumns()
      modifies this
      ensures columns == DropUnnamed(old(columns))
    {
      columns := DropUnnamed(columns);
    }

    /** Renames, in place, the column `Ensemble ET` to `ET` (app/app.py:129). */
    method RenameValueColumn()
      modifies this
      ensures columns == RenameColumns(old(columns))
    {
      columns := RenameColumns(columns);
    }

    /** Lines 128-129 in order. */
    method Normalise()
      modifies this
      ensures columns == NormaliseHeader(old(columns))
      ensures forall k :: 0 <= k < |columns| ==> !IsUnnamed(columns[k])
    {
      DropUnnamedColumns();
      RenameValueColumn();
    }
  }

  /** A name without the letter `U` never contains `Unnamed`. */
  lemma NoCapitalUIsNamed(name: string)
    requires 'U' !in name
    ensures !Contains(name, UnnamedMarker)
  {
    forall i: nat | OccursAt(name, UnnamedMarker, i)
      ensures name[i] == 'U'
    {
    }
  }

  lemma EtIsNamed()
    ensures !IsUnnamed(ValueColumn) && !IsUnnamed(SourceValueColumn)
  {
    NoCapitalUIsNamed(ValueColumn);
    NoCapitalUIsNamed(SourceValueColumn);
  }

  /** A source column `Ensemble ET` has become the value column `ET`. */
  lemma NormalisedHeaderHasValueColumn(columns: seq<string>)
    requires SourceValueColumn in columns || ValueColumn in columns
    ensures ValueColumn in NormaliseHeader(columns)
  {
    EtIsNamed();
    var d := DropUnnamed(columns);
    var k :| 0 <= k < |d| && (d[k] == SourceValueColumn || d[k] == ValueColumn);
    assert NormaliseHeader(columns)[k] == ValueColumn;
  }

  /** Dropping works column by column: it distributes over concatenation. */
  lemma {:induction false} DropUnnamedAppend(a: seq<string>, b: seq<string>)
    ensures DropUnnamed(a + b) == DropUnnamed(a) + DropUnnamed(b)
  {
    if a != [] {
      assert (a + b)[1..] == a[1..] + b;
      DropUnnamedAppend(a[1..], b);
    } else {
      assert a + b == b;
    }
  }

  /** Normalisation keeps the relative order of the surviving columns: the header
      of a concatenation is the concatenation of the headers ... */
  lemma NormaliseHeaderAppend(a: seq<string>, b: seq<string>)
    ensures NormaliseHeader(a + b) == NormaliseHeader(a) + NormaliseHeader(b)
  {
    DropUnnamedAppend(a, b);
  }

  /** ... and a single column is dropped, renamed to `ET`, or kept under its name. */
  lemma NormaliseHeaderSingle(name: string)
    ensures IsUnnamed(name) ==> NormaliseHeader([name]) == []
    ensures name == SourceValueColumn ==> NormaliseHeader([name]) == [ValueColumn]
    ensures !IsUnnamed(name) && name != SourceValueColumn ==> NormaliseHeader([name]) == [name]
  {
    EtIsNamed();
  }

  /** Normalising an already normalised header changes nothing. */
  lemma NormaliseHeaderIdempotent(columns: seq<string>)
    ensures NormaliseHeader(NormaliseHeader(columns)) == NormaliseHeader(columns)
  {
    NormaliseHeaderKeepsClean(NormaliseHeader(columns));
  }

  /** A header with no `Unnamed` label and no `Ensemble ET` is left as it is. */
  lemma NormaliseHeaderKeepsClean(columns: seq<string>)
    requires forall k :: 0 <= k < |columns| ==> !IsUnnamed(columns[k])
    requires SourceValueColumn !in columns
    ensures NormaliseHeader(columns) == columns
  {
    DropUnnamedKeepsNamed(columns);
    assert RenameColumns(columns) == columns;
  }

  lemma {:induction false} DropUnnamedKeepsNamed(columns: seq<string>)
    requires forall k :: 0 <= k < |columns| ==> !IsUnnamed(columns[k])
    ensures DropUnnamed(columns) == columns
  {
    if columns != [] {
      assert !IsUnnamed(columns[0]);
      DropUnnamedKeepsNamed(columns[1..]);
    }
  }
}
