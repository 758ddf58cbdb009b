/**
  The offline cleaning step (datatreatment.py): drop three fixed columns from the
  sales table, then rewrite the tail of every invoice identifier whose last two
  digits fall in the reserved range 47..57 to "00".

  A table is modelled as its CSV text: a header of column names and rows of cell
  text, every row as wide as the header.
*/
module Preparation {
  import opened Wrappers

  datatype Table = Table(header: seq<string>, rows: seq<seq<string>>)

  /** Every row has one cell per column. */
  ghost predicate Rectangular(t: Table) {
    forall k :: 0 <= k < |t.rows| ==> |t.rows[k]| == |t.header|
  }

  /** pandas raises KeyError naming the labels it could not find. */
  datatype PrepError = KeyError(missing: seq<string>)

  const DroppedColumns: seq<string> := ["cogs", "gross margin percentage", "gross income"]

  const IdColumn: string := "Invoice ID"

  /** The two-character groups that are rewritten to "00". */
  const ReservedSuffixes: seq<string> :=
    ["47", "48", "49", "50", "51", "52", "53", "54", "55", "56", "57"]

  // ---------------------------------------------------------------------------
  // Identifier normalisation: re.sub(r'(\d{2})$', substituir_id, id)
  // ---------------------------------------------------------------------------

  predicate IsDigit(c: char) {
    '0' <= c <= '9'
  }

  function DigitValue(c: char): (v: int)
    requires IsDigit(c)
    ensures 0 <= v <= 9
  {
    c as int - '0' as int
  }

  /** The reserved groups are exactly the two-digit numerals from 47 to 57. */
  lemma ReservedSuffixRange(a: char, b: char)
    ensures [a, b] in ReservedSuffixes
        <==> IsDigit(a) && IsDigit(b) && 47 <= 10 * DigitValue(a) + DigitValue(b) <= 57
  {
  }

  /** `(\d{2})$` matches at position p: two digits there, and `$` holds right
      after them, which in Python is the end of the string or a newline that
      ends the string. */
  predicate MatchesAt(s: string, p: nat) {
    && p + 2 <= |s|
    && IsDigit(s[p]) && IsDigit(s[p + 1])
    && (p + 2 == |s| || (p + 3 == |s| && s[p + 2] == '\n'))
  }

  /** The position re.sub finds, scanning from the left. There is never more
      than one, so re.sub performs at most one replacement. */
  function SuffixMatch(s: string): (m: Option<nat>)
    ensures m.None? ==> forall p :: !MatchesAt(s, p)
    ensures m.Some? ==> MatchesAt(s, m.value) && forall p :: MatchesAt(s, p) ==> p == m.value
  {
    if |s| >= 3 && s[|s| - 1] == '\n' && IsDigit(s[|s| - 3]) && IsDigit(s[|s| - 2]) then
      Some(|s| - 3)
    else if |s| >= 2 && IsDigit(s[|s| - 2]) && IsDigit(s[|s| - 1]) then
      Some(|s| - 2)
    else
      None
  }

  /** The rewrite of one identifier (substituir_id applied through re.sub). */
  function NormalizeId(id: string): (r: string)
    ensures |r| == |id|
    ensures forall i :: 0 <= i < |id| && r[i] != id[i] ==>
              exists p: nat :: MatchesAt(id, p) && p <= i < p + 2
  {
    match SuffixMatch(id)
    case None => id
    case Some(p) =>
      if id[p..p + 2] in ReservedSuffixes then id[..p] + "00" + id[p + 2..] else id
  }

  /** An identifier ending in a reserved pair gets "00" in its place. */
  lemma NormalizeReserved(id: string)
    requires |id| >= 2 && id[|id| - 2..] in ReservedSuffixes
    ensures NormalizeId(id) == id[..|id| - 2] + "00"
  {
    var a, b := id[|id| - 2], id[|id| - 1];
    assert id[|id| - 2..] == [a, b];
    ReservedSuffixRange(a, b);
    assert MatchesAt(id, |id| - 2);
    assert SuffixMatch(id) == Some(|id| - 2);
    assert id[|id| - 2..|id|] == id[|id| - 2..];
    assert id[|id|..] == [];
  }

  /** An identifier ending in two digits outside 47..57 is left as it is. */
  lemma NormalizeUnreserved(id: string)
    requires |id| >= 2 && IsDigit(id[|id| - 2]) && IsDigit(id[|id| - 1])
    requires !(47 <= 10 * DigitValue(id[|id| - 2]) + DigitValue(id[|id| - 1]) <= 57)
    ensures NormalizeId(id) == id
  {
  }

  /** Where the pattern does not match, the identifier is left as it is. */
  lemma NormalizeNoMatch(id: string)
    requires !(|id| >= 2 && IsDigit(id[|id| - 2]) && IsDigit(id[|id| - 1]))
    requires !(|id| >= 3 && id[|id| - 1] == '\n' && IsDigit(id[|id| - 3]) && IsDigit(id[|id| - 2]))
    ensures NormalizeId(id) == id
  {
  }

  /** Python's `$` also matches before a final newline: the reserved pair just
      before it is rewritten and the newline kept. */
  lemma NormalizeBeforeFinalNewline(id: string)
    requires |id| >= 3 && id[|id| - 1] == '\n' && id[|id| - 3..|id| - 1] in ReservedSuffixes
    ensures NormalizeId(id) == id[..|id| - 3] + "00\n"
  {
    var a, b := id[|id| - 3], id[|id| - 2];
    assert id[|id| - 3..|id| - 1] == [a, b];
    ReservedSuffixRange(a, b);
    assert MatchesAt(id, |id| - 3);
    assert id[|id| - 1..] == "\n";
  }

  /** The identifier changes exactly when the matched pair is reserved. */
  lemma NormalizeChangesIff(id: string)
    ensures NormalizeId(id) != id
        <==> exists p: nat :: MatchesAt(id, p) && id[p..p + 2] in ReservedSuffixes
  {
  }

  /** Normalising twice is normalising once: "00" is not reserved, and the
      rewrite keeps the match where it was. */
  lemma NormalizeIdempotent(id: string)
    ensures NormalizeId(NormalizeId(id)) == NormalizeId(id)
  {
  }

  // ---------------------------------------------------------------------------
  // Column drop: df.drop(columns=colunas_para_excluir)
  // ---------------------------------------------------------------------------

  /** The column names of `header` that are not in `drop`, in their order. */
  function Without(header: seq<string>, drop: seq<string>): (r: seq<string>)
    ensures |r| <= |header|
  {
    if header == [] then []
    else
      var init := Without(header[..|header| - 1], drop);
      if header[|header| - 1] in drop then init else init + [header[|header| - 1]]
  }

  lemma {:induction false} WithoutMembers(header: seq<string>, drop: seq<string>, c: string)
    ensures c in Without(header, drop) <==> c in header && c !in drop
  {
    if header != [] {
      var init := header[..|header| - 1];
      WithoutMembers(init, drop, c);
      assert header == init + [header[|header| - 1]];
    }
  }

  /** Positions of the columns that survive, strictly increasing: exactly the
      positions whose name is not dropped. */
  function KeptPositions(header: seq<string>, drop: seq<string>): (ps: seq<nat>)
    ensures forall j :: 0 <= j < |ps| ==> ps[j] < |header| && header[ps[j]] !in drop
    ensures forall j, k :: 0 <= j < k < |ps| ==> ps[j] < ps[k]
    ensures forall i :: 0 <= i < |header| && header[i] !in drop ==> i in ps
    ensures |ps| == |Without(header, drop)|
  {
    if header == [] then []
    else
      var init := KeptPositions(header[..|header| - 1], drop);
      if header[|header| - 1] in drop then init else init + [|header| - 1]
  }

  /** The cells of `row` at positions `ps`, in that order. */
  function Project(row: seq<string>, ps: seq<nat>): (r: seq<string>)
    requires forall j :: 0 <= j < |ps| ==> ps[j] < |row|
  {
    seq(|ps|, j requires 0 <= j < |ps| => row[ps[j]])
  }

  lemma {:induction false} ProjectKeptIsWithout(header: seq<string>, drop: seq<string>)
    ensures Project(header, KeptPositions(header, drop)) == Without(header, drop)
  {
    if header != [] {
      var init := header[..|header| - 1];
      ProjectKeptIsWithout(init, drop);
      var ps := KeptPositions(init, drop);
      assert Project(init, ps) == Project(header, ps);
    }
  }

  /** The labels of `drop` that `header` lacks. */
  function Missing(drop: seq<string>, header: seq<string>): (r: seq<string>)
    ensures forall d :: d in r <==> d in drop && d !in header
  {
    if drop == [] then []
    else (if drop[0] in header then [] else [drop[0]]) + Missing(drop[1..], header)
  }

  /** df.drop(columns=drop): fails when a label is absent; otherwise keeps the
      other columns in order, every cell staying under its own column. */
  function DropColumns(t: Table, drop: seq<string>): (r: Result<Table, PrepError>)
    requires Rectangular(t)
    ensures r.Err? <==> exists d :: d in drop && d !in t.header
    ensures r.Err? ==> r.error == KeyError(Missing(drop, t.header))
    ensures r.Ok? ==> Rectangular(r.value) && |r.value.rows| == |t.rows|
    ensures r.Ok? ==> r.value.header == Without(t.header, drop)
    ensures r.Ok? ==> forall k, j :: 0 <= k < |t.rows| && 0 <= j < |r.value.header| ==>
              r.value.rows[k][j] == t.rows[k][KeptPositions(t.header, drop)[j]]
  {
    var missing := Missing(drop, t.header);
    if missing != [] then
      assert missing[0] in drop && missing[0] !in t.header;
      Err(KeyError(missing))
    else
      var ps := KeptPositions(t.header, drop);
      ProjectKeptIsWithout(t.header, drop);
      Ok(Table(Project(t.header, ps), seq(|t.rows|, k requires 0 <= k < |t.rows| => Project(t.rows[k], ps))))
  }

  /** Exactly the three fixed columns disappear; every other one survives. */
  lemma DropFixedColumns(t: Table, c: string)
    requires Rectangular(t) && DropColumns(t, DroppedColumns).Ok?
    ensures c in DropColumns(t, DroppedColumns).value.header
        <==> c in t.header && c != "cogs" && c != "gross margin percentage" && c != "gross income"
  {
    WithoutMembers(t.header, DroppedColumns, c);
  }

  /** The drop is not idempotent: on an already cleaned table the labels are
      gone and pandas raises KeyError. */
  lemma DropTwiceFails(t: Table)
    requires Rectangular(t) && DropColumns(t, DroppedColumns).Ok?
    ensures DropColumns(DropColumns(t, DroppedColumns).value, DroppedColumns).Err?
  {
  }

  // ---------------------------------------------------------------------------
  // Element-wise rewrite of the identifier column, and the whole script
  // ---------------------------------------------------------------------------

  /** The first position of `x` in `s`: the column that df[x] selects. */
  function IndexOf(s: seq<string>, x: string): (i: nat)
    requires x in s
    ensures i < |s| && s[i] == x && x !in s[..i]
  {
    if s[0] == x then 0 else 1 + IndexOf(s[1..], x)
  }

  /** df[col] = df[col].apply(NormalizeId): one cell per row is rewritten. */
  function NormalizeColumn(t: Table, col: nat): (r: Table)
    requires Rectangular(t) && col < |t.header|
    ensures Rectangular(r) && r.header == t.header && |r.rows| == |t.rows|
    ensures forall k :: 0 <= k < |t.rows| ==> r.rows[k][col] == NormalizeId(t.rows[k][col])
    ensures forall k, j :: 0 <= k < |t.rows| && 0 <= j < |t.header| && j != col ==>
              r.rows[k][j] == t.rows[k][j]
  {
    Table(t.header, seq(|t.rows|, k requires 0 <= k < |t.rows| => t.rows[k][col := NormalizeId(t.rows[k][col])]))
  }

  /** The identifier column survives the drop, and df['Invoice ID'] then
      selects the cells that were under it before. */
  lemma IdColumnKept(raw: Table)
    requires Rectangular(raw) && DropColumns(raw, DroppedColumns).Ok? && IdColumn in raw.header
    ensures var dropped := DropColumns(raw, DroppedColumns).value;
      && IdColumn in dropped.header
      && KeptPositions(raw.header, DroppedColumns)[IndexOf(dropped.header, IdColumn)] == IndexOf(raw.header, IdColumn)
  {
    var dropped := DropColumns(raw, DroppedColumns).value;
    var ps := KeptPositions(raw.header, DroppedColumns);
    var i := IndexOf(raw.header, IdColumn);
    assert IdColumn !in DroppedColumns;
    var m :| 0 <= m < |ps| && ps[m] == i;
    assert dropped.header[m] == IdColumn;
    assert IdColumn !in dropped.header[..m] by {
      forall m' | 0 <= m' < m ensures dropped.header[m'] != IdColumn {
        assert ps[m'] < i;
        assert raw.header[ps[m']] == raw.header[..i][ps[m']];
      }
    }
    assert IndexOf(dropped.header, IdColumn) == m;
  }

  /** The cleaning script: drop the fixed columns, then normalise the
      identifiers. It succeeds exactly when the three dropped columns and the
      identifier column are present; pandas' KeyError names the labels that
      the failing step lacked. On success the columns are the surviving ones
      in order, the row count and order are kept, each row's identifier is the
      normalised identifier of the same row, and every other cell is the raw
      cell of its column. */
  function Prepare(raw: Table): (r: Result<Table, PrepError>)
    requires Rectangular(raw)
    ensures r.Ok? <==> (forall d :: d in DroppedColumns ==> d in raw.header) && IdColumn in raw.header
    ensures r.Err? && Missing(DroppedColumns, raw.header) != [] ==> r.error == KeyError(Missing(DroppedColumns, raw.header))
    ensures r.Err? && Missing(DroppedColumns, raw.header) == [] ==> r.error == KeyError([IdColumn])
    ensures r.Ok? ==> Rectangular(r.value) && |r.value.rows| == |raw.rows|
    ensures r.Ok? ==> r.value.header == Without(raw.header, DroppedColumns)
    ensures r.Ok? ==> IdColumn in raw.header && IdColumn in r.value.header
    ensures r.Ok? ==> forall k :: 0 <= k < |raw.rows| ==>
              r.value.rows[k][IndexOf(r.value.header, IdColumn)] == NormalizeId(raw.rows[k][IndexOf(raw.header, IdColumn)])
    ensures r.Ok? ==> forall k, j :: 0 <= k < |raw.rows| && 0 <= j < |r.value.header| && j != IndexOf(r.value.header, IdColumn) ==>
              r.value.rows[k][j] == raw.rows[k][KeptPositions(raw.header, DroppedColumns)[j]]
  {
    match DropColumns(raw, DroppedColumns)
    case Err(e) => Err(e)
    case Ok(dropped) =>
      WithoutMembers(raw.header, DroppedColumns, IdColumn);
      if IdColumn !in dropped.header then Err(KeyError([IdColumn]))
      else
        IdColumnKept(raw);
        Ok(NormalizeColumn(dropped, IndexOf(dropped.header, IdColumn)))
  }

  /** The worked examples: 898-04-52 becomes 898-04-00; 898-04-30 stays. */
  lemma NormalizeExamples()
    ensures NormalizeId("898-04-52") == "898-04-00"
    ensures NormalizeId("898-04-30") == "898-04-30"
  {
    NormalizeReserved("898-04-52");
    NormalizeUnreserved("898-04-30");
  }
}
