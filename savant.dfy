/**
 * The Baseball Savant leaderboard CSV parse inside
 * `fetchStatcastLeaderboard` (frontend/src/utils/mlbApi.js): the text is
 * trimmed and split into lines, the first line gives the column names and
 * every later line becomes one record of column name to cell.
 */
module Savant {
  import opened Wrappers
  import opened Text

  /** A cell as the source stores it: trimmed, with every `"` removed. */
  function Clean(v: string): (r: string)
    ensures '"' !in r
    ensures exists i, j :: 0 <= i <= j <= |v| && r == StripQuotes(v[i..j]) &&
              (forall k :: 0 <= k < i ==> IsSpace(v[k])) && (forall k :: j <= k < |v| ==> IsSpace(v[k])) &&
              (i == j || (!IsSpace(v[i]) && !IsSpace(v[j - 1])))
  {
    TrimSpan(v);
    StripQuotes(Trim(v))
  }

  function CleanAll(vs: seq<string>): (r: seq<string>)
    ensures |r| == |vs|
    ensures forall i :: 0 <= i < |vs| ==> r[i] == Clean(vs[i])
  {
    seq(|vs|, i requires 0 <= i < |vs| => Clean(vs[i]))
  }

  /** `vals[i]`, which is `undefined` past the end of a short row. */
  function Cell(vals: seq<string>, i: nat): (c: Option<string>)
    ensures c.Some? <==> i < |vals|
  {
    if i < |vals| then Some(vals[i]) else None
  }

  /** One leaderboard row: column name to cell. */
  type Record = map<string, Option<string>>

  /** `Object.fromEntries(headers.map((h, i) => [h, vals[i]]))` over the first `n` headers. */
  function Entries(headers: seq<string>, vals: seq<string>, n: nat): (r: Record)
    requires n <= |headers|
  {
    if n == 0 then map[] else Entries(headers, vals, n - 1)[headers[n - 1] := Cell(vals, n - 1)]
  }

  /** The entries' keys are the first `n` names. */
  lemma {:induction false} EntriesKeys(headers: seq<string>, vals: seq<string>, n: nat)
    requires n <= |headers|
    ensures Entries(headers, vals, n).Keys == set i | 0 <= i < n :: headers[i]
  {
    if n > 0 {
      EntriesKeys(headers, vals, n - 1);
      assert (set i | 0 <= i < n :: headers[i]) == (set i | 0 <= i < n - 1 :: headers[i]) + {headers[n - 1]};
    }
  }

  /**
   * A name that does not occur again later holds the cell at its own index
   * (a repeated name keeps its last cell, as `Object.fromEntries` does).
   */
  lemma {:induction false} EntriesLast(headers: seq<string>, vals: seq<string>, n: nat, i: nat)
    requires i < n <= |headers|
    requires forall j :: i < j < n ==> headers[j] != headers[i]
    ensures headers[i] in Entries(headers, vals, n)
    ensures Entries(headers, vals, n)[headers[i]] == Cell(vals, i)
  {
    if i < n - 1 {
      EntriesLast(headers, vals, n - 1, i);
    }
  }

  /** The column names of a header line. */
  function Headers(line: string): seq<string> {
    CleanAll(Split(line, ','))
  }

  /** The cleaned cells of a data line. */
  function Cells(line: string): seq<string> {
    CleanAll(Split(line, ','))
  }

  /** One data line turned into a record under the column names `hs`. */
  function Row(hs: seq<string>, line: string): Record {
    Entries(hs, Cells(line), |hs|)
  }

  /** `rows.map(line => Row(hs, line))`. */
  function Rows(hs: seq<string>, rows: seq<string>): (rs: seq<Record>)
    ensures |rs| == |rows|
    ensures forall k :: 0 <= k < |rs| ==> rs[k] == Row(hs, rows[k])
  {
    if rows == [] then [] else [Row(hs, rows[0])] + Rows(hs, rows[1..])
  }

  /**
   * The CSV body's records, one per line after the header, or `None` when
   * the body has fewer than two lines (the source then tries the prior
   * season, which is not modelled).
   */
  function ParseLeaderboard(text: string): (r: Option<seq<Record>>)
    ensures r.None? <==> |Split(Trim(text), '\n')| < 2
    ensures r.Some? ==> var lines := Split(Trim(text), '\n');
                        r.value == Rows(Headers(lines[0]), lines[1..])
  {
    var lines := Split(Trim(text), '\n');
    if |lines| < 2 then None else Some(Rows(Headers(lines[0]), lines[1..]))
  }

  /**
   * A record's keys are the column names, and a column whose name is
   * unique holds the cleaned cell at the same index of its line, or
   * nothing when the line is short.
   */
  lemma RowColumns(hs: seq<string>, line: string, col: nat)
    requires col < |hs|
    requires forall j :: 0 <= j < |hs| && j != col ==> hs[j] != hs[col]
    ensures Row(hs, line).Keys == (set i | 0 <= i < |hs| :: hs[i])
    ensures var cells := Split(line, ',');
            Row(hs, line)[hs[col]] == (if col < |cells| then Some(Clean(cells[col])) else None)
  {
    var cells := Split(line, ',');
    var vals := Cells(line);
    EntriesKeys(hs, vals, |hs|);
    EntriesLast(hs, vals, |hs|, col);
  }

  /** One record per line after the header, the k-th built from line k + 1. */
  lemma LeaderboardRecords(text: string)
    requires ParseLeaderboard(text).Some?
    ensures var lines := Split(Trim(text), '\n');
            var rs := ParseLeaderboard(text).value;
            && |rs| == |lines| - 1
            && forall k :: 0 <= k < |rs| ==> rs[k] == Row(Headers(lines[0]), lines[k + 1])
  {
    var lines := Split(Trim(text), '\n');
    RowsAfterHeader(Headers(lines[0]), lines);
  }

  lemma RowsAfterHeader(hs: seq<string>, lines: seq<string>)
    requires |lines| >= 1
    ensures |Rows(hs, lines[1..])| == |lines| - 1
    ensures forall k :: 0 <= k < |lines| - 1 ==> Rows(hs, lines[1..])[k] == Row(hs, lines[k + 1])
  {
    var rows := lines[1..];
    assert forall k :: 0 <= k < |rows| ==> rows[k] == lines[k + 1];
  }
}
