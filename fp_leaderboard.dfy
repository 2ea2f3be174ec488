/**
 * fp.py's leaderboard panel: one line of text per cached row, for the first
 * ten rows, "#<rank> <name in a 12-wide column> <best score>". Fonts,
 * colours and positions are not modelled.
 */
module FpLeaderboard {
  import opened Wrappers
  import opened Text
  import opened Service

  const RowLimit: nat := 10
  const NameWidth: nat := 12

  /** The best score a row shows: a missing (null) best score is shown as 0. */
  function ScoreShown(e: Entry): (s: int)
    ensures e.bestScore.Some? ==> s == e.bestScore.value
    ensures e.bestScore.None? ==> s == 0
  {
    match e.bestScore
    case None => 0
    case Some(v) => v
  }

  /** The name column: the first 12 characters of the name, padded with spaces to 12. */
  function NameColumn(name: string): (c: string)
    ensures |c| == NameWidth
    ensures c[..|Take(name, NameWidth)|] == Take(name, NameWidth)
    ensures forall i :: |Take(name, NameWidth)| <= i < NameWidth ==> c[i] == ' '
  {
    PadRight(Take(name, NameWidth), NameWidth)
  }

  /** The line for the row at index idx: '#', the rank, a space, the name column, a space, the score. */
  function FormatRow(idx: nat, e: Entry): (txt: string)
    ensures |txt| == |NatToString(idx + 1)| + |IntToString(ScoreShown(e))| + NameWidth + 3
    ensures txt[0] == '#'
  {
    "#" + NatToString(idx + 1) + " " + NameColumn(e.username) + " " + IntToString(ScoreShown(e))
  }

  /** The text lines of the panel: none for an empty cache, else one per row of LEADERBOARD_DATA[:10]. */
  function Rows(data: seq<Entry>): (rows: seq<string>)
    ensures |rows| == if |data| < RowLimit then |data| else RowLimit
    ensures forall i :: 0 <= i < |rows| ==> rows[i] == FormatRow(i, data[i])
  {
    var n := if |data| < RowLimit then |data| else RowLimit;
    seq(n, i requires 0 <= i < n => FormatRow(i, data[i]))
  }

  // ---------------------------------------------------------------------
  // Reading a line back

  /** What a line shows: the rank, the 12-wide name column and the score. */
  datatype Row = Row(rank: nat, nameColumn: string, score: int)

  /** The position of the first space in s, if there is one. */
  function FirstSpace(s: string): (k: Option<nat>)
    ensures k.Some? ==> k.value < |s| && s[k.value] == ' ' && forall j :: 0 <= j < k.value ==> s[j] != ' '
    ensures k.None? ==> forall j :: 0 <= j < |s| ==> s[j] != ' '
  {
    if s == [] then None
    else if s[0] == ' ' then Some(0)
    else match FirstSpace(s[1..])
      case None => None
      case Some(k) => Some(k + 1)
  }

  /**
   * Reads a panel line: '#', the rank digits up to the first space, a
   * 12-character name column, a space and the score. The fixed width of the
   * column is what makes a name with spaces in it readable.
   */
  function ParseRow(txt: string): Option<Row> {
    if |txt| == 0 || txt[0] != '#' then None else ParseRanked(txt[1..])
  }

  /** A line after its '#': the rank digits, a space, then the columns. */
  function ParseRanked(rest: string): Option<Row> {
    match FirstSpace(rest)
    case None => None
    case Some(k) =>
      if k == 0 || !AllDigits(rest[..k]) then None
      else match ParseColumns(rest[k + 1..])
        case None => None
        case Some(cs) => Some(Row(ParseDigits(rest[..k]), cs.0, cs.1))
  }

  /** The 12-character name column, a space and the score. */
  function ParseColumns(after: string): Option<(string, int)> {
    if |after| <= NameWidth || after[NameWidth] != ' ' then None
    else match ParseInt(after[NameWidth + 1..])
      case None => None
      case Some(v) => Some((after[..NameWidth], v))
  }

  lemma {:induction false} FirstSpaceAfterDigits(digits: string, tail: string)
    requires AllDigits(digits)
    ensures FirstSpace(digits + " " + tail) == Some(|digits|)
    decreases |digits|
  {
    if digits == [] {
      assert (digits + " " + tail)[0] == ' ';
    } else {
      assert (digits + " " + tail)[1..] == digits[1..] + " " + tail;
      FirstSpaceAfterDigits(digits[1..], tail);
    }
  }

  lemma ParseColumnsAssembled(c: string, s: string, v: int)
    requires |c| == NameWidth && ParseInt(s) == Some(v)
    ensures ParseColumns(c + " " + s) == Some((c, v))
  {
    var after := c + " " + s;
    assert after[..NameWidth] == c;
    assert after[NameWidth + 1..] == s;
  }

  lemma ParseRankedAssembled(d: string, after: string)
    requires |d| > 0 && AllDigits(d) && ParseColumns(after).Some?
    ensures ParseRanked(d + " " + after) == Some(Row(ParseDigits(d), ParseColumns(after).value.0, ParseColumns(after).value.1))
  {
    var rest := d + " " + after;
    FirstSpaceAfterDigits(d, after);
    assert rest[..|d|] == d;
    assert rest[|d| + 1..] == after;
  }

  lemma DropHash(d: string, c: string, s: string)
    ensures ("#" + d + " " + c + " " + s)[1..] == d + " " + (c + " " + s)
  {
    var rest := d + " " + (c + " " + s);
    assert "#" + d + " " + c + " " + s == "#" + rest;
  }

  /** A line assembled from rank digits, a 12-wide column and a score string reads back as those three. */
  lemma ParseAssembled(d: string, c: string, s: string, v: int)
    requires |d| > 0 && AllDigits(d) && |c| == NameWidth && ParseInt(s) == Some(v)
    ensures ParseRow("#" + d + " " + c + " " + s) == Some(Row(ParseDigits(d), c, v))
  {
    DropHash(d, c, s);
    ParseColumnsAssembled(c, s, v);
    ParseRankedAssembled(d, c + " " + s);
  }

  /** Every panel line reads back as the rank idx + 1, the name column and the score shown. */
  lemma ParseFormatRow(idx: nat, e: Entry)
    ensures ParseRow(FormatRow(idx, e)) == Some(Row(idx + 1, NameColumn(e.username), ScoreShown(e)))
  {
    ParseNatToString(idx + 1);
    IntToStringRoundTrip(ScoreShown(e));
    ParseAssembled(NatToString(idx + 1), NameColumn(e.username), IntToString(ScoreShown(e)), ScoreShown(e));
  }

  /** Two different rows of the panel never print the same line. */
  lemma RowsAreDistinct(data: seq<Entry>, i: nat, j: nat)
    requires i < j < |Rows(data)|
    ensures Rows(data)[i] != Rows(data)[j]
  {
    ParseFormatRow(i, data[i]);
    ParseFormatRow(j, data[j]);
  }
}
