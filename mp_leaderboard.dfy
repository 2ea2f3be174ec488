/**
 * game_multiplayer.py's leaderboard panel: for the first ten cached rows a
 * rank mark (a medal for the top three, "<rank>." below), a rank colour, the
 * name and the best score; a placeholder when the cache is empty. Fonts,
 * shadows and positions are not modelled.
 */
module MpLeaderboard {
  import opened Wrappers
  import opened Text
  import opened Service

  const RowLimit: nat := 10
  const NameWidth: nat := 12
  const Anonymous := "Anonymous"

  datatype Colour = Gold | Silver | Bronze | White

  /** What one row of the panel shows. */
  datatype RowView = RowView(mark: string, colour: Colour, name: string, score: int)

  /** The panel: "No scores yet!" or the rows. */
  datatype Panel = NoScores | Rows(rows: seq<RowView>)

  /** The rank colour: gold, silver and bronze for the first three ranks, white below. */
  function RankColour(rank: nat): Colour {
    if rank == 1 then Gold else if rank == 2 then Silver else if rank == 3 then Bronze else White
  }

  /** The rank mark: a medal emoji for the first three ranks, the rank and a dot below. */
  function Mark(rank: nat): string {
    if rank == 1 then "\U{1F947}"
    else if rank == 2 then "\U{1F948}"
    else if rank == 3 then "\U{1F949}"
    else NatToString(rank) + "."
  }

  /** The name shown: its first 12 characters, or "Anonymous" for an empty name. */
  function ShownName(name: string): (s: string)
    ensures 0 < |s| <= NameWidth
    ensures name != "" ==> s <= name && (|name| <= NameWidth ==> s == name)
  {
    if name != "" then Take(name, NameWidth) else Anonymous
  }

  /** The score shown: a null (or zero) best score shows 0, any other its value. */
  function ShownScore(e: Entry): (s: int)
    ensures s == if e.bestScore.Some? then e.bestScore.value else 0
  {
    if e.bestScore.Some? && e.bestScore.value != 0 then e.bestScore.value else 0
  }

  function View(rank: nat, e: Entry): RowView {
    RowView(Mark(rank), RankColour(rank), ShownName(e.username), ShownScore(e))
  }

  /** The panel for LEADERBOARD_DATA: the placeholder exactly when the cache is empty, else its first ten rows. */
  function Present(data: seq<Entry>): (p: Panel)
    ensures p.NoScores? <==> data == []
    ensures p.Rows? ==> |p.rows| == (if |data| < RowLimit then |data| else RowLimit)
    ensures p.Rows? ==> forall i :: 0 <= i < |p.rows| ==> p.rows[i] == View(i + 1, data[i])
  {
    if data == [] then NoScores
    else
      var n := if |data| < RowLimit then |data| else RowLimit;
      Rows(seq(n, i requires 0 <= i < n => View(i + 1, data[i])))
  }

  /** The coloured ranks are exactly the medal ranks, and a medal is a single character. */
  lemma MedalsAreTheTopThree(rank: nat)
    requires rank >= 1
    ensures RankColour(rank) != White <==> rank <= 3
    ensures |Mark(rank)| == 1 <==> rank <= 3
  {
    if rank > 3 {
      assert |Mark(rank)| == |NatToString(rank)| + 1;
    }
  }

  /** The rank mark names the rank: two ranks never show the same mark. */
  lemma MarkDeterminesRank(r1: nat, r2: nat)
    requires r1 >= 1 && r2 >= 1 && Mark(r1) == Mark(r2)
    ensures r1 == r2
  {
    MedalsAreTheTopThree(r1);
    MedalsAreTheTopThree(r2);
    if r1 > 3 && r2 > 3 {
      var s1 := NatToString(r1);
      var s2 := NatToString(r2);
      assert s1 == Mark(r1)[..|s1|];
      assert |s1| == |s2|;
      assert s2 == Mark(r2)[..|s2|];
      ParseNatToString(r1);
      ParseNatToString(r2);
    }
  }
}
