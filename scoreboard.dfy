/** The high-score table: a copy of the score list sorted by score, highest
    first, keeping the list order among equal scores (the comparator sort of
    JavaScript arrays is stable); the first five entries are shown with a
    rank badge, and the current player's rows are highlighted. */
module Scoreboard {

  import opened Optional

  datatype ScoreEntry = ScoreEntry(
    id: Option<string>,
    playerName: string,
    playerAge: int,
    playerImage: Option<string>,
    score: int,
    date: string)

  const ShownRows: nat := 5

  // ---------------------------------------------------------------------
  // Sorting

  predicate SortedDesc(s: seq<ScoreEntry>) {
    forall i, j :: 0 <= i < j < |s| ==> s[i].score >= s[j].score
  }

  /** The entries with a given score, in list order. */
  function WithScore(s: seq<ScoreEntry>, k: int): seq<ScoreEntry> {
    if s == [] then []
    else (if s[0].score == k then [s[0]] else []) + WithScore(s[1..], k)
  }

  /** Puts `e` before the first entry whose score is not above its own. */
  function Insert(e: ScoreEntry, t: seq<ScoreEntry>): (r: seq<ScoreEntry>)
    ensures |r| == |t| + 1
    ensures r[0] == e || (t != [] && r[0] == t[0])
  {
    if t == [] || t[0].score <= e.score then [e] + t
    else [t[0]] + Insert(e, t[1..])
  }

  /** `[...scores].sort((a, b) => b.score - a.score)`. */
  function SortByScore(s: seq<ScoreEntry>): (r: seq<ScoreEntry>)
    ensures |r| == |s|
  {
    if s == [] then [] else Insert(s[0], SortByScore(s[1..]))
  }

  lemma {:induction false} InsertPermutes(e: ScoreEntry, t: seq<ScoreEntry>)
    ensures multiset(Insert(e, t)) == multiset([e] + t)
  {
    if t != [] && t[0].score > e.score {
      InsertPermutes(e, t[1..]);
      assert t == [t[0]] + t[1..];
    }
  }

  lemma {:induction false} InsertSorted(e: ScoreEntry, t: seq<ScoreEntry>)
    requires SortedDesc(t)
    ensures SortedDesc(Insert(e, t))
  {
    if t != [] && t[0].score > e.score {
      InsertSorted(e, t[1..]);
      var r := Insert(e, t[1..]);
      assert r[0].score <= t[0].score;
      forall i, j | 0 <= i < j < |[t[0]] + r| ensures ([t[0]] + r)[i].score >= ([t[0]] + r)[j].score {
        if i == 0 && j > 1 {
          assert r[0].score >= r[j - 1].score;
        }
      }
    }
  }

  lemma {:induction false} WithScoreAppend(a: seq<ScoreEntry>, b: seq<ScoreEntry>, k: int)
    ensures WithScore(a + b, k) == WithScore(a, k) + WithScore(b, k)
  {
    if a == [] {
      assert a + b == b;
    } else {
      var h := if a[0].score == k then [a[0]] else [];
      assert (a + b)[0] == a[0];
      assert (a + b)[1..] == a[1..] + b;
      assert WithScore(a + b, k) == h + WithScore(a[1..] + b, k);
      WithScoreAppend(a[1..], b, k);
      assert WithScore(a, k) == h + WithScore(a[1..], k);
    }
  }

  /** Filtering by score through a leading entry. */
  lemma WithScoreCons(x: ScoreEntry, rest: seq<ScoreEntry>, k: int)
    ensures WithScore([x] + rest, k) == (if x.score == k then [x] else []) + WithScore(rest, k)
  {
    assert ([x] + rest)[1..] == rest;
  }

  /** Inserting never reorders entries of equal score: `e` lands in front
      of every entry whose score equals its own. */
  lemma {:induction false} InsertStable(e: ScoreEntry, t: seq<ScoreEntry>, k: int)
    ensures WithScore(Insert(e, t), k) == WithScore([e] + t, k)
  {
    if t == [] || t[0].score <= e.score {
    } else {
      InsertStable(e, t[1..], k);
      assert t == [t[0]] + t[1..];
      WithScoreCons(t[0], Insert(e, t[1..]), k);
      WithScoreCons(e, t[1..], k);
      WithScoreCons(e, t, k);
      WithScoreCons(t[0], t[1..], k);
      if e.score == k {
        assert t[0].score != k;
      }
    }
  }

  /** The sorted copy holds exactly the entries of the list. */
  lemma {:induction false} SortPermutes(s: seq<ScoreEntry>)
    ensures multiset(SortByScore(s)) == multiset(s)
  {
    if s != [] {
      SortPermutes(s[1..]);
      InsertPermutes(s[0], SortByScore(s[1..]));
      assert s == [s[0]] + s[1..];
    }
  }

  /** The sorted copy is highest score first. */
  lemma {:induction false} SortOrders(s: seq<ScoreEntry>)
    ensures SortedDesc(SortByScore(s))
  {
    if s != [] {
      SortOrders(s[1..]);
      InsertSorted(s[0], SortByScore(s[1..]));
    }
  }

  /** Entries of equal score keep their order from the list. */
  lemma {:induction false} SortStable(s: seq<ScoreEntry>, k: int)
    ensures WithScore(SortByScore(s), k) == WithScore(s, k)
  {
    if s != [] {
      SortStable(s[1..], k);
      InsertStable(s[0], SortByScore(s[1..]), k);
      WithScoreAppend([s[0]], SortByScore(s[1..]), k);
      WithScoreAppend([s[0]], s[1..], k);
      assert s == [s[0]] + s[1..];
    }
  }

  // ---------------------------------------------------------------------
  // The table

  /** The first cell of a row: trophy, medal and award for the top three,
      the 1-based position after that. */
  datatype Badge = Trophy | Medal | Award | Position(n: nat)

  function RankBadge(index: nat): (b: Badge)
    ensures index == 0 <==> b == Trophy
    ensures index == 1 <==> b == Medal
    ensures index == 2 <==> b == Award
    ensures index >= 3 <==> b == Position(index + 1)
  {
    if index == 0 then Trophy
    else if index == 1 then Medal
    else if index == 2 then Award
    else Position(index + 1)
  }

  predicate IsCurrentPlayer(currentPlayerName: Option<string>, e: ScoreEntry) {
    currentPlayerName == Some(e.playerName)
  }

  datatype Row = Row(badge: Badge, entry: ScoreEntry, highlighted: bool)

  /** The rendered table body: up to five ranked rows and, for an empty
      list, the "No scores yet" row. */
  datatype Table = Table(rows: seq<Row>, noScoresRow: bool)

  function TopRows(sorted: seq<ScoreEntry>, currentPlayerName: Option<string>): (rows: seq<Row>)
    ensures |rows| == if |sorted| < ShownRows then |sorted| else ShownRows
  {
    var top := if |sorted| < ShownRows then sorted else sorted[..ShownRows];
    seq(|top|, i requires 0 <= i < |top| =>
      Row(RankBadge(i), top[i], IsCurrentPlayer(currentPlayerName, top[i])))
  }

  function Render(scores: seq<ScoreEntry>, currentPlayerName: Option<string>): Table {
    var sorted := SortByScore(scores);
    Table(TopRows(sorted, currentPlayerName), |sorted| == 0)
  }

  /** The shown rows are the first `min(5, n)` entries of the sorted copy,
      each with its rank badge and highlighted exactly for the current
      player; the empty-list row appears exactly for an empty list. */
  lemma RenderRows(scores: seq<ScoreEntry>, currentPlayerName: Option<string>)
    ensures var t := Render(scores, currentPlayerName);
      && |t.rows| == (if |scores| < ShownRows then |scores| else ShownRows)
      && (forall i :: 0 <= i < |t.rows| ==>
            && t.rows[i].entry == SortByScore(scores)[i]
            && t.rows[i].badge == RankBadge(i)
            && (t.rows[i].highlighted <==> currentPlayerName == Some(t.rows[i].entry.playerName)))
      && (t.noScoresRow <==> scores == [])
  {
    SortPermutes(scores);
  }

  /** The shown rows run highest score first, and no entry left out of the
      table scores above a shown one. */
  lemma ShownAreBest(scores: seq<ScoreEntry>, currentPlayerName: Option<string>, j: nat)
    requires ShownRows <= j < |scores|
    ensures var t := Render(scores, currentPlayerName);
      && (forall a, b :: 0 <= a < b < |t.rows| ==> t.rows[a].entry.score >= t.rows[b].entry.score)
      && (forall a :: 0 <= a < |t.rows| ==> t.rows[a].entry.score >= SortByScore(scores)[j].score)
  {
    SortPermutes(scores);
    SortOrders(scores);
  }
}
