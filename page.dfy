/**
 * The pure helpers of the leaderboard page: the rank badge, one rendered
 * leaderboard row, the whole rendered board, and the `success` check every
 * API call makes on the JSON it gets back.
 */
module LeaderboardPage {
  import opened JsonValues
  import Leaderboard

  /**
   * The medal literals exactly as the page's source text holds them: the
   * UTF-8 bytes of the gold, silver and bronze medal emoji, each byte read
   * as a Windows-1252 character.
   */
  const GoldMedal: string := "\U{00F0}\U{0178}\U{00A5}\U{2021}"
  const SilverMedal: string := "\U{00F0}\U{0178}\U{00A5}\U{02C6}"
  const BronzeMedal: string := "\U{00F0}\U{0178}\U{00A5}\U{2030}"

  /** What `getRankEmoji` returns: a medal string for ranks 1 to 3, the rank number itself otherwise. */
  datatype Badge = Medal(symbol: string) | Number(rank: int)

  function GetRankEmoji(rank: int): (b: Badge)
    ensures rank == 1 ==> b == Medal(GoldMedal)
    ensures rank == 2 ==> b == Medal(SilverMedal)
    ensures rank == 3 ==> b == Medal(BronzeMedal)
    ensures b.Medal? <==> 1 <= rank <= 3
    ensures b.Number? ==> b.rank == rank
  {
    match rank
    case 1 => Medal(GoldMedal)
    case 2 => Medal(SilverMedal)
    case 3 => Medal(BronzeMedal)
    case _ => Number(rank)
  }

  /** No two ranks share a badge, so a badge tells its rank back. */
  lemma RankBadgesDistinct(r1: int, r2: int)
    ensures GetRankEmoji(r1) == GetRankEmoji(r2) <==> r1 == r2
  {
    if r1 != r2 && 1 <= r1 <= 3 && 1 <= r2 <= 3 {
      assert GetRankEmoji(r1).symbol[3] != GetRankEmoji(r2).symbol[3];
    }
  }

  /** The fields one rendered row of the board shows. */
  datatype Item = Item(rank: int, badge: Badge, avatar: Option<string>, name: string,
                       sessions: int, assessments: int, points: int)

  /** `createLeaderboardItem(member, rank)` */
  function CreateLeaderboardItem(member: Leaderboard.Entry, rank: int): (item: Item)
    ensures item.rank == rank && item.badge == GetRankEmoji(rank)
    ensures item.name == member.name && item.avatar == member.avatar
    ensures item.sessions == member.sessionsAttended && item.assessments == member.assessmentsSubmitted
    ensures item.points == member.totalPoints
  {
    Item(rank, GetRankEmoji(rank), member.avatar, member.name,
         member.sessionsAttended, member.assessmentsSubmitted, member.totalPoints)
  }

  /** What the container ends up showing. */
  datatype View = EmptyState | Items(items: seq<Item>)

  /** `renderLeaderboard(containerId, data)` once the container exists. */
  function RenderLeaderboard(data: seq<Leaderboard.Entry>): (v: View)
    ensures v.EmptyState? <==> data == []
    ensures v.Items? ==> |v.items| == |data|
    ensures v.Items? ==> forall i :: 0 <= i < |data| ==>
      && v.items[i].rank == i + 1
      && v.items[i].badge == GetRankEmoji(i + 1)
      && v.items[i].name == data[i].name
      && v.items[i].avatar == data[i].avatar
      && v.items[i].sessions == data[i].sessionsAttended
      && v.items[i].assessments == data[i].assessmentsSubmitted
      && v.items[i].points == data[i].totalPoints
  {
    if data == [] then EmptyState
    else Items(seq(|data|, i requires 0 <= i < |data| => CreateLeaderboardItem(data[i], i + 1)))
  }

  /** Helper of `RenderedBoard`: points that never rise down the list never rise down the page. */
  lemma RenderedPointsOrdered(data: seq<Leaderboard.Entry>)
    requires forall i, j :: 0 <= i < j < |data| ==> data[i].totalPoints >= data[j].totalPoints
    ensures var v := RenderLeaderboard(data);
      v.Items? ==> forall i, j :: 0 <= i < j < |v.items| ==> v.items[i].points >= v.items[j].points
  {
  }

  /** Helper of `RenderedBoard`: an entry of the list is shown under its own name. */
  lemma RenderedShowsEntry(data: seq<Leaderboard.Entry>, i: int)
    requires 0 <= i < |data|
    ensures var v := RenderLeaderboard(data);
      v.Items? && 0 <= i < |v.items| && v.items[i].name == data[i].name
  {
  }

  /**
   * Rendering a board the server computed: the empty state exactly when
   * there are no members, otherwise one row per member, ranks 1, 2, 3, ...
   * with points never rising down the page and the gold medal on top.
   */
  lemma RenderedBoard<K>(members: map<int, Leaderboard.Member>, table: Leaderboard.Table<K>, period: K,
                         data: seq<Leaderboard.Entry>)
    requires Leaderboard.IsBoard(members, table, period, data)
    ensures RenderLeaderboard(data).EmptyState? <==> |members| == 0
    ensures var v := RenderLeaderboard(data);
      v.Items? ==>
        && |v.items| == |members|
        && v.items[0].badge == Medal(GoldMedal)
        && (forall i, j :: 0 <= i < j < |v.items| ==> v.items[i].points >= v.items[j].points)
        && (forall id :: id in members ==>
              exists i :: 0 <= i < |v.items| && v.items[i].name == members[id].name)
  {
    Leaderboard.BoardEmptyIff(members, table, period, data);
    Leaderboard.BoardSize(members, table, period, data);
    RenderedPointsOrdered(data);
    var v := RenderLeaderboard(data);
    forall id | id in members
      ensures exists i :: 0 <= i < |v.items| && v.items[i].name == members[id].name
    {
      Leaderboard.MemberOnBoard(members, table, period, data, id);
      var i :| 0 <= i < |data| && data[i] == Leaderboard.ToEntry(Leaderboard.JoinedRow(members, table, period, id));
      RenderedShowsEntry(data, i);
    }
  }

  /** Either the parsed body, or the message `fetchFromAPI` throws. */
  datatype Fetched<P> = Data(envelope: Envelope<P>) | ApiError(message: string)

  const DefaultApiError: string := "API request failed"

  /** The `success` check of `fetchFromAPI`. */
  function CheckEnvelope<P>(e: Envelope<P>): (r: Fetched<P>)
    ensures r.Data? <==> TruthyBool(e.success)
    ensures r.Data? ==> r.envelope == e
    ensures r.ApiError? ==> r.message != ""
    ensures r.ApiError? && TruthyString(e.error) ==> r.message == e.error.v
    ensures r.ApiError? && !TruthyString(e.error) ==> r.message == DefaultApiError
  {
    if !TruthyBool(e.success) then
      ApiError(if TruthyString(e.error) then e.error.v else DefaultApiError)
    else
      Data(e)
  }

  /**
   * Every server response passes the page's check exactly when the server
   * meant success, and a failure surfaces with the server's own message
   * whenever that message is non-empty.
   */
  lemma ResponsesSurface(r: Leaderboard.Response)
    ensures CheckEnvelope(Leaderboard.ToEnvelope(r)).Data? <==> r.Success?
    ensures r.Success? ==> CheckEnvelope(Leaderboard.ToEnvelope(r)).envelope.body == Some(r.payload)
    ensures r.Failure? && r.error != "" ==> CheckEnvelope(Leaderboard.ToEnvelope(r)) == ApiError(r.error)
  {
  }
}
