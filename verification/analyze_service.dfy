/** The daily social-mention aggregation of the analysis service (AnalyzeService.getSocialData).

    Per-day, per-platform keyword counts and per-day sentiment counts are folded into two tables keyed
    by day, then read back one calendar day at a time from the start day to the end day inclusive. Each
    emitted day is compared with the day before it, both for the mention total and for the
    positive-minus-negative sentiment balance. Days are integers (consecutive days differ by one); the
    rows are the answers of the keyword service and the sentiment repository, given as parameters.
 */
module AnalyzeService {
  import opened Results

  /** Mentions of a keyword on one day, per platform, and their total. */
  datatype MentionCountInfo = MentionCountInfo(daum: int, naver: int, twitter: int, total: int)

  /** Sentiment counts of a keyword on one day. */
  datatype GrapeQuotientInfo = GrapeQuotientInfo(positive: int, negative: int, neutral: int)

  /** The TYPE_UP / TYPE_SAME / TYPE_DOWN codes of the day-over-day comparison. */
  datatype CompareType = TypeUp | TypeSame | TypeDown

  /** A day-over-day comparison: the direction and the size of the change. */
  datatype CompareInfoVo = CompareInfoVo(direction: CompareType, changed: int)

  datatype CompareInfo = CompareInfo(mention: CompareInfoVo, grapeQuotient: CompareInfoVo)

  /** One emitted day. */
  datatype Social = Social(date: int, mentionCountInfo: MentionCountInfo,
                           grapeQuotientInfo: GrapeQuotientInfo, compareInfo: CompareInfo)

  /** A keyword-service row: how often the keyword was counted on a platform on a day. */
  datatype KeywordCount = KeywordCount(regDt: int, platformCode: string, count: int)

  /** The sign of a sentiment score; a score that is neither above nor below zero counts as neutral. */
  datatype Sign = Positive | Negative | Neutral

  /** A sentiment-repository row: how many items on a day had a score of the given sign. */
  datatype SentimentCount = SentimentCount(regDt: int, score: Sign, count: int)

  /** The local codes of the three platforms, as the common-code service reports them. */
  datatype PlatformCodes = PlatformCodes(daum: string, naver: string, twitter: string)

  datatype Platform = Daum | Naver | Twitter

  const NoMentions := MentionCountInfo(0, 0, 0, 0)

  const NoSentiment := GrapeQuotientInfo(0, 0, 0)

  /** The platform a row's code selects, matched against DAUM, then NAVER, then TWITTER; None for any other code. */
  function Classify(codes: PlatformCodes, platformCode: string): Option<Platform>
  {
    if platformCode == codes.daum then Some(Daum)
    else if platformCode == codes.naver then Some(Naver)
    else if platformCode == codes.twitter then Some(Twitter)
    else None
  }

  function CountOf(info: MentionCountInfo, p: Platform): int
  {
    match p
    case Daum => info.daum
    case Naver => info.naver
    case Twitter => info.twitter
  }

  function QuotientOf(info: GrapeQuotientInfo, g: Sign): int
  {
    match g
    case Positive => info.positive
    case Negative => info.negative
    case Neutral => info.neutral
  }

  /** The sentiment balance the comparison uses: positive minus negative. */
  function Balance(info: GrapeQuotientInfo): int
  {
    Difference(info.positive, info.negative)
  }

  /** Subtraction as a function of its own: the balance then stays a single term wherever it is read
      from a map entry, which keeps the day-loop proofs small. */
  function Difference(a: int, b: int): int
  {
    a - b
  }

  /** setMentionCountInfo: the row's count replaces the count of the platform its code selects, and the
      total is recomputed from the three platform counts. */
  function SetMentionCountInfo(info: MentionCountInfo, codes: PlatformCodes, platformCode: string, count: int)
    : (r: MentionCountInfo)
    ensures forall p :: CountOf(r, p) == if Classify(codes, platformCode) == Some(p) then count else CountOf(info, p)
    ensures r.total == r.daum + r.naver + r.twitter
  {
    var updated := match Classify(codes, platformCode)
      case Some(Daum) => info.(daum := count)
      case Some(Naver) => info.(naver := count)
      case Some(Twitter) => info.(twitter := count)
      case None => info;
    updated.(total := updated.daum + updated.naver + updated.twitter)
  }

  /** setGrapeQuotientInfo: the row's count replaces the count of the score's sign. */
  function SetGrapeQuotientInfo(info: GrapeQuotientInfo, score: Sign, count: int): (r: GrapeQuotientInfo)
    ensures forall g :: QuotientOf(r, g) == if g == score then count else QuotientOf(info, g)
  {
    match score
    case Positive => info.(positive := count)
    case Negative => info.(negative := count)
    case Neutral => info.(neutral := count)
  }

  /** The keyword-count map: rows folded in order, each one updating its day's entry (a zero entry
      if the day has none yet). */
  function MentionTable(rows: seq<KeywordCount>, codes: PlatformCodes): map<int, MentionCountInfo>
    decreases |rows|
  {
    if rows == [] then map[]
    else
      var table := MentionTable(rows[..|rows| - 1], codes);
      var row := rows[|rows| - 1];
      var current := if row.regDt in table then table[row.regDt] else NoMentions;
      table[row.regDt := SetMentionCountInfo(current, codes, row.platformCode, row.count)]
  }

  /** The sentiment-count map, folded the same way. */
  function SentimentTable(rows: seq<SentimentCount>): map<int, GrapeQuotientInfo>
    decreases |rows|
  {
    if rows == [] then map[]
    else
      var table := SentimentTable(rows[..|rows| - 1]);
      var row := rows[|rows| - 1];
      var current := if row.regDt in table then table[row.regDt] else NoSentiment;
      table[row.regDt := SetGrapeQuotientInfo(current, row.score, row.count)]
  }

  /** Reference: the count of the LAST row for `day` whose code selects platform p, or 0 if none. */
  function LastMention(rows: seq<KeywordCount>, codes: PlatformCodes, day: int, p: Platform): int
    decreases |rows|
  {
    if rows == [] then 0
    else if rows[|rows| - 1].regDt == day && Classify(codes, rows[|rows| - 1].platformCode) == Some(p) then
      rows[|rows| - 1].count
    else LastMention(rows[..|rows| - 1], codes, day, p)
  }

  /** Reference: the count of the LAST row for `day` whose score has sign g, or 0 if none. */
  function LastSentiment(rows: seq<SentimentCount>, day: int, g: Sign): int
    decreases |rows|
  {
    if rows == [] then 0
    else if rows[|rows| - 1].regDt == day && rows[|rows| - 1].score == g then rows[|rows| - 1].count
    else LastSentiment(rows[..|rows| - 1], day, g)
  }

  /** Reference: the mention total of a day, from the rows. */
  function DayTotal(rows: seq<KeywordCount>, codes: PlatformCodes, day: int): int
  {
    LastMention(rows, codes, day, Daum) + LastMention(rows, codes, day, Naver) + LastMention(rows, codes, day, Twitter)
  }

  /** Reference: the sentiment balance of a day, from the rows. */
  function DayBalance(rows: seq<SentimentCount>, day: int): int
  {
    Difference(LastSentiment(rows, day, Positive), LastSentiment(rows, day, Negative))
  }

  /** The keyword-count map holds exactly the days that have rows; on such a day each platform holds the
      last row's count for it (later rows overwrite, they do not add) and the total is their sum. */
  lemma {:induction false} MentionTableLastRowWins(rows: seq<KeywordCount>, codes: PlatformCodes, day: int)
    ensures day in MentionTable(rows, codes) <==> exists i :: 0 <= i < |rows| && rows[i].regDt == day
    ensures day in MentionTable(rows, codes) ==>
              var info := MentionTable(rows, codes)[day];
              && (forall p :: CountOf(info, p) == LastMention(rows, codes, day, p))
              && info.total == info.daum + info.naver + info.twitter
    decreases |rows|
  {
    if rows != [] {
      var prefix := rows[..|rows| - 1];
      MentionTableLastRowWins(prefix, codes, day);
      LastMentionAbsent(prefix, codes, day);
      if day in MentionTable(prefix, codes) {
        var i :| 0 <= i < |prefix| && prefix[i].regDt == day;
        assert rows[i].regDt == day;
      }
      if exists i :: 0 <= i < |rows| && rows[i].regDt == day {
        var i :| 0 <= i < |rows| && rows[i].regDt == day;
        if i < |prefix| {
          assert prefix[i].regDt == day;
        }
      }
    }
  }

  /** The sentiment-count map holds exactly the days that have rows; on such a day each sign holds the
      last row's count for it. */
  lemma {:induction false} SentimentTableLastRowWins(rows: seq<SentimentCount>, day: int)
    ensures day in SentimentTable(rows) <==> exists i :: 0 <= i < |rows| && rows[i].regDt == day
    ensures day in SentimentTable(rows) ==>
              forall g :: QuotientOf(SentimentTable(rows)[day], g) == LastSentiment(rows, day, g)
    decreases |rows|
  {
    if rows != [] {
      var prefix := rows[..|rows| - 1];
      SentimentTableLastRowWins(prefix, day);
      LastSentimentAbsent(prefix, day);
      if day in SentimentTable(prefix) {
        var i :| 0 <= i < |prefix| && prefix[i].regDt == day;
        assert rows[i].regDt == day;
      }
      if exists i :: 0 <= i < |rows| && rows[i].regDt == day {
        var i :| 0 <= i < |rows| && rows[i].regDt == day;
        if i < |prefix| {
          assert prefix[i].regDt == day;
        }
      }
    }
  }

  /** The change a comparison reports, signed: negative for TYPE_DOWN. */
  function Delta(vo: CompareInfoVo): int
  {
    if vo.direction == TypeDown then -vo.changed else vo.changed
  }

  /** The three-way day-over-day rule: UP when the count grew, SAME when it did not move, DOWN when it
      shrank, with the non-negative size of the change; applying the change to `past` gives `now`. */
  function CompareCounts(past: int, now: int): (r: CompareInfoVo)
    ensures r.direction == TypeUp <==> now > past
    ensures r.direction == TypeSame <==> now == past
    ensures past + Delta(r) == now
  {
    if now > past then CompareInfoVo(TypeUp, now - past)
    else if now == past then CompareInfoVo(TypeSame, 0)
    else CompareInfoVo(TypeDown, past - now)
  }

  /** compareKeywrodCount: UP, SAME or DOWN as the mention total grew, held or shrank, with the change
      that takes the previous total to the current one. */
  function CompareKeywordCount(past: MentionCountInfo, now: MentionCountInfo): (r: CompareInfoVo)
    ensures r.direction == TypeUp <==> now.total > past.total
    ensures r.direction == TypeSame <==> now.total == past.total
    ensures past.total + Delta(r) == now.total
  {
    CompareCounts(past.total, now.total)
  }

  /** compareSentimentCount: the same rule on the positive-minus-negative balances. */
  function CompareSentimentCount(past: GrapeQuotientInfo, now: GrapeQuotientInfo): (r: CompareInfoVo)
    ensures r.direction == TypeUp <==> now.positive - now.negative > past.positive - past.negative
    ensures r.direction == TypeSame <==> now.positive - now.negative == past.positive - past.negative
    ensures past.positive - past.negative + Delta(r) == now.positive - now.negative
  {
    CompareCounts(Balance(past), Balance(now))
  }

  /** Comparing in the other order reports the same change in the opposite direction. */
  lemma CompareCountsAntisymmetric(a: int, b: int)
    ensures CompareCounts(a, b).changed == CompareCounts(b, a).changed
    ensures CompareCounts(a, b).direction == TypeUp <==> CompareCounts(b, a).direction == TypeDown
    ensures CompareCounts(a, b).direction == TypeSame <==> CompareCounts(b, a).direction == TypeSame
  {
  }

  /** What the day loop leaves in the keyword-count map for `day`: the table entry, or zeros. */
  function MentionOn(table: map<int, MentionCountInfo>, day: int): MentionCountInfo
  {
    if day in table then table[day] else NoMentions
  }

  /** What the day loop leaves in the sentiment-count map for `day`: the table entry, or zeros. */
  function GrapeOn(table: map<int, GrapeQuotientInfo>, day: int): GrapeQuotientInfo
  {
    if day in table then table[day] else NoSentiment
  }

  /** The sum of the three platform counts. */
  function PlatformSum(info: MentionCountInfo): int
  {
    info.daum + info.naver + info.twitter
  }

  /** A copy of the counts with the total recomputed from the three platform counts. */
  function Recount(info: MentionCountInfo): MentionCountInfo
  {
    MentionCountInfo(info.daum, info.naver, info.twitter, PlatformSum(info))
  }

  /** The counts the day loop emits for `day`: a copy of the map entry with its total recomputed, or
      zeros when the map has no entry for the day. */
  function DayCounts(table: map<int, MentionCountInfo>, day: int): MentionCountInfo
  {
    if day in table then Recount(table[day]) else NoMentions
  }

  /** The entry emitted for `day`: its counts and its comparison with the previous day's map entries. */
  function ExpectedSocial(mentions: map<int, MentionCountInfo>, sentiments: map<int, GrapeQuotientInfo>, day: int)
    : Social
  {
    Social(day,
           DayCounts(mentions, day),
           GrapeOn(sentiments, day),
           CompareInfo(CompareKeywordCount(MentionOn(mentions, day - 1), MentionOn(mentions, day)),
                       CompareSentimentCount(GrapeOn(sentiments, day - 1), GrapeOn(sentiments, day))))
  }

  /** getSocialData: one entry per day from start to end inclusive, each as ExpectedSocial describes. */
  method GetSocialData(keywordCounts: seq<KeywordCount>, sentimentCounts: seq<SentimentCount>,
                       codes: PlatformCodes, start: int, end: int)
    returns (socials: seq<Social>)
    ensures |socials| == if start <= end then end - start + 1 else 0
    ensures forall i :: 0 <= i < |socials| ==>
              socials[i] == ExpectedSocial(MentionTable(keywordCounts, codes), SentimentTable(sentimentCounts), start + i)
  {
    socials := CollectDays(MentionTable(keywordCounts, codes), SentimentTable(sentimentCounts), start, end);
  }

  /** A day map grown from a folded table by zero entries: it holds every day of the table, and each
      day it holds maps to the table's entry, or to `zero` when the table has none. */
  ghost predicate ExtendsTable<V(!new)>(m: map<int, V>, table: map<int, V>, zero: V)
  {
    && (forall d :: d in table ==> d in m)
    && (forall d :: d in m ==> m[d] == (if d in table then table[d] else zero))
  }

  /** The containsKey-else-put-zero step of the day loop: the entry for `day`, a zero entry being put
      first when the map has none. The map stays an extension of the table and loses no day. */
  method Fill<V(!new)>(m: map<int, V>, ghost table: map<int, V>, zero: V, day: int)
    returns (m': map<int, V>, entry: V)
    requires ExtendsTable(m, table, zero)
    ensures ExtendsTable(m', table, zero)
    ensures day in m' && entry == m'[day]
    ensures entry == if day in table then table[day] else zero
    ensures forall d :: d in m ==> d in m'
  {
    if day in m {
      m' := m;
    } else {
      m' := m[day := zero];
    }
    entry := m'[day];
  }

  /** One pass of the day loop: the entries for `day` (zero entries being put when missing), the day's
      counts with the total recomputed, and its comparison with the day before, read from the maps. */
  method EmitDay(keywordCountMap: map<int, MentionCountInfo>, sentimentCountMap: map<int, GrapeQuotientInfo>,
                 ghost mentionTable: map<int, MentionCountInfo>, ghost sentimentTable: map<int, GrapeQuotientInfo>,
                 day: int)
    returns (keywordCountMap': map<int, MentionCountInfo>, sentimentCountMap': map<int, GrapeQuotientInfo>,
             social: Social)
    requires ExtendsTable(keywordCountMap, mentionTable, NoMentions)
    requires ExtendsTable(sentimentCountMap, sentimentTable, NoSentiment)
    requires day - 1 in keywordCountMap && day - 1 in sentimentCountMap
    ensures ExtendsTable(keywordCountMap', mentionTable, NoMentions)
    ensures ExtendsTable(sentimentCountMap', sentimentTable, NoSentiment)
    ensures day in keywordCountMap' && day in sentimentCountMap'
    ensures social == ExpectedSocial(mentionTable, sentimentTable, day)
  {
    var today;
    keywordCountMap', today := Fill(keywordCountMap, mentionTable, NoMentions, day);
    var mentionCountInfo := Recount(today);
    var grapeQuotientInfo;
    sentimentCountMap', grapeQuotientInfo := Fill(sentimentCountMap, sentimentTable, NoSentiment, day);

    var past := day - 1;
    var mention := CompareKeywordCount(keywordCountMap'[past], keywordCountMap'[day]);
    var grapeQuotient := CompareSentimentCount(sentimentCountMap'[past], sentimentCountMap'[day]);
    social := Social(day, mentionCountInfo, grapeQuotientInfo, CompareInfo(mention, grapeQuotient));
  }

  /** The day loop of getSocialData over the two folded maps. The day before start is given a zero entry
      when it has none, and every day visited is given one, so the previous-day lookup never misses. */
  method CollectDays(mentionTable: map<int, MentionCountInfo>, sentimentTable: map<int, GrapeQuotientInfo>,
                     start: int, end: int)
    returns (socials: seq<Social>)
    ensures |socials| == if start <= end then end - start + 1 else 0
    ensures forall i :: 0 <= i < |socials| ==> socials[i] == ExpectedSocial(mentionTable, sentimentTable, start + i)
  {
    var keywordCountMap, sentimentCountMap := mentionTable, sentimentTable;
    var mentionBefore, grapeBefore;
    keywordCountMap, mentionBefore := Fill(keywordCountMap, mentionTable, NoMentions, start - 1);
    sentimentCountMap, grapeBefore := Fill(sentimentCountMap, sentimentTable, NoSentiment, start - 1);

    socials := [];
    var now := start;
    while now <= end
      invariant start <= now && (now <= end + 1 || now == start)
      invariant |socials| == now - start
      invariant forall i :: 0 <= i < |socials| ==> socials[i] == ExpectedSocial(mentionTable, sentimentTable, start + i)
      invariant now - 1 in keywordCountMap && now - 1 in sentimentCountMap
      invariant ExtendsTable(keywordCountMap, mentionTable, NoMentions)
      invariant ExtendsTable(sentimentCountMap, sentimentTable, NoSentiment)
      decreases end - now
    {
      var social;
      keywordCountMap, sentimentCountMap, social := EmitDay(keywordCountMap, sentimentCountMap,
                                                            mentionTable, sentimentTable, now);
      socials := socials + [social];
      now := now + 1;
    }
  }

  /** The keyword-count map entry for a day, zeros when it has none, holds that day's last row for each
      platform, and its total is their sum; a day without rows reads as zeros. */
  lemma MentionOnFromRows(rows: seq<KeywordCount>, codes: PlatformCodes, day: int)
    ensures forall p :: CountOf(MentionOn(MentionTable(rows, codes), day), p) == LastMention(rows, codes, day, p)
    ensures MentionOn(MentionTable(rows, codes), day).total == DayTotal(rows, codes, day)
    ensures (forall i :: 0 <= i < |rows| ==> rows[i].regDt != day) ==> MentionOn(MentionTable(rows, codes), day) == NoMentions
  {
    MentionTableLastRowWins(rows, codes, day);
    LastMentionAbsent(rows, codes, day);
    var info := MentionOn(MentionTable(rows, codes), day);
    assert CountOf(info, Daum) == LastMention(rows, codes, day, Daum);
    assert CountOf(info, Naver) == LastMention(rows, codes, day, Naver);
    assert CountOf(info, Twitter) == LastMention(rows, codes, day, Twitter);
  }

  /** The sentiment-count map entry for a day, zeros when it has none, holds that day's last row for
      each sign, and its balance is theirs; a day without rows reads as zeros. */
  lemma GrapeOnFromRows(rows: seq<SentimentCount>, day: int)
    ensures forall g :: QuotientOf(GrapeOn(SentimentTable(rows), day), g) == LastSentiment(rows, day, g)
    ensures Balance(GrapeOn(SentimentTable(rows), day)) == DayBalance(rows, day)
    ensures (forall i :: 0 <= i < |rows| ==> rows[i].regDt != day) ==> GrapeOn(SentimentTable(rows), day) == NoSentiment
  {
    SentimentTableLastRowWins(rows, day);
    LastSentimentAbsent(rows, day);
    var info := GrapeOn(SentimentTable(rows), day);
    assert QuotientOf(info, Positive) == LastSentiment(rows, day, Positive);
    assert QuotientOf(info, Negative) == LastSentiment(rows, day, Negative);
  }

  /** The mention part of each emitted day agrees with the raw keyword rows: every platform count is that
      day's last row for the platform, the total is their sum, a day without rows is all zeros, and the
      comparison steps from the previous day's total (zero when that day has no rows) to this day's. */
  lemma MentionDayFromRows(keywordCounts: seq<KeywordCount>, sentimentCounts: seq<SentimentCount>,
                           codes: PlatformCodes, day: int)
    ensures var social := ExpectedSocial(MentionTable(keywordCounts, codes), SentimentTable(sentimentCounts), day);
            var mention := social.mentionCountInfo;
            && social.date == day
            && (forall p :: CountOf(mention, p) == LastMention(keywordCounts, codes, day, p))
            && mention.total == DayTotal(keywordCounts, codes, day)
            && ((forall i :: 0 <= i < |keywordCounts| ==> keywordCounts[i].regDt != day) ==> mention == NoMentions)
            && social.compareInfo.mention
               == CompareCounts(DayTotal(keywordCounts, codes, day - 1), DayTotal(keywordCounts, codes, day))
  {
    MentionOnFromRows(keywordCounts, codes, day);
    MentionOnFromRows(keywordCounts, codes, day - 1);
  }

  /** The sentiment part of each emitted day agrees with the raw sentiment rows: every sign's count is
      that day's last row for the sign, a day without rows is all zeros, and the comparison steps from the
      previous day's balance (zero when that day has no rows) to this day's. */
  lemma SentimentDayFromRows(keywordCounts: seq<KeywordCount>, sentimentCounts: seq<SentimentCount>,
                             codes: PlatformCodes, day: int)
    ensures var social := ExpectedSocial(MentionTable(keywordCounts, codes), SentimentTable(sentimentCounts), day);
            && (forall g :: QuotientOf(social.grapeQuotientInfo, g) == LastSentiment(sentimentCounts, day, g))
            && ((forall i :: 0 <= i < |sentimentCounts| ==> sentimentCounts[i].regDt != day) ==>
                  social.grapeQuotientInfo == NoSentiment)
            && social.compareInfo.grapeQuotient
               == CompareCounts(DayBalance(sentimentCounts, day - 1), DayBalance(sentimentCounts, day))
  {
    GrapeOnFromRows(sentimentCounts, day);
    GrapeOnFromRows(sentimentCounts, day - 1);
  }

  /** A day without rows has no last row for any platform. */
  lemma {:induction false} LastMentionAbsent(rows: seq<KeywordCount>, codes: PlatformCodes, day: int)
    ensures (forall i :: 0 <= i < |rows| ==> rows[i].regDt != day) ==>
              forall p :: LastMention(rows, codes, day, p) == 0
    decreases |rows|
  {
    if rows != [] && forall i :: 0 <= i < |rows| ==> rows[i].regDt != day {
      var prefix := rows[..|rows| - 1];
      assert forall i :: 0 <= i < |prefix| ==> prefix[i].regDt != day by {
        forall i | 0 <= i < |prefix| ensures prefix[i].regDt != day {
          assert prefix[i] == rows[i];
        }
      }
      LastMentionAbsent(prefix, codes, day);
    }
  }

  /** A day without rows has no last row for any sign. */
  lemma {:induction false} LastSentimentAbsent(rows: seq<SentimentCount>, day: int)
    ensures (forall i :: 0 <= i < |rows| ==> rows[i].regDt != day) ==>
              forall g :: LastSentiment(rows, day, g) == 0
    decreases |rows|
  {
    if rows != [] && forall i :: 0 <= i < |rows| ==> rows[i].regDt != day {
      var prefix := rows[..|rows| - 1];
      assert forall i :: 0 <= i < |prefix| ==> prefix[i].regDt != day by {
        forall i | 0 <= i < |prefix| ensures prefix[i].regDt != day {
          assert prefix[i] == rows[i];
        }
      }
      LastSentimentAbsent(prefix, day);
    }
  }

  // ---------------------------------------------------------------------------------------------------
  // The comparison as written compares boxed Integer values with `==`.

  /** Reference equality of two boxed ints produced by Integer.valueOf: the same object exactly when the
      values are equal and inside the cache range [-128, 127] that valueOf is required to share. */
  predicate BoxedSame(a: int, b: int)
  {
    a == b && -128 <= a <= 127
  }

  /** The comparison with its SAME test written as a reference comparison of boxed Integers. */
  function CompareCountsAsWritten(past: int, now: int): (r: CompareInfoVo)
    ensures r.changed >= 0
    ensures r.direction == TypeSame ==> now == past
  {
    if now > past then CompareInfoVo(TypeUp, now - past)
    else if BoxedSame(now, past) then CompareInfoVo(TypeSame, 0)
    else CompareInfoVo(TypeDown, past - now)
  }

  /** The boxed comparison departs from the intended rule exactly on equal counts outside the cache
      range, which it reports as DOWN by 0. */
  lemma AsWrittenDepartsOnlyOutsideCache(past: int, now: int)
    ensures CompareCountsAsWritten(past, now) != CompareCounts(past, now) <==>
              now == past && !(-128 <= past <= 127)
    ensures now == past && !(-128 <= past <= 127) ==> CompareCountsAsWritten(past, now) == CompareInfoVo(TypeDown, 0)
  {
  }

  /** Two days with 200 mentions each: reported as DOWN by 0 as written, SAME by 0 as intended. */
  lemma EqualBusyDaysReportedDown()
    ensures CompareCountsAsWritten(200, 200) == CompareInfoVo(TypeDown, 0)
    ensures CompareCounts(200, 200) == CompareInfoVo(TypeSame, 0)
  {
  }
}
