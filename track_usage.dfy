/**
 * tools/track-usage.mjs: record one use of a skill in the usage stats,
 * a map from skill id to a record holding a use count, the day of the
 * last use and the most recent days of use, newest first, at most 90.
 *
 * The command-line argument, the stats file (absent or parsed) and the
 * current day are parameters; the method returns the stats to be written.
 */
module TrackUsage {
  import opened Wrappers

  datatype UsageRecord = UsageRecord(count: nat, lastUsed: Option<string>, history: seq<string>)

  type Stats = map<string, UsageRecord>

  /** The number of uses a record's history keeps (a day used twice is kept twice). */
  const HistoryLimit: nat := 90

  /** `{ count: 0, lastUsed: null, history: [] }` */
  const FreshRecord := UsageRecord(0, None, [])

  /** The run stopped before touching the stats: no skill id was given. */
  datatype UsageError = MissingSkillId

  /** The record of `id`, or a fresh one when there is none. */
  function RecordOf(stats: Stats, id: string): UsageRecord {
    if id in stats then stats[id] else FreshRecord
  }

  function Min(a: nat, b: nat): nat {
    if a < b then a else b
  }

  /** The record after one more use on `today`: the update of lines 24-29. */
  function Touch(rec: UsageRecord, today: string): (r: UsageRecord)
    ensures r.count == rec.count + 1
    ensures r.lastUsed == Some(today)
    ensures |r.history| == Min(|rec.history| + 1, HistoryLimit)
    ensures r.history[0] == today
    ensures r.history == ([today] + rec.history)[..|r.history|]
  {
    var h := [today] + rec.history;
    UsageRecord(rec.count + 1, Some(today), if |h| > HistoryLimit then h[..HistoryLimit] else h)
  }

  /**
   * One run of the script: the skill id is `process.argv[2]` (absent or
   * empty stops the run), `stored` is the parsed stats file (`None` when
   * it does not exist).
   */
  method Track(skillId: Option<string>, stored: Option<Stats>, today: string) returns (r: Result<Stats, UsageError>)
    ensures r.Err? <==> skillId.None? || skillId.value == ""
    ensures r.Ok? ==>
      var stats := if stored.Some? then stored.value else map[];
      r.value == stats[skillId.value := Touch(RecordOf(stats, skillId.value), today)]
  {
    if skillId.None? || skillId.value == "" {
      return Err(MissingSkillId);
    }
    var id := skillId.value;
    var stats: Stats := map[];
    if stored.Some? {
      stats := stored.value;
    }
    if id !in stats {
      stats := stats[id := FreshRecord];
    }
    stats := stats[id := stats[id].(count := stats[id].count + 1)];
    stats := stats[id := stats[id].(lastUsed := Some(today))];
    stats := stats[id := stats[id].(history := [today] + stats[id].history)];
    if |stats[id].history| > HistoryLimit {
      stats := stats[id := stats[id].(history := stats[id].history[..HistoryLimit])];
    }
    r := Ok(stats);
  }

  /**
   * After a run the used skill has a record, and every other skill keeps
   * its record as it was.
   */
  lemma TrackKeepsOthers(stats: Stats, id: string, today: string)
    ensures var after := stats[id := Touch(RecordOf(stats, id), today)];
      && after.Keys == stats.Keys + {id}
      && (forall other :: other in stats && other != id ==> after[other] == stats[other])
  {
  }

  // ---- repeated use ----

  function Reverse(xs: seq<string>): (r: seq<string>)
    ensures |r| == |xs|
  {
    if xs == [] then [] else [xs[|xs| - 1]] + Reverse(xs[..|xs| - 1])
  }

  /** The record after uses on each of `days` in turn. */
  function TouchAll(rec: UsageRecord, days: seq<string>): UsageRecord {
    if days == [] then rec else Touch(TouchAll(rec, days[..|days| - 1]), days[|days| - 1])
  }

  /**
   * Starting from no record, uses on `days` leave the count of uses, the
   * last day, and as history the days of the most recent 90 uses at most, newest first:
   * the history is a bounded queue.
   */
  lemma {:induction false} UsesFromFresh(days: seq<string>)
    ensures TouchAll(FreshRecord, days).count == |days|
    ensures days != [] ==> TouchAll(FreshRecord, days).lastUsed == Some(days[|days| - 1])
    ensures TouchAll(FreshRecord, days).history == Reverse(days)[..Min(|days|, HistoryLimit)]
  {
    if days != [] {
      var init := days[..|days| - 1];
      var d := days[|days| - 1];
      UsesFromFresh(init);
      var before := TouchAll(FreshRecord, init).history;
      var m := Min(|init|, HistoryLimit);
      assert before == Reverse(init)[..m];
      assert [d] + before == Reverse(days)[..m + 1];
      var n := Min(|days|, HistoryLimit);
      assert n <= m + 1;
      assert TouchAll(FreshRecord, days).history == ([d] + before)[..n];
      assert ([d] + before)[..n] == Reverse(days)[..m + 1][..n];
    }
  }
}
