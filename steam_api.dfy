/** Turning the Steam user-stats list into the four counters a statistics
    snapshot stores. */
module SteamApi {

  /** One entry of the raw list: a stat name and its value. */
  datatype RawStat = RawStat(name: string, value: int)

  const KillsKey := "total_kills"
  const DeathsKey := "total_deaths"
  const TimePlayedKey := "total_time_played"
  const HeadshotsKey := "total_headshots"

  /** The keys of the mapped result, which are the snapshot's column names. */
  const ModelKeys: set<string> := {KillsKey, DeathsKey, TimePlayedKey, HeadshotsKey}

  /** The names occurring in the raw list. */
  function Names(raw: seq<RawStat>): set<string>
  {
    set i | 0 <= i < |raw| :: raw[i].name
  }

  /** The dict comprehension `{item['name']: item['value'] for item in raw}`:
      entries are inserted front to back, so a later duplicate overwrites an
      earlier one. */
  function StatsDict(raw: seq<RawStat>): (d: map<string, int>)
    ensures d.Keys == Names(raw)
  {
    if raw == [] then map[]
    else
      var init := raw[..|raw| - 1];
      var last := raw[|raw| - 1];
      assert forall i :: 0 <= i < |init| ==> init[i] == raw[i];
      assert Names(raw) == Names(init) + {last.name};
      StatsDict(init)[last.name := last.value]
  }

  /** `d.get(k, default)`. */
  function Get(d: map<string, int>, k: string, default: int): int
  {
    if k in d then d[k] else default
  }

  /** The four model keys read from the stats dict, 0 where a stat is missing. */
  function MapRawStats(raw: seq<RawStat>): (m: map<string, int>)
    ensures m.Keys == ModelKeys
  {
    var d := StatsDict(raw);
    map[KillsKey := Get(d, KillsKey, 0),
        DeathsKey := Get(d, DeathsKey, 0),
        TimePlayedKey := Get(d, TimePlayedKey, 0),
        HeadshotsKey := Get(d, HeadshotsKey, 0)]
  }

  /** Entry i is the last one named k. */
  predicate LastNamed(raw: seq<RawStat>, k: string, i: int)
  {
    0 <= i < |raw| && raw[i].name == k && forall j :: i < j < |raw| ==> raw[j].name != k
  }

  /** The stats dict holds, for each name, the value of its last occurrence. */
  lemma {:induction false} StatsDictLastWins(raw: seq<RawStat>, k: string, i: int)
    requires LastNamed(raw, k, i)
    ensures k in StatsDict(raw) && StatsDict(raw)[k] == raw[i].value
  {
    var init := raw[..|raw| - 1];
    if i < |raw| - 1 {
      assert LastNamed(init, k, i);
      StatsDictLastWins(init, k, i);
    }
  }

  /** A model key present in the raw list maps to its last occurrence's value. */
  lemma MapRawStatsPresent(raw: seq<RawStat>, k: string, i: int)
    requires k in ModelKeys && LastNamed(raw, k, i)
    ensures MapRawStats(raw)[k] == raw[i].value
  {
    StatsDictLastWins(raw, k, i);
  }

  /** A model key absent from the raw list maps to 0. */
  lemma MapRawStatsAbsent(raw: seq<RawStat>, k: string)
    requires k in ModelKeys && forall i :: 0 <= i < |raw| ==> raw[i].name != k
    ensures MapRawStats(raw)[k] == 0
  {
    assert k !in Names(raw);
  }

  /** The raw entries whose names are model keys, in their original order. */
  function Relevant(raw: seq<RawStat>): (r: seq<RawStat>)
    ensures forall i :: 0 <= i < |r| ==> r[i].name in ModelKeys
    ensures |r| <= |raw|
  {
    if raw == [] then []
    else
      var init := Relevant(raw[..|raw| - 1]);
      if raw[|raw| - 1].name in ModelKeys then init + [raw[|raw| - 1]] else init
  }

  /** Dropping every entry whose name is not a model key changes nothing. */
  lemma IrrelevantEntriesIgnored(raw: seq<RawStat>)
    ensures MapRawStats(Relevant(raw)) == MapRawStats(raw)
  {
    forall k | k in ModelKeys
      ensures Get(StatsDict(Relevant(raw)), k, 0) == Get(StatsDict(raw), k, 0)
    {
      StatsDictRelevant(raw, k);
    }
  }

  lemma {:induction false} StatsDictRelevant(raw: seq<RawStat>, k: string)
    requires k in ModelKeys
    ensures (k in StatsDict(Relevant(raw))) == (k in StatsDict(raw))
    ensures k in StatsDict(raw) ==> StatsDict(Relevant(raw))[k] == StatsDict(raw)[k]
  {
    if raw != [] {
      var init := raw[..|raw| - 1];
      StatsDictRelevant(init, k);
      var last := raw[|raw| - 1];
      if last.name in ModelKeys {
        var r := Relevant(init) + [last];
        assert r[..|r| - 1] == Relevant(init);
      }
    }
  }
}
