/**
 * The region/season index `state_season_crop_map` and the two page blocks
 * that read it: the guarded lookup for the selected pair, and the listing
 * of every season of the selected state.
 */
module ReferenceData {
  import opened Wrappers
  import Text

  /**
   * One state's seasons with their crop lists, in the dict's insertion order.
   * As in the dict it stands for, season names are distinct (`DistinctSeasons`);
   * the lookups below take the first entry for a season, which under that
   * condition is the only one (`SeasonCropsFindsEntry`).
   */
  type SeasonTable = seq<(string, seq<string>)>

  /** `state_season_crop_map`: state name to that state's season table. */
  type RegionIndex = map<string, SeasonTable>

  /** A dict never holds the same key twice. */
  ghost predicate DistinctSeasons(t: SeasonTable)
  {
    forall i, j :: 0 <= i < j < |t| ==> t[i].0 != t[j].0
  }

  /** `season in t` */
  predicate HasSeason(t: SeasonTable, season: string)
  {
    exists i :: 0 <= i < |t| && t[i].0 == season
  }

  /** `t.get(season)`: the crop list of the first entry for that season. */
  function SeasonCrops(t: SeasonTable, season: string): (r: Option<seq<string>>)
    ensures r.None? <==> !HasSeason(t, season)
  {
    if t == [] then None
    else if t[0].0 == season then Some(t[0].1)
    else
      assert HasSeason(t, season) <==> HasSeason(t[1..], season) by {
        if HasSeason(t, season) {
          var i :| 0 <= i < |t| && t[i].0 == season;
          assert t[1..][i - 1].0 == season;
        }
        if HasSeason(t[1..], season) {
          var i :| 0 <= i < |t[1..]| && t[1..][i].0 == season;
          assert t[i + 1].0 == season;
        }
      }
      SeasonCrops(t[1..], season)
  }

  /** With distinct season names the lookup returns exactly the listed crops of that season. */
  lemma {:induction false} SeasonCropsFindsEntry(t: SeasonTable, k: nat)
    requires DistinctSeasons(t)
    requires k < |t|
    ensures SeasonCrops(t, t[k].0) == Some(t[k].1)
  {
    if k > 0 {
      assert t[0].0 != t[k].0;
      assert DistinctSeasons(t[1..]) by {
        forall i, j | 0 <= i < j < |t[1..]| ensures t[1..][i].0 != t[1..][j].0 {
          assert t[1..][i] == t[i + 1] && t[1..][j] == t[j + 1];
        }
      }
      SeasonCropsFindsEntry(t[1..], k - 1);
      assert t[1..][k - 1] == t[k];
    }
  }

  /** `index[state][season]`: the crop list, or the `KeyError` for the first missing key. */
  function CropsFor(index: RegionIndex, state: string, season: string): (r: Result<seq<string>>)
    ensures state !in index ==> r == Failure(KeyError(state))
    ensures state in index && !HasSeason(index[state], season) ==> r == Failure(KeyError(season))
    ensures r.Success? <==> state in index && HasSeason(index[state], season)
    ensures r.Success? ==> SeasonCrops(index[state], season) == Some(r.value)
  {
    if state !in index then Failure(KeyError(state))
    else match SeasonCrops(index[state], season)
      case None => Failure(KeyError(season))
      case Some(crops) => Success(crops)
  }

  /** What the page shows for the selected state and season. */
  datatype Selection =
    | NothingShown                  // the pair is not in the index
    | NoCropsListed                 // the pair is present with an empty list: a warning
    | CropsGrown(crops: seq<string>) // the pair is present with crops: they are listed

  /** The membership-guarded lookup of the selected pair. */
  function SelectionView(index: RegionIndex, state: string, season: string): (v: Selection)
    ensures v.NothingShown? <==> CropsFor(index, state, season).Failure?
    ensures v.NoCropsListed? <==> CropsFor(index, state, season) == Success([])
    ensures v.CropsGrown? ==> v.crops != [] && CropsFor(index, state, season) == Success(v.crops)
  {
    if state in index && HasSeason(index[state], season) then
      var crops := CropsFor(index, state, season).value;
      if crops != [] then CropsGrown(crops) else NoCropsListed
    else NothingShown
  }

  /** One line of the season-wise listing. */
  datatype SeasonLine =
    | SeasonCropsLine(season: string, crops: seq<string>)
    | NoDataLine(season: string)

  /** The markdown text of one season-wise line. */
  function RenderSeasonLine(line: SeasonLine): string
  {
    match line
    case SeasonCropsLine(s, crops) => "**" + s + " Season:** " + Text.Join(crops, ", ")
    case NoDataLine(s) => "**" + s + " Season:** No data available."
  }

  /**
   * The rendered line names its season, and a line with crops names every
   * one of them; a line without crops ends with "No data available.".
   */
  lemma {:induction false} RenderSeasonLineShows(line: SeasonLine)
    ensures var head := "**" + line.season + " Season:** ";
      var text := RenderSeasonLine(line);
      |head| <= |text| && text[..|head|] == head &&
      (line.NoDataLine? ==> text[|head|..] == "No data available.") &&
      (line.SeasonCropsLine? ==>
        forall k :: 0 <= k < |line.crops| ==> Text.Occurs(text, line.crops[k]))
  {
    var head := "**" + line.season + " Season:** ";
    var text := RenderSeasonLine(line);
    match line
    case NoDataLine(s) =>
      assert text == head + "No data available.";
    case SeasonCropsLine(s, crops) =>
      var joined := Text.Join(crops, ", ");
      assert text == head + joined;
      forall k | 0 <= k < |crops| ensures Text.Occurs(text, crops[k]) {
        Text.JoinOccursEach(crops, ", ", k);
        var i :| Text.OccursAt(joined, crops[k], i);
        assert text[|head| + i..|head| + i + |crops[k]|] == joined[i..i + |crops[k]|];
        assert Text.OccursAt(text, crops[k], |head| + i);
      }
  }

  /** The season-wise listing of one state: one line per season, in table order. */
  method SeasonOverview(index: RegionIndex, state: string) returns (r: Result<seq<SeasonLine>>)
    ensures state !in index <==> r == Failure(KeyError(state))
    ensures r.Success? <==> state in index
    ensures r.Success? ==> |r.value| == |index[state]|
    ensures r.Success? ==> forall i :: 0 <= i < |r.value| ==>
      r.value[i].season == index[state][i].0 &&
      (r.value[i].NoDataLine? <==> index[state][i].1 == []) &&
      (r.value[i].SeasonCropsLine? ==> r.value[i].crops == index[state][i].1)
  {
    if state !in index {
      return Failure(KeyError(state));
    }
    var table := index[state];
    var lines: seq<SeasonLine> := [];
    for i := 0 to |table|
      invariant |lines| == i
      invariant forall j :: 0 <= j < i ==>
        lines[j].season == table[j].0 &&
        (lines[j].NoDataLine? <==> table[j].1 == []) &&
        (lines[j].SeasonCropsLine? ==> lines[j].crops == table[j].1)
    {
      var (s, crops) := table[i];
      if crops != [] {
        lines := lines + [SeasonCropsLine(s, crops)];
      } else {
        lines := lines + [NoDataLine(s)];
      }
    }
    return Success(lines);
  }
}
