# Crop yield chatbot: decision logic

This project models the decision logic inside the two Streamlit page scripts of
the crop yield chatbot, `app.py` and `tempCodeRunnerFile.py`. The two scripts
hold the same logic with different display text, so each piece is modelled
once here. The table below cites `app.py`. The same lines in
`tempCodeRunnerFile.py` are:

| piece | app.py | tempCodeRunnerFile.py |
|---|---|---|
| yield-band chain | 120-132 | 86-98 |
| `get_bot_response` | 153-164 | 112-123 |
| selected state/season lookup | 99-104 | 54-59 |
| transcript init and append | 146-147, 151, 166-168 | 104-105, 111, 126-130 |

The modelled pieces are:

- **Yield level** (`YieldBand`). The estimate returned by `predict_yield` is
  compared with the crop's `good` and `average` cut-offs from
  `crop_yield_ranges`, with `>=` at each step. The result is Good, Average or
  Poor. A crop with no entry gets no level and a "category not available"
  warning. The estimate is reported in both cases.
- **Chatbot** (`ChatBot`). `get_bot_response` lower-cases the message. It
  then tests keyword groups in a fixed order: "best crop"/"which crop",
  "rainfall", "temperature", "soil". The first group found picks the canned
  answer, and the default answer is used when none is found. The crop answer
  joins the selected state and season's crops with `", "`. The script
  captures the state, season and region index from its surroundings; here
  they are parameters.
- **Region/season index** (`ReferenceData`). One state's seasons form an
  ordered table, because a Python dict keeps insertion order and the
  season-wise listing prints in that order. The selected pair is shown only
  when both keys are present. An empty crop list gets a warning, and a missing
  pair shows nothing. The season-wise listing of `app.py` gives one line per
  season, and an empty list becomes "No data available.".
- **Session state** (`Session`). `chat_history`, and in
  `tempCodeRunnerFile.py` the session `guid`, are set only when absent. Each run of
  the page while the text box is non-empty appends the user entry and then the
  bot entry. Streamlit reruns the whole script on every widget interaction,
  and the text box keeps its value. So one typed question is appended again on
  each later run, with a reply computed from the state and season selected at
  that moment.
- **Crop image** (`CropImage`, `tempCodeRunnerFile.py` only). The first of the
  `.jpg`, `.jpeg` and `.png` paths that exists is shown. The file system is a
  parameter: the set of existing paths.
- **String helpers** (`Text`). These cover `str.lower()`, the substring test
  `kw in s`, and `", ".join(xs)`. The substring scan is proved equal to the
  "occurs at some position" definition.

Behaviour of the code worth noting:

- The season choices offered are `Kharif`, `Rabi`, `Zaid` and `Cash Crops`
  (plural).
- The cut-offs are not checked for `good > average`. When they cross, no
  estimate is ever classified Average (`YieldBand.NoAverageBandWhenCutOffsCross`).
- A crop without cut-offs still has its estimate reported, next to a warning.
- The chatbot's crop answer subscripts `state_season_crop_map[state][season]`
  without the membership test used at `app.py:99`. A pair missing from the
  index therefore raises `KeyError`. The model returns that error
  (`Wrappers.Result`) and does not assume the pair exists. The run then stops
  before the two appends, so the transcript is unchanged
  (`Session.SessionState.Submit`).

## Model

| member | source | states |
|---|---|---|
| `YieldBand.BandOf` | app.py:122-127 | Good iff estimate >= good; Average iff average <= estimate < good; Poor iff the estimate is below both cut-offs. |
| `YieldBand.Classify` | app.py:120-132 | The estimate is always reported. There is no level exactly when the crop has no entry in `crop_yield_ranges`, whatever the estimate. Otherwise the level is the band of that crop's cut-offs. |
| `YieldBand.LevelMessageIdentifiesLevel` | app.py:123-132 | The level text shown (one of the three labels, or the "category not available" warning) differs between different outcomes, so it identifies the level. |
| `YieldBand.BandMonotone` | app.py:122-127 | A larger estimate is never placed in a lower band. |
| `YieldBand.BandAtCutOffs` | app.py:122-127 | At `good` the band is Good, at `average` Average; just below `good` it is Average, just below `average` Poor (equality goes to the higher band). |
| `YieldBand.NoAverageBandWhenCutOffsCross` | app.py:124-125 | If `average >= good`, the Average branch can never be reached. |
| `Text.Lower` | app.py:154 | An ASCII capital maps to its lower-case letter; every other character is unchanged. |
| `Text.ToLowerAt` | app.py:154 | Lower-casing keeps the length and lower-cases each character in place. |
| `Text.ToLowerIdempotent` | app.py:154 | Lower-casing an already lower-cased message changes nothing. |
| `Text.ToLowerOfUpper` | app.py:154 | Lower-casing the ASCII upper-casing of a message gives the same text as lower-casing the original. |
| `Text.ContainsIffOccurs` | app.py:155 | The substring test `p in s` holds exactly when p occurs at some position of s. |
| `Text.JoinSnoc` | app.py:156 | Joining a list with one more item appends the separator and that item. |
| `Text.JoinOccursEach` | app.py:102 | Every item of the list occurs in the `", "`-joined text. |
| `ChatBot.BotReply` | app.py:153-164 | Rainfall, temperature and soil questions and unrecognised messages get their fixed answers. A crop question gets the state/season crop sentence. It raises `KeyError` exactly when it is a crop question and the state or season is missing from the index. |
| `ChatBot.TopicPriority` | app.py:155-163 | The topic is the first keyword group in the order best/which crop, rainfall, temperature, soil that occurs in the lower-cased message. The default applies iff none occurs. |
| `ChatBot.ReplyIgnoresCase` | app.py:154 | Two messages with the same lower-case form get the same reply. |
| `ChatBot.ReplyOfCaseVariants` | app.py:154-164 | ASCII upper-casing or lower-casing the whole message does not change the reply. |
| `ChatBot.CropAdviceNamesEveryCrop` | app.py:156 | A crop question about a pair present in the index succeeds, and every crop of that pair occurs in the reply. |
| `ReferenceData.SeasonCrops` | app.py:99 | The season lookup finds nothing exactly when the season is not a key of the state's table. |
| `ReferenceData.SeasonCropsFindsEntry` | app.py:100 | With distinct season keys, looking up an entry's season returns that entry's crops. |
| `ReferenceData.CropsFor` | app.py:156 | `index[state][season]` raises `KeyError(state)` for a missing state and `KeyError(season)` for a missing season. It succeeds exactly when both keys are present, with the season's crops. |
| `ReferenceData.SelectionView` | app.py:99-104 | Nothing is shown when the pair is missing. The "no crops listed" warning appears exactly when the pair's list is empty. Otherwise the pair's non-empty crop list is shown. |
| `ReferenceData.SeasonOverview` | app.py:136-140 | Raises `KeyError` exactly for an unknown state. Otherwise it gives one line per season in table order with that season's crops, and a "No data available." line exactly when the list is empty. |
| `ReferenceData.RenderSeasonLineShows` | app.py:137-140 | Each rendered line starts with `**<season> Season:** `; a line with crops names every crop of the season; an empty season's line ends with "No data available.". |
| `Session.InitOnce` | tempCodeRunnerFile.py:45-46 | After the guarded initialisation the key is always present. |
| `Session.InitOnceKeeps` | tempCodeRunnerFile.py:45-46 | Initialising twice gives what the first initialisation gave; a present value is never replaced; an absent one takes the supplied value. |
| `Session.AlternatingAppend` | app.py:167-168 | Appending a user entry and then a bot entry keeps the transcript alternating user/bot. |
| `Session.SessionState.constructor` | app.py:146 | A new session holds no transcript and no identifier. |
| `Session.SessionState.InitGuid` | tempCodeRunnerFile.py:45-46 | The identifier is set to the generated value only when absent, and otherwise kept. Nothing else changes. |
| `Session.SessionState.InitHistory` | app.py:146-147 | The transcript is created empty only when absent, and otherwise kept. Nothing else changes. |
| `Session.SessionState.Submit` | app.py:151-168 | Empty input changes nothing. Non-empty input appends exactly the user entry, then the bot entry, to the unchanged earlier entries. A reply that raises leaves the transcript as it was. The transcript stays alternating. |
| `CropImage.FindImage` | tempCodeRunnerFile.py:68-77 | The result is the first of the `.jpg`, `.jpeg` and `.png` paths that exists, with every earlier candidate absent. There is no result exactly when none exists. |

Functions without a contract of their own are given their meaning by the
rows above:

- `Text.ToLower` (`app.py:154`, `str.lower()`): `Text.ToLowerAt`, `Text.ToLowerIdempotent`.
- `Text.Contains` (`app.py:155`, `kw in s`): `Text.ContainsIffOccurs`.
- `Text.Join` (`app.py:102`, `156`, `", ".join`): `Text.JoinSnoc` and `Text.JoinOccursEach`.
- `ChatBot.TopicOf` (`app.py:155-163`): `ChatBot.TopicPriority`.
- `ChatBot.CropAdviceAnswer` (`app.py:156`): `ChatBot.BotReply` and `ChatBot.CropAdviceNamesEveryCrop`.
- `ReferenceData.HasSeason` (`app.py:99`, `season in ...`): `ReferenceData.SeasonCrops` and `ReferenceData.CropsFor`.
- `ReferenceData.RenderSeasonLine` (`app.py:138`, `140`): `ReferenceData.RenderSeasonLineShows`.
- `YieldBand.Label`, `YieldBand.CategoryUnavailable` and `YieldBand.LevelMessage` (`app.py:123-132`): `YieldBand.LevelMessageIdentifiesLevel`.
- `CropImage.ImagePath` (`tempCodeRunnerFile.py:71`): `CropImage.FindImage`.
- `Text.Upper` and `Text.ToUpper` model nothing in the scripts. They exist only to state that the bot ignores ASCII case.

## Left out

- All page rendering: `st.markdown`, `st.success`, `st.warning`, `st.info`, widgets, CSS/HTML strings, the footer, and the transcript display loops (`app.py:171-172`, `tempCodeRunnerFile.py:133-137`). The level labels and the season-wise line text are kept as plain strings only.
- `add_bg_from_local` (`app.py:12-73`): it reads image files and base64-encodes them, which is file I/O.
- `predict_yield`: `model.py` is not part of this model. The estimate is an input.
- `crop_details`, `crop_yield_ranges`, `state_season_crop_map`: `crop_info.py` is not part of this model. The tables are parameters. The crop details display (`app.py:113-115`) is rendering of a guarded lookup only.
- Floating point: the estimate and cut-offs are `real`. NaN (every comparison false, so Poor) is not modelled.
- `uuid.uuid4()`: the generated identifier is supplied by the caller.
- The `KeyError` on a cut-off entry that lacks a "good" or "average" key: an entry is modelled as a record that always has both.
- The order of states in the state selector, which comes from the dict's key order.
- Text.Upper: is ASCII upper-casing, not Python's `str.upper()`. So `ChatBot.ReplyOfCaseVariants` covers ASCII case only. Under Python's full mapping, `"whıch crop"` (dotless i) upper-cases to `"WHICH CROP"`, which gets the crop answer, while the original message gets the default.
- Text.Lower: models `str.lower()` for ASCII letters only. Python also lower-cases other Unicode letters, some into several characters. All keywords are lower-case ASCII.
- Session.SessionState.Submit: models one run of the script. The same question being appended again on later reruns, while the text box keeps its value, is not modelled as a sequence of runs. Each such rerun is another `Submit` call, whose reply may differ or raise `KeyError`.
- CropImage.FindImage: the file system is a fixed set of existing paths. A file appearing or disappearing between the `os.path.exists` calls is not modelled.
