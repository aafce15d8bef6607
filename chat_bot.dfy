/**
 * `get_bot_response`: a canned-answer bot that lower-cases the message and
 * answers from the first keyword group it finds. The selected state and
 * season and the region index, which the page script closes over, are
 * explicit parameters here.
 */
module ChatBot {
  import opened Wrappers
  import opened Text
  import ReferenceData

  /** The question categories, in the order the keyword tests are made. */
  datatype Topic = CropAdvice | Rainfall | Temperature | Soil | Unrecognised

  const RainfallAnswer := "Most Kharif crops need good rainfall, around 100-200mm is ideal."
  const TemperatureAnswer :=
    "Rabi crops prefer cooler temperatures (10-25\U{B0}C), while Kharif crops prefer warmer (25-35\U{B0}C)."
  const SoilAnswer := "Black soil is good for cotton, alluvial for rice and wheat, loamy for vegetables."
  const DefaultAnswer :=
    "I'm still learning! Try asking about crops, seasons, soil, rainfall, or temperature."

  /** The keyword tests on the lower-cased message, first match wins. */
  function TopicOf(msg: string): Topic
  {
    var m := ToLower(msg);
    if Contains(m, "best crop") || Contains(m, "which crop") then CropAdvice
    else if Contains(m, "rainfall") then Rainfall
    else if Contains(m, "temperature") then Temperature
    else if Contains(m, "soil") then Soil
    else Unrecognised
  }

  /** The crop-recommendation sentence for a state, a season and its crop list. */
  function CropAdviceAnswer(state: string, season: string, crops: seq<string>): string
  {
    "In " + state + ", during " + season + ", you can grow: " + Join(crops, ", ")
  }

  /**
   * `get_bot_response(msg)`. The crop branch subscripts the index without a
   * membership test, so a missing state or season raises `KeyError`.
   */
  function BotReply(msg: string, state: string, season: string, index: ReferenceData.RegionIndex)
    : (r: Result<string>)
    ensures r.Failure? <==>
      TopicOf(msg) == CropAdvice && ReferenceData.CropsFor(index, state, season).Failure?
    ensures r.Failure? ==> r.error == ReferenceData.CropsFor(index, state, season).error
    ensures TopicOf(msg) == CropAdvice && ReferenceData.CropsFor(index, state, season).Success? ==>
      r == Success(CropAdviceAnswer(state, season, ReferenceData.CropsFor(index, state, season).value))
    ensures TopicOf(msg) == Rainfall ==> r == Success(RainfallAnswer)
    ensures TopicOf(msg) == Temperature ==> r == Success(TemperatureAnswer)
    ensures TopicOf(msg) == Soil ==> r == Success(SoilAnswer)
    ensures TopicOf(msg) == Unrecognised ==> r == Success(DefaultAnswer)
  {
    match TopicOf(msg)
    case CropAdvice =>
      (match ReferenceData.CropsFor(index, state, season)
       case Success(crops) => Success(CropAdviceAnswer(state, season, crops))
       case Failure(e) => Failure(e))
    case Rainfall => Success(RainfallAnswer)
    case Temperature => Success(TemperatureAnswer)
    case Soil => Success(SoilAnswer)
    case Unrecognised => Success(DefaultAnswer)
  }

  /**
   * The topic is the first keyword group, in the fixed priority order, that
   * occurs anywhere in the lower-cased message; with none, the default.
   */
  lemma TopicPriority(msg: string)
    ensures var m := ToLower(msg);
      (TopicOf(msg) == CropAdvice <==> Occurs(m, "best crop") || Occurs(m, "which crop")) &&
      (TopicOf(msg) == Rainfall <==>
        !Occurs(m, "best crop") && !Occurs(m, "which crop") && Occurs(m, "rainfall")) &&
      (TopicOf(msg) == Temperature <==>
        !Occurs(m, "best crop") && !Occurs(m, "which crop") && !Occurs(m, "rainfall") &&
        Occurs(m, "temperature")) &&
      (TopicOf(msg) == Soil <==>
        !Occurs(m, "best crop") && !Occurs(m, "which crop") && !Occurs(m, "rainfall") &&
        !Occurs(m, "temperature") && Occurs(m, "soil")) &&
      (TopicOf(msg) == Unrecognised <==>
        !Occurs(m, "best crop") && !Occurs(m, "which crop") && !Occurs(m, "rainfall") &&
        !Occurs(m, "temperature") && !Occurs(m, "soil"))
  {
    var m := ToLower(msg);
    ContainsIffOccurs(m, "best crop");
    ContainsIffOccurs(m, "which crop");
    ContainsIffOccurs(m, "rainfall");
    ContainsIffOccurs(m, "temperature");
    ContainsIffOccurs(m, "soil");
  }

  /** Messages that lower-case alike get the same reply. */
  lemma ReplyIgnoresCase(a: string, b: string, state: string, season: string,
                         index: ReferenceData.RegionIndex)
    requires ToLower(a) == ToLower(b)
    ensures BotReply(a, state, season, index) == BotReply(b, state, season, index)
  {
  }

  /** ASCII upper-casing or lower-casing the whole message does not change the reply. */
  lemma {:induction false} ReplyOfCaseVariants(msg: string, state: string, season: string,
                                               index: ReferenceData.RegionIndex)
    ensures BotReply(ToUpper(msg), state, season, index) == BotReply(msg, state, season, index)
    ensures BotReply(ToLower(msg), state, season, index) == BotReply(msg, state, season, index)
  {
    ToLowerOfUpper(msg);
    ToLowerIdempotent(msg);
  }

  /**
   * A crop question about a listed state and season is answered with that
   * pair's crops, each of which appears in the reply.
   */
  lemma CropAdviceNamesEveryCrop(msg: string, state: string, season: string,
                                 index: ReferenceData.RegionIndex, k: nat)
    requires TopicOf(msg) == CropAdvice
    requires ReferenceData.CropsFor(index, state, season).Success?
    requires k < |ReferenceData.CropsFor(index, state, season).value|
    ensures BotReply(msg, state, season, index).Success?
    ensures Occurs(BotReply(msg, state, season, index).value,
                   ReferenceData.CropsFor(index, state, season).value[k])
  {
    var crops := ReferenceData.CropsFor(index, state, season).value;
    var prefix := "In " + state + ", during " + season + ", you can grow: ";
    var joined := Join(crops, ", ");
    JoinOccursEach(crops, ", ", k);
    var i :| OccursAt(joined, crops[k], i);
    var reply := prefix + joined;
    assert reply == CropAdviceAnswer(state, season, crops);
    assert reply[|prefix| + i..|prefix| + i + |crops[k]|] == joined[i..i + |crops[k]|];
    assert OccursAt(reply, crops[k], |prefix| + i);
  }
}
