/**
 * The prediction report generator: for each of the 1440 minutes of a day it
 * builds one slot record, either from the trained model bundle (queried with
 * one constant feature vector) or, when the bundle could not be loaded, from a
 * random simulation, and appends it to the report in minute order.
 */
module Predictions {
  import opened Wrappers
  import opened Digits
  import opened Schedule

  /** The numeric feature vector handed to every predictor. */
  type Features = seq<real>

  /** The averaged game statistics used for every slot of every report. */
  const AvgFeatures: Features := [5.5, 5.5, 2.5, 2.5]

  /** The suit label of a side that draws no third card. */
  const NoSuit: string := "Aucune"

  /** The four suit labels the simulation draws from, exactly as the dashboard spells them. */
  const SuitSymbols: set<string> := {
    "\U{2663}\U{FE0F} Pique", "\U{2666}\U{FE0F} Carreau",
    "\U{2665}\U{FE0F} C\U{0153}ur", "\U{2660}\U{FE0F} Tr\U{00E8}fle"
  }

  /**
   * A loaded model bundle: six trained predictors, keyed in the archive by
   * target name, and the two suit encoders' decoding direction. Each is an
   * opaque deterministic function; the model never looks inside them.
   */
  datatype Bundle = Bundle(
    playerThirdCard: Features -> int,  // models['Joueur_ThirdCard']
    bankerThirdCard: Features -> int,  // models['Banquier_ThirdCard']
    playerWin: Features -> int,        // models['Player_Win']
    bankerWin: Features -> int,        // models['Banker_Win']
    playerSuit: Features -> int,       // models['Joueur_Suit']
    bankerSuit: Features -> int,       // models['Banquier_Suit']
    playerSuitDecoder: int -> string,  // encoders['Joueur_Suit'].inverse_transform
    bankerSuitDecoder: int -> string   // encoders['Banquier_Suit'].inverse_transform
  )

  /** The six predicted columns of one slot. */
  datatype Outcome = Outcome(
    playerThirdCard: int,   // '3ème Carte Joueur'
    bankerThirdCard: int,   // '3ème Carte Banquier'
    playerWin: int,         // 'Victoire Joueur'
    bankerWin: int,         // 'Victoire Banquier'
    playerSuit: string,     // 'Couleur Joueur'
    bankerSuit: string      // 'Couleur Banquier'
  )

  /** One row of the report: 'ID Partie', 'Heure' and the predicted columns. */
  datatype Slot = Slot(gameId: string, time: string, outcome: Outcome)

  predicate IsBinary(x: int) { x == 0 || x == 1 }

  /**
   * The suit rule of the model-backed branch: a side with a (truthy)
   * third-card prediction gets its suit model's code decoded by its encoder;
   * a side without one gets the sentinel.
   */
  function SuitLabel(thirdCard: int, suitModel: Features -> int, decoder: int -> string): string
  {
    if thirdCard != 0 then decoder(suitModel(AvgFeatures)) else NoSuit
  }

  /** The outcome columns the model-backed branch computes; the same for every slot. */
  function ModelOutcome(b: Bundle): Outcome
  {
    var playerThird := b.playerThirdCard(AvgFeatures);
    var bankerThird := b.bankerThirdCard(AvgFeatures);
    Outcome(playerThird, bankerThird, b.playerWin(AvgFeatures), b.bankerWin(AvgFeatures),
            SuitLabel(playerThird, b.playerSuit, b.playerSuitDecoder),
            SuitLabel(bankerThird, b.bankerSuit, b.bankerSuitDecoder))
  }

  /** What the simulation branch can produce: four 0/1 flags and two of the four suit symbols. */
  predicate IsSimulated(o: Outcome)
  {
    IsBinary(o.playerThirdCard) && IsBinary(o.bankerThirdCard)
    && IsBinary(o.playerWin) && IsBinary(o.bankerWin)
    && o.playerSuit in SuitSymbols && o.bankerSuit in SuitSymbols
  }

  /** A report for day `d`: 1440 rows, row `i` carrying the ID and label of minute `i`. */
  predicate Scheduled(report: seq<Slot>, d: Date)
  {
    |report| == TotalMinutes
    && forall i :: 0 <= i < |report| ==> report[i].gameId == SlotId(d, i) && report[i].time == SlotLabel(i)
  }

  /** The model-backed branch of one iteration: query the six predictors and apply the suit rule. */
  method PredictOutcome(b: Bundle) returns (outcome: Outcome)
    ensures outcome == ModelOutcome(b)
  {
    var playerThird := b.playerThirdCard(AvgFeatures);
    var bankerThird := b.bankerThirdCard(AvgFeatures);
    var playerWin := b.playerWin(AvgFeatures);
    var bankerWin := b.bankerWin(AvgFeatures);
    var playerSuit: string, bankerSuit: string;
    if playerThird != 0 {
      var suitCode := b.playerSuit(AvgFeatures);
      playerSuit := b.playerSuitDecoder(suitCode);
    } else {
      playerSuit := NoSuit;
    }
    if bankerThird != 0 {
      var suitCode := b.bankerSuit(AvgFeatures);
      bankerSuit := b.bankerSuitDecoder(suitCode);
    } else {
      bankerSuit := NoSuit;
    }
    outcome := Outcome(playerThird, bankerThird, playerWin, bankerWin, playerSuit, bankerSuit);
  }

  /**
   * `generate_predictions(date)`. `bundle` is `Some` when the archive loaded.
   * `draw(m)` stands for the random draws of simulation mode at minute `m`:
   * each of its flags is drawn from {0, 1} and each suit from the four symbols.
   */
  method GeneratePredictions(bundle: Option<Bundle>, date: Date, draw: nat -> Outcome) returns (report: seq<Slot>)
    requires bundle.None? ==> forall m :: 0 <= m < TotalMinutes ==> IsSimulated(draw(m))
    ensures Scheduled(report, date)
    ensures bundle.Some? ==> forall i :: 0 <= i < |report| ==> report[i].outcome == ModelOutcome(bundle.value)
    ensures bundle.None? ==> forall i :: 0 <= i < |report| ==> report[i].outcome == draw(i)
    ensures bundle.None? ==> forall i :: 0 <= i < |report| ==> IsSimulated(report[i].outcome)
  {
    report := [];
    for minute := 0 to TotalMinutes
      invariant |report| == minute
      invariant forall i :: 0 <= i < minute ==> report[i].gameId == SlotId(date, i) && report[i].time == SlotLabel(i)
      invariant bundle.Some? ==> forall i :: 0 <= i < minute ==> report[i].outcome == ModelOutcome(bundle.value)
      invariant bundle.None? ==> forall i :: 0 <= i < minute ==> report[i].outcome == draw(i)
    {
      var hour := minute / MinutesPerHour;
      var min := minute % MinutesPerHour;
      var gameId := GameId(date, hour, min);
      var timeLabel := TimeLabel(hour, min);
      assert SlotTime(minute) == ClockTime(hour, min);
      assert gameId == SlotId(date, minute) && timeLabel == SlotLabel(minute);
      var outcome: Outcome;
      if bundle.Some? {
        outcome := PredictOutcome(bundle.value);
      } else {
        outcome := draw(minute);
      }
      ghost var prev := report;
      report := report + [Slot(gameId, timeLabel, outcome)];
      forall i | 0 <= i < minute + 1
        ensures report[i].gameId == SlotId(date, i) && report[i].time == SlotLabel(i)
      {
        if i < minute {
          assert report[i] == prev[i];
        }
      }
    }
  }

  /**
   * The suit rule of the model-backed branch: a side whose third-card flag is 0
   * gets the sentinel, and any other side gets its suit model's code decoded.
   */
  lemma SuitRule(b: Bundle)
    ensures var o := ModelOutcome(b);
      (o.playerThirdCard == 0 ==> o.playerSuit == NoSuit)
      && (o.playerThirdCard != 0 ==> o.playerSuit == b.playerSuitDecoder(b.playerSuit(AvgFeatures)))
      && (o.bankerThirdCard == 0 ==> o.bankerSuit == NoSuit)
      && (o.bankerThirdCard != 0 ==> o.bankerSuit == b.bankerSuitDecoder(b.bankerSuit(AvgFeatures)))
  {
  }

  /**
   * Both directions of the sentinel: when neither side's predicted suit code
   * decodes to `Aucune`, a suit is `Aucune` exactly when its third-card flag is 0.
   */
  lemma SuitSentinelIff(b: Bundle)
    requires b.playerSuitDecoder(b.playerSuit(AvgFeatures)) != NoSuit
    requires b.bankerSuitDecoder(b.bankerSuit(AvgFeatures)) != NoSuit
    ensures var o := ModelOutcome(b);
      (o.playerSuit == NoSuit <==> o.playerThirdCard == 0)
      && (o.bankerSuit == NoSuit <==> o.bankerThirdCard == 0)
  {
  }

  /** Every row's ID is smaller, in Python's string order, than every later row's. */
  lemma ReportIdsIncrease(report: seq<Slot>, d: Date)
    requires Scheduled(report, d)
    ensures forall i, j :: 0 <= i < j < |report| ==> LexLess(report[i].gameId, report[j].gameId)
    ensures forall i, j :: 0 <= i < j < |report| ==> LexLess(report[i].time, report[j].time)
  {
    forall i, j | 0 <= i < j < |report|
      ensures LexLess(report[i].gameId, report[j].gameId)
      ensures LexLess(report[i].time, report[j].time)
    {
      SlotIdsIncrease(d, i, j);
      SlotLabelsIncrease(i, j);
    }
  }

  /** No two rows of a report share a game ID. */
  lemma ReportIdsDistinct(report: seq<Slot>, d: Date)
    requires Scheduled(report, d)
    ensures forall i, j :: 0 <= i < |report| && 0 <= j < |report| && i != j ==> report[i].gameId != report[j].gameId
  {
    ReportIdsIncrease(report, d);
    forall i, j | 0 <= i < |report| && 0 <= j < |report| && i != j
      ensures report[i].gameId != report[j].gameId
    {
      if report[i].gameId == report[j].gameId {
        LexLessIrreflexive(report[i].gameId);
      }
    }
  }

  /** Every ID is 13 characters and starts with the report's date stamp; every label is 5. */
  lemma ReportFixedWidth(report: seq<Slot>, d: Date)
    requires Scheduled(report, d) && ValidDate(d)
    ensures forall i :: 0 <= i < |report| ==>
      |report[i].gameId| == 13 && report[i].gameId[..8] == DateStamp(d) && |report[i].time| == 5
  {
    forall i | 0 <= i < |report|
      ensures |report[i].gameId| == 13 && report[i].gameId[..8] == DateStamp(d) && |report[i].time| == 5
    {
      SlotIdShape(d, i);
      var t := SlotTime(i);
      TimeLabelRoundTrip(t.hour, t.minute);
    }
  }

  /** Each row's ID and label decode back to that row's minute of the day. */
  lemma ReportRowsDecode(report: seq<Slot>, d: Date)
    requires Scheduled(report, d) && ValidDate(d)
    ensures forall i :: 0 <= i < |report| ==>
      ParseGameId(report[i].gameId) == Some((d, SlotTime(i))) && ParseTimeLabel(report[i].time) == Some(SlotTime(i))
  {
    forall i | 0 <= i < |report|
      ensures ParseGameId(report[i].gameId) == Some((d, SlotTime(i)))
      ensures ParseTimeLabel(report[i].time) == Some(SlotTime(i))
    {
      var t := SlotTime(i);
      GameIdRoundTrip(d, t.hour, t.minute);
      TimeLabelRoundTrip(t.hour, t.minute);
    }
  }

  /**
   * In model-backed mode the report is a function of the date and the bundle:
   * two reports that both meet the generator's model-backed contract are equal.
   */
  lemma ModelReportDetermined(b: Bundle, d: Date, r1: seq<Slot>, r2: seq<Slot>)
    requires Scheduled(r1, d) && Scheduled(r2, d)
    requires forall i :: 0 <= i < |r1| ==> r1[i].outcome == ModelOutcome(b)
    requires forall i :: 0 <= i < |r2| ==> r2[i].outcome == ModelOutcome(b)
    ensures r1 == r2
  {
    assert forall i :: 0 <= i < |r1| ==> r1[i] == r2[i];
  }

  /**
   * Two generations for the same date with the same loaded bundle give the
   * same report, whatever the random draws would have been.
   */
  method GenerateTwice(b: Bundle, date: Date, draw1: nat -> Outcome, draw2: nat -> Outcome)
    returns (first: seq<Slot>, second: seq<Slot>)
    ensures first == second
  {
    first := GeneratePredictions(Some(b), date, draw1);
    second := GeneratePredictions(Some(b), date, draw2);
    ModelReportDetermined(b, date, first, second);
  }

  /** Simulated rows never carry the sentinel, whatever their third-card flags say. */
  lemma SimulatedSuitNeverSentinel(o: Outcome)
    requires IsSimulated(o)
    ensures o.playerSuit != NoSuit && o.bankerSuit != NoSuit
  {
  }

  /**
   * The simulation may pair a 0 third-card flag with a real suit, unlike the
   * model-backed rule: draws that do so give a report whose first row does.
   */
  method SimulationIgnoresSuitRule(date: Date) returns (report: seq<Slot>)
    ensures Scheduled(report, date)
    ensures report[0].outcome.playerThirdCard == 0 && report[0].outcome.playerSuit != NoSuit
  {
    var suit := "\U{2660}\U{FE0F} Tr\U{00E8}fle";
    assert suit in SuitSymbols;
    var drawn := Outcome(0, 0, 0, 0, suit, suit);
    report := GeneratePredictions(None, date, (m: nat) => drawn);
  }
}
