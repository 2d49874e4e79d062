/** Outcome-name and participant lookups used to type catalog outcomes. */
module OutcomeTypes {
  import opened Domain

  /** Outcome names that are typed regardless of the event's participants. */
  const Table: map<string, OutcomeType> :=
    map["Draw" := DrawOutcome, "Over" := OverOutcome, "Under" := UnderOutcome, "Odd" := OddOutcome, "Even" := EvenOutcome]

  lemma TableShape()
    ensures Table.Keys == {"Draw", "Over", "Under", "Odd", "Even"}
    ensures Table["Draw"] == DrawOutcome && Table["Over"] == OverOutcome && Table["Under"] == UnderOutcome
    ensures Table["Odd"] == OddOutcome && Table["Even"] == EvenOutcome
  {
  }

  /** The outcome type a participant of the given type gives its name; an unknown type gives the zero value. */
  function ForParticipant(t: ParticipantType): OutcomeType {
    match t
    case Home => HomeOutcome
    case Away => AwayOutcome
    case Competitor => CompetitorOutcome
    case ParticipantUnspecified => OutcomeUnspecified
  }

  /** Index `i` holds the last participant of that name. */
  predicate IsLastWithName(pts: seq<Participant>, i: int)
    requires 0 <= i < |pts|
  {
    forall j :: i < j < |pts| ==> pts[j].name != pts[i].name
  }

  function Names(pts: seq<Participant>): set<string> {
    set i | 0 <= i < |pts| :: pts[i].name
  }

  /** Participant name to outcome type; when names repeat, the later participant wins. */
  function MapParticipants(pts: seq<Participant>): map<string, OutcomeType> {
    if |pts| == 0 then map[]
    else MapParticipants(pts[..|pts| - 1])[pts[|pts| - 1].name := ForParticipant(pts[|pts| - 1].kind)]
  }

  /** The result is keyed by exactly the participants' names. */
  lemma {:induction false} MapParticipantsKeys(pts: seq<Participant>)
    ensures MapParticipants(pts).Keys == Names(pts)
  {
    if |pts| > 0 {
      var init := pts[..|pts| - 1];
      MapParticipantsKeys(init);
      assert forall i :: 0 <= i < |init| ==> init[i] == pts[i];
      assert Names(pts) == Names(init) + {pts[|pts| - 1].name};
    }
  }

  /** Each name carries the outcome type of the last participant bearing it. */
  lemma {:induction false} MapParticipantsLastWins(pts: seq<Participant>, i: int)
    requires 0 <= i < |pts| && IsLastWithName(pts, i)
    ensures pts[i].name in MapParticipants(pts)
    ensures MapParticipants(pts)[pts[i].name] == ForParticipant(pts[i].kind)
  {
    if i < |pts| - 1 {
      var init := pts[..|pts| - 1];
      assert init[i] == pts[i];
      MapParticipantsLastWins(init, i);
    }
  }
}
