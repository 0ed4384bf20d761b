/** The credit-score aggregation application: its three rounds, three events,
    the transition table between them, and the keys its synchronized data
    reads and its rounds write. */
module CreditScoreRounds {
  import opened Wrappers

  datatype Event = Done | NoMajority | RoundTimeout

  datatype Round = HelloRound | CollectTalentProtocolScoreRound | FinishedHelloRound

  const InitialRound: Round := HelloRound
  const InitialStates: set<Round> := {HelloRound}
  const FinalStates: set<Round> := {FinishedHelloRound}

  /** The application's transition function, entry for entry. */
  const TransitionFunction: map<Round, map<Event, Round>> := map[
    HelloRound := map[
      NoMajority := HelloRound,
      RoundTimeout := HelloRound,
      Done := CollectTalentProtocolScoreRound],
    CollectTalentProtocolScoreRound := map[
      NoMajority := CollectTalentProtocolScoreRound,
      RoundTimeout := CollectTalentProtocolScoreRound,
      Done := FinishedHelloRound],
    FinishedHelloRound := map[]
  ]

  /** Timeouts per event, keys kept across periods, and the database
      conditions on entry and exit: all empty. */
  const EventToTimeout: map<Event, int> := map[]
  const CrossPeriodPersistedKeys: set<string> := {}
  const DbPreConditions: map<Round, set<string>> := map[HelloRound := {}]
  const DbPostConditions: map<Round, set<string>> := map[FinishedHelloRound := {}]

  /** How far along the application a round is. */
  function Rank(r: Round): (n: nat)
    ensures n <= 2
  {
    match r
    case HelloRound => 0
    case CollectTalentProtocolScoreRound => 1
    case FinishedHelloRound => 2
  }

  /** The round the table moves to, or None when it has no entry. */
  function Next(r: Round, e: Event): (res: Option<Round>)
    ensures res.None? <==> r in FinalStates
    ensures res.Some? && e == Done ==> Rank(res.value) == Rank(r) + 1
    ensures res.Some? && e != Done ==> res.value == r
  {
    assert r in TransitionFunction && (r !in FinalStates ==> e in TransitionFunction[r]) by {
      assert r == HelloRound || r == CollectTalentProtocolScoreRound || r == FinishedHelloRound;
      assert e == Done || e == NoMajority || e == RoundTimeout;
    }
    if r in TransitionFunction && e in TransitionFunction[r] then Some(TransitionFunction[r][e]) else None
  }

  /** The initial round is the only initial state, and it is not final. */
  lemma InitialStatesExact()
    ensures InitialStates == {InitialRound} && InitialRound == HelloRound
    ensures InitialRound !in FinalStates && Rank(InitialRound) == 0
  {
  }

  /** The final states are exactly the rounds whose row of the table is
      empty; every other round has an entry for each of the three events. */
  lemma FinalIffNoTransitions(r: Round)
    ensures r in FinalStates <==> TransitionFunction[r] == map[]
    ensures r !in FinalStates ==> TransitionFunction[r].Keys == {Done, NoMajority, RoundTimeout}
  {
  }

  /** Every round named in the table is a key of the table, so no entry leads
      to a round the application does not know. */
  lemma TableClosed(r: Round, e: Event)
    requires r in TransitionFunction && e in TransitionFunction[r]
    ensures TransitionFunction[r][e] in TransitionFunction
  {
  }

  /** The configuration tables are empty: no timeouts, nothing persisted
      across periods, no keys required on entry or on exit. */
  lemma ConfigurationEmpty()
    ensures EventToTimeout == map[] && CrossPeriodPersistedKeys == {}
    ensures DbPreConditions.Keys == InitialStates && DbPostConditions.Keys == FinalStates
    ensures forall r :: r in DbPreConditions ==> DbPreConditions[r] == {}
    ensures forall r :: r in DbPostConditions ==> DbPostConditions[r] == {}
  {
  }

  /** The round reached from `r` after the events in order; the application
      stops in a round with no entry for the next event. */
  function RunFrom(r: Round, events: seq<Event>): (res: Round)
    ensures Rank(res) >= Rank(r)
    decreases |events|
  {
    if |events| == 0 then r
    else
      var n := Next(r, events[0]);
      if n.None? then r else RunFrom(n.value, events[1..])
  }

  function DoneCount(events: seq<Event>): (n: nat)
    ensures n <= |events|
  {
    if |events| == 0 then 0 else (if events[0] == Done then 1 else 0) + DoneCount(events[1..])
  }

  function Min(a: int, b: int): int {
    if a <= b then a else b
  }

  /** Only DONE moves the application forward, one round each time, until
      it reaches the final round. */
  lemma {:induction false} RunRank(r: Round, events: seq<Event>)
    ensures Rank(RunFrom(r, events)) == Min(Rank(r) + DoneCount(events), 2)
    decreases |events|
  {
    if |events| > 0 {
      var n := Next(r, events[0]);
      if n.Some? {
        RunRank(n.value, events[1..]);
      } else {
        assert r == FinishedHelloRound;
      }
    }
  }

  /** Rounds are determined by their rank. */
  lemma RankInjective(a: Round, b: Round)
    ensures Rank(a) == Rank(b) <==> a == b
  {
  }

  /** From the initial round, the application is finished exactly when the
      events so far contain at least two DONEs, whatever else they contain. */
  lemma FinishedIffTwoDones(events: seq<Event>)
    ensures RunFrom(HelloRound, events) == FinishedHelloRound <==> DoneCount(events) >= 2
    ensures DoneCount(events) == 1 ==> RunFrom(HelloRound, events) == CollectTalentProtocolScoreRound
    ensures DoneCount(events) == 0 ==> RunFrom(HelloRound, events) == HelloRound
  {
    RunRank(HelloRound, events);
    RankInjective(RunFrom(HelloRound, events), FinishedHelloRound);
    RankInjective(RunFrom(HelloRound, events), CollectTalentProtocolScoreRound);
    RankInjective(RunFrom(HelloRound, events), HelloRound);
  }

  lemma {:induction false} DoneCountAppend(a: seq<Event>, b: seq<Event>)
    ensures DoneCount(a + b) == DoneCount(a) + DoneCount(b)
    decreases |a|
  {
    if |a| > 0 {
      assert (a + b)[1..] == a[1..] + b;
      DoneCountAppend(a[1..], b);
    } else {
      assert a + b == b;
    }
  }

  /** The application finishes at the second DONE and not before: the prefix
      ending just before it is still in the collection round, the prefix
      ending with it is finished. */
  lemma FinishesAtSecondDone(events: seq<Event>, i: int)
    requires 0 <= i < |events| && events[i] == Done && DoneCount(events[..i]) == 1
    ensures RunFrom(HelloRound, events[..i]) == CollectTalentProtocolScoreRound
    ensures RunFrom(HelloRound, events[..i + 1]) == FinishedHelloRound
  {
    assert events[..i + 1] == events[..i] + [events[i]];
    DoneCountAppend(events[..i], [events[i]]);
    FinishedIffTwoDones(events[..i]);
    FinishedIffTwoDones(events[..i + 1]);
  }

  /** The properties of the synchronized data. */
  datatype Accessor =
    | HelloData
    | ParticipantToHelloRound
    | SearchTalentProtocolScore
    | ParticipantToTalentProtocolScoreRound

  /** `get_name` of a property: the property's own name. */
  function AccessorName(a: Accessor): (name: string)
  {
    match a
    case HelloData => "hello_data"
    case ParticipantToHelloRound => "participant_to_hello_round"
    case SearchTalentProtocolScore => "search_talent_protocol_score"
    case ParticipantToTalentProtocolScoreRound => "participant_to_talent_protocol_score_round"
  }

  /** The database key each property reads: the two properties of the second
      round read the keys of the first. */
  function KeyRead(a: Accessor): (key: string)
  {
    match a
    case HelloData => "hello_data"
    case ParticipantToHelloRound => "participant_to_hello_round"
    case SearchTalentProtocolScore => "hello_data"
    case ParticipantToTalentProtocolScoreRound => "participant_to_hello_round"
  }

  /** Whether the property reads strictly (a missing key raises) rather than
      defaulting to None. */
  predicate Strict(a: Accessor) {
    a == ParticipantToHelloRound || a == ParticipantToTalentProtocolScoreRound
  }

  /** What reading a property gives. */
  datatype Read<V> = Value(v: V) | NoneValue | MissingKey

  function ReadProperty<V>(db: map<string, V>, a: Accessor): (r: Read<V>)
    ensures KeyRead(a) in db <==> r.Value?
    ensures r.Value? ==> r.v == db[KeyRead(a)]
    ensures r.MissingKey? <==> KeyRead(a) !in db && Strict(a)
  {
    if KeyRead(a) in db then Value(db[KeyRead(a)])
    else if Strict(a) then MissingKey
    else NoneValue
  }

  /** The keys a collect-same-until-threshold round is configured with: the
      key its collection goes under and the key its selected value goes
      under, both obtained with `get_name` of a property. */
  function CollectionKey(r: Round): (k: Option<string>)
    ensures k.Some? <==> r != FinishedHelloRound
  {
    match r
    case HelloRound => Some(AccessorName(ParticipantToHelloRound))
    case CollectTalentProtocolScoreRound => Some(AccessorName(SearchTalentProtocolScore))
    case FinishedHelloRound => None
  }

  function SelectionKey(r: Round): (k: Option<string>)
    ensures k.Some? <==> r != FinishedHelloRound
  {
    match r
    case HelloRound => Some(AccessorName(HelloData))
    case CollectTalentProtocolScoreRound => Some(AccessorName(ParticipantToTalentProtocolScoreRound))
    case FinishedHelloRound => None
  }

  /** The score properties alias the hello properties: each reads the same
      key as its hello counterpart, and neither reads the key its own name
      says. */
  lemma AccessorsAliased()
    ensures KeyRead(SearchTalentProtocolScore) == KeyRead(HelloData)
    ensures KeyRead(ParticipantToTalentProtocolScoreRound) == KeyRead(ParticipantToHelloRound)
    ensures KeyRead(SearchTalentProtocolScore) != AccessorName(SearchTalentProtocolScore)
    ensures KeyRead(ParticipantToTalentProtocolScoreRound) != AccessorName(ParticipantToTalentProtocolScoreRound)
    ensures forall a :: a == HelloData || a == ParticipantToHelloRound ==> KeyRead(a) == AccessorName(a)
  {
  }

  /** The hello round keeps its collection under the collection property's
      name and its value under the data property's name, while the score
      round has the two the other way round: its collection goes under the
      score property's name and its value under the participants property's. */
  lemma ScoreRoundKeysSwapped()
    ensures CollectionKey(HelloRound) == Some(AccessorName(ParticipantToHelloRound))
    ensures SelectionKey(HelloRound) == Some(AccessorName(HelloData))
    ensures CollectionKey(CollectTalentProtocolScoreRound) == Some(AccessorName(SearchTalentProtocolScore))
    ensures SelectionKey(CollectTalentProtocolScoreRound) == Some(AccessorName(ParticipantToTalentProtocolScoreRound))
  {
  }

  /** The database after a round stores its collection and its selected
      value under its two keys. */
  function Commit<V>(db: map<string, V>, r: Round, collection: V, selected: V): (db': map<string, V>)
    requires r != FinishedHelloRound
    ensures db'.Keys == db.Keys + {CollectionKey(r).value, SelectionKey(r).value}
    ensures db'[SelectionKey(r).value] == selected
    ensures CollectionKey(r).value != SelectionKey(r).value ==> db'[CollectionKey(r).value] == collection
    ensures forall k :: k in db && k != CollectionKey(r).value && k != SelectionKey(r).value ==> db'[k] == db[k]
  {
    db[CollectionKey(r).value := collection][SelectionKey(r).value := selected]
  }

  /** Whatever the score round stores, the score properties still read what
      the hello round stored: its selected value and its collection. */
  lemma ScoreRoundInvisible<V>(db: map<string, V>, helloCollection: V, helloValue: V, scoreCollection: V, scoreValue: V)
    ensures var db1 := Commit(db, HelloRound, helloCollection, helloValue);
      var db2 := Commit(db1, CollectTalentProtocolScoreRound, scoreCollection, scoreValue);
      && ReadProperty(db2, SearchTalentProtocolScore) == Value(helloValue)
      && ReadProperty(db2, ParticipantToTalentProtocolScoreRound) == Value(helloCollection)
  {
    var db1 := Commit(db, HelloRound, helloCollection, helloValue);
    var db2 := Commit(db1, CollectTalentProtocolScoreRound, scoreCollection, scoreValue);
    assert "hello_data" != "search_talent_protocol_score";
    assert "hello_data" != "participant_to_talent_protocol_score_round";
    assert "participant_to_hello_round" != "search_talent_protocol_score";
    assert "participant_to_hello_round" != "participant_to_talent_protocol_score_round";
    assert db2["hello_data"] == db1["hello_data"] == helloValue;
    assert db2["participant_to_hello_round"] == db1["participant_to_hello_round"] == helloCollection;
  }
}
