/**
  The memory browser: a pending counter that refresh sets rather than adds to, against the
  requests really outstanding, and replies that carry no trace of what was selected when
  they were requested.
 */
module MemoryBrowser {
  import opened Common

  datatype Request = Episodes | Preferences | Turns(episode: string)

  /** What arrived for a request: rows, or an error. */
  datatype Reply = Rows(rows: seq<string>) | Error(message: string)

  /** outstanding lists the unanswered requests; turnsOf is the episode the shown turns were
      fetched for. */
  datatype State = State(
    pending: int, loading: bool, selected: string, episodes: seq<string>, turns: seq<string>,
    preferences: seq<string>, error: string, outstanding: seq<Request>, turnsOf: Option<string>)

  datatype Event =
    | Refresh
    | SelectEpisode(episode: string)
    | ClearSelection
    | Answer(request: nat, reply: Reply)

  function Init(): State { State(0, false, "", [], [], [], "", [], None) }

  function DecrementPending(s: State): State {
    var p := if s.pending > 0 then s.pending - 1 else s.pending;
    s.(pending := p, loading := if p == 0 then false else s.loading)
  }

  function Step(s: State, e: Event): State {
    match e
    case Refresh =>
      s.(error := "", selected := "", turns := [], turnsOf := None, pending := 2, loading := true,
         outstanding := s.outstanding + [Episodes, Preferences])
    case SelectEpisode(ep) =>
      s.(selected := ep, turns := [], turnsOf := None, pending := s.pending + 1, loading := true,
         outstanding := s.outstanding + [Turns(ep)])
    case ClearSelection => s.(selected := "", turns := [], turnsOf := None)
    case Answer(r, reply) =>
      if r >= |s.outstanding| then s
      else
        var s' := s.(outstanding := s.outstanding[..r] + s.outstanding[r + 1..]);
        match reply
        case Error(message) => DecrementPending(s'.(error := message))
        case Rows(rows) =>
          match s.outstanding[r]
          case Episodes => DecrementPending(s'.(episodes := rows))
          case Preferences => DecrementPending(s'.(preferences := rows))
          case Turns(ep) => DecrementPending(s'.(turns := rows, turnsOf := Some(ep)))
  }

  function Run(es: seq<Event>): State {
    if es == [] then Init() else Step(Run(es[..|es| - 1]), es[|es| - 1])
  }

  lemma RunSnoc(es: seq<Event>, e: Event)
    ensures Run(es + [e]) == Step(Run(es), e)
  {
    assert (es + [e])[..|es|] == es;
  }

  class MemoryBrowserModel {
    var pendingRequests: int
    var loading: bool
    var selectedEpisodeId: string
    var episodes: seq<string>
    var selectedEpisodeTurns: seq<string>
    var preferences: seq<string>
    var errorMessage: string
    var outstanding: seq<Request>
    var turnsOf: Option<string>

    function Abs(): State
      reads this
    {
      State(pendingRequests, loading, selectedEpisodeId, episodes, selectedEpisodeTurns, preferences,
            errorMessage, outstanding, turnsOf)
    }

    constructor ()
      ensures Abs() == Init()
    {
      pendingRequests, loading, selectedEpisodeId, episodes := 0, false, "", [];
      selectedEpisodeTurns, preferences, errorMessage, outstanding, turnsOf := [], [], "", [], None;
    }

    method ClearTurns()
      modifies this`selectedEpisodeTurns, this`turnsOf
      ensures selectedEpisodeTurns == [] && turnsOf == None
    {
      selectedEpisodeTurns := [];
      turnsOf := None;
    }

    method DoRefresh()
      modifies this
      ensures Abs() == Step(old(Abs()), Refresh)
    {
      errorMessage := "";
      selectedEpisodeId := "";
      ClearTurns();
      pendingRequests := 2;
      loading := true;
      outstanding := outstanding + [Episodes];
      outstanding := outstanding + [Preferences];
    }

    method DoSelectEpisode(episode: string)
      modifies this
      ensures Abs() == Step(old(Abs()), SelectEpisode(episode))
    {
      selectedEpisodeId := episode;
      ClearTurns();
      pendingRequests := pendingRequests + 1;
      loading := true;
      outstanding := outstanding + [Turns(episode)];
    }

    method DoClearSelection()
      modifies this
      ensures Abs() == Step(old(Abs()), ClearSelection)
    {
      selectedEpisodeId := "";
      ClearTurns();
    }

    method OnAnswer(request: nat, reply: Reply)
      modifies this
      ensures Abs() == Step(old(Abs()), Answer(request, reply))
    {
      if request >= |outstanding| {
        return;
      }
      var asked := outstanding[request];
      outstanding := outstanding[..request] + outstanding[request + 1..];
      match reply {
        case Error(message) => errorMessage := message;
        case Rows(rows) =>
          match asked {
            case Episodes => episodes := rows;
            case Preferences => preferences := rows;
            case Turns(ep) => selectedEpisodeTurns, turnsOf := rows, Some(ep);
          }
      }
      DoDecrementPending();
    }

    method DoDecrementPending()
      modifies this`pendingRequests, this`loading
      ensures Abs() == DecrementPending(old(Abs()))
    {
      if pendingRequests > 0 {
        pendingRequests := pendingRequests - 1;
      }
      if pendingRequests == 0 {
        loading := false;
      }
    }
  }

  /** Loading is shown exactly while the counter is positive, and the counter never exceeds
      the requests outstanding. */
  ghost predicate CounterOk(s: State) {
    0 <= s.pending <= |s.outstanding| && (s.loading <==> s.pending > 0)
  }

  lemma StepCounter(s: State, e: Event)
    requires CounterOk(s)
    ensures CounterOk(Step(s, e))
    ensures s.pending == |s.outstanding| ==>
              (Step(s, e).pending == |Step(s, e).outstanding| <==> !(e.Refresh? && s.outstanding != []))
  {
  }

  lemma {:induction false} RunCounter(es: seq<Event>)
    ensures CounterOk(Run(es))
    decreases |es|
  {
    if es == [] {
    } else {
      RunCounter(es[..|es| - 1]);
      StepCounter(Run(es[..|es| - 1]), es[|es| - 1]);
    }
  }

  /** refresh has been called with requests outstanding. */
  predicate RefreshedEarly(es: seq<Event>) {
    es != [] &&
      (RefreshedEarly(es[..|es| - 1])
       || (es[|es| - 1].Refresh? && Run(es[..|es| - 1]).outstanding != []))
  }

  /** The counter equals the outstanding requests after every event so far. */
  predicate AlwaysExact(es: seq<Event>) {
    Run(es).pending == |Run(es).outstanding| && (es == [] || AlwaysExact(es[..|es| - 1]))
  }

  /** The counter equals the outstanding requests throughout a run exactly when refresh is
      never called with requests outstanding; then loading falls only when all are answered. */
  lemma {:induction false} CounterIff(es: seq<Event>)
    ensures AlwaysExact(es) <==> !RefreshedEarly(es)
    ensures CounterOk(Run(es))
    ensures !RefreshedEarly(es) ==> (Run(es).loading <==> Run(es).outstanding != [])
    decreases |es|
  {
    RunCounter(es);
    if es == [] {
    } else {
      var init := es[..|es| - 1];
      CounterIff(init);
      StepCounter(Run(init), es[|es| - 1]);
    }
  }

  /** Two refreshes before the first answers: after two answers the spinner is gone while two
      requests are outstanding. */
  lemma {:induction false} LoadingEndsEarly(reply: Reply)
    ensures var s := Run([Refresh, Refresh, Answer(0, reply), Answer(0, reply)]);
            !s.loading && s.outstanding == [Episodes, Preferences]
  {
    var e1 := [Refresh];
    var e2 := e1 + [Refresh];
    var e3 := e2 + [Answer(0, reply)];
    assert [] + [Refresh] == e1;
    RunSnoc([], Refresh);
    RunSnoc(e1, Refresh);
    assert Run(e2).outstanding == [Episodes, Preferences, Episodes, Preferences] && Run(e2).pending == 2;
    RunSnoc(e2, Answer(0, reply));
    assert Run(e3).outstanding == [Preferences, Episodes, Preferences] && Run(e3).pending == 1;
    RunSnoc(e3, Answer(0, reply));
    assert e3 + [Answer(0, reply)] == [Refresh, Refresh, Answer(0, reply), Answer(0, reply)];
  }

  // ---- whose turns are shown ----

  /** The shown turns, if any were fetched, are those of the selected episode. */
  predicate TurnsMatch(s: State) { s.turnsOf == None || s.turnsOf == Some(s.selected) }

  /** A request for the turns of some episode other than the given one is outstanding. */
  predicate TurnsAwaited(s: State, except: string) {
    exists r :: 0 <= r < |s.outstanding| && s.outstanding[r].Turns? && s.outstanding[r].episode != except
  }

  predicate Selects(e: Event) { e.Refresh? || e.SelectEpisode? || e.ClearSelection? }

  /** What an event that selects leaves selected. */
  function NewSelection(e: Event): string { if e.SelectEpisode? then e.episode else "" }

  /** Some event so far changed the selection while the turns of a different episode were
      awaited. */
  predicate Overtaken(es: seq<Event>)
    decreases |es|
  {
    es != [] &&
      var init := es[..|es| - 1];
      var e := es[|es| - 1];
      Overtaken(init) || (Selects(e) && TurnsAwaited(Run(init), NewSelection(e)))
  }

  /** One more answer can put the wrong turns on screen. */
  ghost predicate CanMislead(s: State) {
    exists r, rows :: !TurnsMatch(Step(s, Answer(r, Rows(rows))))
  }

  /** At some point so far one more answer could have put the wrong turns on screen. */
  ghost predicate EverMisleading(es: seq<Event>)
    decreases |es|
  {
    CanMislead(Run(es)) || (es != [] && EverMisleading(es[..|es| - 1]))
  }

  ghost predicate OwnTurns(s: State) { TurnsMatch(s) && !TurnsAwaited(s, s.selected) }

  lemma StepOwnTurns(s: State, e: Event)
    requires OwnTurns(s) && !(Selects(e) && TurnsAwaited(s, NewSelection(e)))
    ensures OwnTurns(Step(s, e))
  {
    var s' := Step(s, e);
    forall r | 0 <= r < |s'.outstanding| && s'.outstanding[r].Turns?
      ensures s'.outstanding[r].episode == s'.selected
    {
      match e
      case Answer(a, _) =>
        assert a < |s.outstanding| ==> s'.outstanding[r] == s.outstanding[if r < a then r else r + 1];
      case _ =>
        assert r < |s.outstanding| ==> s'.outstanding[r] == s.outstanding[r];
    }
  }

  lemma {:induction false} NeverOvertaken(es: seq<Event>)
    requires !Overtaken(es)
    ensures OwnTurns(Run(es))
    decreases |es|
  {
    if es == [] {
    } else {
      NeverOvertaken(es[..|es| - 1]);
      StepOwnTurns(Run(es[..|es| - 1]), es[|es| - 1]);
    }
  }

  lemma StepOvertaken(s: State, e: Event)
    requires Selects(e) && TurnsAwaited(s, NewSelection(e))
    ensures CanMislead(Step(s, e))
  {
    var except := NewSelection(e);
    var r :| 0 <= r < |s.outstanding| && s.outstanding[r].Turns? && s.outstanding[r].episode != except;
    var s' := Step(s, e);
    assert s'.selected == NewSelection(e) && s'.outstanding[r] == s.outstanding[r];
    assert !TurnsMatch(Step(s', Answer(r, Rows([]))));
  }

  lemma OwnTurnsHold(s: State)
    requires OwnTurns(s)
    ensures !CanMislead(s)
  {
    forall r: nat, rows ensures TurnsMatch(Step(s, Answer(r, Rows(rows)))) {
      StepOwnTurns(s, Answer(r, Rows(rows)));
    }
  }

  /** In every run: the shown turns can come to belong to another episode exactly when the
      selection was changed while the turns of a different episode were awaited; otherwise
      they belong to the selection throughout. */
  lemma {:induction false} TurnsIff(es: seq<Event>)
    ensures EverMisleading(es) <==> Overtaken(es)
    ensures !Overtaken(es) ==> TurnsMatch(Run(es))
    decreases |es|
  {
    if !Overtaken(es) {
      NeverOvertaken(es);
      OwnTurnsHold(Run(es));
    }
    if es == [] {
    } else {
      var init := es[..|es| - 1];
      TurnsIff(init);
      if Selects(es[|es| - 1]) && TurnsAwaited(Run(init), NewSelection(es[|es| - 1])) {
        StepOvertaken(Run(init), es[|es| - 1]);
      }
    }
  }

  /** A late reply is shown under whatever is selected now: select a, select b, and the answer
      for a arriving last leaves a's turns on screen with b selected. */
  lemma {:induction false} StaleTurns(a: string, b: string)
    requires a != b
    ensures var s := Run([SelectEpisode(a), SelectEpisode(b), Answer(1, Rows([b])), Answer(0, Rows([a]))]);
            s.selected == b && s.turnsOf == Some(a) && s.turns == [a] && !s.loading
  {
    var e1 := [SelectEpisode(a)];
    var e2 := e1 + [SelectEpisode(b)];
    var e3 := e2 + [Answer(1, Rows([b]))];
    assert [] + [SelectEpisode(a)] == e1;
    RunSnoc([], SelectEpisode(a));
    RunSnoc(e1, SelectEpisode(b));
    assert Run(e2).outstanding == [Turns(a), Turns(b)];
    RunSnoc(e2, Answer(1, Rows([b])));
    assert Run(e3).outstanding == [Turns(a)] && Run(e3).pending == 1 && Run(e3).selected == b;
    RunSnoc(e3, Answer(0, Rows([a])));
    assert e3 + [Answer(0, Rows([a]))]
        == [SelectEpisode(a), SelectEpisode(b), Answer(1, Rows([b])), Answer(0, Rows([a]))];
  }
}
