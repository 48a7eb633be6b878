/** What the memory browser shows, read off the calls and answers. */
module MemoryBrowserEvents {
  import opened Common
  import opened MemoryBrowser

  /** The state after the first k events. */
  function At(es: seq<Event>, k: nat): State
    requires k <= |es|
  {
    if k == 0 then Init() else Step(At(es, k - 1), es[k - 1])
  }

  lemma {:induction false} AtIsRun(es: seq<Event>, k: nat)
    requires k <= |es|
    ensures At(es, k) == Run(es[..k])
    decreases k
  {
    if k == 0 {
    } else {
      AtIsRun(es, k - 1);
      assert es[..k][..k - 1] == es[..k - 1];
    }
  }

  /** Event i answers a request that is outstanding. */
  predicate AnswersAt(es: seq<Event>, i: int) {
    0 <= i < |es| && es[i].Answer? && es[i].request < |At(es, i).outstanding|
  }

  function Answered(es: seq<Event>, i: nat): Request
    requires AnswersAt(es, i)
  {
    At(es, i).outstanding[es[i].request]
  }

  // ---- the two lists ----

  /** The rows event i brings for a request of the given kind. */
  function RowsAt(es: seq<Event>, i: int, request: Request): Option<seq<string>> {
    if AnswersAt(es, i) && es[i].reply.Rows? && Answered(es, i) == request then Some(es[i].reply.rows) else None
  }

  lemma StepLists(s: State, e: Event)
    ensures var answered := e.Answer? && e.request < |s.outstanding| && e.reply.Rows?;
            && Step(s, e).episodes
               == (if answered && s.outstanding[e.request].Episodes? then e.reply.rows else s.episodes)
            && Step(s, e).preferences
               == (if answered && s.outstanding[e.request].Preferences? then e.reply.rows else s.preferences)
  {
  }

  /** In every run each list shows the rows of the latest answer to a request of its own kind. */
  lemma {:induction false} ListsAreLatest(es: seq<Event>, k: nat)
    requires k <= |es|
    ensures Latest(i => RowsAt(es, i, Episodes), [], k, At(es, k).episodes)
    ensures Latest(i => RowsAt(es, i, Preferences), [], k, At(es, k).preferences)
    decreases k
  {
    if k == 0 {
    } else {
      var s := At(es, k - 1);
      ListsAreLatest(es, k - 1);
      LatestStep(i => RowsAt(es, i, Episodes), [], k - 1, s.episodes);
      LatestStep(i => RowsAt(es, i, Preferences), [], k - 1, s.preferences);
      StepLists(s, es[k - 1]);
    }
  }

  // ---- the selection, its turns and the error ----

  function SelectionAt(es: seq<Event>, i: int): Option<string> {
    if 0 <= i < |es| && Selects(es[i]) then Some(NewSelection(es[i])) else None
  }

  /** Turns on display, and the episode they were requested for. */
  datatype Shown = Shown(turns: seq<string>, of: Option<string>)

  /** Turns come with an answer; a selection clears them. */
  function TurnsAt(es: seq<Event>, i: int): Option<Shown> {
    if AnswersAt(es, i) && es[i].reply.Rows? && Answered(es, i).Turns?
    then Some(Shown(es[i].reply.rows, Some(Answered(es, i).episode)))
    else if 0 <= i < |es| && Selects(es[i]) then Some(Shown([], None))
    else None
  }

  function ErrorAt(es: seq<Event>, i: int): Option<string> {
    if AnswersAt(es, i) && es[i].reply.Error? then Some(es[i].reply.message)
    else if 0 <= i < |es| && es[i].Refresh? then Some("")
    else None
  }

  lemma StepShown(s: State, e: Event)
    ensures var s' := Step(s, e);
            var answers := e.Answer? && e.request < |s.outstanding|;
            && s'.selected == (if Selects(e) then NewSelection(e) else s.selected)
            && s'.error == (if answers && e.reply.Error? then e.reply.message
                            else if e.Refresh? then "" else s.error)
            && Shown(s'.turns, s'.turnsOf)
               == (if answers && e.reply.Rows? && s.outstanding[e.request].Turns?
                   then Shown(e.reply.rows, Some(s.outstanding[e.request].episode))
                   else if Selects(e) then Shown([], None) else Shown(s.turns, s.turnsOf))
  {
  }

  /** In every run the selection is the latest made, the turns shown are the latest to come since
      it was made, and the error shown is the latest since the latest refresh. */
  lemma {:induction false} SelectionShown(es: seq<Event>, k: nat)
    requires k <= |es|
    ensures Latest(i => SelectionAt(es, i), "", k, At(es, k).selected)
    ensures Latest(i => TurnsAt(es, i), Shown([], None), k, Shown(At(es, k).turns, At(es, k).turnsOf))
    ensures Latest(i => ErrorAt(es, i), "", k, At(es, k).error)
    decreases k
  {
    if k == 0 {
    } else {
      var s := At(es, k - 1);
      SelectionShown(es, k - 1);
      LatestStep(i => SelectionAt(es, i), "", k - 1, s.selected);
      LatestStep(i => TurnsAt(es, i), Shown([], None), k - 1, Shown(s.turns, s.turnsOf));
      LatestStep(i => ErrorAt(es, i), "", k - 1, s.error);
      StepShown(s, es[k - 1]);
    }
  }

  // ---- the requests ----

  function Requests(e: Event): multiset<Request> {
    match e
    case Refresh => multiset{Episodes, Preferences}
    case SelectEpisode(episode) => multiset{Turns(episode)}
    case _ => multiset{}
  }

  function Made(es: seq<Event>, k: nat): multiset<Request>
    requires k <= |es|
  {
    if k == 0 then multiset{} else Made(es, k - 1) + Requests(es[k - 1])
  }

  function Settled(es: seq<Event>, k: nat): multiset<Request>
    requires k <= |es|
  {
    if k == 0 then multiset{}
    else Settled(es, k - 1) + if AnswersAt(es, k - 1) then multiset{Answered(es, k - 1)} else multiset{}
  }

  lemma {:induction false} Removed(s: seq<Request>, r: nat)
    requires r < |s|
    ensures multiset(s[..r] + s[r + 1..]) + multiset{s[r]} == multiset(s)
  {
    assert s == s[..r] + [s[r]] + s[r + 1..];
  }

  lemma StepOutstanding(s: State, e: Event)
    ensures var answers := e.Answer? && e.request < |s.outstanding|;
            multiset(Step(s, e).outstanding)
            + (if answers then multiset{s.outstanding[e.request]} else multiset{})
            == multiset(s.outstanding) + Requests(e)
  {
    match e
    case Refresh =>
    case SelectEpisode(_) =>
    case ClearSelection =>
    case Answer(r, _) =>
      if r < |s.outstanding| {
        Removed(s.outstanding, r);
      }
  }

  lemma Balance(
    made: multiset<Request>, settled: multiset<Request>, out: multiset<Request>,
    more: multiset<Request>, answered: multiset<Request>, out': multiset<Request>)
    requires made == settled + out && out' + answered == out + more
    ensures made + more == (settled + answered) + out'
  {
    forall r: Request ensures (made + more)[r] == ((settled + answered) + out')[r] {
      assert (out' + answered)[r] == (out + more)[r];
    }
  }

  /** In every run, what was requested is what was answered and what is outstanding. */
  lemma {:induction false} RequestsConserved(es: seq<Event>, k: nat)
    requires k <= |es|
    ensures Made(es, k) == Settled(es, k) + multiset(At(es, k).outstanding)
    decreases k
  {
    if k == 0 {
    } else {
      var s, e := At(es, k - 1), es[k - 1];
      RequestsConserved(es, k - 1);
      StepOutstanding(s, e);
      Balance(Made(es, k - 1), Settled(es, k - 1), multiset(s.outstanding), Requests(e),
              if AnswersAt(es, k - 1) then multiset{Answered(es, k - 1)} else multiset{},
              multiset(Step(s, e).outstanding));
    }
  }
}
