/** The search session of the search form
    (src/app/search-form/search-form.component.ts): `search()` starts a session,
    and the subscription callback folds each event of the result stream into the
    component's state. An event is `Some(batch)` for a parsed message and `None`
    for the `undefined` the file search service publishes once its event source
    fails or closes. `R` stands for a result record, whose shape is not modelled. */
module SearchForm {
  import opened Wrappers
  import opened RequestModel
  import opened DialogService

  const UnableToReadMessage: string := "Unable to read files from the given directory."

  /** The alert raised when a session ends with no results. */
  const UnableToReadAlert: AlertArgument := AlertMessage(UnableToReadMessage)

  /** The current values of the form's three controls. */
  datatype FormValues = FormValues(server: string, rootPath: string, searchTerm: string)

  /** `_createSerchRequestModel`: the request built from the form's `server`,
      `rootPath` and `searchTerm` values, verbatim and in that order. */
  function CreateSearchRequestModel(form: FormValues): (r: SearchRequestModel)
    ensures r.server == form.server
    ensures r.rootPath == form.rootPath
    ensures r.searchTerm == form.searchTerm
  {
    Of(form.server, form.rootPath, form.searchTerm)
  }

  // ---------------------------------------------------------------------------
  // The session as values
  // ---------------------------------------------------------------------------

  /** The component's session state: the results collected so far, the loading
      flag, and every alert raised through the dialog service, oldest first. */
  datatype Session<R> = Session(dataSource: seq<R>, loading: bool, alerts: seq<AlertArgument>)

  /** One event of the result stream. */
  type Event<R> = Option<seq<R>>

  /** `search()`: loading starts and the results are cleared; the alerts already
      raised stay raised. */
  function Reset<R>(s: Session<R>): (r: Session<R>)
    ensures r.loading
    ensures |r.dataSource| == 0
    ensures r.alerts == s.alerts
  {
    s.(loading := true, dataSource := [])
  }

  /** The subscription callback. A batch (even an empty one, which is truthy)
      is appended to the results whatever the loading flag says. The terminal
      event clears the loading flag, keeps the results, and raises the
      "unable to read" alert exactly when there are no results. */
  function Step<R>(s: Session<R>, data: Event<R>): (r: Session<R>)
    ensures data.Some? ==> |r.dataSource| == |s.dataSource| + |data.value|
    ensures data.Some? ==> r.dataSource[..|s.dataSource|] == s.dataSource
    ensures data.Some? ==> r.dataSource[|s.dataSource|..] == data.value
    ensures data.Some? ==> r.loading == s.loading && r.alerts == s.alerts
    ensures data.None? ==> !r.loading && r.dataSource == s.dataSource
    ensures data.None? ==> |s.alerts| <= |r.alerts| <= |s.alerts| + 1
    ensures data.None? ==> r.alerts[..|s.alerts|] == s.alerts
    ensures data.None? ==> (|r.alerts| == |s.alerts| + 1 <==> |s.dataSource| == 0)
    ensures data.None? ==> (|r.alerts| == |s.alerts| <==> |s.dataSource| != 0)
    ensures data.None? && |s.dataSource| == 0 ==> r.alerts[|s.alerts|] == UnableToReadAlert
  {
    match data
    case Some(batch) => s.(dataSource := s.dataSource + batch)
    case None =>
      if |s.dataSource| == 0 then s.(loading := false, alerts := s.alerts + [UnableToReadAlert])
      else s.(loading := false)
  }

  /** The state after the callback has run on each event in turn. */
  function Run<R>(s: Session<R>, events: seq<Event<R>>): Session<R>
    decreases |events|
  {
    if |events| == 0 then s else Run(Step(s, events[0]), events[1..])
  }

  /** The data events carrying the given batches, in order. */
  function DataEvents<R>(batches: seq<seq<R>>): seq<Event<R>>
  {
    seq(|batches|, i requires 0 <= i < |batches| => Some(batches[i]))
  }

  /** The batches joined end to end, as repeated `concat` builds them. */
  function Concat<R>(batches: seq<seq<R>>): seq<R>
    decreases |batches|
  {
    if |batches| == 0 then [] else batches[0] + Concat(batches[1..])
  }

  /** The total number of records in the batches. */
  function TotalLength<R>(batches: seq<seq<R>>): nat
    decreases |batches|
  {
    if |batches| == 0 then 0 else |batches[0]| + TotalLength(batches[1..])
  }

  /** Joining keeps every record: the length is the sum of the batch lengths,
      and the result is empty exactly when every batch is. */
  lemma {:induction false} ConcatLength<R>(batches: seq<seq<R>>)
    ensures |Concat(batches)| == TotalLength(batches)
    ensures |Concat(batches)| == 0 <==> forall i :: 0 <= i < |batches| ==> |batches[i]| == 0
    decreases |batches|
  {
    if |batches| > 0 {
      ConcatLength(batches[1..]);
      assert forall i :: 1 <= i < |batches| ==> batches[i] == batches[1..][i - 1];
    }
  }

  /** The callback over a sequence of events is the callback over its parts,
      one after the other. */
  lemma {:induction false} RunSplit<R>(s: Session<R>, e1: seq<Event<R>>, e2: seq<Event<R>>)
    ensures Run(s, e1 + e2) == Run(Run(s, e1), e2)
    decreases |e1|
  {
    if |e1| > 0 {
      assert (e1 + e2)[0] == e1[0];
      assert (e1 + e2)[1..] == e1[1..] + e2;
      RunSplit(Step(s, e1[0]), e1[1..], e2);
    } else {
      assert e1 + e2 == e2;
    }
  }

  /** Data events only append: after batches b1 .. bn the results are the old
      results followed by b1 ++ .. ++ bn, and the loading flag and the alerts
      are unchanged. */
  lemma {:induction false} RunDataEvents<R>(s: Session<R>, batches: seq<seq<R>>)
    ensures Run(s, DataEvents(batches)) == s.(dataSource := s.dataSource + Concat(batches))
    decreases |batches|
  {
    if |batches| > 0 {
      var events := DataEvents(batches);
      assert events[1..] == DataEvents(batches[1..]);
      var s1 := Step(s, events[0]);
      assert s1.dataSource == s.dataSource + batches[0];
      RunDataEvents(s1, batches[1..]);
      assert s1.dataSource + Concat(batches[1..]) == s.dataSource + Concat(batches);
    }
  }

  /** A whole session: after `search()`, batches b1 .. bn and the terminal
      event, the results are b1 ++ .. ++ bn, loading is over, and exactly one
      "unable to read" alert was raised if every batch was empty, none
      otherwise. */
  lemma SearchSession<R>(s: Session<R>, batches: seq<seq<R>>)
    ensures var r := Run(Reset(s), DataEvents(batches) + [None]);
      && r.dataSource == Concat(batches)
      && |r.dataSource| == TotalLength(batches)
      && !r.loading
      && r.alerts == s.alerts + (if forall i :: 0 <= i < |batches| ==> |batches[i]| == 0 then [UnableToReadAlert] else [])
  {
    var s0 := Reset(s);
    RunSplit(s0, DataEvents(batches), [None]);
    RunDataEvents(s0, batches);
    ConcatLength(batches);
    var s1 := Run(s0, DataEvents(batches));
    assert s1.dataSource == Concat(batches);
    assert Run(s1, [None]) == Step(s1, None);
  }

  /** Whatever the events, results and alerts only grow between two calls of
      `search()`, and loading stays on exactly as long as no terminal event
      has arrived. */
  lemma {:induction false} RunAppendOnly<R>(s: Session<R>, events: seq<Event<R>>)
    ensures |s.dataSource| <= |Run(s, events).dataSource|
    ensures Run(s, events).dataSource[..|s.dataSource|] == s.dataSource
    ensures |s.alerts| <= |Run(s, events).alerts|
    ensures Run(s, events).alerts[..|s.alerts|] == s.alerts
    ensures Run(s, events).loading <==> s.loading && forall i :: 0 <= i < |events| ==> events[i].Some?
    decreases |events|
  {
    if |events| > 0 {
      var s1 := Step(s, events[0]);
      RunAppendOnly(s1, events[1..]);
      var r := Run(s1, events[1..]);
      assert r.dataSource[..|s.dataSource|] == r.dataSource[..|s1.dataSource|][..|s.dataSource|];
      assert r.alerts[..|s.alerts|] == r.alerts[..|s1.alerts|][..|s.alerts|];
      assert forall i :: 1 <= i < |events| ==> events[i] == events[1..][i - 1];
    }
  }

  /** Nothing closes the stream of an earlier search, and every stream feeds
      the same callback. When the earlier stream's terminal event arrives after
      `search()`, the new session stops loading (and if nothing had arrived
      yet, it raises the alert) while the new stream's batches b1 .. bn still
      come in and are appended. */
  lemma StaleTerminalEndsNewSession<R>(s: Session<R>, batches: seq<seq<R>>)
    ensures var r := Run(Reset(s), [None] + DataEvents(batches));
      && r.dataSource == Concat(batches)
      && !r.loading
      && r.alerts == s.alerts + [UnableToReadAlert]
  {
    var s0 := Reset(s);
    RunSplit(s0, [None], DataEvents(batches));
    assert Run(s0, [None]) == Step(s0, None);
    RunDataEvents(Step(s0, None), batches);
  }

  /** Calling `search()` twice in a row is calling it once: nothing of the
      first session is left. */
  lemma ResetIdempotent<R>(s: Session<R>)
    ensures Reset(Reset(s)) == Reset(s)
  {
  }

  /** The callback does not ignore events after the terminal one: a batch that
      arrives after it is still appended (and loading stays off), and a second
      terminal event on an empty session raises the alert a second time. */
  lemma NoGuardAfterTerminal<R>(s: Session<R>, batch: seq<R>)
    ensures Step(Step(s, None), Some(batch)).dataSource == s.dataSource + batch
    ensures !Step(Step(s, None), Some(batch)).loading
    ensures |s.dataSource| == 0 ==> Step(Step(s, None), None).alerts == s.alerts + [UnableToReadAlert, UnableToReadAlert]
  {
  }

  /** The alert the session raises is the plain message, shown on a bottom
      sheet with the default title 'Warning!', type 'warn', no detail lines and
      no callback. */
  lemma UnableToReadAlertShown()
    ensures ShowAlert(UnableToReadAlert).data == AlertData(UnableToReadMessage, [], "Warning!", "warn", None)
    ensures AfterDismissed(UnableToReadAlert, Some(true)).None?
  {
  }

  // ---------------------------------------------------------------------------
  // The component
  // ---------------------------------------------------------------------------

  /** The fields of `SearchFormComponent` that the search session updates in
      place. `alerts` records the calls to `dialogService.showAlert`. */
  class SearchFormComponent<R> {
    var dataSource: seq<R>
    var loading: bool
    ghost var alerts: seq<AlertArgument>

    /** The session state these fields hold. */
    ghost function State(): Session<R>
      reads this
    {
      Session(dataSource, loading, alerts)
    }

    /** A new component has no results, is not loading and has raised nothing. */
    constructor ()
      ensures dataSource == [] && !loading && alerts == []
    {
      dataSource := [];
      loading := false;
      alerts := [];
    }

    /** `search()`: builds the request from the form values, resets the
      session, and returns the request it hands to the file search service. */
    method Search(form: FormValues) returns (request: SearchRequestModel)
      modifies this
      ensures request == CreateSearchRequestModel(form)
      ensures State() == Reset(old(State()))
    {
      request := CreateSearchRequestModel(form);
      loading := true;
      dataSource := [];
    }

    /** The subscription callback set up in `ngOnInit`, run on one event. */
    method OnSearchResult(data: Event<R>)
      modifies this
      ensures State() == Step(old(State()), data)
    {
      if data.Some? {
        dataSource := dataSource + data.value;
      } else {
        loading := false;
        if |dataSource| == 0 {
          alerts := alerts + [UnableToReadAlert];
        }
      }
    }
  }
}
