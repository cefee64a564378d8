/** The batch run of src/main.py: every downloaded file is validated, appended to the
    database table, and gets one status patch, "Cargado" or "Error". */
module Orchestrator {

  import opened Wrappers
  import opened Dicts
  import opened Frames
  import opened Settings
  import opened SpUtilities

  /** The SQL engine behind DataFrame.to_sql(if_exists='append'): `rejects(table, frame)`
      is the text of the error an append raises, None when the rows are committed. */
  class Engine {
    const rejects: (string, Table) -> Option<string>
    var appended: seq<(string, Table)>

    constructor (rejects: (string, Table) -> Option<string>)
      ensures this.rejects == rejects && appended == []
    {
      this.rejects := rejects;
      appended := [];
    }

    method ToSql(table: string, frame: Table) returns (error: Option<string>)
      modifies this
      ensures error == rejects(table, frame)
      ensures appended == old(appended) + (if error.None? then [(table, frame)] else [])
    {
      error := rejects(table, frame);
      if error.None? {
        appended := appended + [(table, frame)];
      }
    }
  }

  /** A file as the loop finds it: its name, its list item and its downloaded frame. */
  datatype Item = Item(name: string, listItemId: string, df: Table)

  /** How the try block of one iteration ends: the validated frame was appended, or an
      exception with this text was raised by validation or by the append. */
  datatype Attempt = Loaded(frame: Table) | Raised(message: string)

  function TryValidateAndLoad(item: Item, cfg: CustomerConfig, canParse: (string, string) -> bool,
                              rejects: (string, Table) -> Option<string>): Attempt
  {
    match Validate(item.df, item.name, cfg, canParse)
    case Failure(e) => Raised(ErrorMessage(e))
    case Success(frame) =>
      match rejects(cfg.table, frame)
      case Some(message) => Raised(message)
      case None => Loaded(frame)
  }

  /** The file's frame once the except block has run. */
  function FinalFrame(a: Attempt): Table {
    if a.Loaded? then a.frame else EmptyFrame
  }

  /** A file handled by the loop: its list item and how its try block ended. */
  datatype Handled = Handled(listItemId: string, attempt: Attempt)

  function Attempts(items: seq<Item>, cfg: CustomerConfig, canParse: (string, string) -> bool,
                    rejects: (string, Table) -> Option<string>): (r: seq<Handled>)
    ensures |r| == |items|
    ensures forall i :: 0 <= i < |items| ==>
              r[i] == Handled(items[i].listItemId, TryValidateAndLoad(items[i], cfg, canParse, rejects))
  {
    seq(|items|, i requires 0 <= i < |items| =>
      Handled(items[i].listItemId, TryValidateAndLoad(items[i], cfg, canParse, rejects)))
  }

  /** What the loop has done so far: the final frame of each file handled, the appends
      committed, the patches sent, the `error_description` local (None while unbound),
      and whether the run was aborted by an exception escaping the finally block. */
  datatype BatchState = BatchState(
    finals: seq<Table>,
    appended: seq<(string, Table)>,
    patches: seq<Patch>,
    errorDescription: Option<string>,
    aborted: bool)

  const Start: BatchState := BatchState([], [], [], None, false)

  /** One iteration of the loop; `carried` is the error description in scope before the
      try block runs. */
  function Iterate(s: BatchState, h: Handled, cfg: CustomerConfig, carried: Option<string>): BatchState
  {
    if s.aborted then s
    else
      var df := FinalFrame(h.attempt);
      var appended := s.appended + (if h.attempt.Loaded? then [(cfg.table, h.attempt.frame)] else []);
      var description := if h.attempt.Raised? then Some(h.attempt.message) else carried;
      var finals := s.finals + [df];
      if !IsEmpty(df) then
        BatchState(finals, appended,
                   s.patches + [Patch(cfg.siteId, cfg.listId, h.listItemId, RequestBody("Cargado", None))],
                   description, false)
      else if description.None? then
        // UnboundLocalError: error_description was never assigned
        BatchState(finals, appended, s.patches, description, true)
      else
        BatchState(finals, appended,
                   s.patches + [Patch(cfg.siteId, cfg.listId, h.listItemId, RequestBody("Error", description))],
                   description, false)
  }

  /** The loop of main as written: error_description lives across iterations. */
  function RunFiles(hs: seq<Handled>, cfg: CustomerConfig): BatchState
  {
    if hs == [] then Start
    else
      var s := RunFiles(hs[..|hs| - 1], cfg);
      Iterate(s, hs[|hs| - 1], cfg, s.errorDescription)
  }

  /** The text of the last exception raised among these files, if any. */
  function LastRaised(hs: seq<Handled>): Option<string>
  {
    if hs == [] then None
    else if hs[|hs| - 1].attempt.Raised? then Some(hs[|hs| - 1].attempt.message)
    else LastRaised(hs[..|hs| - 1])
  }

  /** The appends the loop commits: the frame of every file whose load succeeded. */
  function Committed(hs: seq<Handled>, table: string): seq<(string, Table)>
  {
    if hs == [] then []
    else
      var a := hs[|hs| - 1].attempt;
      Committed(hs[..|hs| - 1], table) + (if a.Loaded? then [(table, a.frame)] else [])
  }

  predicate Prefix(a: BatchState, b: BatchState) {
    && |a.finals| <= |b.finals| && a.finals == b.finals[..|a.finals|]
    && |a.patches| <= |b.patches| && a.patches == b.patches[..|a.patches|]
    && |a.appended| <= |b.appended| && a.appended == b.appended[..|a.appended|]
  }

  // ---------------------------------------------------------------------------
  // Properties of the loop as written

  /** The loop's bookkeeping: it handles files in order until it aborts; an aborted run
      has handled one file more than it patched; the local error_description is the text
      of the last exception; the appends are exactly the loaded frames. */
  lemma {:induction false} RunFilesInvariant(hs: seq<Handled>, cfg: CustomerConfig)
    ensures var s := RunFiles(hs, cfg);
      && |s.finals| <= |hs|
      && (!s.aborted ==> |s.finals| == |hs| && |s.patches| == |hs|)
      && (s.aborted ==> 1 <= |s.finals| && |s.patches| == |s.finals| - 1)
      && s.errorDescription == LastRaised(hs[..|s.finals|])
      && s.appended == Committed(hs[..|s.finals|], cfg.table)
      && (forall i :: 0 <= i < |s.finals| ==> s.finals[i] == FinalFrame(hs[i].attempt))
  {
    if hs != [] {
      var n := |hs| - 1;
      var prefix := hs[..n];
      RunFilesInvariant(prefix, cfg);
      var p := RunFiles(prefix, cfg);
      if !p.aborted {
        assert prefix[..|p.finals|] == prefix;
        assert hs[..|p.finals| + 1] == hs;
      } else {
        assert hs[..|p.finals|] == prefix[..|p.finals|];
      }
    }
  }

  /** One iteration only extends what was recorded, and does nothing after an abort. */
  lemma IteratePrefix(s: BatchState, h: Handled, cfg: CustomerConfig, carried: Option<string>)
    ensures Prefix(s, Iterate(s, h, cfg, carried))
    ensures s.aborted ==> Iterate(s, h, cfg, carried) == s
  {
    var t := Iterate(s, h, cfg, carried);
    if !s.aborted {
      assert t.finals[..|s.finals|] == s.finals;
      assert t.patches[..|s.patches|] == s.patches;
      assert t.appended[..|s.appended|] == s.appended;
    }
  }

  lemma PrefixTransitive(a: BatchState, b: BatchState, c: BatchState)
    requires Prefix(a, b) && Prefix(b, c)
    ensures Prefix(a, c)
  {
    assert c.finals[..|b.finals|][..|a.finals|] == c.finals[..|a.finals|];
    assert c.patches[..|b.patches|][..|a.patches|] == c.patches[..|a.patches|];
    assert c.appended[..|b.appended|][..|a.appended|] == c.appended[..|a.appended|];
  }

  /** Handling more files only extends what was recorded, and nothing follows an abort. */
  lemma {:induction false} RunFilesGrows(hs: seq<Handled>, cfg: CustomerConfig, i: nat)
    requires i <= |hs|
    ensures Prefix(RunFiles(hs[..i], cfg), RunFiles(hs, cfg))
    ensures RunFiles(hs[..i], cfg).aborted ==> RunFiles(hs, cfg) == RunFiles(hs[..i], cfg)
    decreases |hs|
  {
    if i < |hs| {
      var n := |hs| - 1;
      assert hs[..n][..i] == hs[..i];
      RunFilesGrows(hs[..n], cfg, i);
      var p := RunFiles(hs[..n], cfg);
      IteratePrefix(p, hs[n], cfg, p.errorDescription);
      PrefixTransitive(RunFiles(hs[..i], cfg), p, RunFiles(hs, cfg));
    } else {
      assert hs[..i] == hs;
    }
  }

  /** The state after handling file i, in terms of the state before it. */
  lemma StepAt(hs: seq<Handled>, cfg: CustomerConfig, i: nat)
    requires i < |hs|
    ensures RunFiles(hs[..i + 1], cfg) ==
              Iterate(RunFiles(hs[..i], cfg), hs[i], cfg, RunFiles(hs[..i], cfg).errorDescription)
  {
    assert hs[..i + 1][..i] == hs[..i];
    assert hs[..i + 1][i] == hs[i];
  }

  /** One more file, phrased as the loop body produces it. */
  lemma StepShape(hs: seq<Handled>, cfg: CustomerConfig, i: nat)
    requires i < |hs| && !RunFiles(hs[..i], cfg).aborted
    ensures var p := RunFiles(hs[..i], cfg);
      var a := hs[i].attempt;
      var q := RunFiles(hs[..i + 1], cfg);
      && q.finals == p.finals + [FinalFrame(a)]
      && q.errorDescription == (if a.Raised? then Some(a.message) else p.errorDescription)
      && q.aborted == (IsEmpty(FinalFrame(a)) && q.errorDescription.None?)
      && q.appended == p.appended + (if a.Loaded? then [(cfg.table, a.frame)] else [])
      && q.patches == p.patches +
           (if q.aborted then []
            else if IsEmpty(FinalFrame(a)) then [Patch(cfg.siteId, cfg.listId, hs[i].listItemId, RequestBody("Error", q.errorDescription))]
            else [Patch(cfg.siteId, cfg.listId, hs[i].listItemId, RequestBody("Cargado", None))])
  {
    StepAt(hs, cfg, i);
  }

  /** The patch of file i is the one its own iteration sent. */
  lemma PatchFromStep(hs: seq<Handled>, cfg: CustomerConfig, i: nat)
    requires i < |hs| && i < |RunFiles(hs, cfg).patches|
    ensures !RunFiles(hs[..i], cfg).aborted && |RunFiles(hs[..i], cfg).patches| == i
    ensures !RunFiles(hs[..i + 1], cfg).aborted
    ensures |RunFiles(hs[..i + 1], cfg).patches| == i + 1
    ensures RunFiles(hs, cfg).patches[i] == RunFiles(hs[..i + 1], cfg).patches[i]
  {
    RunFilesInvariant(hs[..i], cfg);
    RunFilesGrows(hs, cfg, i);
    RunFilesGrows(hs, cfg, i + 1);
    StepShape(hs, cfg, i);
  }

  /** The patch sent for file i, in terms of the file's own outcome: "Cargado" without a
      description when its final frame is non-empty; otherwise "Error" with the text of
      its own exception if it raised, or, if it was loaded with no rows, with the text of
      the last exception of an earlier file. */
  lemma PatchOfFile(hs: seq<Handled>, cfg: CustomerConfig, i: nat)
    requires i < |hs| && i < |RunFiles(hs, cfg).patches|
    ensures var s := RunFiles(hs, cfg);
      var a := hs[i].attempt;
      && i < |s.finals| && s.finals[i] == FinalFrame(a)
      && s.patches[i].siteId == cfg.siteId && s.patches[i].listId == cfg.listId
      && s.patches[i].listItemId == hs[i].listItemId
      && (!IsEmpty(FinalFrame(a)) ==> s.patches[i].body == RequestBody("Cargado", None))
      && (a.Raised? ==> s.patches[i].body == RequestBody("Error", Some(a.message)))
      && (a.Loaded? && IsEmpty(a.frame) ==>
            LastRaised(hs[..i]).Some? && s.patches[i].body == RequestBody("Error", LastRaised(hs[..i])))
  {
    PatchFromStep(hs, cfg, i);
    StepShape(hs, cfg, i);
    RunFilesInvariant(hs, cfg);
    RunFilesInvariant(hs[..i], cfg);
    assert hs[..i][..i] == hs[..i];
  }

  /** A run that completes sends exactly one patch per file, in file order, each to the
      configured site and list; the status is "Cargado" exactly when the file's final
      frame is non-empty, and then carries no description. */
  lemma EveryFilePatchedOnce(hs: seq<Handled>, cfg: CustomerConfig)
    requires !RunFiles(hs, cfg).aborted
    ensures var s := RunFiles(hs, cfg);
      && |s.patches| == |hs| == |s.finals|
      && forall i :: 0 <= i < |hs| ==>
           && s.patches[i].listItemId == hs[i].listItemId
           && s.patches[i].siteId == cfg.siteId && s.patches[i].listId == cfg.listId
           && (s.patches[i].body.status == "Cargado" <==> !IsEmpty(s.finals[i]))
           && (s.patches[i].body.status == "Cargado" ==> s.patches[i].body.errorDescription == "")
           && (s.patches[i].body.status != "Cargado" ==> s.patches[i].body.status == "Error")
  {
    RunFilesInvariant(hs, cfg);
    var s := RunFiles(hs, cfg);
    forall i | 0 <= i < |hs|
      ensures && s.patches[i].listItemId == hs[i].listItemId
              && s.patches[i].siteId == cfg.siteId && s.patches[i].listId == cfg.listId
              && (s.patches[i].body.status == "Cargado" <==> !IsEmpty(s.finals[i]))
              && (s.patches[i].body.status == "Cargado" ==> s.patches[i].body.errorDescription == "")
              && (s.patches[i].body.status != "Cargado" ==> s.patches[i].body.status == "Error")
    {
      PatchOfFile(hs, cfg, i);
    }
  }

  /** Why a run aborts: the last file handled was loaded with no rows while no earlier
      file had raised, so error_description was still unbound; that file and every later
      one get no patch. */
  lemma AbortCause(hs: seq<Handled>, cfg: CustomerConfig)
    requires RunFiles(hs, cfg).aborted
    ensures var s := RunFiles(hs, cfg);
      var k := |s.finals| - 1;
      && 0 <= k < |hs|
      && |s.patches| == k
      && hs[k].attempt.Loaded? && IsEmpty(hs[k].attempt.frame)
      && LastRaised(hs[..k]) == None
  {
    RunFilesInvariant(hs, cfg);
    var s := RunFiles(hs, cfg);
    var k := |s.finals| - 1;
    RunFilesGrows(hs, cfg, k);
    RunFilesGrows(hs, cfg, k + 1);
    StepAt(hs, cfg, k);
    var p := RunFiles(hs[..k], cfg);
    RunFilesInvariant(hs[..k], cfg);
    assert !p.aborted;
    assert hs[..k][..|p.finals|] == hs[..k];
    var q := RunFiles(hs[..k + 1], cfg);
    RunFilesInvariant(hs[..k + 1], cfg);
    assert q.aborted;
  }

  /** A run aborts exactly when some file is loaded with no rows before any file raised. */
  lemma AbortsIff(hs: seq<Handled>, cfg: CustomerConfig)
    ensures RunFiles(hs, cfg).aborted <==>
              exists k :: 0 <= k < |hs| && hs[k].attempt.Loaded? && IsEmpty(hs[k].attempt.frame)
                          && LastRaised(hs[..k]) == None
  {
    if RunFiles(hs, cfg).aborted {
      AbortCause(hs, cfg);
    } else {
      RunFilesInvariant(hs, cfg);
      forall k | 0 <= k < |hs| && hs[k].attempt.Loaded? && IsEmpty(hs[k].attempt.frame)
        ensures LastRaised(hs[..k]) != None
      {
        RunFilesGrows(hs, cfg, k + 1);
        RunFilesGrows(hs, cfg, k);
        StepAt(hs, cfg, k);
        RunFilesInvariant(hs[..k], cfg);
        assert hs[..k][..|RunFiles(hs[..k], cfg).finals|] == hs[..k];
      }
    }
  }

  /** The database receives what was loaded: the appends of a completed run are, in file
      order, the frames of the files whose load succeeded. */
  lemma AppendsAreLoadedFrames(hs: seq<Handled>, cfg: CustomerConfig)
    requires !RunFiles(hs, cfg).aborted
    ensures RunFiles(hs, cfg).appended == Committed(hs, cfg.table)
  {
    RunFilesInvariant(hs, cfg);
    assert hs[..|hs|] == hs;
  }

  /** Every frame appended to the database table is the output of validate_excel_file
      on one of the files. */
  lemma {:induction false} CommittedAreValidated(items: seq<Item>, cfg: CustomerConfig,
                                                 canParse: (string, string) -> bool,
                                                 rejects: (string, Table) -> Option<string>)
    ensures forall e :: e in Committed(Attempts(items, cfg, canParse, rejects), cfg.table) ==>
              e.0 == cfg.table &&
              exists i :: 0 <= i < |items| && Validate(items[i].df, items[i].name, cfg, canParse) == Success(e.1)
  {
    if items != [] {
      var n := |items| - 1;
      CommittedAreValidated(items[..n], cfg, canParse, rejects);
      var hs := Attempts(items, cfg, canParse, rejects);
      assert hs[..n] == Attempts(items[..n], cfg, canParse, rejects);
    }
  }

  /** A header-only sheet, carrying every expected column but no rows, passes validation
      and comes out empty; when the append accepts it, the file is loaded empty. */
  lemma HeaderOnlySheetLoadsEmpty(item: Item, cfg: CustomerConfig, canParse: (string, string) -> bool,
                                  rejects: (string, Table) -> Option<string>)
    requires ConfigValid(cfg)
    requires WellFormed(item.df) && item.df.rows == 0
    requires cfg.expectedColumns <= NameSet(item.df)
    ensures Validate(item.df, item.name, cfg, canParse).Success?
    ensures var out := Validate(item.df, item.name, cfg, canParse).value;
      && IsEmpty(out)
      && (rejects(cfg.table, out) == None ==> TryValidateAndLoad(item, cfg, canParse, rejects) == Loaded(out))
  {
    forall k | 0 <= k < |cfg.dtypesMapping|
      ensures Passes(item.df, cfg.dtypesMapping[k], canParse)
    {
      assert forall i :: 0 <= i < |item.df.columns| ==> |item.df.columns[i].cells| == 0;
    }
    ValidateSucceedsIff(item.df, item.name, cfg, canParse);
    ValidatedShape(item.df, item.name, cfg, canParse);
  }

  /** A file loaded with no rows after a file that raised is patched with the earlier
      file's error text. */
  lemma StaleDescriptionExample(cfg: CustomerConfig, frame: Table)
    requires IsEmpty(frame)
    ensures var hs := [Handled("1", Raised("boom")), Handled("2", Loaded(frame))];
      RunFiles(hs, cfg).patches == [Patch(cfg.siteId, cfg.listId, "1", FieldValueSet("Error", "boom")),
                                    Patch(cfg.siteId, cfg.listId, "2", FieldValueSet("Error", "boom"))]
  {
    var hs := [Handled("1", Raised("boom")), Handled("2", Loaded(frame))];
    assert hs[..0] == [] && hs[..2] == hs;
    StepAt(hs, cfg, 0);
    StepAt(hs, cfg, 1);
  }

  /** A file loaded with no rows before any file raised aborts the run: neither it nor
      any later file gets a status. */
  lemma UnboundDescriptionExample(cfg: CustomerConfig, frame: Table)
    requires IsEmpty(frame)
    ensures var hs := [Handled("1", Loaded(frame)), Handled("2", Raised("boom"))];
      RunFiles(hs, cfg).aborted && RunFiles(hs, cfg).patches == []
  {
    var hs := [Handled("1", Loaded(frame)), Handled("2", Raised("boom"))];
    assert hs[..0] == [] && hs[..2] == hs;
    StepAt(hs, cfg, 0);
    StepAt(hs, cfg, 1);
  }

  // ---------------------------------------------------------------------------
  // The loop with error_description reset to "" at the top of every iteration

  function RunFilesFixed(hs: seq<Handled>, cfg: CustomerConfig): BatchState
  {
    if hs == [] then Start
    else Iterate(RunFilesFixed(hs[..|hs| - 1], cfg), hs[|hs| - 1], cfg, Some(""))
  }

  /** The status each file should get: "Cargado" when its final frame has rows, otherwise
      "Error" with its own exception's text, or no text when it raised none. */
  function IntendedBody(a: Attempt): FieldValueSet {
    if !IsEmpty(FinalFrame(a)) then RequestBody("Cargado", None)
    else RequestBody("Error", if a.Raised? then Some(a.message) else None)
  }

  /** One iteration with the description reset. */
  lemma IterateFixedShape(s: BatchState, h: Handled, cfg: CustomerConfig)
    requires !s.aborted
    ensures var t := Iterate(s, h, cfg, Some(""));
      && !t.aborted
      && t.patches == s.patches + [Patch(cfg.siteId, cfg.listId, h.listItemId, IntendedBody(h.attempt))]
      && t.finals == s.finals + [FinalFrame(h.attempt)]
      && t.appended == s.appended + (if h.attempt.Loaded? then [(cfg.table, h.attempt.frame)] else [])
  {
  }

  /** With the reset, the loop never aborts and every file gets exactly the patch its
      own outcome calls for, in file order. */
  lemma {:induction false} FixedReportsEveryFile(hs: seq<Handled>, cfg: CustomerConfig)
    ensures var s := RunFilesFixed(hs, cfg);
      && !s.aborted
      && |s.patches| == |hs| && |s.finals| == |hs|
      && (forall i :: 0 <= i < |hs| ==>
            s.patches[i] == Patch(cfg.siteId, cfg.listId, hs[i].listItemId, IntendedBody(hs[i].attempt)))
      && (forall i :: 0 <= i < |hs| ==> s.finals[i] == FinalFrame(hs[i].attempt))
      && s.appended == Committed(hs, cfg.table)
  {
    if hs != [] {
      var n := |hs| - 1;
      FixedReportsEveryFile(hs[..n], cfg);
      IterateFixedShape(RunFilesFixed(hs[..n], cfg), hs[n], cfg);
      assert forall i :: 0 <= i < n ==> hs[..n][i] == hs[i];
    }
  }

  /** Where no file is loaded empty, the reset changes nothing the loop sends or stores. */
  lemma {:induction false} FixAgreesWithoutEmptyLoads(hs: seq<Handled>, cfg: CustomerConfig)
    requires forall i :: 0 <= i < |hs| ==> !(hs[i].attempt.Loaded? && IsEmpty(hs[i].attempt.frame))
    ensures RunFiles(hs, cfg).aborted == RunFilesFixed(hs, cfg).aborted
    ensures RunFiles(hs, cfg).patches == RunFilesFixed(hs, cfg).patches
    ensures RunFiles(hs, cfg).finals == RunFilesFixed(hs, cfg).finals
    ensures RunFiles(hs, cfg).appended == RunFilesFixed(hs, cfg).appended
  {
    if hs != [] {
      var n := |hs| - 1;
      assert forall i :: 0 <= i < n ==> hs[..n][i] == hs[i];
      FixAgreesWithoutEmptyLoads(hs[..n], cfg);
      FixedReportsEveryFile(hs[..n], cfg);
    }
  }

  // ---------------------------------------------------------------------------
  // The whole run

  /** Why main stops early. */
  datatype Abort =
    | ConfigKeyError(key: string)   // load_from_yaml found a key missing
    | NoneNotIterable               // no file to process: the loop iterates over None
    | UnboundErrorDescription       // UnboundLocalError in the finally block

  datatype RunOutcome = Finished | Aborted(reason: Abort)

  /** How main ends once the configuration is loaded, given what the download step
      returned: None when no file was eligible, otherwise the files' outcomes. */
  function Conclude(selection: Option<seq<Handled>>, cfg: CustomerConfig): RunOutcome {
    match selection
    case None => Aborted(NoneNotIterable)
    case Some(hs) => if RunFiles(hs, cfg).aborted then Aborted(UnboundErrorDescription) else Finished
  }

  /** No eligible file makes main fail instead of doing nothing. */
  lemma NoFilesToProcessAborts(cfg: CustomerConfig)
    ensures Conclude(None, cfg) == Aborted(NoneNotIterable)
    ensures Conclude(Some([]), cfg) == Finished
  {
  }

  /** The corrected run: no eligible file means an empty batch, and the description is
      reset for every file. */
  function RunFixed(selection: Option<seq<Handled>>, cfg: CustomerConfig): BatchState {
    RunFilesFixed(if selection.None? then [] else selection.value, cfg)
  }

  /** The corrected run always completes, one patch per selected file. */
  lemma FixedRunCompletes(selection: Option<seq<Handled>>, cfg: CustomerConfig)
    ensures !RunFixed(selection, cfg).aborted
    ensures selection.None? ==> RunFixed(selection, cfg).patches == []
    ensures selection.Some? ==> |RunFixed(selection, cfg).patches| == |selection.value|
  {
    FixedReportsEveryFile(if selection.None? then [] else selection.value, cfg);
  }

  // ---------------------------------------------------------------------------
  // The loop over the downloaded records

  /** The records as the loop reads them. */
  function ItemsOf(files: seq<ExcelFile>): (r: seq<Item>)
    reads set f | f in files
    requires forall i :: 0 <= i < |files| ==> files[i].df.Some?
    ensures |r| == |files|
    ensures forall i :: 0 <= i < |files| ==>
              r[i] == Item(files[i].name, files[i].listItemId, files[i].df.value)
  {
    seq(|files|, i requires 0 <= i < |files| && files[i].df.Some? reads if 0 <= i < |files| then {files[i]} else {} =>
      Item(files[i].name, files[i].listItemId, files[i].df.value))
  }

  /** The records right after download. */
  function Downloaded(files: seq<ExcelFile>, fetch: string -> Fetched): (r: seq<Item>)
    ensures |r| == |files|
    ensures forall i :: 0 <= i < |files| ==>
              r[i] == Item(files[i].name, files[i].listItemId, Materialise(fetch(files[i].id)))
  {
    seq(|files|, i requires 0 <= i < |files| =>
      Item(files[i].name, files[i].listItemId, Materialise(fetch(files[i].id))))
  }

  /** The loop body's bookkeeping: the values one iteration leaves behind are those of
      the specification after one more file. */
  lemma Advance(hs: seq<Handled>, cfg: CustomerConfig, i: nat, st: BatchState,
                description: Option<string>, aborted: bool,
                patchBase: seq<Patch>, events: seq<Patch>,
                appendBase: seq<(string, Table)>, appended: seq<(string, Table)>)
    requires i < |hs| && st == RunFiles(hs[..i], cfg) && !st.aborted
    requires var a := hs[i].attempt;
      && description == (if a.Raised? then Some(a.message) else st.errorDescription)
      && aborted == (IsEmpty(FinalFrame(a)) && description.None?)
      && appended == appendBase + st.appended + (if a.Loaded? then [(cfg.table, a.frame)] else [])
      && events == patchBase + st.patches +
           (if aborted then []
            else if IsEmpty(FinalFrame(a)) then [Patch(cfg.siteId, cfg.listId, hs[i].listItemId, RequestBody("Error", description))]
            else [Patch(cfg.siteId, cfg.listId, hs[i].listItemId, RequestBody("Cargado", None))])
    ensures var next := RunFiles(hs[..i + 1], cfg);
      && aborted == next.aborted && description == next.errorDescription
      && next.finals == st.finals + [FinalFrame(hs[i].attempt)]
      && events == patchBase + next.patches
      && appended == appendBase + next.appended
  {
    StepShape(hs, cfg, i);
  }

  /** The try block of main's loop: the record's frame becomes its validated frame, which
      is then appended to the configured table; `raised` is the text of the exception that
      ended the block early, if any. */
  method ValidateAndLoad(file: ExcelFile, ghost item: Item, cfg: CustomerConfig, canParse: (string, string) -> bool,
                         engine: Engine)
    returns (raised: Option<string>, ghost a: Attempt)
    requires file.df.Some? && item == Item(file.name, file.listItemId, file.df.value)
    modifies file, engine
    ensures a == TryValidateAndLoad(item, cfg, canParse, engine.rejects)
    ensures raised == (if a.Raised? then Some(a.message) else None)
    ensures a.Loaded? ==> file.df == Some(a.frame)
    ensures file.df == (if Validate(item.df, item.name, cfg, canParse).Success?
                        then Some(Validate(item.df, item.name, cfg, canParse).value) else old(file.df))
    ensures engine.appended == old(engine.appended) + (if a.Loaded? then [(cfg.table, a.frame)] else [])
  {
    a := TryValidateAndLoad(item, cfg, canParse, engine.rejects);
    var validated := ValidateExcelFile(file, cfg, canParse);
    if validated.Failure? {
      raised := Some(ErrorMessage(validated.error));
    } else {
      file.df := Some(validated.value);
      raised := engine.ToSql(cfg.table, validated.value);
    }
  }

  /** One iteration of main's loop on a record: validate_excel_file and to_sql in the try
      block, the empty frame and error_description in the except block, the status patch
      in the finally block, which aborts when error_description is still unbound. */
  method ProcessFile(file: ExcelFile, ghost item: Item, cfg: CustomerConfig, canParse: (string, string) -> bool,
                     engine: Engine, log: StatusLog, errorDescription: Option<string>)
    returns (description: Option<string>, aborted: bool, ghost a: Attempt)
    requires file.df.Some? && item == Item(file.name, file.listItemId, file.df.value)
    modifies file, engine, log
    ensures a == TryValidateAndLoad(item, cfg, canParse, engine.rejects)
    ensures
      && file.df == Some(FinalFrame(a))
      && description == (if a.Raised? then Some(a.message) else errorDescription)
      && aborted == (IsEmpty(FinalFrame(a)) && description.None?)
      && engine.appended == old(engine.appended) + (if a.Loaded? then [(cfg.table, a.frame)] else [])
      && log.events == old(log.events) +
           (if aborted then []
            else if IsEmpty(FinalFrame(a)) then [Patch(cfg.siteId, cfg.listId, file.listItemId, RequestBody("Error", description))]
            else [Patch(cfg.siteId, cfg.listId, file.listItemId, RequestBody("Cargado", None))])
  {
    description := errorDescription;
    aborted := false;
    var raised;
    raised, a := ValidateAndLoad(file, item, cfg, canParse, engine);
    if raised.Some? {
      description := raised;
      file.df := Some(EmptyFrame);
    }
    if IsEmpty(file.df.value) {
      if description.None? {
        aborted := true;
      } else {
        log.UpdateListItemStatus(cfg.siteId, cfg.listId, file.listItemId, "Error", description);
      }
    } else {
      log.UpdateListItemStatus(cfg.siteId, cfg.listId, file.listItemId, "Cargado", None);
    }
  }

  /** The for loop of main over the downloaded records, in order, until an iteration
      aborts. */
  method ProcessFiles(files: seq<ExcelFile>, cfg: CustomerConfig, canParse: (string, string) -> bool,
                      engine: Engine, log: StatusLog)
    returns (aborted: bool)
    requires forall i :: 0 <= i < |files| ==> files[i].df.Some?
    requires forall i, j :: 0 <= i < j < |files| ==> files[i] != files[j]
    modifies (set f | f in files), engine, log
    ensures var s := RunFiles(Attempts(old(ItemsOf(files)), cfg, canParse, engine.rejects), cfg);
      && aborted == s.aborted
      && log.events == old(log.events) + s.patches
      && engine.appended == old(engine.appended) + s.appended
      && forall j :: 0 <= j < |files| ==>
           files[j].df == if j < |s.finals| then Some(s.finals[j]) else old(files[j].df)
  {
    ghost var items := ItemsOf(files);
    ghost var hs := Attempts(items, cfg, canParse, engine.rejects);
    ghost var st := Start;
    var errorDescription: Option<string> := None;
    aborted := false;
    var i := 0;
    while i < |files| && !aborted
      invariant 0 <= i <= |files|
      invariant st == RunFiles(hs[..i], cfg)
      invariant aborted == st.aborted && errorDescription == st.errorDescription && |st.finals| == i
      invariant log.events == old(log.events) + st.patches
      invariant engine.appended == old(engine.appended) + st.appended
      invariant forall j :: 0 <= j < i ==> files[j].df == Some(st.finals[j])
      invariant forall j :: i <= j < |files| ==> files[j].df == Some(items[j].df)
    {
      ghost var a;
      errorDescription, aborted, a := ProcessFile(files[i], items[i], cfg, canParse, engine, log, errorDescription);
      Advance(hs, cfg, i, st, errorDescription, aborted, old(log.events), log.events,
              old(engine.appended), engine.appended);
      ghost var next := RunFiles(hs[..i + 1], cfg);
      forall j | 0 <= j <= i
        ensures files[j].df == Some(next.finals[j])
      {
        if j < i {
          assert files[j] != files[i];
        }
      }
      forall j | i < j < |files|
        ensures files[j].df == Some(items[j].df)
      {
        assert files[j] != files[i];
      }
      st := next;
      i := i + 1;
    }
    if aborted {
      RunFilesGrows(hs, cfg, i);
    } else {
      assert hs[..i] == hs;
    }
  }

  /** Selection keeps records distinct. */
  lemma {:induction false} SelectedDistinct(files: seq<ExcelFile>)
    requires forall i, j :: 0 <= i < j < |files| ==> files[i] != files[j]
    ensures forall i, j :: 0 <= i < j < |Selected(files)| ==> Selected(files)[i] != Selected(files)[j]
  {
    if files != [] {
      var rest := Selected(files[1..]);
      SelectedDistinct(files[1..]);
      assert files[0] !in files[1..] by {
        forall j | 0 <= j < |files[1..]|
          ensures files[1..][j] != files[0]
        {
          assert files[1..][j] == files[j + 1];
        }
      }
      var r := Selected(files);
      if Eligible(files[0].status) {
        assert r == [files[0]] + rest;
        forall i, j | 0 <= i < j < |r|
          ensures r[i] != r[j]
        {
          assert r[j] == rest[j - 1] && rest[j - 1] in files[1..];
          if i > 0 {
            assert r[i] == rest[i - 1];
          }
        }
      } else {
        assert r == rest;
      }
    }
  }

  /** main: load the customer configuration, download the eligible files, then run the
      loop. A configuration key error stops it before any file is touched. */
  method Run(customerCode: string, doc: Document, listing: seq<ExcelFile>, fetch: string -> Fetched,
             canParse: (string, string) -> bool, engine: Engine, log: StatusLog)
    returns (outcome: RunOutcome)
    requires WellFormedDocument(doc)
    requires forall i, j :: 0 <= i < j < |listing| ==> listing[i] != listing[j]
    modifies (set f | f in listing), engine, log
    ensures LoadFromYaml(customerCode, doc).Failure? ==>
              && outcome == Aborted(ConfigKeyError(LoadFromYaml(customerCode, doc).error.key))
              && log.events == old(log.events) && engine.appended == old(engine.appended)
              && forall f :: f in listing ==> f.df == old(f.df)
    ensures forall f :: f in listing && f !in Selected(listing) ==> f.df == old(f.df)
    ensures LoadFromYaml(customerCode, doc).Success? ==>
              var cfg := LoadFromYaml(customerCode, doc).value;
              var sel := Selected(listing);
              var s := RunFiles(Attempts(Downloaded(sel, fetch), cfg, canParse, engine.rejects), cfg);
              forall j :: 0 <= j < |sel| ==>
                sel[j].df == Some(if j < |s.finals| then s.finals[j] else Materialise(fetch(sel[j].id)))
    ensures LoadFromYaml(customerCode, doc).Success? ==>
              var cfg := LoadFromYaml(customerCode, doc).value;
              var selection := if Selected(listing) == [] then None
                               else Some(Attempts(Downloaded(Selected(listing), fetch), cfg, canParse, engine.rejects));
              && outcome == Conclude(selection, cfg)
              && log.events == old(log.events) + (if selection.None? then [] else RunFiles(selection.value, cfg).patches)
              && engine.appended == old(engine.appended) + (if selection.None? then [] else RunFiles(selection.value, cfg).appended)
  {
    var loaded := LoadFromYaml(customerCode, doc);
    if loaded.Failure? {
      return Aborted(ConfigKeyError(loaded.error.key));
    }
    var cfg := loaded.value;
    var toProcess := GetUnprocessedFilesContent(listing, fetch);
    if toProcess.None? {
      return Aborted(NoneNotIterable);
    }
    var files := toProcess.value;
    SelectedDistinct(listing);
    assert ItemsOf(files) == Downloaded(files, fetch);
    var aborted := ProcessFiles(files, cfg, canParse, engine, log);
    assert files == Selected(listing);
    outcome := if aborted then Aborted(UnboundErrorDescription) else Finished;
  }
}
