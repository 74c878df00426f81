/**
 * The earlier model loader hook (three artifacts): a picked file is accepted only when
 * its name is exactly one of the required file names, and flags only ever turn on.
 */
module LegacyModelLoader {
  import opened Wrappers
  import opened JsText
  import opened ModelFiles

  datatype LegacyKey = Ddqn | Tcn | Scaler

  /** The `requiredModels` table: the one file name each model must have. */
  function RequiredFilename(key: LegacyKey): string {
    match key
    case Ddqn => "ddqn_best_checkpoint.pt"
    case Tcn => "tcn_best_checkpoint.pt"
    case Scaler => "scaler.pkl"
  }

  /** `requiredModels.find((m) => m.filename === filename)`. */
  function MatchRequired(filename: string): (r: Option<LegacyKey>)
    ensures r.Some? ==> RequiredFilename(r.value) == filename
    ensures r.None? ==> forall key: LegacyKey :: RequiredFilename(key) != filename
  {
    if filename == RequiredFilename(Ddqn) then Some(Ddqn)
    else if filename == RequiredFilename(Tcn) then Some(Tcn)
    else if filename == RequiredFilename(Scaler) then Some(Scaler)
    else None
  }

  const AllLegacyKeys: set<LegacyKey> := {Ddqn, Tcn, Scaler}
  const NoneLoaded: map<LegacyKey, bool> := map[Ddqn := false, Tcn := false, Scaler := false]

  /** Which notification the handler ends with. */
  datatype LegacyOutcome =
    | NoFile
    | Unrecognized(filename: string)
    | AlreadyLoaded(key: LegacyKey)
    | ModelLoaded(key: LegacyKey)
    | AllModelsLoaded
    | OpenFailed

  class LegacyLoader {
    var loadedModels: map<LegacyKey, bool>

    ghost predicate Valid()
      reads this
    {
      loadedModels.Keys == AllLegacyKeys
    }

    constructor ()
      ensures Valid() && loadedModels == NoneLoaded
    {
      loadedModels := NoneLoaded;
    }

    /** allLoaded: every required model has been registered. */
    function AllLoaded(): (r: bool)
      reads this
      requires Valid()
      ensures r <==> loadedModels[Ddqn] && loadedModels[Tcn] && loadedModels[Scaler]
    {
      forall key :: key in loadedModels ==> loadedModels[key]
    }

    /** handleLoadModel, with the dialog's answer as a parameter; this version never rolls back. */
    method HandleLoadModel(dialog: DialogResult) returns (outcome: LegacyOutcome)
      requires Valid()
      modifies this
      ensures Valid()
      // flags only go from false to true
      ensures forall key :: key in old(loadedModels) && old(loadedModels)[key] ==> loadedModels[key]
      // a thrown dialog error is only reported
      ensures dialog.DialogError? ==> unchanged(this) && outcome == OpenFailed
      ensures !dialog.DialogError? && PickedPath(dialog).None? ==> unchanged(this) && outcome == NoFile
      ensures PickedPath(dialog).Some? && MatchRequired(FileName(dialog.path)).None? ==>
        unchanged(this) && outcome == Unrecognized(FileName(dialog.path))
      ensures PickedPath(dialog).Some? && MatchRequired(FileName(dialog.path)).Some? ==>
        var key := MatchRequired(FileName(dialog.path)).value;
        && (old(loadedModels)[key] ==> unchanged(this) && outcome == AlreadyLoaded(key))
        && (!old(loadedModels)[key] ==>
              loadedModels == old(loadedModels)[key := true] &&
              outcome == if AllLoaded() then AllModelsLoaded else ModelLoaded(key))
    {
      if dialog.DialogError? {
        outcome := OpenFailed;
        return;
      }
      var path := PickedPath(dialog);
      if path.None? {
        outcome := NoFile;
        return;
      }
      var filename := FileName(path.value);
      var matched := MatchRequired(filename);
      if matched.None? {
        outcome := Unrecognized(filename);
        return;
      }
      var key := matched.value;
      if loadedModels[key] {
        outcome := AlreadyLoaded(key);
        return;
      }
      loadedModels := loadedModels[key := true];
      outcome := if AllLoaded() then AllModelsLoaded else ModelLoaded(key);
    }
  }

  /** Exactly the three required files, picked from any directory, load every model; two do not. */
  method LoadAllScenario(dir: string)
    returns (afterTwo: bool, afterThree: bool, last: LegacyOutcome)
    ensures !afterTwo && afterThree && last == AllModelsLoaded
  {
    var loader := new LegacyLoader();
    var ddqn := dir + "/" + RequiredFilename(Ddqn);
    var tcn := dir + "/" + RequiredFilename(Tcn);
    var scaler := dir + "/" + RequiredFilename(Scaler);
    NamedIn(dir, Ddqn, ddqn);
    NamedIn(dir, Tcn, tcn);
    NamedIn(dir, Scaler, scaler);
    var o := loader.HandleLoadModel(Selected(ddqn));
    o := loader.HandleLoadModel(Selected(tcn));
    afterTwo := loader.AllLoaded();
    last := loader.HandleLoadModel(Selected(scaler));
    afterThree := loader.AllLoaded();
  }

  /** A required file name holds no path separator and matches its own model. */
  lemma RequiredFilenameMatches(key: LegacyKey)
    ensures Free(RequiredFilename(key), PathSeparators)
    ensures MatchRequired(RequiredFilename(key)) == Some(key)
  {
  }

  /** A required file inside any directory is picked and matched by its name alone. */
  lemma NamedIn(dir: string, key: LegacyKey, path: string)
    requires path == dir + "/" + RequiredFilename(key)
    ensures PickedPath(Selected(path)) == Some(path)
    ensures MatchRequired(FileName(path)) == Some(key)
  {
    var name := RequiredFilename(key);
    RequiredFilenameMatches(key);
    assert path == dir + ['/'] + name;
    FileNameIgnoresDirectories(dir, '/', name);
  }
}
