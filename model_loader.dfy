/**
 * The model loader hook (two artifacts): each picked file is classified by its extension,
 * staged into its slot, and once both slots are staged the pair is handed to the backend.
 * Any error rolls every slot back, so no stale path survives a failed attempt.
 */
module ModelLoader {
  import opened Wrappers
  import opened JsText
  import opened ModelFiles

  /** The two slots: the unified ONNX network and the scaler parameters. */
  datatype ModelKey = Onnx | Scaler

  /** The extension each slot accepts. */
  function RequiredExt(key: ModelKey): string {
    match key
    case Onnx => "onnx"
    case Scaler => "json"
  }

  /** The lower-cased text after the last '.' of the file name (all of it when there is no '.'). */
  function Extension(path: string): string {
    Lower(AfterLast(FileName(path), {'.'}))
  }

  /** `requiredModels.find((m) => m.ext === ext)`. */
  function SlotFor(ext: string): (r: Option<ModelKey>)
    ensures r.Some? ==> RequiredExt(r.value) == ext
    ensures r.None? ==> forall key: ModelKey :: RequiredExt(key) != ext
  {
    if ext == RequiredExt(Onnx) then Some(Onnx)
    else if ext == RequiredExt(Scaler) then Some(Scaler)
    else None
  }

  /** classifyFile: the slot whose extension matches, if any. */
  function ClassifyFile(path: string): (r: Option<ModelKey>)
    ensures r.Some? ==> RequiredExt(r.value) == Extension(path)
    ensures r.None? ==> forall key: ModelKey :: RequiredExt(key) != Extension(path)
  {
    SlotFor(Extension(path))
  }

  /** Directories never matter: a file is classified by its own name alone. */
  lemma {:induction false} ClassifyByFileName(dir: string, sep: char, name: string)
    requires sep in PathSeparators && Free(name, PathSeparators)
    ensures ClassifyFile(dir + [sep] + name) == ClassifyFile(name)
  {
    FileNameIgnoresDirectories(dir, sep, name);
    assert name[|name| - |name|..] == name;
    AfterLastUnique(name, PathSeparators, name);
  }

  /** The extension of `stem.ext` is the lower-cased `ext` when neither part holds a path separator. */
  lemma ExtensionOfName(stem: string, ext: string)
    requires Free(stem, PathSeparators)
    requires Free(ext, PathSeparators) && Free(ext, {'.'})
    ensures Extension(stem + "." + ext) == Lower(ext)
  {
    var name := stem + "." + ext;
    assert Free(name, PathSeparators) by {
      forall i | 0 <= i < |name|
        ensures name[i] !in PathSeparators
      {
        if i > |stem| {
          assert name[i] == ext[i - |stem| - 1];
        }
      }
    }
    assert name[|name| - |name|..] == name;
    AfterLastUnique(name, PathSeparators, name);
    assert name[|name| - |ext|..] == ext;
    assert name[|name| - |ext| - 1] == '.';
    AfterLastUnique(name, {'.'}, ext);
  }

  /** Letter case in the extension never matters: `m.ONNX` is classified as `m.onnx` is. */
  lemma ExtensionIgnoresCase(stem: string, ext: string)
    requires Free(stem, PathSeparators)
    requires Free(ext, PathSeparators) && Free(ext, {'.'})
    ensures ClassifyFile(stem + "." + ext) == SlotFor(Lower(ext))
    ensures ClassifyFile(stem + "." + ext) == ClassifyFile(stem + "." + Lower(ext))
  {
    ExtensionOfName(stem, ext);
    LowerLeavesNoCapitals(ext);
    ExtensionOfName(stem, Lower(ext));
  }

  /** Upper-case extensions are accepted: `.ONNX` fills the network slot and `.JSON` the scaler slot. */
  lemma UpperCaseExtensions(stem: string)
    requires Free(stem, PathSeparators)
    ensures ClassifyFile(stem + ".ONNX") == Some(Onnx)
    ensures ClassifyFile(stem + ".JSON") == Some(Scaler)
  {
    UpperCaseExtension(stem, "ONNX", Onnx);
    assert stem + ".ONNX" == stem + "." + "ONNX";
    UpperCaseExtension(stem, "JSON", Scaler);
    assert stem + ".JSON" == stem + "." + "JSON";
  }

  lemma UpperCaseExtension(stem: string, upper: string, key: ModelKey)
    requires Free(stem, PathSeparators)
    requires |upper| == 4 && |RequiredExt(key)| == 4
    requires forall i :: 0 <= i < 4 ==>
      ('A' <= upper[i] <= 'Z' && RequiredExt(key)[i] as int == upper[i] as int - 'A' as int + 'a' as int)
    ensures ClassifyFile(stem + "." + upper) == Some(key)
  {
    LowerLeavesNoCapitals(upper);
    assert Lower(upper) == RequiredExt(key);
    ExtensionIgnoresCase(stem, upper);
  }

  const AllKeys: set<ModelKey> := {Onnx, Scaler}
  const NoneStaged: map<ModelKey, bool> := map[Onnx := false, Scaler := false]
  const NoPaths: map<ModelKey, Option<string>> := map[Onnx := None, Scaler := None]

  /** `Object.values(staged).every(Boolean)`. */
  function AllStaged(staged: map<ModelKey, bool>): bool {
    forall key :: key in staged ==> staged[key]
  }

  /** The two paths `load_model_files` receives. */
  datatype ActivationRequest = ActivationRequest(onnxPath: string, scalerPath: string)

  /** The request built from the paths of two staged slots. */
  function Request(paths: map<ModelKey, Option<string>>): (r: ActivationRequest)
    requires Onnx in paths && Scaler in paths && paths[Onnx].Some? && paths[Scaler].Some?
    ensures paths[Onnx] == Some(r.onnxPath) && paths[Scaler] == Some(r.scalerPath)
  {
    ActivationRequest(paths[Onnx].value, paths[Scaler].value)
  }

  /** The slot the picked file is for, when a usable path came back and its extension is known. */
  function Target(dialog: DialogResult): (r: Option<ModelKey>)
    ensures r.Some? ==> PickedPath(dialog).Some? && ClassifyFile(dialog.path) == r
    ensures dialog.Selected? && ClassifyFile(dialog.path).Some? ==> r == ClassifyFile(dialog.path)
  {
    assert Extension("") == "";
    if PickedPath(dialog).Some? then ClassifyFile(dialog.path) else None
  }

  function Other(key: ModelKey): ModelKey {
    match key
    case Onnx => Scaler
    case Scaler => Onnx
  }

  /** With two slots, a map where `key` is staged has every slot staged exactly when the other one is. */
  lemma BothStaged(staged: map<ModelKey, bool>, key: ModelKey)
    requires staged.Keys == AllKeys && staged[key]
    ensures AllStaged(staged) <==> staged[Other(key)]
  {
    if staged[Other(key)] {
      forall k | k in staged
        ensures staged[k]
      {
        assert k == key || k == Other(key);
      }
    }
  }

  /** What `load_model_files` answers. */
  datatype ActivationOutcome = Loaded | LoadFailed(reason: string)

  /** Which notification the handler ends with. */
  datatype LoadOutcome =
    | NoFile
    | Unrecognized(filename: string)
    | AlreadyRegistered(key: ModelKey)
    | Registered(key: ModelKey)
    | Activated
    | RolledBack(reason: string)

  class Loader {
    var staged: map<ModelKey, bool>
    /** `pathsRef.current`. */
    var paths: map<ModelKey, Option<string>>
    var modelReady: bool

    /** Every slot is staged exactly when it holds a path, and a ready model has both. */
    ghost predicate Valid()
      reads this
    {
      && staged.Keys == AllKeys && paths.Keys == AllKeys
      && (forall key :: key in staged ==> (staged[key] <==> paths[key].Some?))
      && (modelReady ==> AllStaged(staged))
    }

    ghost predicate Cleared()
      reads this
    {
      staged == NoneStaged && paths == NoPaths && !modelReady
    }

    constructor ()
      ensures Valid() && Cleared()
    {
      staged := NoneStaged;
      paths := NoPaths;
      modelReady := false;
    }

    /** stageFile: exactly this slot gets its path and its flag. */
    method StageFile(key: ModelKey, path: string) returns (updated: map<ModelKey, bool>)
      requires Valid()
      modifies this
      ensures Valid()
      ensures staged == old(staged)[key := true] && paths == old(paths)[key := Some(path)]
      ensures modelReady == old(modelReady) && updated == staged
    {
      paths := paths[key := Some(path)];
      updated := staged[key := true];
      staged := updated;
    }

    /** activateModel: hands both staged paths over; only success makes the model ready. */
    method ActivateModel(backend: ActivationOutcome) returns (request: ActivationRequest, error: Option<string>)
      requires Valid() && AllStaged(staged)
      modifies this
      ensures Valid() && staged == old(staged) && paths == old(paths)
      ensures request == Request(paths)
      ensures backend.Loaded? ==> modelReady && error.None?
      ensures backend.LoadFailed? ==> modelReady == old(modelReady) && error == Some(backend.reason)
    {
      assert staged[Onnx] && staged[Scaler];
      request := Request(paths);
      match backend
      case Loaded =>
        modelReady := true;
        error := None;
      case LoadFailed(reason) =>
        error := Some(reason);
    }

    /** rollback: every slot un-staged, every path cleared, the model not ready. */
    method Rollback()
      modifies this
      ensures Valid() && Cleared()
    {
      staged := NoneStaged;
      paths := NoPaths;
      modelReady := false;
    }

    /**
     * handleLoadModel with the dialog's answer and the backend's answer as parameters;
     * `request` is the activation call made, if any.
     */
    method HandleLoadModel(dialog: DialogResult, backend: ActivationOutcome)
      returns (outcome: LoadOutcome, request: Option<ActivationRequest>)
      requires Valid()
      modifies this
      ensures Valid()
      // an error thrown by the dialog is caught and rolls everything back
      ensures dialog.DialogError? ==> Cleared() && outcome == RolledBack(dialog.reason) && request.None?
      // a cancelled pick changes nothing
      ensures !dialog.DialogError? && PickedPath(dialog).None? ==>
        unchanged(this) && outcome == NoFile && request.None?
      // an unknown extension changes nothing
      ensures PickedPath(dialog).Some? && Target(dialog).None? ==>
        unchanged(this) && outcome == Unrecognized(FileName(dialog.path)) && request.None?
      // a file for a slot that is already staged changes nothing
      ensures Target(dialog).Some? && old(staged)[Target(dialog).value] ==>
        unchanged(this) && outcome == AlreadyRegistered(Target(dialog).value) && request.None?
      // otherwise the slot is staged with the path ...
      ensures Target(dialog).Some? && !old(staged)[Target(dialog).value] && !old(staged)[Other(Target(dialog).value)] ==>
        && staged == old(staged)[Target(dialog).value := true]
        && paths == old(paths)[Target(dialog).value := Some(dialog.path)]
        && modelReady == old(modelReady) && outcome == Registered(Target(dialog).value) && request.None?
      // ... and when the other slot was already staged the backend gets both paths
      ensures Target(dialog).Some? && !old(staged)[Target(dialog).value] && old(staged)[Other(Target(dialog).value)] ==>
        request.Some? &&
        request.value == Request(old(paths)[Target(dialog).value := Some(dialog.path)])
      ensures Target(dialog).Some? && !old(staged)[Target(dialog).value] && old(staged)[Other(Target(dialog).value)] &&
              backend.Loaded? ==>
        && staged == old(staged)[Target(dialog).value := true]
        && paths == old(paths)[Target(dialog).value := Some(dialog.path)]
        && modelReady && outcome == Activated
      ensures Target(dialog).Some? && !old(staged)[Target(dialog).value] && old(staged)[Other(Target(dialog).value)] &&
              backend.LoadFailed? ==>
        Cleared() && outcome == RolledBack(backend.reason)
    {
      request := None;
      if dialog.DialogError? {
        Rollback();
        outcome := RolledBack(dialog.reason);
        return;
      }
      var path := PickedPath(dialog);
      if path.None? {
        outcome := NoFile;
        return;
      }
      var classified := ClassifyFile(path.value);
      if classified.None? {
        outcome := Unrecognized(FileName(path.value));
        return;
      }
      var key := classified.value;
      assert Target(dialog) == Some(key);
      if staged[key] {
        outcome := AlreadyRegistered(key);
        return;
      }
      var otherStaged := staged[Other(key)];
      var updated := StageFile(key, path.value);
      BothStaged(updated, key);
      if AllStaged(updated) {
        var sent, error := ActivateModel(backend);
        request := Some(sent);
        if error.Some? {
          Rollback();
          outcome := RolledBack(error.value);
        } else {
          outcome := Activated;
        }
      } else {
        outcome := Registered(key);
      }
    }
  }

  /**
   * A wrong file, then the model, then the scaler whose activation fails: the wrong file
   * is refused, the model waits alone, the backend gets both paths, and the failure
   * leaves the loader exactly as it started.
   */
  method FailedActivationScenario(wrongPath: string, onnxPath: string, scalerPath: string, reason: string)
    returns (first: LoadOutcome, second: LoadOutcome, third: LoadOutcome,
             request: Option<ActivationRequest>,
             staged: map<ModelKey, bool>, paths: map<ModelKey, Option<string>>, ready: bool)
    requires wrongPath != "" && ClassifyFile(wrongPath).None?
    requires ClassifyFile(onnxPath) == Some(Onnx) && ClassifyFile(scalerPath) == Some(Scaler)
    ensures first == Unrecognized(FileName(wrongPath))
    ensures second == Registered(Onnx)
    ensures third == RolledBack(reason)
    ensures request == Some(ActivationRequest(onnxPath, scalerPath))
    ensures staged == NoneStaged && paths == NoPaths && !ready
  {
    var loader := new Loader();
    var r;
    assert PickedPath(Selected(wrongPath)) == Some(wrongPath) && Target(Selected(wrongPath)).None?;
    first, r := loader.HandleLoadModel(Selected(wrongPath), LoadFailed(reason));
    assert loader.Cleared();
    assert Target(Selected(onnxPath)) == Some(Onnx);
    second, r := loader.HandleLoadModel(Selected(onnxPath), LoadFailed(reason));
    assert loader.staged[Onnx] && !loader.staged[Scaler] && loader.paths[Onnx] == Some(onnxPath);
    assert Target(Selected(scalerPath)) == Some(Scaler);
    third, request := loader.HandleLoadModel(Selected(scalerPath), LoadFailed(reason));
    staged, paths, ready := loader.staged, loader.paths, loader.modelReady;
  }

  /** Picking a second model file while only the model slot is staged never activates, and the first path stays. */
  method SameSlotTwiceScenario(firstPath: string, secondPath: string)
    returns (outcome: LoadOutcome, request: Option<ActivationRequest>,
             staged: map<ModelKey, bool>, modelPath: Option<string>, ready: bool)
    requires ClassifyFile(firstPath) == Some(Onnx) && ClassifyFile(secondPath) == Some(Onnx)
    ensures outcome == AlreadyRegistered(Onnx) && request.None?
    ensures staged == map[Onnx := true, Scaler := false] && modelPath == Some(firstPath) && !ready
  {
    var loader := new Loader();
    assert Target(Selected(firstPath)) == Some(Onnx);
    var o, r := loader.HandleLoadModel(Selected(firstPath), Loaded);
    assert loader.staged[Onnx] && !loader.staged[Scaler] && loader.paths[Onnx] == Some(firstPath);
    assert Target(Selected(secondPath)) == Some(Onnx);
    outcome, request := loader.HandleLoadModel(Selected(secondPath), Loaded);
    staged, modelPath, ready := loader.staged, loader.paths[Onnx], loader.modelReady;
  }

  /**
   * After a successful activation, a dialog that throws on the next pick still rolls the
   * loader back: the model is reported as not ready although the backend holds it.
   */
  method DialogErrorAfterActivationScenario(onnxPath: string, scalerPath: string, reason: string)
    returns (readyAfterActivation: bool, readyAfterError: bool)
    requires ClassifyFile(onnxPath) == Some(Onnx) && ClassifyFile(scalerPath) == Some(Scaler)
    ensures readyAfterActivation && !readyAfterError
  {
    var loader := new Loader();
    assert Target(Selected(onnxPath)) == Some(Onnx);
    var o, r := loader.HandleLoadModel(Selected(onnxPath), Loaded);
    assert loader.staged[Onnx] && !loader.staged[Scaler];
    assert Target(Selected(scalerPath)) == Some(Scaler);
    o, r := loader.HandleLoadModel(Selected(scalerPath), Loaded);
    readyAfterActivation := loader.modelReady;
    o, r := loader.HandleLoadModel(DialogError(reason), Loaded);
    readyAfterError := loader.modelReady;
  }
}
