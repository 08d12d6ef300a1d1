/** What the deployment deleter promises, stated over its event log and its result. */
module DeploymentDeleterProperties {
  import opened Common
  import opened InstallationManifest
  import opened DeploymentDeleter

  /** Without a deployment state file nothing is loaded, installed or deleted, and the
      result is nil. */
  lemma NoStateFileDoesNothing(o: Outcomes, path: string)
    requires !o.stateExists
    ensures DeleteRun(o, path) == Trace([], None)
  {
  }

  /** A state that cannot be loaded: the error is wrapped with "Loading deployment state",
      and no release cleanup was registered yet. */
  lemma LoadFailure(o: Outcomes, path: string)
    requires o.stateExists && o.load.Err?
    ensures DeleteRun(o, path).events == [StateLoaded]
    ensures DeleteRun(o, path).err == Some(Wrap("Loading deployment state", o.load.error))
    ensures AllReleasesDeleted !in DeleteRun(o, path).events
  {
  }

  /** The validating stage passes exactly when every manifest check, the tarball fetch and
      the CPI release checks pass. */
  lemma ValidationPassesIff(o: Outcomes, path: string)
    ensures ValidationRun(o, path).err.None? <==>
      && o.parseInstallation.Ok? && o.parseReleaseSet.Ok?
      && o.validateReleaseSet.None? && o.validateInstallation.None?
      && FindByName(o.parseReleaseSet.value, o.parseInstallation.value.template.release).Some?
      && o.tarball.Ok? && o.extract.Ok? && o.validateCpiRelease.None?
  {
  }

  // ---------------------------------------------------------------------------------
  // Where an event can occur

  /** The events only the phases after validation record (the cleanups, the deletion, and
      the end of the "Starting registry" and "deleting deployment" steps). */
  predicate AfterValidation(x: Event)
  {
    x in {AllReleasesDeleted, RegistryStopped, CleanedUp, DeploymentDeleted, Ended(DeletingStage), Ended(StartingRegistryStep)}
  }

  lemma ThenAbsent(x: Event, a: Trace, b: Trace)
    requires x !in a.events && (a.err.None? ==> x !in b.events)
    ensures x !in Then(a, b).events
  {
  }

  lemma InStepAbsent(x: Event, name: string, inner: Trace)
    requires x !in inner.events && x != Began(name) && x != EndStep(name, inner.err)
    ensures x !in InStep(name, inner).events
  {
  }

  lemma ValidationAbsent(x: Event, o: Outcomes, path: string)
    requires AfterValidation(x)
    ensures x !in ValidationRun(o, path).events
  {
    var manifest := InStep(ValidatingManifestStep, ManifestChecks(o, path));
    ManifestStepAbsent(x, o, path);
    ReleaseRunAbsent(x, o);
    ThenAbsent(x, manifest, ReleaseRun(o));
    InStepAbsent(x, ValidatingStage, Then(manifest, ReleaseRun(o)));
  }

  lemma ManifestStepAbsent(x: Event, o: Outcomes, path: string)
    requires AfterValidation(x)
    ensures x !in InStep(ValidatingManifestStep, ManifestChecks(o, path)).events
  {
    var checks := ManifestChecks(o, path);
    assert x !in checks.events;
    InStepAbsent(x, ValidatingManifestStep, checks);
  }

  lemma ReleaseRunAbsent(x: Event, o: Outcomes)
    requires AfterValidation(x)
    ensures x !in ReleaseRun(o).events
  {
    if o.tarball.Ok? {
      var release := ReleaseChecks(o, o.tarball.value);
      assert x !in release.events;
      InStepAbsent(x, ValidatingReleaseStep(CpiReleaseRef(o).name), release);
    }
  }


  lemma InstallAbsent(x: Event, o: Outcomes)
    requires AfterValidation(x)
    ensures x !in InstallRun(o).events
  {
  }

  /** The clients and the deletion record neither cleanup nor the registry's start. */
  lemma DeleteWithRegistryAbsent(x: Event, o: Outcomes, state: DeploymentState)
    requires x in {AllReleasesDeleted, RegistryStopped, Ended(StartingRegistryStep)}
    ensures x !in DeleteWithRegistryRun(o, state).events
  {
  }

  /** Once the state is loaded, the deleter's events are the loaded part's followed by the
      release cleanup's. */
  lemma LoadedShape(o: Outcomes, path: string)
    requires o.stateExists && o.load.Ok?
    ensures DeleteRun(o, path).events == [StateLoaded] + DeleteLoadedRun(o, path, o.load.value).events + DeleteAllEvents(o)
    ensures DeleteRun(o, path).err == DeleteLoadedRun(o, path, o.load.value).err
  {
  }

  /** Once the registry started, the loaded part's events are validation's, installation's,
      the registry start's, the deletion's, then the registry stop's. */
  lemma StartedShape(o: Outcomes, path: string, state: DeploymentState)
    requires ValidationRun(o, path).err.None? && InstallRun(o).err.None? && o.startRegistry.None?
    ensures DeleteLoadedRun(o, path, state).events == ValidationRun(o, path).events + InstallRun(o).events
      + StartRegistryRun(o).events + DeleteWithRegistryRun(o, state).events + StopRegistryEvents(o)
    ensures DeleteLoadedRun(o, path, state).err == DeleteWithRegistryRun(o, state).err
  {
    ConcatAssoc(ValidationRun(o, path).events, InstallRun(o).events, StartRegistryRun(o).events,
      DeleteWithRegistryRun(o, state).events + StopRegistryEvents(o));
  }

  /** An event none of the loaded part's phases that run records is absent from it. */
  lemma LoadedAbsent(x: Event, o: Outcomes, path: string, state: DeploymentState)
    requires x !in ValidationRun(o, path).events
    requires ValidationRun(o, path).err.None? ==> x !in InstallRun(o).events
    requires ValidationRun(o, path).err.None? && InstallRun(o).err.None? ==> x !in StartRegistryRun(o).events
    requires ValidationRun(o, path).err.None? && InstallRun(o).err.None? && o.startRegistry.None? ==>
      x !in DeleteWithRegistryRun(o, state).events && x !in StopRegistryEvents(o)
    ensures x !in DeleteLoadedRun(o, path, state).events
  {
    var registry := RegistryRun(o, state);
    if ValidationRun(o, path).err.None? {
      ThenAbsent(x, InstallRun(o), registry);
    }
    ThenAbsent(x, ValidationRun(o, path), Then(InstallRun(o), registry));
  }

  // ---------------------------------------------------------------------------------
  // The cleanups

  /** The events between loading the state and the release cleanup never include that cleanup. */
  lemma NoReleaseCleanupBefore(o: Outcomes, path: string, state: DeploymentState)
    ensures AllReleasesDeleted !in DeleteLoadedRun(o, path, state).events
  {
    ValidationAbsent(AllReleasesDeleted, o, path);
    InstallAbsent(AllReleasesDeleted, o);
    DeleteWithRegistryAbsent(AllReleasesDeleted, o, state);
    LoadedAbsent(AllReleasesDeleted, o, path, state);
  }

  /** Once the state is loaded, the extracted releases are deleted exactly once, as the
      very last thing, and the deleter's result is that of the steps before. */
  lemma ReleasesDeletedOnceAtTheEnd(o: Outcomes, path: string)
    requires o.stateExists && o.load.Ok?
    ensures
      var r := DeleteRun(o, path);
      && Count(AllReleasesDeleted, r.events) == 1
      && |DeleteAllEvents(o)| <= |r.events|
      && r.events[|r.events| - |DeleteAllEvents(o)|..] == DeleteAllEvents(o)
      && r.err == DeleteLoadedRun(o, path, o.load.value).err
  {
    var rest := DeleteLoadedRun(o, path, o.load.value);
    LoadedShape(o, path);
    NoReleaseCleanupBefore(o, path, o.load.value);
    var warning := DeleteAllEvents(o)[1..];
    assert AllReleasesDeleted !in [StateLoaded] + rest.events;
    assert AllReleasesDeleted !in warning;
    CountOnce(AllReleasesDeleted, [StateLoaded] + rest.events, warning);
    assert DeleteAllEvents(o) == [AllReleasesDeleted] + warning;
    assert [StateLoaded] + rest.events + DeleteAllEvents(o) == [StateLoaded] + rest.events + [AllReleasesDeleted] + warning;
  }

  /** The loaded part depends on neither cleanup's outcome, except for the registry warning. */
  lemma DeleteLoadedIgnoresCleanups(o: Outcomes, path: string, state: DeploymentState, o': Outcomes)
    requires o' == o.(deleteAll := o'.deleteAll, stopRegistry := o'.stopRegistry)
    ensures DeleteLoadedRun(o', path, state).err == DeleteLoadedRun(o, path, state).err
  {
    assert ValidationRun(o', path) == ValidationRun(o, path);
    assert InstallRun(o') == InstallRun(o);
    assert StartRegistryRun(o') == StartRegistryRun(o);
    assert DeleteWithRegistryRun(o', state) == DeleteWithRegistryRun(o, state);
  }

  /** Deleting the extracted releases may fail: that is only logged as a warning, and the
      result is the same as when it succeeds. */
  lemma ReleaseCleanupNeverChangesResult(o: Outcomes, path: string, e: string)
    requires o.stateExists && o.load.Ok?
    ensures DeleteRun(o.(deleteAll := Some(e)), path).err == DeleteRun(o.(deleteAll := None), path).err
    ensures
      var failing := DeleteRun(o.(deleteAll := Some(e)), path).events;
      |failing| > 0 && failing[|failing| - 1] == Warned("Deleting all extracted releases: " + e)
  {
    ResultIgnoresCleanups(o.(deleteAll := Some(e)), o.(deleteAll := None), path);
    ReleaseCleanupWarning(o.(deleteAll := Some(e)), path, e);
  }

  /** The result does not depend on how the release cleanup and the registry stop went. */
  lemma ResultIgnoresCleanups(o: Outcomes, o': Outcomes, path: string)
    requires o.stateExists && o.load.Ok?
    requires o' == o.(deleteAll := o'.deleteAll, stopRegistry := o'.stopRegistry)
    ensures DeleteRun(o, path).err == DeleteRun(o', path).err
  {
    LoadedShape(o, path);
    LoadedShape(o', path);
    DeleteLoadedIgnoresCleanups(o, path, o.load.value, o');
  }

  /** A failed release cleanup is only logged, as the last event. */
  lemma ReleaseCleanupWarning(o: Outcomes, path: string, e: string)
    requires o.stateExists && o.load.Ok? && o.deleteAll == Some(e)
    ensures
      var events := DeleteRun(o, path).events;
      |events| > 0 && events[|events| - 1] == Warned("Deleting all extracted releases: " + e)
  {
    LoadedShape(o, path);
    var warning := Wrap("Deleting all extracted releases", e);
    assert DeleteAllEvents(o) == [AllReleasesDeleted, Warned(warning)];
    assert warning == "Deleting all extracted releases: " + e;
  }

  /** The registry is stopped if and only if the "Starting registry" step finished, and then
      after everything that needs it. */
  lemma RegistryStoppedIffStarted(o: Outcomes, path: string, state: DeploymentState)
    ensures
      var r := DeleteLoadedRun(o, path, state);
      && (RegistryStopped in r.events <==> Ended(StartingRegistryStep) in r.events)
      && (RegistryStopped in r.events ==>
            |StopRegistryEvents(o)| <= |r.events| && r.events[|r.events| - |StopRegistryEvents(o)|..] == StopRegistryEvents(o))
  {
    ValidationAbsent(RegistryStopped, o, path);
    ValidationAbsent(Ended(StartingRegistryStep), o, path);
    InstallAbsent(RegistryStopped, o);
    InstallAbsent(Ended(StartingRegistryStep), o);
    if ValidationRun(o, path).err.None? && InstallRun(o).err.None? && o.startRegistry.None? {
      StartedShape(o, path, state);
      assert Ended(StartingRegistryStep) in StartRegistryRun(o).events;
    } else if ValidationRun(o, path).err.None? && InstallRun(o).err.None? {
      assert DeleteLoadedRun(o, path, state).events == ValidationRun(o, path).events + (InstallRun(o).events + StartRegistryRun(o).events);
    }
  }

  /** Stopping the registry may fail: that is only logged, and the result does not change. */
  lemma RegistryStopNeverChangesResult(o: Outcomes, path: string, state: DeploymentState, e: string)
    ensures DeleteLoadedRun(o.(stopRegistry := Some(e)), path, state).err == DeleteLoadedRun(o.(stopRegistry := None), path, state).err
  {
    DeleteLoadedIgnoresCleanups(o, path, state, o.(stopRegistry := Some(e)));
    DeleteLoadedIgnoresCleanups(o, path, state, o.(stopRegistry := None));
  }

  // ---------------------------------------------------------------------------------
  // Validation

  /** The manifest checks run in a fixed order and stop at the first failure: what they
      record is always a prefix of "parse installation, parse release set, validate release
      set, validate installation". */
  lemma ManifestChecksInOrder(o: Outcomes, path: string)
    ensures
      var all := [InstallationParsed(path), ReleaseSetParsed(path), ReleaseSetValidated, InstallationValidated];
      var r := ManifestChecks(o, path);
      && 1 <= |r.events| <= 4 && r.events == all[..|r.events|]
      && (|r.events| < 4 ==> r.err.Some?)
      && (r.err.None? ==> FindByName(o.parseReleaseSet.value, o.parseInstallation.value.template.release).Some?)
  {
  }

  /** A CPI release name missing from the release set is reported by name. */
  lemma MissingCpiRelease(o: Outcomes, path: string)
    requires o.parseInstallation.Ok? && o.parseReleaseSet.Ok?
    requires o.validateReleaseSet.None? && o.validateInstallation.None?
    requires forall i :: 0 <= i < |o.parseReleaseSet.value.releases| ==>
      o.parseReleaseSet.value.releases[i].name != o.parseInstallation.value.template.release
    ensures ManifestChecks(o, path).err == Some(
      "installation release '" + o.parseInstallation.value.template.release + "' must refer to a release in releases")
  {
    var name := o.parseInstallation.value.template.release;
    assert FindByName(o.parseReleaseSet.value, name).None?;
    MissingReleaseMessageText(name);
  }

  lemma MissingReleaseMessageText(name: string)
    ensures MissingReleaseMessage(name) == "installation release '" + name + "' must refer to a release in releases"
  {
  }

  /** The extracted CPI release is added to the release manager before it is validated, so
      it is added (and later deleted) even when the validation fails. */
  lemma ReleaseAddedBeforeValidation(o: Outcomes, path: string, e: string)
    requires o.parseInstallation.Ok? && o.parseReleaseSet.Ok?
    requires o.validateReleaseSet.None? && o.validateInstallation.None?
    requires FindByName(o.parseReleaseSet.value, o.parseInstallation.value.template.release).Some?
    requires o.tarball.Ok? && o.extract.Ok? && o.validateCpiRelease == Some(e)
    ensures
      var r := ValidationRun(o, path);
      var release := o.extract.value;
      && r.err == Some("Invalid CPI release '" + release.name + "': " + e)
      && exists i, j :: 0 <= i < j < |r.events|
           && r.events[i] == ReleaseAdded(release)
           && r.events[j] == CpiReleaseValidated(release, o.parseInstallation.value.template.name)
  {
    var release := o.extract.value;
    var message := Wrap("Invalid CPI release " + Quoted(release.name), e);
    assert message == "Invalid CPI release '" + release.name + "': " + e;
    var step := ValidatingReleaseStep(CpiReleaseRef(o).name);
    var parse := InStep(ValidatingManifestStep, ManifestChecks(o, path));
    var tail := [TarballFetched(CpiReleaseRef(o)), Began(step), ReleaseExtracted(o.tarball.value), ReleaseAdded(release),
      CpiReleaseValidated(release, o.parseInstallation.value.template.name), StepFailed(step, message)];
    assert ReleaseRun(o) == Trace(tail, Some(message));
    var r := ValidationRun(o, path);
    assert r.events == [Began(ValidatingStage)] + parse.events + tail + [StepFailed(ValidatingStage, message)];
    var n := 1 + |parse.events| + 3;
    assert r.events[n] == ReleaseAdded(release);
    assert r.events[n + 1] == CpiReleaseValidated(release, o.parseInstallation.value.template.name);
  }

  // ---------------------------------------------------------------------------------
  // The deletion

  /** Everything up to finding the current deployment succeeded. */
  predicate ReachesDeletion(o: Outcomes, path: string)
  {
    && o.stateExists && o.load.Ok?
    && ValidationRun(o, path).err.None?
    && o.newInstaller.None? && o.install.None? && o.startRegistry.None?
    && o.newCloud.None? && o.newBlobstore.None? && o.findCurrent.Ok?
  }

  /** The clients are created, and the current deployment looked up, before the deletion. */
  lemma DeletionShape(o: Outcomes, state: DeploymentState)
    requires o.newCloud.None? && o.newBlobstore.None? && o.findCurrent.Ok?
    ensures DeleteWithRegistryRun(o, state).events ==
      [CloudCreated(state.directorID), AgentClientCreated(state.directorID, ParsedManifest(o).mbus),
       BlobstoreCreated(ParsedManifest(o).mbus), DeploymentManagerCreated, CurrentFound]
      + DeleteCurrentRun(o).events
    ensures DeleteWithRegistryRun(o, state).err == DeleteCurrentRun(o).err
  {
  }

  /** What a deleter that reaches the deletion records before the "deleting deployment" stage. */
  function BeforeDeletion(o: Outcomes, path: string): seq<Event>
    requires o.load.Ok?
  {
    var state := o.load.value;
    [StateLoaded] + ValidationRun(o, path).events + InstallRun(o).events + StartRegistryRun(o).events
      + [CloudCreated(state.directorID), AgentClientCreated(state.directorID, ParsedManifest(o).mbus),
         BlobstoreCreated(ParsedManifest(o).mbus), DeploymentManagerCreated, CurrentFound]
  }

  /** A deleter that reaches the deletion: what comes before it, the deletion and the
      cleanup, then the two deferred cleanups; the deletion and the cleanup decide the result. */
  lemma DeletionReachedShape(o: Outcomes, path: string)
    requires ReachesDeletion(o, path)
    ensures DeleteRun(o, path).events ==
      BeforeDeletion(o, path) + DeleteCurrentRun(o).events + StopRegistryEvents(o) + DeleteAllEvents(o)
    ensures DeleteRun(o, path).err == DeleteCurrentRun(o).err
  {
    var state := o.load.value;
    LoadedShape(o, path);
    StartedShape(o, path, state);
    DeletionShape(o, state);
    Regroup([StateLoaded], ValidationRun(o, path).events, InstallRun(o).events, StartRegistryRun(o).events,
      [CloudCreated(state.directorID), AgentClientCreated(state.directorID, ParsedManifest(o).mbus),
       BlobstoreCreated(ParsedManifest(o).mbus), DeploymentManagerCreated, CurrentFound],
      DeleteCurrentRun(o).events, StopRegistryEvents(o), DeleteAllEvents(o));
  }

  lemma Regroup<T>(a: seq<T>, v: seq<T>, i: seq<T>, s: seq<T>, c: seq<T>, d: seq<T>, st: seq<T>, da: seq<T>)
    ensures a + (v + i + s + (c + d) + st) + da == a + v + i + s + c + d + st + da
  {
  }

  lemma BeforeDeletionAbsent(x: Event, o: Outcomes, path: string)
    requires o.load.Ok? && x in {CleanedUp, DeploymentDeleted}
    ensures x !in BeforeDeletion(o, path)
  {
    ValidationAbsent(x, o, path);
    InstallAbsent(x, o);
  }

  /** No current deployment: the "deleting deployment" stage finishes without calling Delete,
      and cleaning up decides the result. */
  lemma NothingFoundNothingDeleted(o: Outcomes, path: string)
    requires ReachesDeletion(o, path) && o.findCurrent == Ok(false)
    ensures DeploymentDeleted !in DeleteRun(o, path).events
    ensures Ended(DeletingStage) in DeleteRun(o, path).events
    ensures DeleteRun(o, path).err == o.cleanup
  {
    DeletionReachedShape(o, path);
    BeforeDeletionAbsent(DeploymentDeleted, o, path);
    assert DeleteCurrentRun(o).events == [Began(DeletingStage), Ended(DeletingStage), CleanedUp];
  }

  /** A failing Delete is wrapped with "Deleting deployment", its step is Failed, and
      Cleanup is not called. */
  lemma DeleteFailure(o: Outcomes, path: string, e: string)
    requires ReachesDeletion(o, path) && o.findCurrent == Ok(true) && o.delete == Some(e)
    ensures DeleteRun(o, path).err == Some("Deleting deployment: " + e)
    ensures CleanedUp !in DeleteRun(o, path).events
    ensures StepFailed(DeletingStage, e) in DeleteRun(o, path).events
  {
    DeletionReachedShape(o, path);
    BeforeDeletionAbsent(CleanedUp, o, path);
    assert Wrap("Deleting deployment", e) == "Deleting deployment: " + e;
    assert DeleteCurrentRun(o) == Trace([Began(DeletingStage), DeploymentDeleted, StepFailed(DeletingStage, e)],
      Some(Wrap("Deleting deployment", e)));
  }

  /** Cleanup is called only after the "deleting deployment" stage succeeded, and its
      result is the deleter's result. */
  lemma CleanupDecidesResult(o: Outcomes, path: string)
    requires o.stateExists && o.load.Ok?
    ensures CleanedUp in DeleteRun(o, path).events <==>
      ReachesDeletion(o, path) && (o.findCurrent.value ==> o.delete.None?)
    ensures CleanedUp in DeleteRun(o, path).events ==>
      DeleteRun(o, path).err == o.cleanup && Ended(DeletingStage) in DeleteRun(o, path).events
  {
    if ReachesDeletion(o, path) {
      DeletionReachedShape(o, path);
      BeforeDeletionAbsent(CleanedUp, o, path);
      DeleteCurrentCleanup(o);
      var before, current, after := BeforeDeletion(o, path), DeleteCurrentRun(o).events, StopRegistryEvents(o) + DeleteAllEvents(o);
      assert CleanedUp !in after;
      assert DeleteRun(o, path).events == before + current + after;
      assert CleanedUp in before + current + after <==> CleanedUp in current;
    } else {
      CleanupNotReached(o, path);
    }
  }

  /** Between starting and stopping the registry, Cleanup is called exactly when the clients
      are created, the lookup succeeds and the found deployment (if any) is deleted. */
  lemma CleanupWithRegistry(o: Outcomes, state: DeploymentState)
    ensures CleanedUp in DeleteWithRegistryRun(o, state).events <==>
      o.newCloud.None? && o.newBlobstore.None? && o.findCurrent.Ok? && (o.findCurrent.value ==> o.delete.None?)
  {
  }

  /** Once the deletion stage is reached, the cleanup runs exactly when that stage succeeds,
      and then decides the result. */
  lemma DeleteCurrentCleanup(o: Outcomes)
    requires o.findCurrent.Ok?
    ensures CleanedUp in DeleteCurrentRun(o).events <==> (o.findCurrent.value ==> o.delete.None?)
    ensures CleanedUp in DeleteCurrentRun(o).events ==>
      DeleteCurrentRun(o).err == o.cleanup && Ended(DeletingStage) in DeleteCurrentRun(o).events
  {
  }

  /** A deleter that stops before the deletion never cleans up. */
  lemma CleanupNotReached(o: Outcomes, path: string)
    requires o.stateExists && o.load.Ok? && !ReachesDeletion(o, path)
    ensures CleanedUp !in DeleteRun(o, path).events
  {
    var state := o.load.value;
    LoadedShape(o, path);
    ValidationAbsent(CleanedUp, o, path);
    InstallAbsent(CleanedUp, o);
    CleanupWithRegistry(o, state);
    LoadedAbsent(CleanedUp, o, path, state);
  }
}
