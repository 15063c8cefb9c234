/**
 * The over-the-air update state: three flags moved by guarded operations.
 * What the update library answers is an input to each operation.
 */
module Updates {

  /** What `checkForUpdateAsync` does: throw, or report whether an update exists. */
  datatype CheckOutcome = CheckThrew | Checked(isAvailable: bool)

  /** What `fetchUpdateAsync` does: throw, or report whether the download is new. */
  datatype FetchOutcome = FetchThrew | Fetched(isNew: bool)

  class UpdatesState {
    /** Whether the update library is active in this build. */
    const isEnabled: bool
    var isUpdateAvailable: bool
    var isUpdatePending: bool
    var isChecking: bool

    constructor (isEnabled: bool)
      ensures this.isEnabled == isEnabled
      ensures !isUpdateAvailable && !isUpdatePending && !isChecking
    {
      this.isEnabled := isEnabled;
      isUpdateAvailable := false;
      isUpdatePending := false;
      isChecking := false;
    }

    /**
     * Asks whether an update exists. Disabled: nothing changes and the answer
     * is no. Enabled: the answer (no, on an error) becomes `isUpdateAvailable`
     * and is returned, and the check is over.
     */
    method CheckForUpdates(outcome: CheckOutcome) returns (r: bool)
      modifies this
      ensures !isEnabled ==> !r && unchanged(this)
      ensures isEnabled ==> r == (outcome == Checked(true)) && isUpdateAvailable == r && !isChecking
      ensures isUpdatePending == old(isUpdatePending)
    {
      if !isEnabled {
        return false;
      }
      isChecking := true;
      match outcome {
        case Checked(isAvailable) =>
          isUpdateAvailable := isAvailable;
          r := isAvailable;
        case CheckThrew =>
          isUpdateAvailable := false;
          r := false;
      }
      isChecking := false;
    }

    /**
     * Downloads an available update. Unless enabled with an update available,
     * nothing changes. A new download makes the update pending and no longer
     * available; otherwise both flags stay. The check is over either way.
     */
    method DownloadUpdate(outcome: FetchOutcome) returns (r: bool)
      modifies this
      ensures !(isEnabled && old(isUpdateAvailable)) ==> !r && unchanged(this)
      ensures isEnabled && old(isUpdateAvailable) ==> !isChecking && r == (outcome == Fetched(true))
      ensures r ==> isUpdatePending && !isUpdateAvailable
      ensures !r ==> isUpdatePending == old(isUpdatePending) && isUpdateAvailable == old(isUpdateAvailable)
      ensures isUpdatePending && !old(isUpdatePending) ==> old(isUpdateAvailable)
    {
      if !isEnabled || !isUpdateAvailable {
        return false;
      }
      isChecking := true;
      match outcome {
        case Fetched(isNew) =>
          if isNew {
            isUpdatePending := true;
            isUpdateAvailable := false;
            r := true;
          } else {
            r := false;
          }
        case FetchThrew =>
          r := false;
      }
      isChecking := false;
    }

    /**
     * Restarts into a pending update. Returns whether the restart was
     * requested; an error from the restart is swallowed and no flag changes.
     */
    method ReloadApp() returns (requested: bool)
      ensures requested <==> isEnabled && isUpdatePending
    {
      if !isEnabled || !isUpdatePending {
        return false;
      }
      requested := true;
    }
  }
}
