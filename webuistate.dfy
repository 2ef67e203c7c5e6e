/**
 * internal/web-ui/state.go: the web console's table of history commands, which
 * of them are active and how to cancel the one that was spawned for each. The
 * spawned command is an opaque handle; its cancellation is recorded in the
 * ghost sequence `cancelled`.
 */
module WebUiState {

  /** The handle of a spawned history command (its cancel function). */
  datatype Handle = Handle(id: nat)

  class UIState {
    var historyRawToIsActive: map<string, bool>
    var rawToCommandCancel: map<string, Handle>
    ghost var cancelled: seq<Handle>

    /** A command gets a handle only after it has been started, so every handle has an activity flag. */
    ghost predicate Valid()
      reads this
    {
      rawToCommandCancel.Keys <= historyRawToIsActive.Keys
    }

    /** NewUIState: no commands, no handles. */
    constructor()
      ensures historyRawToIsActive == map[] && rawToCommandCancel == map[] && cancelled == []
      ensures Valid()
    {
      historyRawToIsActive := map[];
      rawToCommandCancel := map[];
      cancelled := [];
    }

    /**
     * startHistoryCommandWithRaw: the command is marked active at once; its
     * handle is recorded later by RecordSpawned.
     */
    method StartHistoryCommandWithRaw(raw: string)
      requires Valid()
      modifies this
      ensures Valid()
      ensures historyRawToIsActive == old(historyRawToIsActive)[raw := true]
      ensures rawToCommandCancel == old(rawToCommandCancel)
      ensures cancelled == old(cancelled)
    {
      historyRawToIsActive := historyRawToIsActive[raw := true];
    }

    /** The goroutine of startHistoryCommandWithRaw: the spawned command's handle is stored under `raw`. */
    method RecordSpawned(raw: string, spawned: Handle)
      requires Valid() && raw in historyRawToIsActive
      modifies this
      ensures Valid()
      ensures rawToCommandCancel == old(rawToCommandCancel)[raw := spawned]
      ensures historyRawToIsActive == old(historyRawToIsActive)
      ensures cancelled == old(cancelled)
    {
      rawToCommandCancel := rawToCommandCancel[raw := spawned];
    }

    /**
     * stopHistoryCommandWithRaw: the command is marked inactive; when it has a
     * handle, the handle is called and kept.
     */
    method StopHistoryCommandWithRaw(raw: string)
      requires Valid()
      modifies this
      ensures Valid()
      ensures historyRawToIsActive == old(historyRawToIsActive)[raw := false]
      ensures rawToCommandCancel == old(rawToCommandCancel)
      ensures raw !in old(rawToCommandCancel) ==> cancelled == old(cancelled)
      ensures raw in old(rawToCommandCancel) ==> cancelled == old(cancelled) + [old(rawToCommandCancel)[raw]]
    {
      historyRawToIsActive := historyRawToIsActive[raw := false];
      if raw !in rawToCommandCancel {
        return;
      }
      var c := rawToCommandCancel[raw];
      cancelled := cancelled + [c];
    }
  }

  /**
   * Because the handle is kept, stopping a spawned command twice calls its
   * cancel function twice, and the command stays inactive.
   */
  method StopTwice(s: UIState, raw: string)
    requires s.Valid() && raw in s.rawToCommandCancel
    modifies s
    ensures s.Valid()
    ensures s.cancelled == old(s.cancelled) + [old(s.rawToCommandCancel)[raw], old(s.rawToCommandCancel)[raw]]
    ensures s.historyRawToIsActive == old(s.historyRawToIsActive)[raw := false]
  {
    s.StopHistoryCommandWithRaw(raw);
    s.StopHistoryCommandWithRaw(raw);
  }

  /** Start, spawn and stop: the command ends inactive with its handle called once. */
  method StartThenStop(s: UIState, raw: string, spawned: Handle)
    requires s.Valid()
    modifies s
    ensures s.Valid()
    ensures s.historyRawToIsActive == old(s.historyRawToIsActive)[raw := false]
    ensures s.rawToCommandCancel == old(s.rawToCommandCancel)[raw := spawned]
    ensures s.cancelled == old(s.cancelled) + [spawned]
  {
    s.StartHistoryCommandWithRaw(raw);
    s.RecordSpawned(raw, spawned);
    s.StopHistoryCommandWithRaw(raw);
  }
}
