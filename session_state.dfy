/** The per-session record the pages share: three loaded tables and two UI
    selections, each a key that may be absent, or present and hold `None` or a value. */
module SessionState {
  import opened Wrappers
  import opened Frames

  /** One session key: not yet created, or created and holding an optional value. */
  datatype Slot<T> = Absent | Present(held: Option<T>)

  /** The whole record as a value. */
  datatype Snapshot = Snapshot(
    wellLogData: Slot<Frame>,
    productionData: Slot<Frame>,
    drillingData: Slot<Frame>,
    selectedWell: Slot<string>,
    depthRange: Slot<(real, real)>)

  /** A key is created holding `None` only when it is absent; a present key is untouched. */
  function Ensure<T>(s: Slot<T>): (r: Slot<T>)
    ensures r.Present?
    ensures s.Present? ==> r == s
    ensures s.Absent? ==> r.held.None?
  {
    if s.Absent? then Present(None) else s
  }

  /** What `initialize_session_state` leaves behind: every key exists, a key
      that existed keeps its value, and a new key holds `None`. */
  function Initialized(s: Snapshot): (r: Snapshot)
    ensures AllPresent(r)
    ensures s.wellLogData.Present? ==> r.wellLogData == s.wellLogData
    ensures s.productionData.Present? ==> r.productionData == s.productionData
    ensures s.drillingData.Present? ==> r.drillingData == s.drillingData
    ensures s.selectedWell.Present? ==> r.selectedWell == s.selectedWell
    ensures s.depthRange.Present? ==> r.depthRange == s.depthRange
    ensures s.wellLogData.Absent? ==> r.wellLogData.held.None?
    ensures s.productionData.Absent? ==> r.productionData.held.None?
    ensures s.drillingData.Absent? ==> r.drillingData.held.None?
    ensures s.selectedWell.Absent? ==> r.selectedWell.held.None?
    ensures s.depthRange.Absent? ==> r.depthRange.held.None?
  {
    Snapshot(Ensure(s.wellLogData), Ensure(s.productionData), Ensure(s.drillingData),
             Ensure(s.selectedWell), Ensure(s.depthRange))
  }

  predicate AllPresent(s: Snapshot)
  {
    s.wellLogData.Present? && s.productionData.Present? && s.drillingData.Present?
    && s.selectedWell.Present? && s.depthRange.Present?
  }

  /** A fresh session comes out with all five keys holding `None`. */
  lemma InitializedFromEmpty()
    ensures var s := Initialized(Snapshot(Absent, Absent, Absent, Absent, Absent));
            s == Snapshot(Present(None), Present(None), Present(None), Present(None), Present(None))
  {
  }

  /** Every page calls `initialize_session_state` on every run; a second call changes nothing. */
  lemma InitializedIdempotent(s: Snapshot)
    ensures Initialized(Initialized(s)) == Initialized(s)
  {
  }

  /** Initialising an already initialised record is the identity. */
  lemma InitializedFixesAllPresent(s: Snapshot)
    requires AllPresent(s)
    ensures Initialized(s) == s
  {
  }

  /** The mutable record (`st.session_state`). */
  class SessionStore {
    var wellLogData: Slot<Frame>
    var productionData: Slot<Frame>
    var drillingData: Slot<Frame>
    var selectedWell: Slot<string>
    var depthRange: Slot<(real, real)>

    function State(): Snapshot
      reads this
    {
      Snapshot(wellLogData, productionData, drillingData, selectedWell, depthRange)
    }

    /** A new session has none of the five keys. */
    constructor ()
      ensures State() == Snapshot(Absent, Absent, Absent, Absent, Absent)
    {
      wellLogData, productionData, drillingData := Absent, Absent, Absent;
      selectedWell, depthRange := Absent, Absent;
    }

    /** `initialize_session_state`: each absent key is set to `None`. */
    method Initialize()
      modifies this
      ensures State() == Initialized(old(State()))
      ensures AllPresent(State())
    {
      if wellLogData.Absent? {
        wellLogData := Present(None);
      }
      if productionData.Absent? {
        productionData := Present(None);
      }
      if drillingData.Absent? {
        drillingData := Present(None);
      }
      if selectedWell.Absent? {
        selectedWell := Present(None);
      }
      if depthRange.Absent? {
        depthRange := Present(None);
      }
    }

    /** `set_well_log_data`: overwrites that one key, whatever it held. */
    method SetWellLogData(df: Option<Frame>)
      modifies this
      ensures State() == old(State()).(wellLogData := Present(df))
    {
      wellLogData := Present(df);
    }

    /** `set_production_data`. */
    method SetProductionData(df: Option<Frame>)
      modifies this
      ensures State() == old(State()).(productionData := Present(df))
    {
      productionData := Present(df);
    }

    /** `set_drilling_data`. */
    method SetDrillingData(df: Option<Frame>)
      modifies this
      ensures State() == old(State()).(drillingData := Present(df))
    {
      drillingData := Present(df);
    }

    /** `set_selected_well`: last write wins. */
    method SetSelectedWell(wellName: Option<string>)
      modifies this
      ensures State() == old(State()).(selectedWell := Present(wellName))
    {
      selectedWell := Present(wellName);
    }

    /** `set_depth_range`: last write wins. */
    method SetDepthRange(range: Option<(real, real)>)
      modifies this
      ensures State() == old(State()).(depthRange := Present(range))
    {
      depthRange := Present(range);
    }
  }

  /** Two writes to the same key: only the second is visible. */
  method SetTwiceLastWins(store: SessionStore, first: Option<(real, real)>, second: Option<(real, real)>)
    modifies store
    ensures store.State() == old(store.State()).(depthRange := Present(second))
  {
    store.SetDepthRange(first);
    store.SetDepthRange(second);
  }

  /** A setter followed by initialisation keeps what was set. */
  method SetThenInitialize(store: SessionStore, df: Option<Frame>)
    modifies store
    ensures store.wellLogData == Present(df)
    ensures store.State() == Initialized(old(store.State()).(wellLogData := Present(df)))
  {
    store.SetWellLogData(df);
    store.Initialize();
  }
}
