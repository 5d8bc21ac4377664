/**
 * The zoomable view: a wrapper that holds the camera reported by its canvas
 * in its own state and runs the same restore/cancel protocol against the
 * zoom cache of the current layout.
 */
module View {
  import opened Canvas

  datatype ViewProps = ViewProps(layoutId: string, forceRelayout: bool, layoutZoomState: ZoomState)

  class ZoomableView {
    var props: ViewProps
    var state: ZoomState
    /** Whether the camera of the current layout has been taken from the cache. */
    var zoomRestored: bool
    /** A debounced cacheZoom is scheduled and has neither fired nor been cancelled. */
    var pendingCacheWrite: bool
    /** The payloads handed to cacheZoomState so far, oldest first. */
    var cacheWrites: seq<ZoomState>

    constructor (props: ViewProps)
      ensures this.props == props && state == map[]
      ensures !zoomRestored && !pendingCacheWrite && cacheWrites == []
    {
      this.props := props;
      state := map[];
      zoomRestored := false;
      pendingCacheWrite := false;
      cacheWrites := [];
    }

    /** restoreZoomState: only a non-empty cache entry is loaded, and only then is the camera restored. */
    method RestoreZoomState(next: ViewProps)
      modifies this`state, this`zoomRestored
      ensures state == Restored(old(state), next.layoutZoomState)
      ensures zoomRestored == (old(zoomRestored) || next.layoutZoomState != map[])
    {
      if next.layoutZoomState != map[] {
        state := state + next.layoutZoomState;
        zoomRestored := true;
      }
    }

    /** componentDidMount: forget any restoration, then try the cache. */
    method DidMount()
      modifies this
      ensures state == Restored(old(state), props.layoutZoomState)
      ensures zoomRestored == (props.layoutZoomState != map[])
      ensures props == old(props) && pendingCacheWrite == old(pendingCacheWrite) && cacheWrites == old(cacheWrites)
    {
      zoomRestored := false;
      RestoreZoomState(props);
    }

    /** Unmounting cancels the pending write. */
    method WillUnmount()
      modifies this`pendingCacheWrite
      ensures !pendingCacheWrite
    {
      pendingCacheWrite := false;
    }

    /**
     * componentWillReceiveProps: a new layout id or a forced relayout cancels
     * the pending write and forgets the restoration; a restore is attempted
     * only when not restored. Afterwards the component holds the new properties.
     */
    method ReceiveProps(next: ViewProps)
      modifies this
      ensures var reset := next.layoutId != old(props.layoutId) || next.forceRelayout;
        && pendingCacheWrite == (old(pendingCacheWrite) && !reset)
        && (if old(zoomRestored) && !reset
            then zoomRestored && state == old(state)
            else zoomRestored == (next.layoutZoomState != map[]) && state == Restored(old(state), next.layoutZoomState))
      ensures props == next && cacheWrites == old(cacheWrites)
    {
      var layoutChanged := next.layoutId != props.layoutId;
      if layoutChanged || next.forceRelayout {
        pendingCacheWrite := false;
        zoomRestored := false;
      }
      if !zoomRestored {
        RestoreZoomState(next);
      }
      props := next;
    }

    /** cacheZoom: hands the whole state to the cache. */
    method CacheZoom()
      modifies this`cacheWrites
      ensures cacheWrites == old(cacheWrites) + [state]
    {
      cacheWrites := cacheWrites + [state];
    }

    /** The debounce interval elapses: a pending write lands, with the state as it is now. */
    method FireCacheTimer()
      modifies this`cacheWrites, this`pendingCacheWrite
      ensures !pendingCacheWrite
      ensures cacheWrites == if old(pendingCacheWrite) then old(cacheWrites) + [state] else old(cacheWrites)
    {
      if pendingCacheWrite {
        CacheZoom();
        pendingCacheWrite := false;
      }
    }

    /** updateState: the reported fields are merged in, the rest kept, and a cache write scheduled. */
    method UpdateState(cachable: ZoomState)
      modifies this`state, this`pendingCacheWrite
      ensures state == old(state) + cachable && pendingCacheWrite
      ensures forall f :: f in old(state) && f !in cachable ==> state[f] == old(state)[f]
    {
      state := state + cachable;
      pendingCacheWrite := true;
    }
  }

  /** The written payload is the state at the moment the timer fires, after every merge in the window. */
  method LastUpdateWins(v: ZoomableView, first: ZoomState, second: ZoomState)
    requires !v.pendingCacheWrite && v.cacheWrites == []
    modifies v
    ensures v.cacheWrites == [v.state]
    ensures forall f :: f in second ==> f in v.cacheWrites[0] && v.cacheWrites[0][f] == second[f]
  {
    v.UpdateState(first);
    v.UpdateState(second);
    v.FireCacheTimer();
  }
}
