/**
 From container events to the down detector: which ways of ending count as an outage.
 */
module ContainerOutages {
  import opened ContainerStates
  import opened Options
  import C = Containers
  import D = DownDetector

  // What the detector is shown of a stored container.
  function Shown(id: string, row: C.Row, lastChange: int): D.Container {
    D.Container(id, "", row.state, lastChange, "")
  }

  // The detector would count the container, given time.
  predicate CountsAsDown(st: C.State, k: C.Key, now: int, lastChange: int, after: int) {
    k in st.rows && D.PastThreshold(Shown(k.ext, st.rows[k], lastChange), now, after)
  }

  function After(st: C.State, k: C.Key, action: C.Action, exit: Option<int>): C.State {
    C.ProcessEvent(st, C.Event(k, action, exit, ""), None)
  }

  /** A runtime announces the end of a container by a death and then a stop. Whatever state it
      was in, the container then counts as down, once the threshold has passed, exactly if its
      exit code was not 0, 137 or 143; and never again once it starts, runs on or is paused. */
  lemma EndCountsAsDownIff(st: C.State, k: C.Key, exit: Option<int>, now: int, lastChange: int, after: int)
    requires k in st.rows && lastChange + after <= now
    ensures var st' := After(After(st, k, C.Die, exit), k, C.Stop, None);
      && (CountsAsDown(st', k, now, lastChange, after) <==> exit !in {Some(0), Some(137), Some(143)})
      && !CountsAsDown(After(st', k, C.Start, None), k, now, lastChange, after)
      && !CountsAsDown(After(st', k, C.Unpause, None), k, now, lastChange, after)
      && !CountsAsDown(After(st', k, C.Pause, None), k, now, lastChange, after)
  {
    var died := After(st, k, C.Die, exit);
    C.LiveEventLeadsTo(st, C.Event(k, C.Die, exit, ""), None);
    C.LiveEventLeadsTo(died, C.Event(k, C.Stop, None, ""), None);
    var st' := After(died, k, C.Stop, None);
    C.LiveEventLeadsTo(st', C.Event(k, C.Start, None, ""), None);
    C.LiveEventLeadsTo(st', C.Event(k, C.Unpause, None, ""), None);
    C.LiveEventLeadsTo(st', C.Event(k, C.Pause, None, ""), None);
  }

  /** Before the threshold has passed nothing counts, and a stop without a death, or a kill, of
      a container that had not completed does count afterwards. */
  lemma KillCountsAfterThreshold(st: C.State, k: C.Key, action: C.Action, now: int, lastChange: int, after: int)
    requires k in st.rows && st.rows[k].state != Completed && action in {C.Stop, C.Kill}
    ensures CountsAsDown(After(st, k, action, None), k, now, lastChange, after) <==> lastChange + after <= now
  {
    C.LiveEventLeadsTo(st, C.Event(k, action, None, ""), None);
  }
}
