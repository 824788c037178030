/** No interleaving of a load can paint itself into a corner: from wherever a run has got to, it
    can go on until every copier has stopped, provided every chunk is readable by its thread. */
module LoadCompletion {
  import opened Bytes
  import opened Collections
  import opened HostLoader
  import opened Dispatch
  import opened DispatchTables
  import opened LoadMachine

  ghost function LastState(states: seq<State>): State
    requires |states| > 0
  {
    states[|states| - 1]
  }

  /** A run together with the invariant of the state it has reached. */
  ghost predicate Reached(st: Setup, states: seq<State>)
    requires st.Valid()
  {
    IsRun(st, states) && Inv(st, LastState(states))
  }

  lemma RunReached(st: Setup, states: seq<State>)
    requires st.Valid() && IsRun(st, states)
    ensures Reached(st, states)
  {
    RunInv(st, states, |states| - 1);
  }

  /** One more step that some thread has. */
  lemma Extend(st: Setup, states: seq<State>, step: Step) returns (longer: seq<State>)
    requires st.Valid() && Reached(st, states) && Wants(st, LastState(states), step)
    ensures Reached(st, longer) && states <= longer
    ensures Safe(st, LastState(states), step) && LastState(longer) == Apply(st, LastState(states), step)
  {
    StepInv(st, LastState(states), step);
    longer := states + [Apply(st, LastState(states), step)];
    forall k | 0 < k < |longer|
      ensures Next(st, longer[k - 1], longer[k])
    {
      if k < |states| {
        assert longer[k - 1] == states[k - 1] && longer[k] == states[k];
      }
    }
  }

  // ---- I/O threads ---------------------------------------------------------------------

  /** Steps an I/O thread still has at most. */
  ghost function Left(st: Setup, th: Thread): int
    requires st.Valid()
  {
    match th
    case Idle => 2 * st.cfg.NumChunks() + 3
    case Reading(_, _, idx) => 2 * (st.cfg.NumChunks() - idx) + 2
    case Read(_, _, idx) => 2 * (st.cfg.NumChunks() - idx) + 1
    case Done => 0
    case Failed => 0
  }

  lemma LeftBound(st: Setup, s: State, t: nat)
    requires st.Valid() && Inv(st, s) && t < |s.threads|
    ensures s.threads[t].Idle? || s.threads[t].Reading? || s.threads[t].Read? ==> Left(st, s.threads[t]) > 0
    ensures AllReadable(st) ==> !s.threads[t].Failed?
  {
    assert ThreadOk(st, s.host, s.loaded, t, s.threads[t]);
  }

  lemma FinishThread(st: Setup, states: seq<State>, t: nat) returns (longer: seq<State>)
    requires st.Valid() && Reached(st, states) && AllReadable(st) && t < |LastState(states).threads|
    ensures Reached(st, longer) && states <= longer
    ensures |LastState(longer).threads| == |LastState(states).threads| && LastState(longer).threads[t].Done?
    ensures forall u :: 0 <= u < |LastState(states).threads| && u != t ==> LastState(longer).threads[u] == LastState(states).threads[u]
    decreases Left(st, LastState(states).threads[t])
  {
    if LastState(states).threads[t].Done? {
      longer := states;
    } else {
      var next := AdvanceThread(st, states, t);
      longer := FinishThread(st, next, t);
    }
  }

  lemma AdvanceThread(st: Setup, states: seq<State>, t: nat) returns (longer: seq<State>)
    requires st.Valid() && Reached(st, states) && AllReadable(st)
    requires t < |LastState(states).threads| && !LastState(states).threads[t].Done?
    ensures Reached(st, longer) && states <= longer
    ensures |LastState(longer).threads| == |LastState(states).threads|
    ensures 0 <= Left(st, LastState(longer).threads[t]) < Left(st, LastState(states).threads[t])
    ensures forall u :: 0 <= u < |LastState(states).threads| && u != t ==> LastState(longer).threads[u] == LastState(states).threads[u]
  {
    var s := LastState(states);
    LeftBound(st, s, t);
    var step := if s.threads[t].Idle? then StartThread(t) else if s.threads[t].Reading? then ReadChunkOf(t) else Announce(t);
    longer := Extend(st, states, step);
    LeftBound(st, LastState(longer), t);
  }

  lemma FinishThreads(st: Setup, states: seq<State>, n: nat) returns (longer: seq<State>)
    requires st.Valid() && Reached(st, states) && AllReadable(st) && n <= |LastState(states).threads|
    requires forall t :: 0 <= t < n ==> LastState(states).threads[t].Done?
    ensures Reached(st, longer) && states <= longer && AllDone(LastState(longer))
    decreases |LastState(states).threads| - n
  {
    if n == |LastState(states).threads| {
      longer := states;
    } else {
      var next := FinishThread(st, states, n);
      longer := FinishThreads(st, next, n + 1);
    }
  }

  // ---- The dispatcher ------------------------------------------------------------------

  lemma {:induction false} CountFrom(s: set<nat>, n: nat)
    requires forall c :: 0 <= c < n ==> c in s
    ensures |s| >= n
  {
    if n > 0 {
      CountFrom(s - {n - 1}, n - 1);
    }
  }

  lemma AllAnnounced(st: Setup, s: State)
    requires st.Valid() && Inv(st, s) && AllDone(s)
    ensures |s.loaded| >= st.cfg.NumChunks()
  {
    forall c: nat | 0 <= c < st.cfg.NumChunks()
      ensures c in ToSet(s.loaded)
    {
      var t := st.cfg.ThreadOfChunk(c);
      assert ThreadOk(st, s.host, s.loaded, t, s.threads[t]);
    }
    CountFrom(ToSet(s.loaded), st.cfg.NumChunks());
    DistinctCount(s.loaded);
  }

  lemma DispatchBound(st: Setup, s: State)
    requires st.Valid() && Inv(st, s)
    ensures s.fetched <= st.cfg.NumChunks()
  {
  }

  lemma DispatchAll(st: Setup, states: seq<State>) returns (longer: seq<State>)
    requires st.Valid() && Reached(st, states) && AllDone(LastState(states))
    ensures Reached(st, longer) && states <= longer
    ensures LastState(longer).row == [] && LastState(longer).fetched == st.cfg.NumChunks()
    decreases st.cfg.NumChunks() - LastState(states).fetched, |LastState(states).row|
  {
    var s := LastState(states);
    DispatchBound(st, s);
    AllAnnounced(st, s);
    if s.row == [] && s.fetched == st.cfg.NumChunks() {
      longer := states;
    } else {
      var next := Extend(st, states, if s.row == [] then Fetch else Send);
      DispatchBound(st, LastState(next));
      longer := DispatchAll(st, next);
    }
  }

  lemma SmallerRest(all: set<int>, some: set<int>, d: int)
    requires d in all && d !in some
    ensures |all - (some + {d})| < |all - some|
  {
    assert all - (some + {d}) == (all - some) - {d};
  }

  lemma EndAll(st: Setup, states: seq<State>) returns (longer: seq<State>)
    requires st.Valid() && Reached(st, states)
    requires LastState(states).row == [] && LastState(states).fetched == st.cfg.NumChunks()
    ensures Reached(st, longer) && states <= longer
    ensures forall d :: d in st.mem0 ==> d in LastState(longer).ended
    decreases |st.mem0.Keys - LastState(states).ended|
  {
    longer := states;
    if d :| d in st.mem0 && d !in LastState(states).ended {
      var next := Extend(st, states, End(d));
      SmallerRest(st.mem0.Keys, LastState(states).ended, d);
      longer := EndAll(st, next);
    }
  }

  // ---- The copiers ---------------------------------------------------------------------

  lemma {:induction false} CopierBound(st: Setup, s: State, d: int)
    requires st.Valid() && Inv(st, s) && d in st.mem0
    ensures d in s.taken && s.taken[d] <= |OnDevice(s.sent, d)| + 1
    ensures d !in s.stopped ==> s.taken[d] <= |OnDevice(s.sent, d)|
  {
    assert CopierOk(st, s, d);
  }

  lemma StopDevice(st: Setup, states: seq<State>, d: int) returns (longer: seq<State>)
    requires st.Valid() && Reached(st, states) && d in st.mem0 && d in LastState(states).ended
    ensures Reached(st, longer) && states <= longer
    ensures LastState(longer).stopped == LastState(states).stopped + {d} && LastState(longer).ended == LastState(states).ended
    decreases if d in LastState(states).stopped then 0
              else if d in LastState(states).taken then |OnDevice(LastState(states).sent, d)| + 2 - LastState(states).taken[d] else 0
  {
    var s := LastState(states);
    CopierBound(st, s, d);
    if d in s.stopped {
      longer := states;
    } else {
      var next := Extend(st, states, Take(d));
      CopierBound(st, LastState(next), d);
      longer := StopDevice(st, next, d);
    }
  }

  lemma StopAll(st: Setup, states: seq<State>) returns (longer: seq<State>)
    requires st.Valid() && Reached(st, states) && forall d :: d in st.mem0 ==> d in LastState(states).ended
    ensures Reached(st, longer) && states <= longer
    ensures forall d :: d in st.mem0 ==> d in LastState(longer).stopped
    decreases |st.mem0.Keys - LastState(states).stopped|
  {
    longer := states;
    if d :| d in st.mem0 && d !in LastState(states).stopped {
      var next := StopDevice(st, states, d);
      SmallerRest(st.mem0.Keys, LastState(states).stopped, d);
      longer := StopAll(st, next);
    }
  }

  // ---- Together ------------------------------------------------------------------------

  /** Every run can be continued until all copiers have stopped. */
  lemma RunCompletes(st: Setup, states: seq<State>) returns (longer: seq<State>)
    requires st.Valid() && IsRun(st, states) && AllReadable(st)
    ensures IsRun(st, longer) && states <= longer
    ensures forall d :: d in st.mem0 ==> d in LastState(longer).stopped
  {
    RunReached(st, states);
    var read := FinishThreads(st, states, 0);
    var dispatched := DispatchAll(st, read);
    var ended := EndAll(st, dispatched);
    longer := StopAll(st, ended);
  }

  lemma LongAllReadable(st: Setup)
    requires st.Valid() && forall p :: 0 < p < |st.cfg.parts| - 1 ==> |st.cfg.parts[p]| >= st.cfg.chunk
    ensures AllReadable(st)
  {
    forall t: nat, i: nat | t < st.cfg.threads && st.cfg.Lo(t) <= i < st.cfg.Hi(t)
      ensures st.cfg.Readable(st.cfg.Lo(t), i)
    {
      st.cfg.LongPartitionsReadable(st.cfg.Lo(t), i);
    }
  }

  /** There is a run to continue. */
  lemma FirstRun(st: Setup) returns (states: seq<State>)
    requires st.Valid()
    ensures IsRun(st, states)
  {
    var buffer: seq<byte> := seq(st.cfg.chunk, _ => 0);
    var host := seq(st.cfg.NumChunks(), _ => buffer);
    states := [State(host, seq(st.cfg.threads, _ => Idle), [], 0, [], [], {}, map d | d in st.mem0 :: 0, {}, st.mem0)];
  }
}
