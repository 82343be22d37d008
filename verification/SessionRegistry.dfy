/**
 The registry of Julia sessions: ids, the session map, and reaping in two phases, where a
 reaper lists the idle sessions under the lock and stops them one by one after releasing it.
 */
module SessionRegistry {
  import opened Prelude
  import opened Decimal

  /** `session-<n>`. */
  function Name(n: nat): string {
    "session-" + seq(|Show(n)|, i requires 0 <= i < |Show(n)| => Show(n)[i] as char)
  }

  lemma NameInjective(m: nat, n: nat)
    requires Name(m) == Name(n)
    ensures m == n
  {
    assert |Show(m)| == |Show(n)| by {
      assert |Name(m)| == 8 + |Show(m)| && |Name(n)| == 8 + |Show(n)|;
    }
    forall i | 0 <= i < |Show(m)|
      ensures Show(m)[i] == Show(n)[i]
    {
      assert Name(m)[8 + i] == Show(m)[i] as char && Name(n)[8 + i] == Show(n)[i] as char;
    }
    ShowInjective(m, n);
  }

  /**
   `sessions` maps an id to its last activity; `reaping` is what each running reaper still has
   to stop. `started` and `stopped` are history: ids handed out, and ids whose stop succeeded.
   */
  datatype State = State(
    counter: nat,
    sessions: map<string, real>,
    reaping: map<nat, set<string>>,
    started: seq<string>,
    stopped: seq<string>)

  datatype Step =
    | Start(now: real)
    | Stop(id: string)
    | Touch(id: string, now: real)
    | Snapshot(reaper: nat, now: real)
    | Reap(reaper: nat, id: string)

  const EMPTY := State(0, map[], map[], [], [])

  function Stale(sessions: map<string, real>, now: real, timeout: real): set<string> {
    set id | id in sessions && now - sessions[id] > timeout
  }

  function Stopped(s: State, id: string): State {
    if id in s.sessions then s.(sessions := s.sessions - {id}, stopped := s.stopped + [id]) else s
  }

  predicate Enabled(s: State, a: Step) {
    a.Reap? ==> a.reaper in s.reaping && a.id in s.reaping[a.reaper]
  }

  function Apply(s: State, a: Step, timeout: real): State
    requires Enabled(s, a)
  {
    match a
    case Start(now) =>
      var id := Name(s.counter + 1);
      s.(counter := s.counter + 1, sessions := s.sessions[id := now], started := s.started + [id])
    case Stop(id) => Stopped(s, id)
    case Touch(id, now) => if id in s.sessions then s.(sessions := s.sessions[id := now]) else s
    case Snapshot(r, now) => s.(reaping := s.reaping[r := Stale(s.sessions, now, timeout)])
    case Reap(r, id) => Stopped(s.(reaping := s.reaping[r := s.reaping[r] - {id}]), id)
  }

  ghost predicate Run(states: seq<State>, steps: seq<Step>, timeout: real) {
    && |states| == |steps| + 1 && states[0] == EMPTY
    && forall i :: 0 <= i < |steps| ==>
         Enabled(states[i], steps[i]) && states[i + 1] == Apply(states[i], steps[i], timeout)
  }

  ghost predicate Consistent(s: State) {
    && |s.started| == s.counter
    && (forall i :: 0 <= i < |s.started| ==> s.started[i] == Name(i + 1))
    && NoDuplicates(s.stopped)
    && (forall id :: id in s.stopped ==> id in s.started)
    && (forall id :: id in s.sessions <==> id in s.started && id !in s.stopped)
  }

  lemma FreshName(s: State)
    requires Consistent(s)
    ensures Name(s.counter + 1) !in s.started
  {
    if Name(s.counter + 1) in s.started {
      var i :| 0 <= i < |s.started| && s.started[i] == Name(s.counter + 1);
      NameInjective(i + 1, s.counter + 1);
    }
  }

  lemma ConsistentStep(s: State, a: Step, timeout: real)
    requires Consistent(s) && Enabled(s, a)
    ensures Consistent(Apply(s, a, timeout))
  {
    FreshName(s);
    var s' := Apply(s, a, timeout);
    assert forall id :: id in s'.started <==> id in s.started || (a.Start? && id == Name(s.counter + 1));
  }

  lemma {:induction false} RunConsistent(states: seq<State>, steps: seq<Step>, timeout: real, i: nat)
    requires Run(states, steps, timeout) && i < |states|
    ensures Consistent(states[i])
  {
    if i > 0 {
      RunConsistent(states, steps, timeout, i - 1);
      ConsistentStep(states[i - 1], steps[i - 1], timeout);
    }
  }

  /**
   Under any interleaving of starts, stops, touches and reapers: no id is handed out twice, no
   id is stopped successfully twice, and the map holds exactly the ids started and not stopped.
   */
  lemma RegistrySound(states: seq<State>, steps: seq<Step>, timeout: real, i: nat)
    requires Run(states, steps, timeout) && i < |states|
    ensures NoDuplicates(states[i].started) && NoDuplicates(states[i].stopped)
    ensures forall id :: id in states[i].sessions <==> id in states[i].started && id !in states[i].stopped
  {
    RunConsistent(states, steps, timeout, i);
    var started := states[i].started;
    forall j, k | 0 <= j < k < |started|
      ensures started[j] != started[k]
    {
      if started[j] == started[k] {
        NameInjective(j + 1, k + 1);
      }
    }
  }

  // ---------------------------------------------------------------- activity

  /** The step that starts or touches a session, and when. */
  function ActivityOf(s: State, a: Step, id: string): Option<real> {
    match a
    case Start(now) => if id == Name(s.counter + 1) then Some(now) else None
    case Touch(touched, now) => if id == touched && id in s.sessions then Some(now) else None
    case _ => None
  }

  predicate Ends(a: Step, id: string) {
    (a.Stop? || a.Reap?) && a.id == id
  }

  /** Step j is the last before i that starts or touches `id`, at time t, and nothing has ended it since. */
  ghost predicate LastActivity(states: seq<State>, steps: seq<Step>, i: nat, j: nat, id: string, t: real) {
    && j < i <= |steps| < |states|
    && ActivityOf(states[j], steps[j], id) == Some(t)
    && forall k :: j < k < i ==> ActivityOf(states[k], steps[k], id).None? && !Ends(steps[k], id)
  }

  lemma ActivityStep(s: State, a: Step, timeout: real, id: string)
    requires Enabled(s, a)
    ensures var s' := Apply(s, a, timeout);
      if ActivityOf(s, a, id).Some? then id in s'.sessions && s'.sessions[id] == ActivityOf(s, a, id).value
      else if Ends(a, id) then id !in s'.sessions
      else (id in s'.sessions <==> id in s.sessions) && (id in s.sessions ==> s'.sessions[id] == s.sessions[id])
  {
  }

  /**
   The map over any run: a session is there with activity time t if and only if it was last
   started or touched at t and has been neither stopped nor reaped since. Nothing anybody does
   to other sessions matters.
   */
  lemma {:induction false} SessionIffActive(
    states: seq<State>, steps: seq<Step>, timeout: real, i: nat, id: string, t: real)
    requires Run(states, steps, timeout) && i < |states|
    ensures id in states[i].sessions && states[i].sessions[id] == t <==>
      exists j: nat :: LastActivity(states, steps, i, j, id, t)
  {
    if i > 0 {
      var last: nat := i - 1;
      var s, a := states[last], steps[last];
      SessionIffActive(states, steps, timeout, i - 1, id, t);
      assert states[i] == Apply(s, a, timeout);
      ActivityStep(s, a, timeout, id);
      if j: nat :| LastActivity(states, steps, i, j, id, t) {
        assert j < i - 1 ==> LastActivity(states, steps, last, j, id, t);
      }
      if ActivityOf(s, a, id) == Some(t) {
        assert LastActivity(states, steps, i, i - 1, id, t);
      } else if ActivityOf(s, a, id).None? && !Ends(a, id) {
        if j: nat :| LastActivity(states, steps, last, j, id, t) {
          assert LastActivity(states, steps, i, j, id, t);
        }
      }
    }
  }

  /**
   Who a reaper lists: exactly the sessions whose last start or touch is further back than the
   timeout. A session active within the timeout is not listed by that look.
   */
  lemma ListedIffIdle(states: seq<State>, steps: seq<Step>, timeout: real, i: nat, id: string)
    requires Run(states, steps, timeout) && i < |steps| && steps[i].Snapshot?
    ensures Enabled(states[i + 1], Reap(steps[i].reaper, id)) <==>
      exists j: nat, t: real :: LastActivity(states, steps, i, j, id, t) && steps[i].now - t > timeout
  {
    var now := steps[i].now;
    assert states[i + 1] == Apply(states[i], steps[i], timeout);
    if id in states[i].sessions {
      SessionIffActive(states, steps, timeout, i, id, states[i].sessions[id]);
    }
    forall j: nat, t: real | LastActivity(states, steps, i, j, id, t)
      ensures id in states[i].sessions && states[i].sessions[id] == t
    {
      SessionIffActive(states, steps, timeout, i, id, t);
    }
  }

  /** Step k takes `id` off the list of reaper r, or replaces that list. */
  predicate Renews(a: Step, r: nat, id: string) {
    (a.Snapshot? && a.reaper == r) || a == Reap(r, id)
  }

  /**
   At step j reaper r saw `id` idle for longer than the timeout, and it has not looked again
   or come to `id` before step i.
   */
  ghost predicate Exposed(
    states: seq<State>, steps: seq<Step>, timeout: real, i: nat, j: nat, r: nat, id: string)
  {
    && j < i <= |steps| < |states|
    && steps[j].Snapshot? && steps[j].reaper == r
    && id in Stale(states[j].sessions, steps[j].now, timeout)
    && forall k :: j < k < i ==> !Renews(steps[k], r, id)
  }

  lemma {:induction false} ListedIsExposed(
    states: seq<State>, steps: seq<Step>, timeout: real, i: nat, r: nat, id: string)
    returns (j: nat)
    requires Run(states, steps, timeout) && i < |states| && Enabled(states[i], Reap(r, id))
    ensures Exposed(states, steps, timeout, i, j, r, id)
  {
    assert i > 0;
    assert states[i] == Apply(states[i - 1], steps[i - 1], timeout);
    if steps[i - 1].Snapshot? && steps[i - 1].reaper == r {
      j := i - 1;
    } else {
      j := ListedIsExposed(states, steps, timeout, i - 1, r, id);
    }
  }

  lemma {:induction false} ExposedIsListed(
    states: seq<State>, steps: seq<Step>, timeout: real, i: nat, j: nat, r: nat, id: string)
    requires Run(states, steps, timeout) && Exposed(states, steps, timeout, i, j, r, id)
    ensures Enabled(states[i], Reap(r, id))
  {
    assert states[i] == Apply(states[i - 1], steps[i - 1], timeout);
    if j < i - 1 {
      ExposedIsListed(states, steps, timeout, i - 1, j, r, id);
      assert !Renews(steps[i - 1], r, id);
    }
  }

  /**
   Exactly what reaping can take, in any run: reaper r may stop a session now if and only if
   it was idle for longer than the timeout when r last looked and r has not come to it since.
   Whatever touches come between change nothing; if it is still there it goes, and counts as
   stopped; if not, nothing happens but that r is done with it.
   */
  lemma ReapableIff(states: seq<State>, steps: seq<Step>, timeout: real, i: nat, r: nat, id: string)
    requires Run(states, steps, timeout) && i < |states|
    ensures Enabled(states[i], Reap(r, id)) <==> exists j :: Exposed(states, steps, timeout, i, j, r, id)
    ensures Enabled(states[i], Reap(r, id)) ==>
      var s := Apply(states[i], Reap(r, id), timeout);
      && s.sessions == states[i].sessions - {id}
      && (id in s.stopped && id !in states[i].stopped <==> id in states[i].sessions)
      && !Enabled(s, Reap(r, id))
  {
    RunConsistent(states, steps, timeout, i);
    if Enabled(states[i], Reap(r, id)) {
      var j := ListedIsExposed(states, steps, timeout, i, r, id);
      ConsistentStep(states[i], Reap(r, id), timeout);
    }
    if j :| Exposed(states, steps, timeout, i, j, r, id) {
      ExposedIsListed(states, steps, timeout, i, j, r, id);
    }
  }

  /**
   Touching a session at the start of an eval does not protect it: an eval that begins between
   the snapshot and the stop is reaped with its activity only just recorded.
   */
  lemma ReapedThoughJustTouched() returns (states: seq<State>, steps: seq<Step>)
    ensures Run(states, steps, 3600.0) && |steps| == 4
    ensures steps[2].Touch? && steps[2].id in states[3].sessions && steps[1].Snapshot? && steps[2].now == steps[1].now
    ensures steps[3].Reap? && steps[3].id == steps[2].id && steps[2].id !in states[4].sessions
  {
    var id := Name(1);
    steps := [Start(0.0), Snapshot(0, 4000.0), Touch(id, 4000.0), Reap(0, id)];
    var s1 := Apply(EMPTY, steps[0], 3600.0);
    assert s1.sessions == map[id := 0.0];
    var s2 := Apply(s1, steps[1], 3600.0);
    assert id in s2.reaping[0];
    var s3 := Apply(s2, steps[2], 3600.0);
    var s4 := Apply(s3, steps[3], 3600.0);
    states := [EMPTY, s1, s2, s3, s4];
  }

  // ---------------------------------------------------------------- the manager object

  class Session {
    const id: string
    var lastActive: real

    constructor (id: string, now: real)
      ensures this.id == id && lastActive == now
    {
      this.id := id;
      lastActive := now;
    }
  }

  class SessionManager {
    const idleTimeout: real
    var sessions: map<string, Session>
    var counter: nat
    ghost var started: seq<string>
    ghost var stopped: seq<string>

    constructor (idleTimeout: real)
      ensures this.idleTimeout == idleTimeout && sessions == map[] && View() == EMPTY
    {
      this.idleTimeout := idleTimeout;
      sessions, counter := map[], 0;
      started, stopped := [], [];
    }

    /** Distinct ids hold distinct objects. */
    ghost predicate Valid()
      reads this
    {
      forall id :: id in sessions ==> sessions[id].id == id
    }

    ghost function View(): State
      reads this, sessions.Values
    {
      State(counter, map id | id in sessions :: sessions[id].lastActive, map[], started, stopped)
    }

    /** The registration at the end of `start_session`. */
    method RegisterSession(now: real) returns (id: string)
      requires Valid()
      modifies this
      ensures Valid() && View() == Apply(old(View()), Start(now), idleTimeout)
      ensures id == Name(counter) && id in sessions && fresh(sessions[id])
    {
      counter := counter + 1;
      id := Name(counter);
      var session := new Session(id, now);
      sessions := sessions[id := session];
      started := started + [id];
    }

    method StopSession(id: string) returns (success: bool)
      requires Valid()
      modifies this
      ensures Valid() && View() == Apply(old(View()), Stop(id), idleTimeout)
      ensures sessions == old(sessions) - {id}
      ensures success == (id in old(sessions))
    {
      if id !in sessions {
        return false;
      }
      sessions := sessions - {id};
      stopped := stopped + [id];
      return true;
    }

    method TouchSession(id: string, now: real)
      requires Valid()
      modifies sessions.Values
      ensures Valid() && View() == Apply(old(View()), Touch(id, now), idleTimeout)
    {
      if id in sessions {
        sessions[id].lastActive := now;
      }
    }

    /** A reap that nothing interrupts removes exactly the sessions idle beyond the timeout. */
    method ReapIdleSessions(now: real) returns (stale: set<string>)
      requires Valid()
      modifies this
      ensures Valid()
      ensures stale == Stale(old(View()).sessions, now, idleTimeout)
      ensures sessions == old(sessions) - stale
      ensures forall id :: id in old(sessions) ==>
        (id in sessions <==> now - old(sessions[id].lastActive) <= idleTimeout)
      ensures forall id :: id in sessions ==> now - sessions[id].lastActive <= idleTimeout
    {
      stale := set id | id in sessions && now - sessions[id].lastActive > idleTimeout;
      var todo := stale;
      while todo != {}
        invariant Valid() && todo <= stale
        invariant sessions == old(sessions) - (stale - todo)
        decreases todo
      {
        var id :| id in todo;
        var _ := StopSession(id);
        todo := todo - {id};
      }
    }
  }
}
