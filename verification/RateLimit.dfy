/** The fixed-window rate limiter around a tool handler: tool_middleware.go. Times are in milliseconds. */
module RateLimit {
  import opened Events

  const MINUTE := 60_000

  datatype State = State(window: Option<int>, count: int)

  datatype Refusal = NotPositive | Exceeded

  predicate OpensWindow(s: State, now: int) {
    s.window == None || now - s.window.value >= MINUTE
  }

  /** One request: the state afterwards, and whether it was admitted. */
  function Step(perMinute: int, s: State, now: int): (State, bool) {
    if perMinute <= 0 then (s, false)
    else
      var s' := if OpensWindow(s, now) then State(Some(now), 0) else s;
      if s'.count >= perMinute then (s', false) else (s'.(count := s'.count + 1), true)
  }

  // ---------- Whole runs ----------

  /** An admitted request and the number of the window it was counted in. */
  datatype Admission = Admission(time: int, window: nat)

  /** What a limiter has done: its state, how many windows it has opened, whom it admitted. */
  datatype Run = Run(state: State, windows: nat, admitted: seq<Admission>)

  function OneMore(perMinute: int, run: Run, now: int): Run {
    var (state, admitted) := Step(perMinute, run.state, now);
    var windows := run.windows + if perMinute > 0 && OpensWindow(run.state, now) then 1 else 0;
    Run(state, windows, if admitted then run.admitted + [Admission(now, windows)] else run.admitted)
  }

  function After(perMinute: int, requests: seq<int>): Run {
    if requests == [] then Run(State(None, 0), 0, [])
    else OneMore(perMinute, After(perMinute, requests[..|requests| - 1]), requests[|requests| - 1])
  }

  class RateLimiter {
    const perMinute: int
    var window: Option<int>
    var count: int
    /** The times of all requests so far. */
    ghost var requests: seq<int>

    ghost predicate Valid()
      reads this
    {
      State(window, count) == After(perMinute, requests).state
    }

    constructor (perMinute: int)
      ensures Valid() && this.perMinute == perMinute && requests == []
    {
      this.perMinute := perMinute;
      window, count, requests := None, 0, [];
    }

    method Admit(now: int) returns (refused: Option<Refusal>)
      requires Valid()
      modifies this`window, this`count, this`requests
      ensures Valid() && requests == old(requests) + [now]
      ensures var before, after := After(perMinute, old(requests)).admitted, After(perMinute, requests).admitted;
              if refused == None then |after| == |before| + 1 && before <= after && after[|before|].time == now
                  else after == before
      ensures refused == Some(NotPositive) <==> perMinute <= 0
    {
      assert (requests + [now])[..|requests|] == requests;
      requests := requests + [now];
      if perMinute <= 0 {
        return Some(NotPositive);
      }
      if window == None || now - window.value >= MINUTE {
        window := Some(now);
        count := 0;
      }
      if count >= perMinute {
        return Some(Exceeded);
      }
      count := count + 1;
      return None;
    }
  }

  predicate InOrder(requests: seq<int>) {
    forall i, j :: 0 <= i < j < |requests| ==> requests[i] <= requests[j]
  }

  /** How many were admitted in one window. */
  function CountIn(admitted: seq<Admission>, window: int): nat {
    if admitted == [] then 0
    else CountIn(admitted[..|admitted| - 1], window) + if admitted[|admitted| - 1].window == window then 1 else 0
  }

  /** How many were admitted between two moments, both included. */
  function CountBetween(admitted: seq<Admission>, from: int, to: int): nat {
    if admitted == [] then 0
    else CountBetween(admitted[..|admitted| - 1], from, to) + if from <= admitted[|admitted| - 1].time <= to then
        1 else 0
  }

  // ---------- What every run keeps ----------

  /** Admissions of the open window lie within a minute of its start; earlier ones before it; and those of two windows
      ago or more at least a minute before it. */
  ghost predicate Placed(run: Run) {
    && (run.state.window == None ==> run.windows == 0 && run.admitted == [])
    && (run.state.window.Some? ==> run.windows >= 1)
    && forall a :: a in run.admitted ==>
         && run.state.window.Some? && a.window <= run.windows
         && (a.window == run.windows ==> run.state.window.value <= a.time < run.state.window.value + MINUTE)
         && (a.window < run.windows ==> a.time < run.state.window.value)
         && (a.window + 1 < run.windows ==> a.time < run.state.window.value - MINUTE)
  }

  ghost predicate Counted(perMinute: int, run: Run) {
    && (forall w: int :: CountIn(run.admitted, w) <= if perMinute > 0 then perMinute else 0)
    && CountIn(run.admitted, run.windows) == run.state.count
  }

  /** Two admissions at least two windows apart are more than a minute apart. */
  ghost predicate Spread(admitted: seq<Admission>) {
    forall a, b :: a in admitted && b in admitted && a.window + 1 < b.window ==> a.time + MINUTE < b.time
  }

  ghost predicate Proper(perMinute: int, run: Run) {
    Placed(run) && Counted(perMinute, run) && Spread(run.admitted)
  }

  lemma {:induction false} CountInMore(admitted: seq<Admission>, a: Admission, w: int)
    ensures CountIn(admitted + [a], w) == CountIn(admitted, w) + if a.window == w then 1 else 0
  {
    assert (admitted + [a])[..|admitted|] == admitted;
  }

  lemma {:induction false} CountInNone(admitted: seq<Admission>, w: int)
    requires forall a :: a in admitted ==> a.window != w
    ensures CountIn(admitted, w) == 0
  {
    if admitted != [] {
      assert admitted == admitted[..|admitted| - 1] + [admitted[|admitted| - 1]];
      CountInNone(admitted[..|admitted| - 1], w);
    }
  }

  lemma {:induction false} OneMoreStaysPlaced(perMinute: int, run: Run, now: int)
    requires Placed(run) && (run.state.window.Some? ==> run.state.window.value <= now)
    ensures Placed(OneMore(perMinute, run, now))
  {}

  lemma {:induction false} OneMoreStaysCounted(perMinute: int, run: Run, now: int)
    requires Placed(run) && Counted(perMinute, run)
    ensures Counted(perMinute, OneMore(perMinute, run, now))
  {
    var next := OneMore(perMinute, run, now);
    if perMinute > 0 {
      if OpensWindow(run.state, now) {
        CountInNone(run.admitted, next.windows);
      }
      if next.admitted != run.admitted {
        var a := Admission(now, next.windows);
        assert next.admitted == run.admitted + [a];
        assert CountIn(run.admitted, a.window) < perMinute;
        forall w: int
          ensures CountIn(next.admitted, w) == CountIn(run.admitted, w) + if a.window == w then 1 else 0
          ensures CountIn(next.admitted, w) <= perMinute
        {
          CountInMore(run.admitted, a, w);
          assert CountIn(run.admitted, w) <= perMinute;
        }
      }
    }
  }

  lemma {:induction false} OneMoreStaysSpread(perMinute: int, run: Run, now: int)
    requires Placed(run) && Spread(run.admitted) && (run.state.window.Some? ==> run.state.window.value <= now)
    ensures Spread(OneMore(perMinute, run, now).admitted)
  {
    OneMoreStaysPlaced(perMinute, run, now);
    var next := OneMore(perMinute, run, now);
    assert next.admitted != run.admitted ==> next.state.window.value <= now;
    assert forall a :: a in next.admitted <==>
        a in run.admitted || (next.admitted != run.admitted && a == Admission(now, next.windows));
  }

  lemma {:induction false} EveryRunIsProper(perMinute: int, requests: seq<int>)
    requires InOrder(requests)
    ensures Proper(perMinute, After(perMinute, requests))
    ensures var s := After(perMinute, requests).state;
            s.window.Some? ==> requests != [] && s.window.value <= requests[|requests| - 1]
  {
    if requests != [] {
      var most, now := requests[..|requests| - 1], requests[|requests| - 1];
      EveryRunIsProper(perMinute, most);
      var run := After(perMinute, most);
      OneMoreStaysPlaced(perMinute, run, now);
      OneMoreStaysCounted(perMinute, run, now);
      OneMoreStaysSpread(perMinute, run, now);
    }
  }

  /** No window ever admits more than its share. */
  lemma {:induction false} NoWindowOverflows(perMinute: int, requests: seq<int>, window: int)
    requires InOrder(requests)
    ensures CountIn(After(perMinute, requests).admitted, window) <= if perMinute > 0 then perMinute else 0
  {
    EveryRunIsProper(perMinute, requests);
  }

  /** A request is refused only if no share is granted, or if the window that is open, which began less than a minute
      ago, has admitted its full share. */
  lemma {:induction false} RefusedIffFull(perMinute: int, requests: seq<int>, now: int)
    requires InOrder(requests)
    ensures var run := After(perMinute, requests);
            After(perMinute, requests + [now]).admitted == run.admitted <==>
              || perMinute <= 0
              || (run.state.window.Some? && now - run.state.window.value < 60_000
                  && CountIn(run.admitted, run.windows) >= perMinute)
  {
    EveryRunIsProper(perMinute, requests);
    assert (requests + [now])[..|requests|] == requests;
    var run, next := After(perMinute, requests), After(perMinute, requests + [now]);
    assert next == OneMore(perMinute, run, now);
    assert next.admitted != run.admitted ==> |next.admitted| == |run.admitted| + 1;
  }

  /** If whatever is admitted in an interval comes from two windows only, it is no more than what they admitted. */
  lemma {:induction false} TwoWindows(admitted: seq<Admission>, from: int, to: int, w: int)
    requires forall a :: a in admitted && from <= a.time <= to ==> a.window == w || a.window == w + 1
    ensures CountBetween(admitted, from, to) <= CountIn(admitted, w) + CountIn(admitted, w + 1)
  {
    if admitted != [] {
      assert admitted == admitted[..|admitted| - 1] + [admitted[|admitted| - 1]];
      TwoWindows(admitted[..|admitted| - 1], from, to, w);
    }
  }

  lemma {:induction false} LeastWindow(admitted: seq<Admission>, from: int, to: int) returns (w: int)
    ensures forall a :: a in admitted && from <= a.time <= to ==> w <= a.window
    ensures (exists a :: a in admitted && from <= a.time <= to && a.window == w) || forall a :: a in admitted ==>
            !(from <= a.time <= to)
  {
    if admitted == [] {
      w := 0;
    } else {
      var most, last := admitted[..|admitted| - 1], admitted[|admitted| - 1];
      assert admitted == most + [last];
      w := LeastWindow(most, from, to);
      if from <= last.time <= to && ((forall a :: a in most ==> !(from <= a.time <= to)) || last.window < w) {
        w := last.window;
      }
    }
  }

  /** In any minute, both ends included and wherever it begins, at most twice the share is admitted. */
  lemma {:induction false} AtMostTwicePerMinute(perMinute: int, requests: seq<int>, from: int)
    requires InOrder(requests)
    ensures CountBetween(After(perMinute, requests).admitted, from, from + 60_000)
         <= 2 * if perMinute > 0 then perMinute else 0
  {
    EveryRunIsProper(perMinute, requests);
    var admitted := After(perMinute, requests).admitted;
    var w := LeastWindow(admitted, from, from + MINUTE);
    TwoWindows(admitted, from, from + MINUTE, w);
  }

  /** A full share at once, and a full share again a minute later: the first `n` of these requests. */
  function Burst(perMinute: nat, n: nat): seq<int> {
    seq(n, i => if i < perMinute then 0 else MINUTE)
  }

  lemma {:induction false} BurstIsAdmitted(perMinute: nat, n: nat)
    requires 1 <= n <= 2 * perMinute
    ensures var run := After(perMinute, Burst(perMinute, n));
            && run.state == (if n <= perMinute then State(Some(0), n) else State(Some(MINUTE), n - perMinute))
            && CountBetween(run.admitted, 0, MINUTE) == n
  {
    var requests, k := Burst(perMinute, n), n - 1;
    assert requests[..k] == Burst(perMinute, k);
    var before := After(perMinute, requests[..k]);
    if n > 1 {
      BurstIsAdmitted(perMinute, k);
    }
    var run := After(perMinute, requests);
    assert run.admitted[..|run.admitted| - 1] == before.admitted;
  }

  /** The bound is met, whatever the share: two full windows can touch. */
  lemma {:induction false} TwiceIsReached(perMinute: nat)
    requires perMinute >= 1
    ensures InOrder(Burst(perMinute, 2 * perMinute))
    ensures CountBetween(After(perMinute, Burst(perMinute, 2 * perMinute)).admitted, 0, MINUTE) == 2 * perMinute
  {
    BurstIsAdmitted(perMinute, 2 * perMinute);
  }
}
